/** The user aggregate: a user owns a tree of folders, and each folder holds
    documents. Folders and users are objects updated in place; a document is
    a value stored in its folder's list. */
module Entities {
  import opened Wrappers
  import opened Bson
  import Models

  datatype DocType = Word

  datatype AccessType = Read | Write | ReadAndWrite

  /** A user who may access a document. */
  datatype DocoAccess = DocoAccess(aType: AccessType, userId: Option<string>, userName: Option<string>)

  /** A document. `docVersion` is a shared `Version` object, `null` until one is assigned. */
  datatype DocoDocument = DocoDocument(
    docId: ObjectId,
    name: Option<string>,
    docContent: Option<string>,
    dType: DocType,
    docVersion: Models.Version?,
    enabledUsers: seq<DocoAccess>,
    isCurrent: bool,
    isPublic: bool,
    keywords: seq<string>,
    createdAt: DateTime,
    savedAt: Option<DateTime>,
    lastSavedBy: Option<string>)

  /** `new DocoDocument()`: a fresh id and empty access and keyword lists;
      every other property at its default. */
  function NewDocument(docId: ObjectId): (d: DocoDocument)
    ensures d.docId == docId && d.enabledUsers == [] && d.keywords == []
    ensures d.name.None? && d.docVersion == null && !d.isCurrent && !d.isPublic
  {
    DocoDocument(docId, None, None, Word, null, [], false, false, [], DefaultDateTime, None, None)
  }

  /** The properties of a folder other than its id and its subfolders. */
  datatype FolderFields = FolderFields(
    folderName: Option<string>,
    ownerId: Option<string>,
    listOfDocuments: seq<DocoDocument>,
    createdAt: DateTime,
    savedAt: Option<DateTime>,
    lastSavedBy: Option<string>)

  /** A folder tree as a value. */
  datatype Tree = Tree(folderId: ObjectId, fields: FolderFields, folders: seq<Tree>)

  class DocoFolder {
    const folderId: ObjectId
    var folderName: Option<string>
    var ownerId: Option<string>
    var listOfDocuments: seq<DocoDocument>
    var createdAt: DateTime
    var savedAt: Option<DateTime>
    var lastSavedBy: Option<string>
    var folders: seq<DocoFolder>
    /** This folder and every folder below it. */
    ghost var Repr: set<DocoFolder>

    /** The subfolders form a tree: each one's footprint lies inside this
        one's and excludes this folder, and siblings' footprints are disjoint. */
    ghost predicate Valid()
      reads this, Repr
      decreases Repr
    {
      this in Repr &&
      (forall i :: 0 <= i < |folders| ==>
        folders[i] in Repr && folders[i].Repr <= Repr && this !in folders[i].Repr && folders[i].Valid()) &&
      (forall i, j :: 0 <= i < j < |folders| ==> folders[i].Repr !! folders[j].Repr)
    }

    /** `new DocoFolder()`: a fresh id and empty subfolder and document lists. */
    constructor (folderId: ObjectId)
      ensures Valid() && Repr == {this}
      ensures this.folderId == folderId && folders == [] && listOfDocuments == []
      ensures Fields() == FolderFields(None, None, [], DefaultDateTime, None, None)
    {
      this.folderId := folderId;
      folderName, ownerId, listOfDocuments := None, None, [];
      createdAt, savedAt, lastSavedBy := DefaultDateTime, None, None;
      folders := [];
      Repr := {this};
    }

    function Fields(): FolderFields
      reads this
    {
      FolderFields(folderName, ownerId, listOfDocuments, createdAt, savedAt, lastSavedBy)
    }

    /** Overwrites the folder's own properties. */
    method SetFields(f: FolderFields)
      modifies this
      ensures Fields() == f
      ensures folders == old(folders) && Repr == old(Repr)
    {
      folderName, ownerId, listOfDocuments := f.folderName, f.ownerId, f.listOfDocuments;
      createdAt, savedAt, lastSavedBy := f.createdAt, f.savedAt, f.lastSavedBy;
    }

    /** Overwrites the folder's own properties in a valid tree: the tree
        below the folder is untouched. */
    method Assign(f: FolderFields)
      requires Valid()
      modifies this
      ensures Valid() && Fields() == f
      ensures folders == old(folders) && Repr == old(Repr)
      ensures Value() == old(Value()).(fields := f)
    {
      ghost var kids := ChildValues(|folders|);
      SetFields(f);
      assert ChildValues(|folders|) == kids;
    }

    /** The tree below this folder, as a value. */
    function Value(): (t: Tree)
      requires Valid()
      reads this, Repr
      decreases Repr, 1
    {
      Tree(folderId, Fields(), ChildValues(|folders|))
    }

    /** The values of the first `n` subfolders. */
    function ChildValues(n: nat): (cs: seq<Tree>)
      requires Valid() && n <= |folders|
      reads this, Repr
      ensures |cs| == n
      ensures forall j :: 0 <= j < n ==> cs[j] == folders[j].Value()
      decreases Repr, 0, n
    {
      if n == 0 then [] else ChildValues(n - 1) + [folders[n - 1].Value()]
    }

    /** The footprints of the first `n` subfolders. */
    ghost function ChildReprs(n: nat): (rs: seq<set<DocoFolder>>)
      requires Valid() && n <= |folders|
      reads this, Repr
      ensures |rs| == n
      ensures forall j :: 0 <= j < n ==> rs[j] == folders[j].Repr
    {
      if n == 0 then [] else ChildReprs(n - 1) + [folders[n - 1].Repr]
    }

    /** `route` leads from this folder down to a folder of the tree, one
        subfolder index per level. */
    ghost predicate IsRoute(route: seq<nat>)
      requires Valid()
      reads this, Repr
      decreases Repr
    {
      route == [] || (route[0] < |folders| && folders[route[0]].IsRoute(route[1..]))
    }

    /** The folder at the end of `route`. */
    ghost function At(route: seq<nat>): (f: DocoFolder)
      requires Valid() && IsRoute(route)
      reads this, Repr
      ensures f in Repr && f.Valid() && f.Repr <= Repr
      decreases Repr
    {
      if route == [] then this else folders[route[0]].At(route[1..])
    }

    /** The folders along `route`: this one, and every folder passed on the
        way down, the last one included. */
    ghost function PathNodes(route: seq<nat>): (nodes: set<DocoFolder>)
      requires Valid() && IsRoute(route)
      reads this, Repr
      ensures this in nodes && At(route) in nodes && nodes <= Repr
      decreases Repr
    {
      if route == [] then {this} else {this} + folders[route[0]].PathNodes(route[1..])
    }
  }

  /** `default(DateTime)`. */
  const DefaultDateTime: DateTime := 0

  class DocoUser {
    /** The `[BsonId]` property; its setter is private, so it never changes. */
    const userId: ObjectId
    var email: Option<string>
    var isDeleted: bool
    var name: Option<string>
    var surname: Option<string>
    var userFolder: DocoFolder
    var userName: Option<string>

    ghost predicate Valid()
      reads this, userFolder, userFolder.Repr
    {
      userFolder.Valid()
    }

    /** `new DocoUser()`: the user owns one empty root folder named "Root". */
    constructor (userId: ObjectId, rootId: ObjectId)
      ensures Valid() && fresh(userFolder) && userFolder.Repr == {userFolder}
      ensures this.userId == userId && userFolder.folderId == rootId
      ensures userFolder.folderName == Some("Root") && userFolder.folders == [] && userFolder.listOfDocuments == []
      ensures email.None? && name.None? && surname.None? && userName.None? && !isDeleted
    {
      this.userId := userId;
      email, name, surname, userName := None, None, None, None;
      isDeleted := false;
      var root := new DocoFolder(rootId);
      root.folderName := Some("Root");
      userFolder := root;
    }
  }

  // ---------------------------------------------------------------------
  // Validation

  /** `char.IsWhiteSpace`: the Unicode space, line and paragraph separators,
      and the control characters U+0009 to U+000D and U+0085. */
  predicate IsWhiteSpace(c: char)
  {
    ('\U{0009}' <= c <= '\U{000D}') || c == '\U{0020}' || c == '\U{0085}' || c == '\U{00A0}' ||
    c == '\U{1680}' || ('\U{2000}' <= c <= '\U{200A}') || c == '\U{2028}' || c == '\U{2029}' ||
    c == '\U{202F}' || c == '\U{205F}' || c == '\U{3000}'
  }

  /** The `NotEmpty` rule on a string: not null, not empty, not white space only. */
  predicate NotEmpty(s: Option<string>)
  {
    s.Some? && exists i :: 0 <= i < |s.value| && !IsWhiteSpace(s.value[i])
  }

  /** The properties whose rule failed, in rule order; valid when none did. */
  datatype ValidationResult = ValidationResult(errors: seq<string>)
  {
    predicate IsValid() { errors == [] }
  }

  function Check(ok: bool, property: string): seq<string>
  {
    if ok then [] else [property]
  }

  /** `DocoFolder.Validation`: `FolderName` must not be empty. */
  function FolderValidation(f: FolderFields): (r: ValidationResult)
    ensures r.IsValid() <==> NotEmpty(f.folderName)
    ensures !r.IsValid() ==> r.errors == ["FolderName"]
  {
    ValidationResult(Check(NotEmpty(f.folderName), "FolderName"))
  }

  /** `DocoDocument.Validation`: `Name` must not be empty. */
  function DocumentValidation(d: DocoDocument): (r: ValidationResult)
    ensures r.IsValid() <==> NotEmpty(d.name)
    ensures !r.IsValid() ==> r.errors == ["Name"]
  {
    ValidationResult(Check(NotEmpty(d.name), "Name"))
  }

  /** The `EmailAddress` rule: a null address passes; otherwise the address
      must be well formed, which `isEmail` decides. */
  predicate EmailAccepted(email: Option<string>, isEmail: string -> bool)
  {
    email.None? || isEmail(email.value)
  }

  /** `DocoUser.Validation`: `UserName`, `Name` and `Surname` must not be
      empty and `Email` must be an address. */
  function UserValidation(u: UserValue, isEmail: string -> bool): (r: ValidationResult)
    ensures r.IsValid() <==>
      NotEmpty(u.userName) && NotEmpty(u.name) && NotEmpty(u.surname) && EmailAccepted(u.email, isEmail)
    ensures forall p :: p in r.errors <==>
      (p == "UserName" && !NotEmpty(u.userName)) || (p == "Name" && !NotEmpty(u.name)) ||
      (p == "Surname" && !NotEmpty(u.surname)) || (p == "Email" && !EmailAccepted(u.email, isEmail))
  {
    ValidationResult(
      Check(NotEmpty(u.userName), "UserName") + Check(NotEmpty(u.name), "Name") +
      Check(NotEmpty(u.surname), "Surname") + Check(EmailAccepted(u.email, isEmail), "Email"))
  }

  /** A blank name never passes, and the root folder's name does. */
  lemma ValidationExamples()
    ensures !NotEmpty(None) && !NotEmpty(Some("")) && !NotEmpty(Some(" \t"))
    ensures NotEmpty(Some("Root"))
  {
    assert !IsWhiteSpace("Root"[0]);
  }

  // ---------------------------------------------------------------------
  // What the repository stores of a user

  /** A user as written to the collection. */
  datatype UserValue = UserValue(
    email: Option<string>,
    isDeleted: bool,
    name: Option<string>,
    surname: Option<string>,
    userFolder: Tree,
    userId: ObjectId,
    userName: Option<string>)

  function Snapshot(u: DocoUser): UserValue
    requires u.Valid()
    reads u, u.userFolder, u.userFolder.Repr
  {
    UserValue(u.email, u.isDeleted, u.name, u.surname, u.userFolder.Value(), u.userId, u.userName)
  }
}
