/** `FolderService`: adds folders and documents to a user's folder tree and
    renames folders, then saves the user. */
module FolderService {
  import opened Wrappers
  import opened Bson
  import opened Models
  import opened Entities
  import opened MongoService
  import opened UserService
  import MongoRepository

  // ---------------------------------------------------------------------
  // Adding a subfolder, on tree values

  /** The folder reached from `t` by following `route`, if there is one. */
  function Subtree(t: Tree, route: seq<nat>): Option<Tree>
    decreases route
  {
    if route == [] then Some(t)
    else if route[0] < |t.folders| then Subtree(t.folders[route[0]], route[1..])
    else None
  }

  /** `t` with `leaf` appended to the subfolders of the folder at `route`. */
  function Graft(t: Tree, route: seq<nat>, leaf: Tree): Tree
    decreases route
  {
    if route == [] then t.(folders := t.folders + [leaf])
    else if route[0] < |t.folders| then t.(folders := t.folders[route[0] := Graft(t.folders[route[0]], route[1..], leaf)])
    else t
  }

  /** The number of folders in a tree. */
  function Count(t: Tree): nat
    decreases t
  {
    1 + CountAll(t.folders)
  }

  function CountAll(ts: seq<Tree>): nat
    decreases ts
  {
    if ts == [] then 0 else CountAll(ts[..|ts| - 1]) + Count(ts[|ts| - 1])
  }

  /** The folder at `route` gains `leaf` as its last subfolder; its other
      subfolders keep their order and its own properties stay. */
  lemma {:induction false} GraftAppends(t: Tree, route: seq<nat>, leaf: Tree)
    requires Subtree(t, route).Some?
    ensures var s := Subtree(t, route).value;
      Subtree(Graft(t, route, leaf), route) == Some(s.(folders := s.folders + [leaf]))
    decreases route
  {
    if route != [] {
      GraftAppends(t.folders[route[0]], route[1..], leaf);
    }
  }

  /** The new subfolder is reached by the route to its parent followed by
      its index, the old number of subfolders. */
  lemma GraftPlacesLeaf(t: Tree, route: seq<nat>, leaf: Tree)
    requires Subtree(t, route).Some?
    ensures Subtree(Graft(t, route, leaf), route + [|Subtree(t, route).value.folders|]) == Some(leaf)
  {
    GraftAppends(t, route, leaf);
    SubtreeAppend(Graft(t, route, leaf), route, |Subtree(t, route).value.folders|);
  }

  lemma {:induction false} SubtreeAppend(t: Tree, route: seq<nat>, i: nat)
    requires Subtree(t, route).Some? && i < |Subtree(t, route).value.folders|
    ensures Subtree(t, route + [i]) == Some(Subtree(t, route).value.folders[i])
    decreases route
  {
    if route == [] {
      assert route + [i] == [i];
    } else {
      assert (route + [i])[1..] == route[1..] + [i];
      SubtreeAppend(t.folders[route[0]], route[1..], i);
    }
  }

  /** Adding a folder adds exactly the folders of the added tree. */
  lemma {:induction false} GraftCount(t: Tree, route: seq<nat>, leaf: Tree)
    requires Subtree(t, route).Some?
    ensures Count(Graft(t, route, leaf)) == Count(t) + Count(leaf)
    decreases route
  {
    var g := Graft(t, route, leaf);
    if route == [] {
      assert g.folders[..|g.folders| - 1] == t.folders;
    } else {
      var i := route[0];
      GraftCount(t.folders[i], route[1..], leaf);
      CountAllUpdate(t.folders, i, g.folders[i]);
    }
  }

  lemma {:induction false} CountAllUpdate(ts: seq<Tree>, i: nat, u: Tree)
    requires i < |ts|
    ensures CountAll(ts[i := u]) + Count(ts[i]) == CountAll(ts) + Count(u)
    decreases |ts|
  {
    var n := |ts| - 1;
    if i < n {
      assert ts[i := u][..n] == ts[..n][i := u];
      CountAllUpdate(ts[..n], i, u);
    } else {
      assert ts[i := u][..n] == ts[..n];
    }
  }

  // ---------------------------------------------------------------------
  // Adding a subfolder, on the folder objects

  /** Appends `leaf` to the subfolders of the folder at `route` below `n`,
      and adds it to the footprint of every folder on the way down: the
      tree below `n`, whose value was `t`, becomes `Graft(t, route, lv)`
      where `lv` is the value of `leaf`. */
  method Attach(n: DocoFolder, route: seq<nat>, leaf: DocoFolder, ghost t: Tree, ghost lv: Tree)
    requires n.Valid() && n.IsRoute(route) && t == n.Value()
    requires leaf.Valid() && leaf.Repr == {leaf} && leaf !in n.Repr && lv == leaf.Value()
    modifies n.Repr
    ensures n.Valid() && n.Repr == old(n.Repr) + {leaf}
    ensures n.Value() == Graft(t, route, lv)
    decreases route
  {
    if route == [] {
      AppendSubfolder(n, leaf, t, lv);
    } else {
      AttachBelow(n, route, leaf, t, lv);
    }
  }

  /** `parent.Folders.Add(leaf)` on a valid tree. */
  method AppendSubfolder(n: DocoFolder, leaf: DocoFolder, ghost t: Tree, ghost lv: Tree)
    requires n.Valid() && t == n.Value()
    requires leaf.Valid() && leaf.Repr == {leaf} && leaf !in n.Repr && lv == leaf.Value()
    modifies n
    ensures n.Valid() && n.Repr == old(n.Repr) + {leaf}
    ensures n.Value() == t.(folders := t.folders + [lv])
  {
    Append(n, leaf);
    assert n.ChildValues(|n.folders|) == t.folders + [lv];
  }

  /** The list update alone: `leaf` becomes the last subfolder of `n`,
      and the tree stays valid. */
  method Append(n: DocoFolder, leaf: DocoFolder)
    requires n.Valid() && leaf.Valid() && leaf.Repr == {leaf} && leaf !in n.Repr
    modifies n
    ensures n.Valid() && n.Repr == old(n.Repr) + {leaf} && n.folders == old(n.folders) + [leaf]
    ensures n.Fields() == old(n.Fields())
  {
    n.folders := n.folders + [leaf];
    n.Repr := n.Repr + {leaf};
  }

  method AttachBelow(n: DocoFolder, route: seq<nat>, leaf: DocoFolder, ghost t: Tree, ghost lv: Tree)
    requires n.Valid() && n.IsRoute(route) && route != [] && t == n.Value()
    requires leaf.Valid() && leaf.Repr == {leaf} && leaf !in n.Repr && lv == leaf.Value()
    modifies n.Repr
    ensures n.Valid() && n.Repr == old(n.Repr) + {leaf}
    ensures n.Value() == Graft(t, route, lv)
    decreases route, 0
  {
    ghost var reprs := n.ChildReprs(|n.folders|);
    var i := route[0];
    var c := n.folders[i];
    Attach(c, route[1..], leaf, t.folders[i], lv);
    forall j | 0 <= j < |n.folders| && j != i
      ensures n.folders[j].Valid() && n.folders[j].Repr == reprs[j] && n.folders[j].Value() == t.folders[j]
    {
      assert old(n.folders[j].Repr !! n.folders[i].Repr);
    }
    Absorb(n, i, leaf, reprs, t);
  }

  /** Takes `leaf`, which the `i`-th subfolder has just taken in, into the
      footprint of `n`: `n` is valid again, and its value is `t` with the
      `i`-th subfolder's new value. */
  method Absorb(n: DocoFolder, i: nat, leaf: DocoFolder, ghost reprs: seq<set<DocoFolder>>, ghost t: Tree)
    requires t.folderId == n.folderId && t.fields == n.Fields()
    requires i < |n.folders| == |reprs| == |t.folders| && n in n.Repr && leaf !in n.Repr && leaf != n
    requires forall j, k :: 0 <= j < k < |reprs| ==> reprs[j] !! reprs[k]
    requires forall j :: 0 <= j < |reprs| ==> n.folders[j] in n.Repr && reprs[j] <= n.Repr && n !in reprs[j]
    requires forall j :: 0 <= j < |reprs| ==>
      n.folders[j].Valid() && n.folders[j].Repr == if j == i then reprs[j] + {leaf} else reprs[j]
    requires forall j :: 0 <= j < |t.folders| && j != i ==> n.folders[j].Value() == t.folders[j]
    modifies n
    ensures n.Valid() && n.Repr == old(n.Repr) + {leaf} && n.folders == old(n.folders)
    ensures n.Value() == t.(folders := t.folders[i := n.folders[i].Value()])
  {
    n.Repr := n.Repr + {leaf};
    ChildValuesUpdate(n, i, t.folders);
  }

  // ---------------------------------------------------------------------
  // The callbacks the service hands to Traverse

  /** `(x, y) => x.FolderId.ToString() == folderId`: the folder whose id
      string is `folderId`; the key `Traverse` passes along is ignored. */
  function IdIs(folderId: string): (ObjectId, FolderFields, string) -> bool
  {
    (fid: ObjectId, f: FolderFields, key: string) => IdString(fid) == folderId
  }

  /** `UpdateName`'s callbacks: the folder with that id gets the new name. */
  function RenameProbe(folderId: string, folderName: Option<string>): Probe
  {
    FolderProbe(IdIs(folderId), (f: FolderFields) => f.(folderName := folderName))
  }

  /** `AddNewDocument`'s callbacks: the folder with that id gets the
      document at the end of its list. */
  function AddDocumentProbe(folderId: string, document: DocoDocument): Probe
  {
    FolderProbe(IdIs(folderId), (f: FolderFields) => f.(listOfDocuments := f.listOfDocuments + [document]))
  }

  /** A new folder with the given id and properties, appended to the
      subfolders of the folder at `route` below `root`. */
  method NewFolderAt(root: DocoFolder, route: seq<nat>, newId: ObjectId, fields: FolderFields) returns (folder: DocoFolder)
    requires root.Valid() && root.IsRoute(route)
    modifies root.Repr
    ensures fresh(folder) && folder.Valid() && folder.folderId == newId && folder.folders == [] && folder.Fields() == fields
    ensures root.Valid() && root.Repr == old(root.Repr) + {folder}
    ensures root.Value() == Graft(old(root.Value()), route, folder.Value())
    ensures var p := old(root.At(route).Value());
      Subtree(root.Value(), route) == Some(p.(folders := p.folders + [folder.Value()]))
  {
    ghost var t := root.Value();
    RouteReachesSubtree(root, route);
    folder := NewLeaf(newId, fields);
    ghost var lv := folder.Value();
    Attach(root, route, folder, t, lv);
    GraftAppends(t, route, lv);
  }

  /** `new DocoFolder { ... }` with the given properties. */
  method NewLeaf(newId: ObjectId, fields: FolderFields) returns (folder: DocoFolder)
    ensures fresh(folder) && folder.Valid() && folder.Repr == {folder}
    ensures folder.folderId == newId && folder.folders == [] && folder.Fields() == fields
    ensures folder.Value() == Tree(newId, fields, [])
  {
    folder := new DocoFolder(newId);
    folder.SetFields(fields);
  }

  // ---------------------------------------------------------------------
  // What the services' searches do, on tree values

  /** The route to a folder of a valid tree leads, in the tree's value, to
      that folder's value: the folder `AddNewFolder` appends to is the one
      `Graft` appends to. */
  lemma {:induction false} RouteReachesSubtree(n: DocoFolder, route: seq<nat>)
    requires n.Valid() && n.IsRoute(route)
    ensures Subtree(n.Value(), route) == Some(n.At(route).Value())
    decreases route
  {
    if route != [] {
      RouteReachesSubtree(n.folders[route[0]], route[1..]);
    }
  }

  /** A folder-mode search for the first subfolder's id always reaches that
      subfolder: it is changed by the probe, the root keeps its fields, and
      when that subfolder has no subfolders the later ones are left as
      they were. */
  lemma FirstSubfolderReached(root: Tree, first: Tree, rest: seq<Tree>, p: Probe)
    requires root.folders == [first] + rest && root.folderId != first.folderId
    requires p.FolderProbe? && p.folderTest == IdIs(IdString(first.folderId))
    ensures var r := Traversal(root, IdString(first.folderId), p);
      r.fields == root.fields && |r.folders| == |root.folders| &&
      r.folders[0] == first.(fields := p.folderReduce(first.fields)) &&
      (first.folders == [] ==> r.folders[1..] == rest)
  {
    var key := IdString(first.folderId);
    IdStringInjective(root.folderId, first.folderId);
    NoMatchHereVisitsChildren(root, key, p);
    assert !LeafBefore(root.folders, 0);
    if first.folders == [] {
      forall j | 1 <= j < |root.folders|
        ensures LeafBefore(root.folders, j)
      {
        assert root.folders[0].folders == [];
      }
    }
  }

  /** `UpdateFolderName_True`: renaming the first subfolder of the root by
      its id renames it. */
  lemma RenameFirstSubfolder(root: Tree, first: Tree, rest: seq<Tree>, folderName: Option<string>)
    requires root.folders == [first] + rest && root.folderId != first.folderId
    ensures var key := IdString(first.folderId);
      var r := Traversal(root, key, RenameProbe(key, folderName));
      r.fields == root.fields && |r.folders| == |root.folders| &&
      r.folders[0] == first.(fields := first.fields.(folderName := folderName))
  {
    var key := IdString(first.folderId);
    FirstSubfolderReached(root, first, rest, RenameProbe(key, folderName));
  }

  /** `AddNewDocumentByFolderId`: adding a document to the first subfolder
      of the root by its id appends it to that folder's documents. */
  lemma AddDocumentToFirstSubfolder(root: Tree, first: Tree, rest: seq<Tree>, document: DocoDocument)
    requires root.folders == [first] + rest && root.folderId != first.folderId
    ensures var key := IdString(first.folderId);
      var r := Traversal(root, key, AddDocumentProbe(key, document));
      r.fields == root.fields && |r.folders| == |root.folders| &&
      r.folders[0] == first.(fields := first.fields.(listOfDocuments := first.fields.listOfDocuments + [document]))
  {
    var key := IdString(first.folderId);
    FirstSubfolderReached(root, first, rest, AddDocumentProbe(key, document));
  }

  /** The stop rule loses renames: under a root whose first subfolder has
      no subfolders, a folder inside the second subfolder is never reached,
      so `UpdateName` leaves the whole tree as it was. */
  lemma RenameBehindLeafIsLost(root: Tree, leaf: Tree, second: Tree, target: Tree, folderName: Option<string>)
    requires root.folders == [leaf, second] && leaf.folders == [] && second.folders == [target]
    requires target.folderId != root.folderId && target.folderId != leaf.folderId
    ensures Subtree(root, [1, 0]) == Some(target)
    ensures var key := IdString(target.folderId);
      Traversal(root, key, RenameProbe(key, folderName)) == root
  {
    var key := IdString(target.folderId);
    var p := RenameProbe(key, folderName);
    IdStringInjective(root.folderId, target.folderId);
    IdStringInjective(leaf.folderId, target.folderId);
    assert Traversal(leaf, key, p) == leaf;
    assert TraverseChildren(root.folders, key, p) == [leaf, second];
  }

  // ---------------------------------------------------------------------
  // The private UpdateRecursive

  /** Applies `action` to the folder with id string `folderId`, searching
      the way `Traverse` does in folder mode: the folder itself first, then
      its subfolders in order, returning right after a subfolder that has
      no subfolders. */
  method UpdateRecursive(folder: DocoFolder, folderId: string, action: FolderFields -> FolderFields)
    requires folder.Valid()
    modifies folder.Repr
    ensures folder.Valid()
    ensures folder.folders == old(folder.folders) && folder.Repr == old(folder.Repr)
    ensures folder.Value() == Traversal(old(folder.Value()), folderId, FolderProbe(IdIs(folderId), action))
    decreases folder.Repr, 2
  {
    if IdString(folder.folderId) == folderId {
      folder.Assign(action(folder.Fields()));
      return;
    }
    UpdateSubfolders(folder, folderId, action);
  }

  /** The `foreach` loop of `UpdateRecursive`. */
  method UpdateSubfolders(folder: DocoFolder, folderId: string, action: FolderFields -> FolderFields)
    requires folder.Valid()
    modifies folder.Repr
    ensures folder.Valid() && folder.Fields() == old(folder.Fields())
    ensures folder.folders == old(folder.folders) && folder.Repr == old(folder.Repr)
    ensures folder.ChildValues(|folder.folders|) ==
      TraverseChildren(old(folder.ChildValues(|folder.folders|)), folderId, FolderProbe(IdIs(folderId), action))
    decreases folder.Repr, 1
  {
    ghost var p := FolderProbe(IdIs(folderId), action);
    ghost var kids := folder.ChildValues(|folder.folders|);
    var i := 0;
    while i < |folder.folders|
      invariant i <= |folder.folders| == |kids|
      invariant folder.Valid()
      invariant folder.Fields() == old(folder.Fields())
      invariant folder.folders == old(folder.folders) && folder.Repr == old(folder.Repr)
      invariant !LeafBefore(kids, i)
      invariant folder.ChildValues(|kids|) == Progress(kids, i, folderId, p)
    {
      ProgressStep(kids, i, folderId, p);
      var leaf := UpdateSubfolder(folder, i, folderId, action, folder.ChildValues(|kids|));
      if leaf {
        StoppedAfterLeaf(kids, i, folderId, p);
        return;
      }
      LeafBeforeStep(kids, i);
      i := i + 1;
    }
    FinishedAll(kids, folderId, p);
  }

  /** One round of that loop: the `i`-th subfolder, whose tree was
      `before[i]`, is searched, nothing outside it changes, and `leaf`
      tells whether it has no subfolders. */
  method UpdateSubfolder(folder: DocoFolder, i: nat, folderId: string, action: FolderFields -> FolderFields, ghost before: seq<Tree>)
    returns (leaf: bool)
    requires folder.Valid() && i < |folder.folders| && before == folder.ChildValues(|folder.folders|)
    modifies folder.folders[i].Repr
    ensures folder.Valid() && folder.Fields() == old(folder.Fields())
    ensures folder.folders == old(folder.folders) && folder.Repr == old(folder.Repr)
    ensures folder.ChildValues(|folder.folders|) == before[i := Traversal(before[i], folderId, FolderProbe(IdIs(folderId), action))]
    ensures leaf <==> before[i].folders == []
    decreases folder.Repr, 0
  {
    TraversalFoldersLength(before[i], folderId, FolderProbe(IdIs(folderId), action));
    var f := folder.folders[i];
    UpdateRecursive(f, folderId, action);
    forall j | 0 <= j < |folder.folders| && j != i
      ensures folder.folders[j].Valid() && folder.folders[j].Value() == before[j]
    {
      assert old(folder.folders[j].Repr !! folder.folders[i].Repr);
    }
    ChildValuesUpdate(folder, i, before);
    leaf := |f.folders| == 0;
  }

  /** What `_userService.Update(user)` leaves behind for the user value `u`
      when the store held `store` before. */
  ghost predicate UpdatedWith(users: DocoUserService, u: UserValue, store: map<ObjectId, UserValue>)
    reads users, users.docoDb
  {
    var valid := ValidateUser(u, users.isEmail).IsValid();
    users.validationResult == Some(ValidateUser(u, users.isEmail)) &&
    users.docoDb.store == if valid then MongoRepository.AfterSave(UserKind, store, u) else store
  }

  class FolderService {
    const userService: DocoUserService

    /** The user service writes to the `DocoUser` collection. */
    ghost predicate Valid()
    {
      userService.Valid()
    }

    constructor (userService: DocoUserService)
      requires userService.Valid()
      ensures Valid() && this.userService == userService
    {
      this.userService := userService;
    }

    /** Creates a folder owned by the user, appends it to the subfolders of
        `parent` (the folder at that route; the user's root folder when
        there is none), saves the user and returns the new folder. */
    method AddNewFolder(user: DocoUser, folderName: Option<string>, parent: Option<seq<nat>>, newId: ObjectId, now: DateTime)
      returns (folder: DocoFolder)
      requires Valid() && user.Valid()
      requires parent.Some? ==> user.userFolder.IsRoute(parent.value)
      modifies user.userFolder.Repr, userService, userService.docoDb
      ensures fresh(folder) && folder.Valid() && folder.folderId == newId && folder.folders == []
      ensures folder.Fields() == FolderFields(folderName, Some(IdString(user.userId)), [], now, Some(now), None)
      ensures user.Valid() && user.userFolder.Repr == old(user.userFolder.Repr) + {folder}
      ensures var route := if parent.Some? then parent.value else [];
        user.userFolder.Value() == Graft(old(user.userFolder.Value()), route, folder.Value())
      ensures UpdatedWith(userService, Snapshot(user), old(userService.docoDb.store))
    {
      var route := if parent.Some? then parent.value else [];
      var fields := FolderFields(folderName, Some(IdString(user.userId)), [], now, Some(now), None);
      folder := NewFolderAt(user.userFolder, route, newId, fields);
      var _ := userService.Update(user);
    }

    /** Renames the folder with id string `folderId`, if the search reaches
        it, then saves the user whatever happened. */
    method UpdateName(user: DocoUser, folderId: string, folderName: Option<string>)
      requires Valid() && user.Valid()
      modifies user.userFolder.Repr, userService, userService.docoDb
      ensures user.Valid() && user.userFolder.Repr == old(user.userFolder.Repr)
      ensures user.userFolder.Value() == Traversal(old(user.userFolder.Value()), folderId, RenameProbe(folderId, folderName))
      ensures UpdatedWith(userService, Snapshot(user), old(userService.docoDb.store))
    {
      Traverse(user.userFolder, folderId, RenameProbe(folderId, folderName));
      var _ := userService.Update(user);
    }

    /** Creates a "New Document" of version 0.0, appends it to the documents
        of the folder with id string `folderId`, if the search reaches it,
        saves the user and returns the document either way. */
    method AddNewDocument(user: DocoUser, folderId: string, docId: ObjectId, now: DateTime)
      returns (document: DocoDocument)
      requires Valid() && user.Valid()
      modifies user.userFolder.Repr, userService, userService.docoDb
      ensures document.docId == docId && document.createdAt == now && document.dType == Word
      ensures document.name == Some("New Document") && !document.isPublic && document.isCurrent
      ensures document.enabledUsers == [] && document.keywords == []
      ensures document.docVersion != null && fresh(document.docVersion)
      ensures document.docVersion.major == 0 && document.docVersion.minor == 0
      ensures user.Valid() && user.userFolder.Repr == old(user.userFolder.Repr)
      ensures user.userFolder.Value() == Traversal(old(user.userFolder.Value()), folderId, AddDocumentProbe(folderId, document))
      ensures UpdatedWith(userService, Snapshot(user), old(userService.docoDb.store))
    {
      var version := new Version();
      document := NewDocument(docId).(createdAt := now, docVersion := version, dType := Word,
        isPublic := false, isCurrent := true, name := Some("New Document"));
      Traverse(user.userFolder, folderId, AddDocumentProbe(folderId, document));
      var _ := userService.Update(user);
    }
  }
}
