/** `DocoUserService`: validates a user, then writes it to the user
    collection. The validator is `DocoUserValidator`: a non-empty user name
    and, when there is one, a well-formed e-mail address. */
module UserService {
  import opened Wrappers
  import opened Bson
  import opened MongoRepository
  import opened Models
  import opened Entities

  function BsonOptionalString(s: Option<string>): BsonValue
  {
    match s
    case None => BsonNull
    case Some(v) => BsonString(v)
  }

  /** The scalar fields of a stored user, by property name. The folder tree
      is stored as well but never compared, so it has no entry here. */
  function UserFieldsOf(u: UserValue): (f: Fields)
    ensures Get(f, "Email") == BsonOptionalString(u.email) && Get(f, "UserName") == BsonOptionalString(u.userName)
    ensures Get(f, "Name") == BsonOptionalString(u.name) && Get(f, "Surname") == BsonOptionalString(u.surname)
    ensures Get(f, "UserId") == BsonObjectId(u.userId) && Get(f, "IsDeleted") == BsonBool(u.isDeleted)
  {
    map["Email" := BsonOptionalString(u.email), "IsDeleted" := BsonBool(u.isDeleted),
        "Name" := BsonOptionalString(u.name), "Surname" := BsonOptionalString(u.surname),
        "UserId" := BsonObjectId(u.userId), "UserName" := BsonOptionalString(u.userName)]
  }

  /** How the user collection stores users: keyed by `UserId`, constrained
      by the `DocoUser` declarations. */
  const UserKind: EntityKind<UserValue> := EntityKind(DocoUserSchema, (u: UserValue) => u.userId, UserFieldsOf)

  /** `DocoUserValidator`: `UserName` must not be empty, and `Email` must be
      an address when it is given. */
  function ValidateUser(u: UserValue, isEmail: string -> bool): (r: ValidationResult)
    ensures r.IsValid() <==> NotEmpty(u.userName) && EmailAccepted(u.email, isEmail)
    ensures forall p :: p in r.errors <==>
      (p == "UserName" && !NotEmpty(u.userName)) || (p == "Email" && !EmailAccepted(u.email, isEmail))
  {
    ValidationResult(Check(NotEmpty(u.userName), "UserName") + Check(EmailAccepted(u.email, isEmail), "Email"))
  }

  /** The validator ignores `Name` and `Surname`: a user that only differs
      in them gets the same verdict. */
  lemma NameAndSurnameNotValidated(u: UserValue, name: Option<string>, surname: Option<string>, isEmail: string -> bool)
    ensures ValidateUser(u.(name := name, surname := surname), isEmail) == ValidateUser(u, isEmail)
  {
  }

  /** The engine never fails on users: every sibling name in the `DocoUser`
      declarations resolves. */
  lemma UserConflictDefined(stored: map<ObjectId, Fields>, id: ObjectId, item: Fields)
    ensures Conflict(UserKind.schema, stored, id, item).Success?
  {
    DocoUserSchemaResolvable();
    ConflictMeaning(UserKind.schema, stored, id, item);
  }

  /** An item that clashes with nothing stored is inserted under its id;
      saving under that id a changed item that still clashes with it then
      replaces it. */
  lemma InsertThenResave<T>(kind: EntityKind<T>, store: map<ObjectId, T>, u: T, d: T)
    requires Resolvable(kind.schema)
    requires kind.idOf(u) !in store && kind.idOf(d) == kind.idOf(u)
    requires forall k :: k in store ==> !Clash(kind.schema, kind.fieldsOf(u), kind.fieldsOf(store[k]))
    requires Clash(kind.schema, kind.fieldsOf(d), kind.fieldsOf(u))
    ensures AfterInsert(kind, store, u) == store[kind.idOf(u) := u]
    ensures AfterSave(kind, store[kind.idOf(u) := u], d) == store[kind.idOf(u) := d]
  {
    var id := kind.idOf(u);
    UnclashedWriteStored(kind, store, u);
    var inserted := store[id := u];
    var stored2 := StoredFields(kind, inserted);
    OwnRecordIsNoConflict(kind.schema, stored2, id, kind.fieldsOf(d));
    ConflictMeaning(kind.schema, stored2, id, kind.fieldsOf(d));
  }

  /** The `DeleteUser` scenario: a user that clashes with nobody stored is
      inserted, then deleted, and the stored user is then the deleted one. */
  lemma DeletedUserReadsBackDeleted(store: map<ObjectId, UserValue>, u: UserValue)
    requires u.userId !in store && ClashesWithNoOtherUser(store, u)
    ensures var inserted := AfterInsert(UserKind, store, u);
      && inserted == store[u.userId := u]
      && AfterSave(UserKind, inserted, u.(isDeleted := true)) == store[u.userId := u.(isDeleted := true)]
  {
    DocoUserSchemaResolvable();
    DocoUserClash(UserFieldsOf(u.(isDeleted := true)), UserFieldsOf(u));
    InsertThenResave(UserKind, store, u, u.(isDeleted := true));
  }

  /** No user stored under another id clashes with `u`. */
  predicate ClashesWithNoOtherUser(store: map<ObjectId, UserValue>, u: UserValue)
  {
    forall k :: k in store && k != u.userId ==> !Clash(DocoUserSchema, UserFieldsOf(u), UserFieldsOf(store[k]))
  }

  /** A user that clashes with no other stored user is written under its id:
      by `Save` always, and by `Insert` when the id is new. */
  lemma UnclashedUserStored(store: map<ObjectId, UserValue>, u: UserValue)
    ensures ClashesWithNoOtherUser(store, u) ==> AfterSave(UserKind, store, u) == store[u.userId := u]
    ensures ClashesWithNoOtherUser(store, u) && u.userId !in store ==>
      AfterInsert(UserKind, store, u) == store[u.userId := u]
  {
    if ClashesWithNoOtherUser(store, u) {
      DocoUserSchemaResolvable();
      UnclashedWriteStored(UserKind, store, u);
    }
  }

  class DocoUserService {
    const docoDb: MongoRepository<UserValue>
    /** FluentValidation's address check, which this model does not spell out. */
    const isEmail: string -> bool
    /** The `ValidationResult` property: the verdict of the last validation. */
    var validationResult: Option<ValidationResult>

    /** The repository is the collection of `DocoUser`. */
    ghost predicate Valid()
    {
      docoDb.kind == UserKind
    }

    constructor (docoDb: MongoRepository<UserValue>, isEmail: string -> bool)
      requires docoDb.kind == UserKind
      ensures Valid() && this.docoDb == docoDb && this.isEmail == isEmail && validationResult.None?
    {
      this.docoDb := docoDb;
      this.isEmail := isEmail;
      validationResult := None;
    }

    /** Validates the user; an invalid user is not written and `null` comes
        back. A valid user is handed to the repository and returned whatever
        the repository decided; the repository never throws on a user. */
    method Insert(user: DocoUser) returns (r: DocoUser?)
      requires Valid() && user.Valid()
      modifies this, docoDb
      ensures var u := Snapshot(user);
        && u == old(Snapshot(user))
        && validationResult == Some(ValidateUser(u, isEmail))
        && (r == if ValidateUser(u, isEmail).IsValid() then user else null)
        && docoDb.store == if ValidateUser(u, isEmail).IsValid() then AfterInsert(UserKind, old(docoDb.store), u) else old(docoDb.store)
      ensures var u := Snapshot(user);
        ValidateUser(u, isEmail).IsValid() && u.userId !in old(docoDb.store) && ClashesWithNoOtherUser(old(docoDb.store), u) ==>
          docoDb.store == old(docoDb.store)[u.userId := u]
    {
      var u := Snapshot(user);
      validationResult := Some(ValidateUser(u, isEmail));
      if !validationResult.value.IsValid() {
        return null;
      }
      InsertUser(u);
      return user;
    }

    /** `_docoDb.Insert(user)` for a user value: the repository never throws,
        and a new user that clashes with no stored user is written. */
    method InsertUser(u: UserValue)
      requires Valid()
      modifies docoDb
      ensures docoDb.store == AfterInsert(UserKind, old(docoDb.store), u)
      ensures u.userId !in old(docoDb.store) && ClashesWithNoOtherUser(old(docoDb.store), u) ==>
        docoDb.store == old(docoDb.store)[u.userId := u]
    {
      UserConflictDefined(docoDb.Stored(), u.userId, UserFieldsOf(u));
      UnclashedUserStored(docoDb.store, u);
      var written := docoDb.Insert(u);
      assert written.Success?;
    }

    /** Validates the user; an invalid user is not written and `false` comes
        back. A valid user is saved and `true` comes back whatever the
        repository decided; the repository never throws on a user. */
    method Update(user: DocoUser) returns (r: bool)
      requires Valid() && user.Valid()
      modifies this, docoDb
      ensures user.Valid() && user.userFolder.Repr == old(user.userFolder.Repr)
      ensures var u := Snapshot(user);
        && u == old(Snapshot(user))
        && validationResult == Some(ValidateUser(u, isEmail))
        && r == ValidateUser(u, isEmail).IsValid()
        && docoDb.store == if r then AfterSave(UserKind, old(docoDb.store), u) else old(docoDb.store)
      ensures var u := Snapshot(user);
        r && ClashesWithNoOtherUser(old(docoDb.store), u) ==> docoDb.store == old(docoDb.store)[u.userId := u]
    {
      var u := Snapshot(user);
      validationResult := Some(ValidateUser(u, isEmail));
      if !validationResult.value.IsValid() {
        return false;
      }
      SaveUser(u);
      return true;
    }

    /** `_docoDb.Save(user)` for a user value: the repository never throws,
        and a user that clashes with no other stored user is written. */
    method SaveUser(u: UserValue)
      requires Valid()
      modifies docoDb
      ensures docoDb.store == AfterSave(UserKind, old(docoDb.store), u)
      ensures ClashesWithNoOtherUser(old(docoDb.store), u) ==> docoDb.store == old(docoDb.store)[u.userId := u]
    {
      UserConflictDefined(docoDb.Stored(), u.userId, UserFieldsOf(u));
      UnclashedUserStored(docoDb.store, u);
      var written := docoDb.Save(u);
      assert written.Success?;
    }

    /** Looks a user up by the string form of its id; a string that is not
        24 hexadecimal digits is a format error. */
    function SelectById(id: string): (r: Result<Option<UserValue>, string>)
      reads this, docoDb
      ensures r.Failure? <==> ParseId(id).None?
      ensures forall userId: ObjectId :: id == IdString(userId) ==> r == Success(docoDb.GetItemById(userId))
    {
      assert forall userId: ObjectId :: id == IdString(userId) ==> ParseId(id) == Some(userId) by {
        forall userId: ObjectId | id == IdString(userId) {
          ParseIdRoundTrip(userId);
        }
      }
      match ParseId(id)
      case None => Failure("FormatException")
      case Some(objectId) =>
        Success(docoDb.GetItemById(objectId))
    }

    /** Marks the user deleted, then updates it. The flag stays set even when
        the update is refused. */
    method Delete(user: DocoUser) returns (r: bool)
      requires Valid() && user.Valid()
      modifies this, docoDb, user
      ensures user.Valid() && user.isDeleted
      ensures user.userFolder == old(user.userFolder) && user.email == old(user.email)
      ensures user.name == old(user.name) && user.surname == old(user.surname) && user.userName == old(user.userName)
      ensures var u := old(Snapshot(user)).(isDeleted := true);
        && Snapshot(user) == u
        && r == ValidateUser(u, isEmail).IsValid()
        && docoDb.store == if r then AfterSave(UserKind, old(docoDb.store), u) else old(docoDb.store)
      ensures var u := old(Snapshot(user)).(isDeleted := true);
        r && ClashesWithNoOtherUser(old(docoDb.store), u) ==> docoDb.store == old(docoDb.store)[u.userId := u]
    {
      user.isDeleted := true;
      r := Update(user);
    }
  }
}
