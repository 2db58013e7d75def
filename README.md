# Doco core, modelled in Dafny

Doco is a document manager. Each user owns a tree of folders, and each folder holds documents. Users are stored in a MongoDB collection through a generic repository. The repository refuses a write that would break the uniqueness rules declared with the `[BsonUnique]` attribute.

This project models:

- **The repository** (`MongoRepository`): the collection as a map from `_id` to item, with `GetItemById`, `Insert`, `Save` and `ExistsUniqueItem`.
  - The engine is modelled twice. First, as the query the source builds from the descriptors: an OR of self equalities and AND-ed sibling equalities, with sibling names resolved ignoring case.
  - Second, as a declarative "clash" relation between two documents.
  - The two are proved equivalent. The conflict decision, including its fail-open answer when two or more stored documents match, is proved to mean "exactly one clashing document, stored under another id".
- **The `[BsonUnique]` descriptor** (`BsonUnique`) and the descriptors on the user type (`Models`). The repository's NUnit scenarios appear as lemmas about the test types (`RepositoryOracles`).
- **`Version`** (`Models`): a class with `int` fields that wrap on overflow, `IncreaseVersion` with its roll-over after minor 10, and `ToString` with a parser for the string it produces.
- **The entities** (`Entities`):
  - folders are heap objects, with a `Repr` footprint and a `Valid` tree invariant;
  - a user owns a root folder named "Root";
  - documents are values held in their folder's list;
  - the `FluentValidation` rules of each entity are modelled.
- **`MongoService.Traverse`** (`MongoService`): the pre-order search in folder mode and document mode, with both early stops:
  - at the first match;
  - right after a subfolder that has no subfolders.

  It is specified by a function on tree values, `Traversal`. The in-place method is proved to turn the folder objects' tree into `Traversal` of the old tree. Lemmas about `Traversal` state that:
  - no match means no change;
  - only matched folders change;
  - the shape never changes;
  - a reachable folder can be lost behind a leaf sibling.
- **`DocoUserService`** (`UserService`): validation with `DocoUserValidator`, then `Insert`, `Save`, `SelectById` and `Delete` against the repository.
- **`FolderService`** (`FolderService`): `AddNewFolder` (in-place append under a parent folder, proved equal to `Graft` on tree values), `UpdateName`, `AddNewDocument` and the private `UpdateRecursive`. Each one then saves the user.

Ids and clock readings are parameters. `ObjectId` is a 96-bit number. Its `ToString` is 24 lower-case hexadecimal digits, and distinct ids print differently.

## Model

| member | source | states |
|---|---|---|
| Bson.IdStringInjective | Docum.Lib/Services/IFolderService.cs:44 | Two ids have the same `ToString()` exactly when they are equal, so the services' string comparison of folder ids is an id comparison |
| Bson.HexRoundTrip | Docum.Lib/Services/IUserService.cs:55 | Parsing the `width` hex digits of a number below 16^width gives the number back |
| Bson.ParseIdRoundTrip | Docum.Lib/Services/IUserService.cs:53-57 | `ObjectId.Parse(id.ToString())` is `id` |
| BsonUnique.Declared | Docum.Lib/MongoDb/BsonUnique.cs:20-24 | The two-argument constructor keeps exactly the `Self` flag and the property names given (an empty `params` list is an empty array) |
| BsonUnique.SelfUnique | Docum.Lib/MongoDb/BsonUnique.cs:29-32 | The parameterless constructor sets `Self` and leaves `PropertyNames` null |
| MongoRepository.CaseMatchesMembers | Docum.Lib/MongoDb/MongoRepository.cs:281-282 | The properties found for a sibling name are exactly those whose name equals it ignoring case |
| MongoRepository.ResolvesUniquely | Docum.Lib/MongoDb/MongoRepository.cs:281-282 | A name that exactly one property matches ignoring case resolves to that property |
| MongoRepository.ResolveMeaning | Docum.Lib/MongoDb/MongoRepository.cs:281-283 | A resolved sibling is a property of the type matching the name ignoring case; resolution reports an unknown property exactly when no property matches |
| MongoRepository.SiblingEqsMeaning | Docum.Lib/MongoDb/MongoRepository.cs:276-285 | The sibling equalities exist exactly when every name resolves, and they all hold of a document exactly when it agrees with the candidate on every named sibling |
| MongoRepository.SiblingFailureSticks | Docum.Lib/MongoDb/MongoRepository.cs:279-284 | A sibling name that fails to resolve aborts the whole sibling list |
| MongoRepository.PropertyClausesMeaning | Docum.Lib/MongoDb/MongoRepository.cs:264-291 | One property's clauses exist exactly when its descriptor's names resolve, and some clause matches a document exactly when it clashes with the candidate on that property |
| MongoRepository.ClausesMeaning | Docum.Lib/MongoDb/MongoRepository.cs:262-292 | The clauses of the first `n` properties exist exactly when their names resolve, and their OR matches exactly the documents that clash on one of those properties |
| MongoRepository.ClausesFailureSticks | Docum.Lib/MongoDb/MongoRepository.cs:262-292 | A failure while building the clauses of a prefix of the properties is the outcome of the whole query |
| MongoRepository.UniqueQueryMeaning | Docum.Lib/MongoDb/MongoRepository.cs:260-299 | The OR query of `ExistsUniqueItem` is defined exactly for resolvable schemas and selects exactly the documents that clash with the candidate |
| MongoRepository.ConflictMeaning | Docum.Lib/MongoDb/MongoRepository.cs:256-316 | The decision fails exactly when a sibling name does not resolve; otherwise it is "conflict" exactly when one stored document clashes and its id is not the candidate's |
| MongoRepository.ClashSymmetric | Docum.Lib/MongoDb/MongoRepository.cs:271-290 | `a` clashes with `b` exactly when `b` clashes with `a` |
| MongoRepository.OneRecordConflict | Docum.Lib/MongoDb/MongoRepository.cs:302-313 | With a single stored record under another id, a conflict is reported exactly when that record clashes with the candidate |
| MongoRepository.NoDescriptorsNeverConflict | Docum.Lib/MongoDb/MongoRepository.cs:294-297 | A type with no descriptor never reports a conflict |
| MongoRepository.FailOpen | Docum.Lib/MongoDb/MongoRepository.cs:302-315 | Two or more clashing stored documents give "no conflict" |
| MongoRepository.OwnRecordIsNoConflict | Docum.Lib/MongoDb/MongoRepository.cs:302-313 | Re-checking an item whose stored version still clashes with it is never a conflict |
| MongoRepository.StoredItemIsNoConflict | Docum.Lib/MongoDb/MongoRepository.cs:302-313 | Re-checking an item exactly as stored is never a conflict |
| MongoRepository.WriteKeepsUnique | Docum.Lib/MongoDb/MongoRepository.cs:212-241 | A write the engine lets through keeps the store clash-free, provided at most one stored document clashed with the item |
| MongoRepository.UnclashedWriteStored | Docum.Lib/MongoDb/MongoRepository.cs:212-241 | An item that clashes with no record stored under another id is written under its id by `Save`, and by `Insert` when the id is new |
| MongoRepository.MongoRepository.constructor | Docum.Lib/MongoDb/MongoRepository.cs:129-135 | The repository opens the collection of its type with its current contents |
| MongoRepository.MongoRepository.SiblingQueries | Docum.Lib/MongoDb/MongoRepository.cs:279-284 | The inner loop builds the sibling equalities in the order named, or throws at the first name that does not resolve |
| MongoRepository.MongoRepository.ExistsUniqueItem | Docum.Lib/MongoDb/MongoRepository.cs:256-316 | The loop over the properties and the count test compute the conflict decision on the stored items |
| MongoRepository.MongoRepository.Insert | Docum.Lib/MongoDb/MongoRepository.cs:212-221 | Throws when the engine does; returns null and writes nothing on conflict; otherwise returns the item and stores it under a new id, so `GetItemById` then finds it |
| MongoRepository.MongoRepository.Save | Docum.Lib/MongoDb/MongoRepository.cs:232-241 | Throws when the engine does; returns null and writes nothing on conflict; otherwise stores the item under its id, replacing the old one, and `GetItemById` then finds it |
| RepositoryOracles.TestModel2Siblings | Docum.Lib.Tests/TestModel.cs:88 | The lower-case sibling names `stringvalue2` and `intvalue` resolve to `StringValue2` and `IntValue` |
| RepositoryOracles.TestModel3Siblings | Docum.Lib.Tests/TestModel.cs:103 | The sibling names of `TestModel3` resolve |
| RepositoryOracles.TestModelConflict | Docum.Lib.Tests/MongoRepositoryTests.cs:125-149 | For `TestModel`, a record under another id conflicts exactly when it has the same `StringValue` |
| RepositoryOracles.TestModel2Conflict | Docum.Lib.Tests/MongoRepositoryTests.cs:151-197 | For `TestModel2`, a record conflicts exactly when it agrees on `StringValue`, `StringValue2` and `IntValue` together |
| RepositoryOracles.TestModel3Conflict | Docum.Lib.Tests/MongoRepositoryTests.cs:199-233 | For `TestModel3`, the self clause decides: same `StringValue` conflicts whatever the other fields |
| RepositoryOracles.TestModel4NeverConflicts | Docum.Lib.Tests/MongoRepositoryTests.cs:235-245 | `TestModel4` never conflicts |
| RepositoryOracles.TestModelSaveOntoTakenValue | Docum.Lib.Tests/MongoRepositoryTests.cs:49-60 | Saving a record with a `StringValue` another record holds is a conflict |
| Models.Wrap32 | Docum.Lib/Models/Models.cs:344-348 | Unchecked `int` arithmetic: in range the value is kept, and it always agrees with the exact value modulo 2^32 |
| Models.IncreasedKeepsMinorInRange | Docum.Lib/Models/Models.cs:342-351 | From a minor in 0..10, one increment adds one to the minor below 10 and rolls 10 over to (major + 1, 0) |
| Models.IncreasedMovesForward | Docum.Lib/Models/Models.cs:342-351 | Below `int.MaxValue`, each increment moves (major, minor) strictly forward |
| Models.MajorWrapsAtMaxValue | Docum.Lib/Models/Models.cs:348 | At `int.MaxValue` the major wraps to `int.MinValue` |
| Models.CountsUpToTen | Docum.Lib/Models/Models.cs:342-351 | From (M, 0), up to ten increments give (M, k) |
| Models.RollsOverOnEleventh | Docum.Lib/Models/Models.cs:342-351 | From (M, 0), ten increments give (M, 10) and the eleventh gives (M + 1, 0) |
| Models.IntRoundTrip | Docum.Lib/Models/Models.cs:362 | A formatted `int` has no dot and parses back to itself |
| Models.VersionStringRoundTrip | Docum.Lib/Models/Models.cs:360-363 | "Major.Minor" reads back as the same pair |
| Models.VersionStringInjective | Docum.Lib/Models/Models.cs:360-363 | Two versions print the same exactly when they are equal |
| Models.Version.constructor | Docum.Lib/Models/Models.cs:312-316 | A new version is 0.0 |
| Models.Version.IncreaseVersion | Docum.Lib/Models/Models.cs:342-351 | Updates this object in place to the increment of its old pair and returns this object |
| Models.Version.ToString | Docum.Lib/Models/Models.cs:360-363 | The string parses back to (Major, Minor) |
| Models.DocoUserSchemaResolvable | Docum.Lib/Models/Models.cs:43-72 | The sibling name "surname" on `Name` resolves, so the engine never throws for users |
| Models.DocoUserClash | Docum.Lib/Models/Models.cs:43-72 | Two users clash exactly when they share the e-mail, or the user name, or both name and surname |
| Models.FailOpenAdmitsDuplicate | Docum.Lib/MongoDb/MongoRepository.cs:302-315 | A clash-free store of two users, and a new user clashing with both, for which the engine answers "no conflict" and the write leaves two users with one e-mail |
| Entities.NewDocument | Docum.Lib/Models/DocoUser.cs:110-115 | A new document has the given id and empty access and keyword lists; its other properties are at their defaults |
| Entities.DocoFolder.constructor | Docum.Lib/Models/DocoUser.cs:215-220 | A new folder has the given id, no subfolders and no documents, and is a valid one-folder tree |
| Entities.DocoFolder.Assign | Docum.Lib/Services/MongoService.cs:27 | Changing a folder's own properties keeps the tree valid and leaves everything below it unchanged |
| Entities.DocoUser.constructor | Docum.Lib/Models/DocoUser.cs:29-32 | A new user owns one fresh, empty root folder named "Root" |
| Entities.UserValidation | Docum.Lib/Models/DocoUser.cs:84-91 | Valid exactly when user name, name and surname are not blank and the e-mail is an address; the errors name exactly the failed properties |
| Entities.DocumentValidation | Docum.Lib/Models/DocoUser.cs:192-196 | Valid exactly when the name is not blank |
| Entities.FolderValidation | Docum.Lib/Models/DocoUser.cs:262-266 | Valid exactly when the folder name is not blank |
| Entities.ValidationExamples | Docum.Lib/Models/DocoUser.cs:86-88 | Null, empty and white-space names fail `NotEmpty`; "Root" passes |
| MongoService.FirstMatchFrom | Docum.Lib/Services/MongoService.cs:33-41 | The index found is the first document passing the test, or the list length when none does |
| MongoService.TraversalKeepsShape | Docum.Lib/Services/MongoService.cs:20-53 | A traversal never adds, removes or moves a folder |
| MongoService.TraverseChildrenMeaning | Docum.Lib/Services/MongoService.cs:44-51 | Each subfolder up to and including the first one without subfolders is traversed; every later one is unchanged |
| MongoService.NoMatchNoChange | Docum.Lib/Services/MongoService.cs:20-53 | When nothing in the tree passes the test, the traversal changes nothing |
| MongoService.ChangesOnlyMatches | Docum.Lib/Services/MongoService.cs:20-53 | Only folders where the test passed are changed, each by exactly the `reduce` change |
| MongoService.FolderMatchStops | Docum.Lib/Services/MongoService.cs:22-29 | Folder mode: a matching folder is changed and its subfolders are not visited |
| MongoService.DocumentMatchStops | Docum.Lib/Services/MongoService.cs:31-41 | Document mode: only the first matching document of a folder is changed, and the subfolders are not visited |
| MongoService.NoMatchHereVisitsChildren | Docum.Lib/Services/MongoService.cs:44-51 | With no match at a folder, its fields stay and its subfolders are visited in order until one without subfolders |
| MongoService.Traverse | Docum.Lib/Services/MongoService.cs:20-53 | The in-place traversal leaves the folder objects forming `Traversal` of the old tree, with the same folders and footprint |
| MongoService.FindDocument | Docum.Lib/Services/MongoService.cs:33-41 | The document loop stops at the first document passing the test |
| MongoService.VisitChildren | Docum.Lib/Services/MongoService.cs:44-51 | The sibling loop turns the subfolders into `TraverseChildren` of their old values, leaving the folder's own fields alone |
| MongoService.VisitChild | Docum.Lib/Services/MongoService.cs:46-50 | One round: the `i`-th subfolder is traversed, its siblings keep their values, and the leaf test reads whether it had subfolders |
| UserService.UserFieldsOf | Docum.Lib/Models/DocoUser.cs:36-72 | The stored fields of a user carry its e-mail, user name, name, surname, id and deleted flag under their property names |
| UserService.ValidateUser | Docum.Lib/Services/IUserService.cs:71-78 | Valid exactly when the user name is not blank and the e-mail is an address or null; the errors name exactly the failed properties |
| UserService.NameAndSurnameNotValidated | Docum.Lib/Services/IUserService.cs:71-78 | The service's validator ignores name and surname |
| UserService.UserConflictDefined | Docum.Lib/Models/Models.cs:54-55 | The engine never throws for a user |
| UserService.InsertThenResave | Docum.Lib/MongoDb/MongoRepository.cs:212-241 | An item clashing with nothing is inserted under its id; saving a changed version that still clashes with it replaces it |
| UserService.DeletedUserReadsBackDeleted | Docum.Lib.Tests/DocoUserServiceTest.cs:21-30 | After inserting a user that clashes with nobody and deleting it, the stored user under its id is the deleted one |
| UserService.UnclashedUserStored | Docum.Lib/Models/Models.cs:43-72 | A user that clashes with no other stored user is written under its id by `Save`, and by `Insert` when its id is new |
| UserService.DocoUserService.constructor | Docum.Lib/Services/IUserService.cs:24-27 | The service writes to the repository it is given, which must be the collection of `DocoUser` |
| UserService.DocoUserService.Insert | Docum.Lib/Services/IUserService.cs:29-40 | Records the validation result; an invalid user gives null and no write; a valid one goes through the repository's `Insert`, never throws, and is returned; a valid new user that clashes with no stored user is then stored under its id |
| UserService.DocoUserService.InsertUser | Docum.Lib/Services/IUserService.cs:38 | The repository's `Insert` of a user never throws; its store is the insert's outcome, and a new user that clashes with no stored user is added |
| UserService.DocoUserService.Update | Docum.Lib/Services/IUserService.cs:42-51 | Records the validation result; an invalid user gives false and no write; a valid one goes through the repository's `Save`, never throws, and gives true; a valid user that clashes with no other stored user is then stored under its id; the user is unchanged |
| UserService.DocoUserService.SaveUser | Docum.Lib/Services/IUserService.cs:49 | The repository's `Save` of a user never throws; its store is the save's outcome, and a user that clashes with no other stored user is written under its id |
| UserService.DocoUserService.SelectById | Docum.Lib/Services/IUserService.cs:53-57 | A string that is not an id's 24 hex digits is a format error; an id's string finds what the repository holds under that id |
| UserService.DocoUserService.Delete | Docum.Lib/Services/IUserService.cs:59-63 | Sets the deleted flag, kept even if the update is refused, then updates the user: the result is Update's verdict on the deleted user, and a valid deleted user that clashes with no other stored user is stored under its id |
| FolderService.GraftAppends | Docum.Lib/Services/IFolderService.cs:34-37 | The parent gains the new folder as its last subfolder and keeps its other subfolders and properties |
| FolderService.GraftPlacesLeaf | Docum.Lib/Services/IFolderService.cs:37 | The new folder sits at the parent's route followed by the parent's old number of subfolders |
| FolderService.GraftCount | Docum.Lib/Services/IFolderService.cs:37 | Adding a folder adds exactly the folders of the added tree |
| FolderService.Attach | Docum.Lib/Services/IFolderService.cs:37 | Appending a new folder under the folder at a route keeps the tree valid and turns its value into `Graft` of the old value |
| FolderService.AppendSubfolder | Docum.Lib/Services/IFolderService.cs:37 | `parent.Folders.Add(folder)` on a valid tree appends the new folder's value to the parent's subfolders |
| FolderService.NewLeaf | Docum.Lib/Services/IFolderService.cs:27-33 | A fresh folder with the given id and properties and no subfolders |
| FolderService.NewFolderAt | Docum.Lib/Services/IFolderService.cs:27-37 | The new folder is appended to the parent's subfolders and everything else is unchanged |
| FolderService.FirstSubfolderReached | Docum.Lib/Services/MongoService.cs:44-51 | A folder-mode search for the first subfolder's id always reaches and changes it |
| FolderService.RenameFirstSubfolder | Docum.Lib.Tests/DocoFolderServiceTests.cs:27-34 | Renaming the root's first subfolder by its id renames it |
| FolderService.AddDocumentToFirstSubfolder | Docum.Lib.Tests/DocoFolderServiceTests.cs:36-42 | Adding a document to the root's first subfolder by its id appends it to that folder's documents |
| FolderService.RenameBehindLeafIsLost | Docum.Lib/Services/MongoService.cs:44-51 | A folder inside the second subfolder, behind a first subfolder with no subfolders, is never reached, so the rename changes nothing |
| FolderService.UpdateRecursive | Docum.Lib/Services/IFolderService.cs:42-59 | Applies the action like folder-mode `Traverse` with an id test: the tree becomes `Traversal` of the old one |
| FolderService.UpdateSubfolders | Docum.Lib/Services/IFolderService.cs:50-58 | The loop of `UpdateRecursive` turns the subfolders into `TraverseChildren` of their old values |
| FolderService.UpdateSubfolder | Docum.Lib/Services/IFolderService.cs:52-56 | One round of that loop: one subfolder is searched and its siblings are unchanged |
| FolderService.FolderService.constructor | Docum.Lib/Services/IFolderService.cs:19-23 | The service saves users through the user service it is given, which writes to the collection of `DocoUser` |
| FolderService.FolderService.AddNewFolder | Docum.Lib/Services/IFolderService.cs:25-40 | A fresh folder owned by the user, with the given name and creation time, is appended under the parent (the root when none is given), and the user is then updated |
| FolderService.FolderService.UpdateName | Docum.Lib/Services/IFolderService.cs:61-65 | The tree becomes the folder-mode traversal that renames the folder with that id, and the user is then updated |
| FolderService.FolderService.AddNewDocument | Docum.Lib/Services/IFolderService.cs:68-88 | A "New Document" of type Word, current, not public, at a fresh version 0.0, is appended to the folder with that id if the search reaches it; the user is then updated and the document returned |

## Left out

- Connecting to the server, `Drop`, `GetAll` and `AsQueryable` are driver calls with no logic of their own; the collection is a map.
- Reflection is replaced by an explicit table per type: property names in declaration order, their descriptors, the id property and a projection to BSON values.
- `ExistsUniqueItem`'s `Single(x => x.PropertyType == typeof(ObjectId))` is replaced by the table's id projection.
- Floating-point and decimal fields of the test types are left out of their tables, since no descriptor refers to them.
- Sibling names are resolved by comparing ASCII letters without case. Unicode case folding is not modelled.
- `Insert` of an item whose id is already stored leaves the store as it was and returns the item. The 1.x driver sends the insert unacknowledged, and the server drops the duplicate key.
- `ExistsUniqueItem` answers "no conflict" when two or more stored documents match, as the source does. The code's comment says the count must always be 1; two or more matches return false. The model follows the code, and `FailOpen` and `FailOpenAdmitsDuplicate` show what it lets through.
- FolderService.FolderService.AddNewFolder: the parent is given as a route from the user's root folder. A parent object outside the user's tree is not modelled.
- FolderService.FolderService.AddNewFolder: `CreatedAt` and `SavedAt` are both given one clock reading, `now`. The source reads the clock twice.
- FolderService.UpdateRecursive: the action is a change to the folder's own properties. An action that reshapes the subfolder list is not modelled.
- Documents are values inside their folder's list, so two folders sharing one document object, and changes to a document seen through another reference, are not modelled.
- The `Traverse` callbacks see a folder's id and own properties, not its subfolders.
- The activity log (`IActivitiyLogService`) that `AddNewDocument` writes to is not part of this model.
- `GenericValidator` locates the validator class by name through reflection. The model calls `DocoUserValidator` directly.
- `FluentValidation`'s e-mail pattern is a parameter, `isEmail`.
- `ValidationResult` keeps only the names of the failed properties, not the messages.
- The validators in `DocoUser.cs` add their rules on every call to `Validation`, so repeated calls repeat the errors. The model gives each rule once.
- `ObjectId.Parse` is modelled as accepting 24 hexadecimal digits of either case; `ToString` prints lower case.
- Ids and clock readings are parameters, not generated.
- `Version` appears twice in the source, in `Models.cs` and in `DocoUser.cs` at lines 365-426, with the same code. It is modelled once.
- `DocumentService.UpdateDocument` and the web controller are not part of this model.
