/** `MongoService.Traverse`: a pre-order search of a user's folder tree that
    applies a caller-supplied change to what it finds, in place. The search
    either tests folders (folder mode) or the documents each folder holds
    (document mode), and stops early in two ways: at the first match, and,
    in a sibling loop, right after a subfolder that has no subfolders. */
module MongoService {
  import opened Wrappers
  import opened Bson
  import opened Entities

  /** The `map` and `reduce` callbacks of `Traverse`, one pair per mode.
      `test` is given the node and the `id` argument; `reduce` is the change
      made to a node that passed it. */
  datatype Probe =
    | FolderProbe(folderTest: (ObjectId, FolderFields, string) -> bool, folderReduce: FolderFields -> FolderFields)
    | DocumentProbe(documentTest: (DocoDocument, string) -> bool, documentReduce: DocoDocument -> DocoDocument)

  /** The first index at or after `i` whose document passes `test`, or `|docs|`. */
  function FirstMatchFrom(docs: seq<DocoDocument>, id: string, test: (DocoDocument, string) -> bool, i: nat): (k: nat)
    requires i <= |docs|
    ensures i <= k <= |docs|
    ensures k < |docs| ==> test(docs[k], id)
    ensures forall j :: i <= j < k ==> !test(docs[j], id)
    decreases |docs| - i
  {
    if i == |docs| then |docs|
    else if test(docs[i], id) then i
    else FirstMatchFrom(docs, id, test, i + 1)
  }

  /** What the probe does at one folder: the folder's new fields when the
      folder (folder mode) or one of its documents (document mode) passes
      the test, or `None` when the search goes on to the subfolders. In
      document mode only the first passing document is changed. */
  function AtNode(folderId: ObjectId, f: FolderFields, id: string, p: Probe): Option<FolderFields>
  {
    match p
    case FolderProbe(test, reduce) =>
      if test(folderId, f, id) then Some(reduce(f)) else None
    case DocumentProbe(test, reduce) =>
      var docs := f.listOfDocuments;
      var k := FirstMatchFrom(docs, id, test, 0);
      if k < |docs| then Some(f.(listOfDocuments := docs[k := reduce(docs[k])])) else None
  }

  /** The tree `Traverse` leaves behind, as a function of the tree it was given. */
  function Traversal(t: Tree, id: string, p: Probe): Tree
    decreases t
  {
    match AtNode(t.folderId, t.fields, id, p)
    case Some(f) => t.(fields := f)
    case None => t.(folders := TraverseChildren(t.folders, id, p))
  }

  /** The sibling loop: each subfolder in turn, returning right after one
      that has no subfolders of its own. */
  function TraverseChildren(cs: seq<Tree>, id: string, p: Probe): seq<Tree>
    decreases cs
  {
    if cs == [] then []
    else
      var c := Traversal(cs[0], id, p);
      [c] + if c.folders == [] then cs[1..] else TraverseChildren(cs[1..], id, p)
  }

  // ---------------------------------------------------------------------
  // What a traversal changes

  /** Both trees have the same folders, in the same places. */
  ghost predicate SameShape(a: Tree, b: Tree)
    decreases a
  {
    a.folderId == b.folderId && |a.folders| == |b.folders| &&
    forall i :: 0 <= i < |a.folders| ==> SameShape(a.folders[i], b.folders[i])
  }

  /** `after` differs from `before` only at folders where the probe fired,
      and there by exactly the probe's change. */
  ghost predicate ChangedOnlyAtMatches(before: Tree, after: Tree, id: string, p: Probe)
    decreases before
  {
    after.folderId == before.folderId && |after.folders| == |before.folders| &&
    (after.fields == before.fields || AtNode(before.folderId, before.fields, id, p) == Some(after.fields)) &&
    forall i :: 0 <= i < |before.folders| ==> ChangedOnlyAtMatches(before.folders[i], after.folders[i], id, p)
  }

  /** The probe fires nowhere in the tree. */
  ghost predicate NoneMatch(t: Tree, id: string, p: Probe)
    decreases t
  {
    AtNode(t.folderId, t.fields, id, p).None? &&
    forall i :: 0 <= i < |t.folders| ==> NoneMatch(t.folders[i], id, p)
  }

  /** Some subfolder before index `j` has no subfolders: the sibling loop
      never gets to `j`. */
  ghost predicate LeafBefore(cs: seq<Tree>, j: int)
    requires j <= |cs|
  {
    exists k :: 0 <= k < j && cs[k].folders == []
  }

  lemma {:induction false} TraversalKeepsShape(t: Tree, id: string, p: Probe)
    ensures SameShape(t, Traversal(t, id, p))
    ensures |Traversal(t, id, p).folders| == |t.folders|
    decreases t
  {
    var r := Traversal(t, id, p);
    match AtNode(t.folderId, t.fields, id, p)
    case Some(f) =>
      SameShapeReflexive(t);
    case None =>
      TraverseChildrenMeaning(t.folders, id, p);
      forall i | 0 <= i < |t.folders|
        ensures SameShape(t.folders[i], r.folders[i])
      {
        if LeafBefore(t.folders, i) {
          SameShapeReflexive(t.folders[i]);
        } else {
          TraversalKeepsShape(t.folders[i], id, p);
        }
      }
  }

  lemma {:induction false} SameShapeReflexive(t: Tree)
    ensures SameShape(t, t)
    decreases t
  {
    forall i | 0 <= i < |t.folders| {
      SameShapeReflexive(t.folders[i]);
    }
  }

  /** The sibling loop, subfolder by subfolder: every subfolder up to and
      including the first one without subfolders is traversed, and every
      later one is left as it was. */
  lemma {:induction false} TraverseChildrenMeaning(cs: seq<Tree>, id: string, p: Probe)
    ensures |TraverseChildren(cs, id, p)| == |cs|
    ensures forall j :: 0 <= j < |cs| ==>
      TraverseChildren(cs, id, p)[j] == if LeafBefore(cs, j) then cs[j] else Traversal(cs[j], id, p)
    decreases cs
  {
    if cs != [] {
      var r := TraverseChildren(cs, id, p);
      var c := Traversal(cs[0], id, p);
      TraversalFoldersLength(cs[0], id, p);
      assert !LeafBefore(cs, 0);
      if c.folders == [] {
        forall j | 1 <= j < |cs|
          ensures r[j] == cs[j] && LeafBefore(cs, j)
        {
          assert cs[0].folders == [];
        }
      } else {
        TraverseChildrenMeaning(cs[1..], id, p);
        forall j | 1 <= j < |cs|
          ensures LeafBefore(cs, j) == LeafBefore(cs[1..], j - 1)
        {
          if LeafBefore(cs, j) {
            var k :| 0 <= k < j && cs[k].folders == [];
            assert k != 0;
            assert cs[1..][k - 1].folders == [];
          }
          if LeafBefore(cs[1..], j - 1) {
            var k :| 0 <= k < j - 1 && cs[1..][k].folders == [];
            assert cs[k + 1].folders == [];
          }
        }
      }
    }
  }

  /** A traversed folder keeps its number of subfolders. */
  lemma TraversalFoldersLength(t: Tree, id: string, p: Probe)
    ensures |Traversal(t, id, p).folders| == |t.folders|
  {
    if AtNode(t.folderId, t.fields, id, p).None? {
      TraverseChildrenLength(t.folders, id, p);
    }
  }

  lemma {:induction false} TraverseChildrenLength(cs: seq<Tree>, id: string, p: Probe)
    ensures |TraverseChildren(cs, id, p)| == |cs|
    decreases |cs|
  {
    if cs != [] && Traversal(cs[0], id, p).folders != [] {
      TraverseChildrenLength(cs[1..], id, p);
    }
  }

  /** When the probe fires nowhere, the traversal changes nothing and
      reports nothing. */
  lemma {:induction false} NoMatchNoChange(t: Tree, id: string, p: Probe)
    requires NoneMatch(t, id, p)
    ensures Traversal(t, id, p) == t
    decreases t
  {
    var r := Traversal(t, id, p);
    TraverseChildrenMeaning(t.folders, id, p);
    forall i | 0 <= i < |t.folders|
      ensures r.folders[i] == t.folders[i]
    {
      if !LeafBefore(t.folders, i) {
        NoMatchNoChange(t.folders[i], id, p);
      }
    }
  }

  /** Only folders where the probe fired are changed, each by exactly the
      probe's change; everything else keeps its fields. */
  lemma {:induction false} ChangesOnlyMatches(t: Tree, id: string, p: Probe)
    ensures ChangedOnlyAtMatches(t, Traversal(t, id, p), id, p)
    decreases t
  {
    var r := Traversal(t, id, p);
    TraverseChildrenMeaning(t.folders, id, p);
    forall i | 0 <= i < |t.folders|
      ensures ChangedOnlyAtMatches(t.folders[i], r.folders[i], id, p)
    {
      if AtNode(t.folderId, t.fields, id, p).Some? || LeafBefore(t.folders, i) {
        UnchangedIsChangedOnlyAtMatches(t.folders[i], id, p);
      } else {
        ChangesOnlyMatches(t.folders[i], id, p);
      }
    }
  }

  lemma {:induction false} UnchangedIsChangedOnlyAtMatches(t: Tree, id: string, p: Probe)
    ensures ChangedOnlyAtMatches(t, t, id, p)
    decreases t
  {
    forall i | 0 <= i < |t.folders| {
      UnchangedIsChangedOnlyAtMatches(t.folders[i], id, p);
    }
  }

  /** Folder mode: a folder that passes the test is changed and its
      subfolders are not visited. */
  lemma FolderMatchStops(t: Tree, id: string, test: (ObjectId, FolderFields, string) -> bool, reduce: FolderFields -> FolderFields)
    requires test(t.folderId, t.fields, id)
    ensures Traversal(t, id, FolderProbe(test, reduce)) == Tree(t.folderId, reduce(t.fields), t.folders)
  {
  }

  /** Document mode: the folder itself is never tested. When one of its own
      documents passes, the first such document in list order is the only
      one changed, and the subfolders are not visited. */
  lemma DocumentMatchStops(t: Tree, id: string, test: (DocoDocument, string) -> bool, reduce: DocoDocument -> DocoDocument, k: nat)
    requires k < |t.fields.listOfDocuments| && test(t.fields.listOfDocuments[k], id)
    requires forall j :: 0 <= j < k ==> !test(t.fields.listOfDocuments[j], id)
    ensures var docs := t.fields.listOfDocuments;
      Traversal(t, id, DocumentProbe(test, reduce)) ==
      Tree(t.folderId, t.fields.(listOfDocuments := docs[k := reduce(docs[k])]), t.folders)
  {
    var k' := FirstMatchFrom(t.fields.listOfDocuments, id, test, 0);
    assert k' == k by {
      assert !(k' < k);
    }
  }

  /** With no match in a folder, its subfolders are visited in order, and
      the visit ends right after the first one without subfolders. */
  lemma NoMatchHereVisitsChildren(t: Tree, id: string, p: Probe)
    requires AtNode(t.folderId, t.fields, id, p).None?
    ensures var r := Traversal(t, id, p);
      r.folderId == t.folderId && r.fields == t.fields && |r.folders| == |t.folders| &&
      forall j :: 0 <= j < |t.folders| ==>
        r.folders[j] == if LeafBefore(t.folders, j) then t.folders[j] else Traversal(t.folders[j], id, p)
  {
    TraverseChildrenMeaning(t.folders, id, p);
  }

  // ---------------------------------------------------------------------
  // The traversal over the folder objects

  /** `Traverse`: changes the folder objects in place so that the tree they
      form becomes `Traversal` of the tree they formed before. No folder is
      added, removed or moved. */
  method Traverse(folder: DocoFolder, id: string, p: Probe)
    requires folder.Valid()
    modifies folder.Repr
    ensures folder.Valid()
    ensures folder.folders == old(folder.folders) && folder.Repr == old(folder.Repr)
    ensures folder.Value() == Traversal(old(folder.Value()), id, p)
    decreases folder.Repr, 2
  {
    var fields := folder.Fields();
    match p {
      case FolderProbe(test, reduce) =>
        if test(folder.folderId, fields, id) {
          folder.Assign(reduce(fields));
          return;
        }
      case DocumentProbe(test, reduce) =>
        var docs := fields.listOfDocuments;
        var k := FindDocument(docs, id, test);
        if k < |docs| {
          folder.Assign(fields.(listOfDocuments := docs[k := reduce(docs[k])]));
          return;
        }
    }
    VisitChildren(folder, id, p);
  }

  /** The document loop of `Traverse`: the index of the first document that
      passes `test`, or `|docs|` when none does. */
  method FindDocument(docs: seq<DocoDocument>, id: string, test: (DocoDocument, string) -> bool) returns (k: nat)
    ensures k == FirstMatchFrom(docs, id, test, 0)
  {
    k := 0;
    while k < |docs|
      invariant k <= |docs|
      invariant FirstMatchFrom(docs, id, test, 0) == FirstMatchFrom(docs, id, test, k)
    {
      if test(docs[k], id) {
        return;
      }
      k := k + 1;
    }
  }

  /** The sibling loop of `Traverse`: the folder's own fields are left
      alone and its subfolders become `TraverseChildren` of what they were. */
  method VisitChildren(folder: DocoFolder, id: string, p: Probe)
    requires folder.Valid()
    modifies folder.Repr
    ensures folder.Valid() && folder.Fields() == old(folder.Fields())
    ensures folder.folders == old(folder.folders) && folder.Repr == old(folder.Repr)
    ensures folder.ChildValues(|folder.folders|) == TraverseChildren(old(folder.ChildValues(|folder.folders|)), id, p)
    decreases folder.Repr, 1
  {
    ghost var kids := folder.ChildValues(|folder.folders|);
    var i := 0;
    while i < |folder.folders|
      invariant i <= |folder.folders| == |kids|
      invariant folder.Valid()
      invariant folder.Fields() == old(folder.Fields())
      invariant folder.folders == old(folder.folders) && folder.Repr == old(folder.Repr)
      invariant !LeafBefore(kids, i)
      invariant folder.ChildValues(|kids|) == Progress(kids, i, id, p)
    {
      ProgressStep(kids, i, id, p);
      var leaf := VisitChild(folder, i, id, p);
      if leaf {
        StoppedAfterLeaf(kids, i, id, p);
        return;
      }
      LeafBeforeStep(kids, i);
      i := i + 1;
    }
    FinishedAll(kids, id, p);
  }

  /** One round of the sibling loop: the `i`-th subfolder is traversed,
      nothing outside it changes, and `leaf` tells whether it has no
      subfolders. */
  method VisitChild(folder: DocoFolder, i: nat, id: string, p: Probe) returns (leaf: bool)
    requires folder.Valid() && i < |folder.folders|
    modifies folder.folders[i].Repr
    ensures folder.Valid() && folder.Fields() == old(folder.Fields())
    ensures folder.folders == old(folder.folders) && folder.Repr == old(folder.Repr)
    ensures var before := old(folder.ChildValues(|folder.folders|));
      folder.ChildValues(|folder.folders|) == before[i := Traversal(before[i], id, p)] &&
      (leaf <==> before[i].folders == [])
    decreases folder.Repr, 0
  {
    ghost var before := folder.ChildValues(|folder.folders|);
    TraversalFoldersLength(before[i], id, p);
    var f := folder.folders[i];
    Traverse(f, id, p);
    forall j | 0 <= j < |folder.folders| && j != i
      ensures folder.folders[j].Valid() && folder.folders[j].Value() == before[j]
    {
      assert old(folder.folders[j].Repr !! folder.folders[i].Repr);
    }
    ChildValuesUpdate(folder, i, before);
    leaf := |f.folders| == 0;
  }

  /** The subfolder values of a valid folder whose subfolders other than
      the `i`-th have the values `before` lists. */
  lemma ChildValuesUpdate(folder: DocoFolder, i: nat, before: seq<Tree>)
    requires folder.Valid() && i < |folder.folders| == |before|
    requires forall j :: 0 <= j < |before| && j != i ==> folder.folders[j].Value() == before[j]
    ensures folder.ChildValues(|folder.folders|) == before[i := folder.folders[i].Value()]
  {
  }

  /** The subfolders after the sibling loop has traversed the first `i`. */
  function Progress(kids: seq<Tree>, i: nat, id: string, p: Probe): (r: seq<Tree>)
    requires i <= |kids|
    ensures |r| == |kids|
  {
    if i == 0 then kids else Progress(kids, i - 1, id, p)[i - 1 := Traversal(kids[i - 1], id, p)]
  }

  lemma {:induction false} ProgressMeaning(kids: seq<Tree>, i: nat, id: string, p: Probe)
    requires i <= |kids|
    ensures forall j :: 0 <= j < |kids| ==>
      Progress(kids, i, id, p)[j] == if j < i then Traversal(kids[j], id, p) else kids[j]
  {
    if i > 0 {
      ProgressMeaning(kids, i - 1, id, p);
    }
  }

  lemma ProgressStep(kids: seq<Tree>, i: nat, id: string, p: Probe)
    requires i < |kids|
    ensures Progress(kids, i, id, p)[i] == kids[i]
    ensures Progress(kids, i, id, p)[i := Traversal(kids[i], id, p)] == Progress(kids, i + 1, id, p)
  {
    ProgressMeaning(kids, i, id, p);
  }

  lemma LeafBeforeStep(kids: seq<Tree>, i: nat)
    requires i < |kids|
    ensures LeafBefore(kids, i + 1) <==> LeafBefore(kids, i) || kids[i].folders == []
  {
    if LeafBefore(kids, i + 1) && !LeafBefore(kids, i) {
      var k :| 0 <= k < i + 1 && kids[k].folders == [];
      assert k == i;
    }
  }

  /** The loop returned right after the `i`-th subfolder, which has no subfolders. */
  lemma StoppedAfterLeaf(kids: seq<Tree>, i: nat, id: string, p: Probe)
    requires i < |kids| && !LeafBefore(kids, i) && kids[i].folders == []
    ensures TraverseChildren(kids, id, p) == Progress(kids, i + 1, id, p)
  {
    TraverseChildrenMeaning(kids, id, p);
    ProgressMeaning(kids, i + 1, id, p);
    forall j | i < j < |kids|
      ensures LeafBefore(kids, j)
    {
      assert kids[i].folders == [];
    }
  }

  /** The loop ran to the end without meeting a subfolder without subfolders. */
  lemma FinishedAll(kids: seq<Tree>, id: string, p: Probe)
    requires !LeafBefore(kids, |kids|)
    ensures TraverseChildren(kids, id, p) == Progress(kids, |kids|, id, p)
  {
    TraverseChildrenMeaning(kids, id, p);
    ProgressMeaning(kids, |kids|, id, p);
  }
}
