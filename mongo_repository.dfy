/** The generic repository and its uniqueness-constraint engine.

    A persisted type is described by an `EntityKind`: the properties in
    declaration order with their `[BsonUnique]` descriptors (the explicit
    table that replaces reflection), the `[BsonId]` property, and the
    projection of an item onto its stored field values. The collection is a
    map from `_id` to the stored item. */
module MongoRepository {
  import opened Wrappers
  import opened Bson
  import opened BsonUnique

  /** The field values of one document, by property name; a missing field
      reads as BSON null. */
  type Fields = map<string, BsonValue>

  function Get(doc: Fields, name: string): BsonValue
  {
    if name in doc then doc[name] else BsonNull
  }

  /** One public property of a persisted type and the descriptor on it. */
  datatype Property = Property(name: string, unique: Option<BsonUnique>)

  /** The properties of a type, in declaration order. */
  type Schema = seq<Property>

  /** The table entry that stands for reflection over `T`. */
  datatype EntityKind<-T> = EntityKind(schema: Schema, idOf: T -> ObjectId, fieldsOf: T -> Fields)

  /** The part of the query language the engine builds: `Query.EQ`,
      `Query.And` and `Query.Or`. */
  datatype Query = Eq(field: string, value: BsonValue) | And(parts: seq<Query>) | Or(parts: seq<Query>)

  predicate Eval(q: Query, doc: Fields)
    decreases q
  {
    match q
    case Eq(f, v) => Get(doc, f) == v
    case And(ps) => forall i :: 0 <= i < |ps| ==> Eval(ps[i], doc)
    case Or(ps) => exists i :: 0 <= i < |ps| && Eval(ps[i], doc)
  }

  predicate AllHold(qs: seq<Query>, doc: Fields)
  {
    forall i :: 0 <= i < |qs| ==> Eval(qs[i], doc)
  }

  predicate AnyHolds(qs: seq<Query>, doc: Fields)
  {
    exists i :: 0 <= i < |qs| && Eval(qs[i], doc)
  }

  /** The ids of the stored documents a query selects (`GetItemsByQuery`). */
  function MatchingIds(q: Query, stored: map<ObjectId, Fields>): set<ObjectId>
  {
    set k | k in stored && Eval(q, stored[k])
  }

  // ---------------------------------------------------------------------
  // Resolving a sibling name: Type.GetProperty(name, Instance | Public | IgnoreCase)

  function FoldChar(c: char): char
  {
    if 'A' <= c <= 'Z' then (c as int + 32) as char else c
  }

  /** Equality of names up to ASCII case. */
  predicate SameIgnoringCase(a: string, b: string)
  {
    |a| == |b| && SameFoldedFrom(a, b, 0)
  }

  /** The characters of `a` and `b` from position `i` on agree up to case. */
  predicate SameFoldedFrom(a: string, b: string, i: nat)
    requires |a| == |b| && i <= |a|
    decreases |a| - i
  {
    i == |a| || (FoldChar(a[i]) == FoldChar(b[i]) && SameFoldedFrom(a, b, i + 1))
  }

  /** The properties whose name equals `name` up to case. */
  function CaseMatches(schema: Schema, name: string): seq<Property>
  {
    if schema == [] then []
    else (if SameIgnoringCase(schema[0].name, name) then [schema[0]] else []) + CaseMatches(schema[1..], name)
  }

  /** The matches are exactly the properties whose name equals `name` up to case. */
  lemma {:induction false} CaseMatchesMembers(schema: Schema, name: string)
    ensures forall p :: p in CaseMatches(schema, name) <==> p in schema && SameIgnoringCase(p.name, name)
  {
    if schema != [] {
      CaseMatchesMembers(schema[1..], name);
      assert forall p :: p in schema <==> p == schema[0] || p in schema[1..];
    }
  }

  lemma CaseMatchesStep(schema: Schema, k: nat, name: string)
    requires k < |schema|
    ensures CaseMatches(schema[k..], name) ==
      (if SameIgnoringCase(schema[k].name, name) then [schema[k]] else []) + CaseMatches(schema[k + 1..], name)
  {
    assert schema[k..][1..] == schema[k + 1..];
  }

  lemma {:induction false} CaseMatchesSuffix(schema: Schema, k: nat, name: string, i: nat)
    requires k < |schema| && i <= |schema| && SameIgnoringCase(schema[k].name, name)
    requires forall j :: 0 <= j < |schema| && j != k ==> !SameIgnoringCase(schema[j].name, name)
    ensures CaseMatches(schema[i..], name) == if i <= k then [schema[k]] else []
    decreases |schema| - i
  {
    if i == |schema| {
      assert schema[i..] == [];
    } else {
      CaseMatchesStep(schema, i, name);
      CaseMatchesSuffix(schema, k, name, i + 1);
    }
  }

  /** A name that matches exactly one property, up to case, resolves to it. */
  lemma ResolvesUniquely(schema: Schema, k: nat, name: string)
    requires k < |schema| && SameIgnoringCase(schema[k].name, name)
    requires forall j :: 0 <= j < |schema| && j != k ==> !SameIgnoringCase(schema[j].name, name)
    ensures Resolve(schema, name) == Success(schema[k])
  {
    CaseMatchesSuffix(schema, k, name, 0);
    assert schema[0..] == schema;
  }

  /** What makes the engine throw instead of answering: a sibling name that
      resolves to no property (`GetProperty` returns null, and `prop.Name`
      dereferences it), or to more than one (`AmbiguousMatchException`). */
  datatype UniqueError = UnknownProperty(name: string) | AmbiguousProperty(name: string)

  function Resolve(schema: Schema, name: string): Result<Property, UniqueError>
  {
    var found := CaseMatches(schema, name);
    if |found| == 0 then Failure(UnknownProperty(name))
    else if |found| > 1 then Failure(AmbiguousProperty(name))
    else Success(found[0])
  }

  /** A resolved name denotes a property of the type whose name matches it
      up to case; a name no property matches is reported as unknown. */
  lemma ResolveMeaning(schema: Schema, name: string)
    ensures Resolve(schema, name).Success? ==>
      Resolve(schema, name).value in schema && SameIgnoringCase(Resolve(schema, name).value.name, name)
    ensures (forall p :: p in schema ==> !SameIgnoringCase(p.name, name)) <==>
      Resolve(schema, name) == Failure(UnknownProperty(name))
  {
    CaseMatchesMembers(schema, name);
    var found := CaseMatches(schema, name);
    if |found| > 0 {
      assert found[0] in found;
    }
  }

  // ---------------------------------------------------------------------
  // Building the OR of clauses (ExistsUniqueItem, first half)

  /** `Query.EQ(p.Name, <candidate's value of p>)`. */
  function OwnEq(p: Property, item: Fields): Query
  {
    Eq(p.name, Get(item, p.name))
  }

  /** The equalities on the named siblings, in the order named; the first
      name that does not resolve aborts. */
  function SiblingEqs(schema: Schema, names: seq<string>, item: Fields): Result<seq<Query>, UniqueError>
    decreases |names|
  {
    if |names| == 0 then Success([])
    else
      match SiblingEqs(schema, names[..|names| - 1], item)
      case Failure(e) => Failure(e)
      case Success(eqs) =>
        match Resolve(schema, names[|names| - 1])
        case Failure(e) => Failure(e)
        case Success(sibling) => Success(eqs + [OwnEq(sibling, item)])
  }

  /** What one property contributes: the self equality when `Self` is set,
      then the conjunction over the field and its siblings when the sibling
      list is non-null and non-empty, whatever `Self` is. */
  function PropertyClauses(schema: Schema, p: Property, item: Fields): Result<seq<Query>, UniqueError>
  {
    if p.unique.None? then Success([])
    else
      var d := p.unique.value;
      var own := if d.self then [OwnEq(p, item)] else [];
      if !HasSiblings(d) then Success(own)
      else
        match SiblingEqs(schema, d.propertyNames.value, item)
        case Failure(e) => Failure(e)
        case Success(eqs) => Success(own + [And([OwnEq(p, item)] + eqs)])
  }

  /** The clauses of the first `n` properties, in declaration order. */
  function Clauses(schema: Schema, n: nat, item: Fields): Result<seq<Query>, UniqueError>
    requires n <= |schema|
  {
    if n == 0 then Success([])
    else
      match Clauses(schema, n - 1, item)
      case Failure(e) => Failure(e)
      case Success(qs) =>
        match PropertyClauses(schema, schema[n - 1], item)
        case Failure(e) => Failure(e)
        case Success(more) => Success(qs + more)
  }

  /** The `queryList` whose disjunction `ExistsUniqueItem` runs. */
  function UniqueQuery(schema: Schema, item: Fields): Result<seq<Query>, UniqueError>
  {
    Clauses(schema, |schema|, item)
  }

  /** The conflict decision of `ExistsUniqueItem`: no clause means no
      conflict; otherwise a conflict exactly when one stored document matches
      and it is not the candidate itself (two or more matches answer false). */
  function Conflict(schema: Schema, stored: map<ObjectId, Fields>, id: ObjectId, item: Fields): Result<bool, UniqueError>
  {
    match UniqueQuery(schema, item)
    case Failure(e) => Failure(e)
    case Success(qs) =>
      if |qs| == 0 then Success(false)
      else
        var hits := MatchingIds(Or(qs), stored);
        Success(|hits| == 1 && id !in hits)
  }

  // ---------------------------------------------------------------------
  // The declarative reading of the descriptors

  predicate Agree(a: Fields, b: Fields, name: string)
  {
    Get(a, name) == Get(b, name)
  }

  predicate SiblingsResolve(schema: Schema, names: seq<string>)
  {
    forall n :: n in names ==> Resolve(schema, n).Success?
  }

  predicate AgreeOnSiblings(schema: Schema, names: seq<string>, a: Fields, b: Fields)
  {
    forall n :: n in names && Resolve(schema, n).Success? ==> Agree(a, b, Resolve(schema, n).value.name)
  }

  predicate DescriptorResolves(schema: Schema, d: BsonUnique)
  {
    HasSiblings(d) ==> SiblingsResolve(schema, d.propertyNames.value)
  }

  /** Every sibling name of every descriptor of the first `n` properties names exactly one property. */
  predicate ResolvableUpTo(schema: Schema, n: nat)
    requires n <= |schema|
  {
    forall i :: 0 <= i < n && schema[i].unique.Some? ==> DescriptorResolves(schema, schema[i].unique.value)
  }

  predicate Resolvable(schema: Schema)
  {
    ResolvableUpTo(schema, |schema|)
  }

  /** Document `b` violates property `p`'s constraint as seen from candidate
      `a`: equal on a self-unique field, or equal on the field and on every
      named sibling. */
  predicate PropertyClash(schema: Schema, p: Property, a: Fields, b: Fields)
  {
    p.unique.Some? &&
    ((p.unique.value.self && Agree(a, b, p.name)) ||
     (HasSiblings(p.unique.value) && Agree(a, b, p.name) &&
      AgreeOnSiblings(schema, p.unique.value.propertyNames.value, a, b)))
  }

  predicate ClashUpTo(schema: Schema, n: nat, a: Fields, b: Fields)
    requires n <= |schema|
  {
    exists i :: 0 <= i < n && PropertyClash(schema, schema[i], a, b)
  }

  /** `a` and `b` may not both be stored under distinct ids. */
  predicate Clash(schema: Schema, a: Fields, b: Fields)
  {
    ClashUpTo(schema, |schema|, a, b)
  }

  /** The stored documents that clash with the candidate. */
  function ClashingIds(schema: Schema, stored: map<ObjectId, Fields>, a: Fields): set<ObjectId>
  {
    set k | k in stored && Clash(schema, a, stored[k])
  }

  /** The invariant the engine is there to keep: no two stored documents clash. */
  ghost predicate Unique(schema: Schema, stored: map<ObjectId, Fields>)
  {
    forall j, k :: j in stored && k in stored && j != k ==> !Clash(schema, stored[j], stored[k])
  }

  // ---------------------------------------------------------------------
  // The query means the descriptors

  lemma AnyHoldsAppend(qs: seq<Query>, more: seq<Query>, doc: Fields)
    ensures AnyHolds(qs + more, doc) <==> AnyHolds(qs, doc) || AnyHolds(more, doc)
  {
    if AnyHolds(qs + more, doc) {
      var i :| 0 <= i < |qs + more| && Eval((qs + more)[i], doc);
      if i >= |qs| {
        assert Eval(more[i - |qs|], doc);
      }
    }
    if AnyHolds(qs, doc) {
      var i :| 0 <= i < |qs| && Eval(qs[i], doc);
      assert Eval((qs + more)[i], doc);
    }
    if AnyHolds(more, doc) {
      var i :| 0 <= i < |more| && Eval(more[i], doc);
      assert Eval((qs + more)[|qs| + i], doc);
    }
  }

  /** The sibling equalities exist exactly when every name resolves, and
      then they all hold of `b` exactly when `b` agrees with `a` on every
      named sibling. */
  lemma {:induction false} SiblingEqsMeaning(schema: Schema, names: seq<string>, a: Fields, b: Fields)
    ensures SiblingEqs(schema, names, a).Success? <==> SiblingsResolve(schema, names)
    ensures SiblingEqs(schema, names, a).Success? ==>
      (AllHold(SiblingEqs(schema, names, a).value, b) <==> AgreeOnSiblings(schema, names, a, b))
    decreases |names|
  {
    if |names| > 0 {
      var init, last := names[..|names| - 1], names[|names| - 1];
      assert names == init + [last];
      SiblingEqsMeaning(schema, init, a, b);
      assert forall n :: n in names <==> n in init || n == last;
      match SiblingEqs(schema, init, a)
      case Failure(_) =>
      case Success(eqs) =>
        match Resolve(schema, last)
        case Failure(_) =>
        case Success(sibling) =>
          var all := eqs + [OwnEq(sibling, a)];
          assert AllHold(all, b) <==> AllHold(eqs, b) && Eval(OwnEq(sibling, a), b) by {
            if AllHold(eqs, b) && Eval(OwnEq(sibling, a), b) {
              forall i | 0 <= i < |all| ensures Eval(all[i], b) {
                if i < |eqs| { assert all[i] == eqs[i]; }
              }
            }
            if AllHold(all, b) {
              assert Eval(all[|eqs|], b);
              forall i | 0 <= i < |eqs| ensures Eval(eqs[i], b) {
                assert all[i] == eqs[i];
              }
            }
          }
    }
  }

  /** Sibling resolution that failed on a prefix of the names fails for the whole list. */
  lemma {:induction false} SiblingFailureSticks(schema: Schema, names: seq<string>, j: nat, item: Fields)
    requires j <= |names|
    requires SiblingEqs(schema, names[..j], item).Failure?
    ensures SiblingEqs(schema, names, item) == SiblingEqs(schema, names[..j], item)
    decreases |names| - j
  {
    if j < |names| {
      assert names[..j + 1][..j] == names[..j];
      SiblingFailureSticks(schema, names, j + 1, item);
    } else {
      assert names[..j] == names;
    }
  }

  lemma AndMeaning(q: Query, eqs: seq<Query>, b: Fields)
    ensures Eval(And([q] + eqs), b) <==> Eval(q, b) && AllHold(eqs, b)
  {
    var parts := [q] + eqs;
    assert parts[0] == q;
    if Eval(q, b) && AllHold(eqs, b) {
      forall i | 0 <= i < |parts| ensures Eval(parts[i], b) {
        if i > 0 { assert parts[i] == eqs[i - 1]; }
      }
    }
    if Eval(And(parts), b) {
      assert Eval(parts[0], b);
      forall i | 0 <= i < |eqs| ensures Eval(eqs[i], b) {
        assert parts[i + 1] == eqs[i];
        assert Eval(parts[i + 1], b);
      }
    }
  }

  lemma AnyHoldsSingle(q: Query, b: Fields)
    ensures AnyHolds([q], b) <==> Eval(q, b)
  {
    if Eval(q, b) { assert Eval([q][0], b); }
  }

  /** One property's clauses exist exactly when its sibling names resolve,
      and some clause matches `b` exactly when `b` clashes with `a` on that property. */
  lemma PropertyClausesMeaning(schema: Schema, p: Property, a: Fields, b: Fields)
    ensures PropertyClauses(schema, p, a).Success? <==> (p.unique.Some? ==> DescriptorResolves(schema, p.unique.value))
    ensures PropertyClauses(schema, p, a).Success? ==>
      (AnyHolds(PropertyClauses(schema, p, a).value, b) <==> PropertyClash(schema, p, a, b))
  {
    if p.unique.Some? {
      var d := p.unique.value;
      var own := if d.self then [OwnEq(p, a)] else [];
      assert AnyHolds(own, b) <==> d.self && Agree(a, b, p.name) by {
        if d.self { AnyHoldsSingle(OwnEq(p, a), b); }
      }
      if HasSiblings(d) {
        var names := d.propertyNames.value;
        SiblingEqsMeaning(schema, names, a, b);
        var sib := SiblingEqs(schema, names, a);
        if sib.Success? {
          var conj := And([OwnEq(p, a)] + sib.value);
          AndMeaning(OwnEq(p, a), sib.value, b);
          AnyHoldsSingle(conj, b);
          AnyHoldsAppend(own, [conj], b);
          assert PropertyClauses(schema, p, a) == Success(own + [conj]);
        }
      }
    }
  }

  /** The clauses of the first `n` properties exist exactly when their sibling
      names resolve, and their disjunction matches `b` exactly when `b`
      clashes with `a` on one of those properties. */
  lemma {:induction false} ClausesMeaning(schema: Schema, n: nat, a: Fields, b: Fields)
    requires n <= |schema|
    ensures Clauses(schema, n, a).Success? <==> ResolvableUpTo(schema, n)
    ensures Clauses(schema, n, a).Success? ==>
      (AnyHolds(Clauses(schema, n, a).value, b) <==> ClashUpTo(schema, n, a, b))
  {
    if n > 0 {
      ClausesMeaning(schema, n - 1, a, b);
      PropertyClausesMeaning(schema, schema[n - 1], a, b);
      ResolvableUpToStep(schema, n);
      ClashUpToStep(schema, n, a, b);
      var prev := Clauses(schema, n - 1, a);
      var here := PropertyClauses(schema, schema[n - 1], a);
      if prev.Success? && here.Success? {
        AnyHoldsAppend(prev.value, here.value, b);
      }
    }
  }

  lemma ResolvableUpToStep(schema: Schema, n: nat)
    requires 0 < n <= |schema|
    ensures ResolvableUpTo(schema, n) <==>
      (ResolvableUpTo(schema, n - 1) &&
       (schema[n - 1].unique.Some? ==> DescriptorResolves(schema, schema[n - 1].unique.value)))
  {
  }

  lemma ClashUpToStep(schema: Schema, n: nat, a: Fields, b: Fields)
    requires 0 < n <= |schema|
    ensures ClashUpTo(schema, n, a, b) <==>
      (ClashUpTo(schema, n - 1, a, b) || PropertyClash(schema, schema[n - 1], a, b))
  {
  }

  /** Failing clause construction on the first `n` properties fails the whole query. */
  lemma {:induction false} ClausesFailureSticks(schema: Schema, n: nat, item: Fields)
    requires n <= |schema|
    requires Clauses(schema, n, item).Failure?
    ensures UniqueQuery(schema, item) == Clauses(schema, n, item)
    decreases |schema| - n
  {
    if n < |schema| {
      ClausesFailureSticks(schema, n + 1, item);
    }
  }

  /** The OR the engine runs selects exactly the documents that clash with the candidate. */
  lemma UniqueQueryMeaning(schema: Schema, a: Fields, b: Fields)
    ensures UniqueQuery(schema, a).Success? <==> Resolvable(schema)
    ensures UniqueQuery(schema, a).Success? ==>
      (Eval(Or(UniqueQuery(schema, a).value), b) <==> Clash(schema, a, b))
  {
    ClausesMeaning(schema, |schema|, a, b);
  }

  /** The conflict decision, in terms of the descriptors alone: the engine
      fails exactly when a sibling name does not resolve, and otherwise
      reports a conflict exactly when one stored document clashes with the
      candidate and that document is not stored under the candidate's id. */
  lemma ConflictMeaning(schema: Schema, stored: map<ObjectId, Fields>, id: ObjectId, a: Fields)
    ensures Conflict(schema, stored, id, a).Success? <==> Resolvable(schema)
    ensures Resolvable(schema) ==>
      Conflict(schema, stored, id, a) ==
        Success(|ClashingIds(schema, stored, a)| == 1 && id !in ClashingIds(schema, stored, a))
  {
    ClausesMeaning(schema, |schema|, a, a);
    match UniqueQuery(schema, a)
    case Failure(_) =>
    case Success(qs) =>
      forall k | k in stored
        ensures Eval(Or(qs), stored[k]) <==> Clash(schema, a, stored[k])
      {
        UniqueQueryMeaning(schema, a, stored[k]);
      }
      assert MatchingIds(Or(qs), stored) == ClashingIds(schema, stored, a);
      if |qs| == 0 {
        assert ClashingIds(schema, stored, a) == {};
      }
  }

  // ---------------------------------------------------------------------
  // Properties of the decision

  /** Clashing is symmetric: `a` clashes with `b` exactly when `b` clashes with `a`. */
  lemma ClashSymmetric(schema: Schema, a: Fields, b: Fields)
    ensures Clash(schema, a, b) <==> Clash(schema, b, a)
  {
    if Clash(schema, a, b) {
      var i :| 0 <= i < |schema| && PropertyClash(schema, schema[i], a, b);
      assert PropertyClash(schema, schema[i], b, a);
    }
    if Clash(schema, b, a) {
      var i :| 0 <= i < |schema| && PropertyClash(schema, schema[i], b, a);
      assert PropertyClash(schema, schema[i], a, b);
    }
  }

  /** When only property `k` carries a descriptor, clashing means clashing on it. */
  lemma OneDescriptorClash(schema: Schema, k: nat, a: Fields, b: Fields)
    requires k < |schema|
    requires forall i :: 0 <= i < |schema| && i != k ==> schema[i].unique.None?
    ensures Clash(schema, a, b) <==> PropertyClash(schema, schema[k], a, b)
  {
  }

  /** Agreeing on one sibling name means agreeing on the property it resolves to. */
  lemma AgreeOnOneSibling(schema: Schema, n1: string, p1: Property, a: Fields, b: Fields)
    requires Resolve(schema, n1) == Success(p1)
    ensures SiblingsResolve(schema, [n1])
    ensures AgreeOnSiblings(schema, [n1], a, b) <==> Agree(a, b, p1.name)
  {
    var names := [n1];
    if AgreeOnSiblings(schema, names, a, b) {
      assert names[0] in names;
    }
  }

  /** Agreeing on two sibling names means agreeing on the properties they resolve to. */
  lemma AgreeOnTwoSiblings(schema: Schema, n1: string, n2: string, p1: Property, p2: Property, a: Fields, b: Fields)
    requires Resolve(schema, n1) == Success(p1) && Resolve(schema, n2) == Success(p2)
    ensures forall n :: n in [n1, n2] ==> Resolve(schema, n).Success?
    ensures AgreeOnSiblings(schema, [n1, n2], a, b) <==> Agree(a, b, p1.name) && Agree(a, b, p2.name)
  {
    var names := [n1, n2];
    if AgreeOnSiblings(schema, names, a, b) {
      assert names[0] in names && names[1] in names;
    }
  }

  /** When only property `k` carries a descriptor, the schema resolves when its sibling names do. */
  lemma OneDescriptorResolvable(schema: Schema, k: nat)
    requires k < |schema| && schema[k].unique.Some?
    requires forall i :: 0 <= i < |schema| && i != k ==> schema[i].unique.None?
    requires schema[k].unique.value.propertyNames.Some? ==>
      forall n :: n in schema[k].unique.value.propertyNames.value ==> Resolve(schema, n).Success?
    ensures Resolvable(schema)
  {
  }

  /** Against a store holding one record under another id, the engine
      reports a conflict exactly when that record clashes with the candidate. */
  lemma OneRecordConflict(schema: Schema, k: ObjectId, b: Fields, id: ObjectId, a: Fields)
    requires Resolvable(schema) && id != k
    ensures Conflict(schema, map[k := b], id, a) == Success(Clash(schema, a, b))
  {
    ConflictMeaning(schema, map[k := b], id, a);
    var hits := ClashingIds(schema, map[k := b], a);
    assert hits == if Clash(schema, a, b) then {k} else {};
  }

  /** A type without any descriptor never reports a conflict, so its writes are never refused. */
  lemma NoDescriptorsNeverConflict(schema: Schema, stored: map<ObjectId, Fields>, id: ObjectId, a: Fields)
    requires forall i :: 0 <= i < |schema| ==> schema[i].unique.None?
    ensures Conflict(schema, stored, id, a) == Success(false)
  {
    NoDescriptorsNoClauses(schema, |schema|, a);
  }

  lemma {:induction false} NoDescriptorsNoClauses(schema: Schema, n: nat, a: Fields)
    requires n <= |schema|
    requires forall i :: 0 <= i < |schema| ==> schema[i].unique.None?
    ensures Clauses(schema, n, a) == Success([])
  {
    if n > 0 {
      NoDescriptorsNoClauses(schema, n - 1, a);
      assert PropertyClauses(schema, schema[n - 1], a) == Success([]);
      var none: seq<Query> := [];
      assert none + none == none;
    }
  }

  /** Fail-open: when two or more stored documents match, the answer is "no conflict". */
  lemma FailOpen(schema: Schema, stored: map<ObjectId, Fields>, id: ObjectId, a: Fields)
    requires Resolvable(schema)
    requires |ClashingIds(schema, stored, a)| >= 2
    ensures Conflict(schema, stored, id, a) == Success(false)
  {
    ConflictMeaning(schema, stored, id, a);
  }

  /** Re-checking an item whose stored version still shares a constrained
      value with it is never a conflict: either that version is the single
      match, or there are several and the engine answers false. */
  lemma OwnRecordIsNoConflict(schema: Schema, stored: map<ObjectId, Fields>, id: ObjectId, a: Fields)
    requires id in stored && Clash(schema, a, stored[id])
    ensures Conflict(schema, stored, id, a) != Success(true)
  {
    ConflictMeaning(schema, stored, id, a);
    assert id in ClashingIds(schema, stored, a);
  }

  lemma ClashReflexive(schema: Schema, a: Fields, b: Fields)
    ensures Clash(schema, a, b) ==> Clash(schema, a, a)
  {
    if Clash(schema, a, b) {
      var i :| 0 <= i < |schema| && PropertyClash(schema, schema[i], a, b);
      assert PropertyClash(schema, schema[i], a, a);
    }
  }

  /** Re-checking an item exactly as stored is never a conflict. */
  lemma StoredItemIsNoConflict(schema: Schema, stored: map<ObjectId, Fields>, id: ObjectId)
    requires id in stored
    ensures Conflict(schema, stored, id, stored[id]) != Success(true)
  {
    var a := stored[id];
    ConflictMeaning(schema, stored, id, a);
    if Clash(schema, a, a) {
      OwnRecordIsNoConflict(schema, stored, id, a);
    } else {
      forall k | k in stored ensures !Clash(schema, a, stored[k]) {
        ClashReflexive(schema, a, stored[k]);
      }
      assert ClashingIds(schema, stored, a) == {};
    }
  }

  /** A write the engine lets through keeps the store free of clashes,
      provided at most one stored document clashed with the item; with two or
      more (the fail-open case) the invariant can break. */
  lemma WriteKeepsUnique(schema: Schema, stored: map<ObjectId, Fields>, id: ObjectId, a: Fields)
    requires Unique(schema, stored)
    requires Conflict(schema, stored, id, a) == Success(false)
    requires |ClashingIds(schema, stored, a)| <= 1
    ensures Unique(schema, stored[id := a])
  {
    ConflictMeaning(schema, stored, id, a);
    var hits := ClashingIds(schema, stored, a);
    assert hits <= {id} by {
      if |hits| == 1 {
        assert id in hits;
        assert |hits - {id}| == 0;
      }
    }
    var after := stored[id := a];
    forall j, k | j in after && k in after && j != k
      ensures !Clash(schema, after[j], after[k])
    {
      if j == id {
        assert k !in hits;
      } else if k == id {
        assert j !in hits;
        ClashSymmetric(schema, a, stored[j]);
      }
    }
  }

  /** The stored items as field values. */
  function StoredFields<T>(kind: EntityKind<T>, store: map<ObjectId, T>): map<ObjectId, Fields>
  {
    map k | k in store :: kind.fieldsOf(store[k])
  }

  /** The store after `Insert` of an item: the item is added when the engine
      reports no conflict and its id is not yet stored. */
  function AfterInsert<T>(kind: EntityKind<T>, store: map<ObjectId, T>, item: T): map<ObjectId, T>
  {
    if Conflict(kind.schema, StoredFields(kind, store), kind.idOf(item), kind.fieldsOf(item)) == Success(false) &&
       kind.idOf(item) !in store
    then store[kind.idOf(item) := item] else store
  }

  /** The store after `Save` of an item: the item replaces whatever is stored
      under its id when the engine reports no conflict. */
  function AfterSave<T>(kind: EntityKind<T>, store: map<ObjectId, T>, item: T): map<ObjectId, T>
  {
    if Conflict(kind.schema, StoredFields(kind, store), kind.idOf(item), kind.fieldsOf(item)) == Success(false)
    then store[kind.idOf(item) := item] else store
  }

  /** An item that clashes with no record stored under another id is written:
      `Save` puts it under its id, and so does `Insert` when the id is new. */
  lemma UnclashedWriteStored<T>(kind: EntityKind<T>, store: map<ObjectId, T>, item: T)
    requires Resolvable(kind.schema)
    requires forall k :: k in store && k != kind.idOf(item) ==>
      !Clash(kind.schema, kind.fieldsOf(item), kind.fieldsOf(store[k]))
    ensures AfterSave(kind, store, item) == store[kind.idOf(item) := item]
    ensures kind.idOf(item) !in store ==> AfterInsert(kind, store, item) == store[kind.idOf(item) := item]
  {
    var id, stored, a := kind.idOf(item), StoredFields(kind, store), kind.fieldsOf(item);
    ConflictMeaning(kind.schema, stored, id, a);
    var hits := ClashingIds(kind.schema, stored, a);
    assert hits <= {id};
    if id !in hits {
      assert hits == {};
    }
  }

  /** What `Insert` and `Save` return for a given decision: the exception,
      `null` on conflict, or the item itself. */
  function WriteOutcome<T>(decision: Result<bool, UniqueError>, item: T): Result<Option<T>, UniqueError>
  {
    match decision
    case Failure(e) => Failure(e)
    case Success(conflict) => if conflict then Success(None) else Success(Some(item))
  }

  // ---------------------------------------------------------------------
  // The repository

  class MongoRepository<T> {
    const kind: EntityKind<T>
    /** `_mongoCollection`: the stored items by `_id`. */
    var store: map<ObjectId, T>

    /** Opens the collection of `T`, whose current contents are `store`. */
    constructor (kind: EntityKind<T>, store: map<ObjectId, T>)
      ensures this.kind == kind && this.store == store
    {
      this.kind := kind;
      this.store := store;
    }

    /** The stored documents as field values. */
    function Stored(): map<ObjectId, Fields>
      reads this
    {
      StoredFields(kind, store)
    }

    /** `FindOneById`: a point lookup, `null` when absent. */
    function GetItemById(id: ObjectId): Option<T>
      reads this
    {
      if id in store then Some(store[id]) else None
    }

    /** `FindAs(query)`: the stored items the query selects. */
    function GetItemsByQuery(q: Query): map<ObjectId, T>
      reads this
    {
      map k | k in store && Eval(q, kind.fieldsOf(store[k])) :: store[k]
    }

    /** The inner loop of `ExistsUniqueItem`: one equality per named sibling,
        resolved by name; the first name that does not resolve throws. */
    static method SiblingQueries(schema: Schema, names: seq<string>, fields: Fields)
      returns (r: Result<seq<Query>, UniqueError>)
      ensures r == SiblingEqs(schema, names, fields)
    {
      var temp: seq<Query> := [];
      for j := 0 to |names|
        invariant SiblingEqs(schema, names[..j], fields) == Success(temp)
      {
        var sibling := Resolve(schema, names[j]);
        assert names[..j + 1][..j] == names[..j];
        if sibling.Failure? {
          SiblingFailureSticks(schema, names, j + 1, fields);
          return Failure(sibling.error);
        }
        temp := temp + [Eq(sibling.value.name, Get(fields, sibling.value.name))];
      }
      assert names[..|names|] == names;
      return Success(temp);
    }

    /** Builds the OR of the descriptors' clauses property by property, runs
        it, and reports a conflict when exactly one stored item matches and
        its id differs from the candidate's. */
    method ExistsUniqueItem(item: T) returns (r: Result<bool, UniqueError>)
      ensures r == Conflict(kind.schema, Stored(), kind.idOf(item), kind.fieldsOf(item))
    {
      var schema := kind.schema;
      var fields := kind.fieldsOf(item);
      var queryList: seq<Query> := [];
      for i := 0 to |schema|
        invariant Clauses(schema, i, fields) == Success(queryList)
      {
        var prop := schema[i];
        ghost var before := queryList;
        if prop.unique.Some? {
          var self := prop.unique.value.self;
          var names := prop.unique.value.propertyNames;
          var temp: seq<Query> := [];
          if self {
            queryList := queryList + [Eq(prop.name, Get(fields, prop.name))];
          }
          ghost var withOwn := queryList;
          assert withOwn[|before|..] == if self then [OwnEq(prop, fields)] else [];
          if names.Some? && |names.value| > 0 {
            var siblings := SiblingQueries(schema, names.value, fields);
            if siblings.Failure? {
              ClausesFailureSticks(schema, i + 1, fields);
              return Failure(siblings.error);
            }
            temp := [Eq(prop.name, Get(fields, prop.name))] + siblings.value;
          }
          if |temp| > 0 {
            queryList := queryList + [And(temp)];
            assert queryList[|before|..] == withOwn[|before|..] + [And(temp)];
          }
          assert PropertyClauses(schema, prop, fields) == Success(queryList[|before|..]);
        }
        assert queryList == before + queryList[|before|..];
      }
      if |queryList| == 0 {
        return Success(false);
      }
      var list := GetItemsByQuery(Or(queryList));
      assert list.Keys == MatchingIds(Or(queryList), Stored());
      if |list| == 1 {
        var only :| only in list;
        assert list.Keys == {only} by {
          assert |list.Keys - {only}| == 0;
        }
        if only != kind.idOf(item) {
          return Success(true);
        }
      }
      return Success(false);
    }

    /** Writes a new item unless the engine reports a conflict (then `null`).
        An item whose id is already stored is not written again: the 1.x
        driver sends the insert unacknowledged and the server drops the
        duplicate key, and the item is still returned. */
    method Insert(item: T) returns (r: Result<Option<T>, UniqueError>)
      modifies this
      ensures var decision := Conflict(kind.schema, old(Stored()), kind.idOf(item), kind.fieldsOf(item));
        && r == WriteOutcome(decision, item)
        && store == AfterInsert(kind, old(store), item)
      ensures r == Success(Some(item)) && kind.idOf(item) !in old(store) ==> GetItemById(kind.idOf(item)) == Some(item)
    {
      var exists_ := ExistsUniqueItem(item);
      match exists_
      case Failure(e) =>
        return Failure(e);
      case Success(conflict) =>
        if conflict {
          return Success(None);
        }
        if kind.idOf(item) !in store {
          store := store[kind.idOf(item) := item];
        }
        return Success(Some(item));
    }

    /** Writes the item, replacing the one stored under the same id, unless
        the engine reports a conflict (then `null`). */
    method Save(item: T) returns (r: Result<Option<T>, UniqueError>)
      modifies this
      ensures var decision := Conflict(kind.schema, old(Stored()), kind.idOf(item), kind.fieldsOf(item));
        && r == WriteOutcome(decision, item)
        && store == AfterSave(kind, old(store), item)
      ensures r == Success(Some(item)) ==> GetItemById(kind.idOf(item)) == Some(item)
    {
      var exists_ := ExistsUniqueItem(item);
      match exists_
      case Failure(e) =>
        return Failure(e);
      case Success(conflict) =>
        if conflict {
          return Success(None);
        }
        store := store[kind.idOf(item) := item];
        return Success(Some(item));
    }
  }
}
