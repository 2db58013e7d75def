/** The `Version` counter of a document, and the uniqueness declarations of
    the user type. */
module Models {
  import opened Wrappers
  import opened Bson
  import opened BsonUnique
  import opened MongoRepository

  /** C# `int`. */
  newtype int32 = x: int | -0x8000_0000 <= x < 0x8000_0000

  const Int32Min: int32 := -0x8000_0000
  const Int32Max: int32 := 0x7fff_ffff

  /** The two's-complement wrap-around of unchecked `int` arithmetic. */
  function Wrap32(x: int): (r: int32)
    ensures Int32Min as int <= x <= Int32Max as int ==> r as int == x
    ensures (r as int - x) % 0x1_0000_0000 == 0
  {
    ((x + 0x8000_0000) % 0x1_0000_0000 - 0x8000_0000) as int32
  }

  // ---------------------------------------------------------------------
  // Version

  /** (Major, Minor) after one `IncreaseVersion`: Minor goes up by one, and
      once it passes 10 it restarts at 0 and Major goes up by one. */
  function Increased(major: int32, minor: int32): (int32, int32)
  {
    var m := Wrap32(minor as int + 1);
    if m > 10 then (Wrap32(major as int + 1), 0) else (major, m)
  }

  /** (Major, Minor) after `k` calls of `IncreaseVersion`. */
  function Iterate(major: int32, minor: int32, k: nat): (int32, int32)
  {
    if k == 0 then (major, minor)
    else
      var (a, b) := Iterate(major, minor, k - 1);
      Increased(a, b)
  }

  /** Lexicographic order on (Major, Minor). */
  predicate Before(v: (int32, int32), w: (int32, int32))
  {
    v.0 < w.0 || (v.0 == w.0 && v.1 < w.1)
  }

  /** A Minor in 0..10 stays in 0..10. */
  lemma IncreasedKeepsMinorInRange(major: int32, minor: int32)
    requires 0 <= minor <= 10
    ensures 0 <= Increased(major, minor).1 <= 10
    ensures Increased(major, minor) ==
      if minor < 10 then (major, minor + 1) else (Wrap32(major as int + 1), 0)
  {
  }

  /** Each increment moves the version strictly forward and never lowers Major,
      as long as Major has not reached `int.MaxValue`. */
  lemma IncreasedMovesForward(major: int32, minor: int32)
    requires 0 <= minor <= 10 && major < Int32Max
    ensures Before((major, minor), Increased(major, minor))
    ensures Increased(major, minor).0 >= major
  {
  }

  /** At `int.MaxValue` the unchecked `Major++` wraps to `int.MinValue`. */
  lemma MajorWrapsAtMaxValue()
    ensures Increased(Int32Max, 10) == (Int32Min, 0)
  {
  }

  /** From (M, 0), `k` increments with `k` at most 10 give (M, k). */
  lemma {:induction false} CountsUpToTen(major: int32, k: nat)
    requires k <= 10
    ensures Iterate(major, 0, k) == (major, k as int32)
  {
    if k > 0 {
      CountsUpToTen(major, k - 1);
    }
  }

  /** From (M, 0), the eleventh increment gives (M + 1, 0). */
  lemma RollsOverOnEleventh(major: int32)
    requires major < Int32Max
    ensures Iterate(major, 0, 10) == (major, 10)
    ensures Iterate(major, 0, 11) == (major + 1, 0)
  {
    CountsUpToTen(major, 10);
  }

  // ---------------------------------------------------------------------
  // "{0}.{1}" formatting of two ints, and a reader for it

  function DigitChar(d: nat): char
    requires d < 10
  {
    ('0' as int + d) as char
  }

  predicate IsDigit(c: char)
  {
    '0' <= c <= '9'
  }

  predicate AllDigits(s: string)
  {
    forall i :: 0 <= i < |s| ==> IsDigit(s[i])
  }

  /** The decimal digits of `n`, most significant first, without leading zeros. */
  function NatDigits(n: nat): (s: string)
    ensures |s| >= 1 && AllDigits(s)
  {
    if n < 10 then [DigitChar(n)] else NatDigits(n / 10) + [DigitChar(n % 10)]
  }

  /** `Int32.ToString()`: a minus sign for negative values, then the digits. */
  function IntString(x: int): string
  {
    if x < 0 then "-" + NatDigits(-x) else NatDigits(x)
  }

  /** `string.Format("{0}.{1}", major, minor)`. */
  function VersionString(major: int, minor: int): string
  {
    IntString(major) + "." + IntString(minor)
  }

  function DigitsValue(s: string): nat
    requires AllDigits(s)
  {
    if s == [] then 0 else DigitsValue(s[..|s| - 1]) * 10 + (s[|s| - 1] as int - '0' as int)
  }

  function ParseInt(s: string): Option<int>
  {
    if |s| >= 2 && s[0] == '-' && AllDigits(s[1..]) then Some(-(DigitsValue(s[1..]) as int))
    else if |s| >= 1 && AllDigits(s) then Some(DigitsValue(s))
    else None
  }

  /** The position of the first '.' in `s`. */
  function IndexOfDot(s: string): (r: Option<nat>)
    ensures r.Some? ==> r.value < |s| && s[r.value] == '.' && '.' !in s[..r.value]
    ensures r.None? ==> '.' !in s
  {
    if s == [] then None
    else if s[0] == '.' then Some(0)
    else match IndexOfDot(s[1..])
      case None => None
      case Some(k) => assert s[..k + 1] == [s[0]] + s[1..][..k]; Some(k + 1)
  }

  /** Reads back "Major.Minor". */
  function ParseVersion(s: string): Option<(int, int)>
  {
    match IndexOfDot(s)
    case None => None
    case Some(k) =>
      match (ParseInt(s[..k]), ParseInt(s[k + 1..]))
      case (Some(a), Some(b)) => Some((a, b))
      case _ => None
  }

  lemma {:induction false} DigitsRoundTrip(n: nat)
    ensures DigitsValue(NatDigits(n)) == n
  {
    if n >= 10 {
      var s := NatDigits(n);
      assert s[..|s| - 1] == NatDigits(n / 10);
      DigitsRoundTrip(n / 10);
    }
  }

  lemma IntRoundTrip(x: int)
    ensures ParseInt(IntString(x)) == Some(x)
    ensures '.' !in IntString(x)
  {
    if x < 0 {
      DigitsRoundTrip(-x);
      assert IntString(x)[1..] == NatDigits(-x);
    } else {
      DigitsRoundTrip(x);
    }
    var s := IntString(x);
    assert forall i :: 0 <= i < |s| ==> s[i] != '.' by {
      forall i | 0 <= i < |s| ensures s[i] != '.' {
        if x < 0 && i > 0 {
          assert s[i] == NatDigits(-x)[i - 1];
        }
      }
    }
  }

  /** The rendered version reads back as the same (Major, Minor). */
  lemma VersionStringRoundTrip(major: int, minor: int)
    ensures ParseVersion(VersionString(major, minor)) == Some((major, minor))
  {
    var a, b := IntString(major), IntString(minor);
    var s := VersionString(major, minor);
    IntRoundTrip(major);
    IntRoundTrip(minor);
    IndexOfDotAfter(a, b);
    assert s[..|a|] == a;
    assert s[|a| + 1..] == b;
  }

  lemma {:induction false} IndexOfDotAfter(a: string, b: string)
    requires '.' !in a
    ensures IndexOfDot(a + "." + b) == Some(|a|)
  {
    if a != [] {
      assert (a + "." + b)[1..] == a[1..] + "." + b;
      IndexOfDotAfter(a[1..], b);
    }
  }

  /** Two versions render alike only when they are equal. */
  lemma VersionStringInjective(m1: int, n1: int, m2: int, n2: int)
    ensures VersionString(m1, n1) == VersionString(m2, n2) <==> m1 == m2 && n1 == n2
  {
    VersionStringRoundTrip(m1, n1);
    VersionStringRoundTrip(m2, n2);
  }

  /** A document's version: a Major and a Minor counter. */
  class Version {
    var major: int32
    var minor: int32

    /** A new version is 0.0. */
    constructor ()
      ensures major == 0 && minor == 0
    {
      major, minor := 0, 0;
    }

    /** Increments in place and returns this very object. */
    method IncreaseVersion() returns (r: Version)
      modifies this
      ensures r == this
      ensures (major, minor) == Increased(old(major), old(minor))
    {
      minor := Wrap32(minor as int + 1);
      if minor > 10 {
        minor := 0;
        major := Wrap32(major as int + 1);
      }
      return this;
    }

    /** "Major.Minor". */
    function ToString(): (s: string)
      reads this
      ensures ParseVersion(s) == Some((major as int, minor as int))
    {
      VersionStringRoundTrip(major as int, minor as int);
      VersionString(major as int, minor as int)
    }
  }

  // ---------------------------------------------------------------------
  // The uniqueness declarations of DocoUser

  /** The public properties of `DocoUser` in declaration order: `Email` and
      `UserName` are self-unique, and `Name` is unique together with
      `Surname`. The folder tree is the `UserFolder` property. */
  const DocoUserSchema: Schema := [
    Property("Email", Some(SelfUnique())),
    Property("IsDeleted", None),
    Property("Name", Some(Declared(false, ["surname"]))),
    Property("Surname", None),
    Property("UserFolder", None),
    Property("UserId", None),
    Property("UserName", Some(SelfUnique()))
  ]

  lemma DocoUserSurname()
    ensures Resolve(DocoUserSchema, "surname") == Success(Property("Surname", None))
  {
    var s, n := DocoUserSchema, "surname";
    assert SameIgnoringCase(s[3].name, n);
    forall j | 0 <= j < |s| && j != 3 ensures !SameIgnoringCase(s[j].name, n) {
      assert j == 0 || j == 1 || j == 2 || j == 4 || j == 5 || j == 6;
    }
    ResolvesUniquely(s, 3, n);
  }

  /** The user type's sibling name resolves, so the engine never throws for users. */
  lemma DocoUserSchemaResolvable()
    ensures Resolvable(DocoUserSchema)
  {
    var s := DocoUserSchema;
    DocoUserSurname();
    assert s[2].unique.value.propertyNames.value == ["surname"];
    forall i | 0 <= i < |s| && s[i].unique.Some?
      ensures DescriptorResolves(s, s[i].unique.value)
    {
      assert i == 0 || i == 2 || i == 6;
      if i == 2 {
        AgreeOnOneSibling(s, "surname", Property("Surname", None), map[], map[]);
      }
    }
  }

  /** Two users clash when they share an e-mail, a user name, or both name and surname. */
  lemma DocoUserClash(a: Fields, b: Fields)
    ensures Clash(DocoUserSchema, a, b) <==>
      Agree(a, b, "Email") || Agree(a, b, "UserName") || (Agree(a, b, "Name") && Agree(a, b, "Surname"))
  {
    var s := DocoUserSchema;
    DocoUserSurname();
    AgreeOnOneSibling(s, "surname", Property("Surname", None), a, b);
    assert s[2].unique.value.propertyNames.value == ["surname"];
    if Clash(s, a, b) {
      var i :| 0 <= i < |s| && PropertyClash(s, s[i], a, b);
      assert i == 0 || i == 2 || i == 6;
    }
    if Agree(a, b, "Email") {
      assert PropertyClash(s, s[0], a, b);
    }
    if Agree(a, b, "UserName") {
      assert PropertyClash(s, s[6], a, b);
    }
    if Agree(a, b, "Name") && Agree(a, b, "Surname") {
      assert PropertyClash(s, s[2], a, b);
    }
  }

  function UserFields(email: string, userName: string, name: string, surname: string): Fields
  {
    map["Email" := BsonString(email), "UserName" := BsonString(userName),
        "Name" := BsonString(name), "Surname" := BsonString(surname)]
  }

  /** Fail-open lets a duplicate e-mail in: with Ann and Bob stored, a new
      user with Ann's e-mail and Bob's user name clashes with both, the
      engine answers "no conflict", and the write leaves two users with one
      e-mail. */
  lemma FailOpenAdmitsDuplicate()
    ensures var stored := map[1 := UserFields("ann@x", "ann", "Ann", "A"), 2 := UserFields("bob@x", "bob", "Bob", "B")];
      var candidate := UserFields("ann@x", "bob", "Cem", "C");
      && Unique(DocoUserSchema, stored)
      && Conflict(DocoUserSchema, stored, 3, candidate) == Success(false)
      && !Unique(DocoUserSchema, stored[3 := candidate])
  {
    var s := DocoUserSchema;
    var ann, bob := UserFields("ann@x", "ann", "Ann", "A"), UserFields("bob@x", "bob", "Bob", "B");
    var stored := map[1 := ann, 2 := bob];
    var candidate := UserFields("ann@x", "bob", "Cem", "C");
    DocoUserSchemaResolvable();
    DocoUserClash(ann, bob);
    DocoUserClash(bob, ann);
    DocoUserClash(candidate, ann);
    DocoUserClash(candidate, bob);
    DocoUserClash(ann, candidate);
    assert Unique(s, stored);
    assert ClashingIds(s, stored, candidate) == {1, 2};
    FailOpen(s, stored, 3, candidate);
    var after := stored[3 := candidate];
    assert after[1] == ann && after[3] == candidate;
  }
}
