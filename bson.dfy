/** The pieces of MongoDB's BSON library the core relies on: the 12-byte
    `ObjectId` and its 24-digit hexadecimal `ToString`, the scalar values a
    query compares, and `DateTime` as a tick count. */
module Bson {
  import opened Wrappers

  /** A 96-bit ObjectId, read as one big-endian number. */
  newtype ObjectId = x: int | 0 <= x < 0x1_0000_0000_0000_0000_0000_0000

  /** `ObjectId.Empty`, the value of an id nobody assigned. */
  const EmptyId: ObjectId := 0

  /** `DateTime`, as ticks; `default(DateTime)` is 0. */
  type DateTime = int

  /** The scalar BSON values a uniqueness query compares. */
  datatype BsonValue =
    | BsonNull
    | BsonBool(b: bool)
    | BsonInt(i: int)
    | BsonString(s: string)
    | BsonDateTime(ticks: DateTime)
    | BsonObjectId(id: ObjectId)

  function Pow16(n: nat): (r: nat)
    ensures r >= 1
  {
    if n == 0 then 1 else 16 * Pow16(n - 1)
  }

  function HexDigit(d: int): char
    requires 0 <= d < 16
  {
    if d < 10 then ('0' as int + d) as char else ('a' as int + d - 10) as char
  }

  /** The lowest `width` hexadecimal digits of `n`, most significant first. */
  function Hex(n: nat, width: nat): (s: string)
    ensures |s| == width
  {
    if width == 0 then [] else Hex(n / 16, width - 1) + [HexDigit(n % 16)]
  }

  /** `ObjectId.ToString()`: 24 lower-case hexadecimal digits. */
  function IdString(id: ObjectId): (s: string)
    ensures |s| == 24
  {
    Hex(id as int, 24)
  }

  lemma HexDigitInjective(a: int, b: int)
    requires 0 <= a < 16 && 0 <= b < 16
    ensures HexDigit(a) == HexDigit(b) ==> a == b
  {
  }

  /** Two numbers below 16^width with the same `width` hexadecimal digits are equal. */
  lemma {:induction false} HexInjective(a: nat, b: nat, width: nat)
    requires a < Pow16(width) && b < Pow16(width)
    requires Hex(a, width) == Hex(b, width)
    ensures a == b
  {
    if width > 0 {
      var ha, hb := Hex(a, width), Hex(b, width);
      assert ha[width - 1] == HexDigit(a % 16);
      assert hb[width - 1] == HexDigit(b % 16);
      HexDigitInjective(a % 16, b % 16);
      assert ha[..width - 1] == Hex(a / 16, width - 1);
      assert hb[..width - 1] == Hex(b / 16, width - 1);
      assert a / 16 < Pow16(width - 1);
      assert b / 16 < Pow16(width - 1);
      HexInjective(a / 16, b / 16, width - 1);
    }
  }

  lemma Pow16Of24()
    ensures Pow16(24) == 0x1_0000_0000_0000_0000_0000_0000
  {
    assert Pow16(6) == 0x100_0000;
    assert Pow16(12) == 0x1_0000_0000_0000 by { Pow16Add(6, 6); }
    Pow16Add(12, 12);
  }

  lemma {:induction false} Pow16Add(a: nat, b: nat)
    ensures Pow16(a + b) == Pow16(a) * Pow16(b)
  {
    if a > 0 {
      Pow16Add(a - 1, b);
    }
  }

  /** Distinct ObjectIds print differently, so comparing `ToString()` values,
      as the folder services do, is comparing ids. */
  lemma IdStringInjective(a: ObjectId, b: ObjectId)
    ensures IdString(a) == IdString(b) <==> a == b
  {
    Pow16Of24();
    if IdString(a) == IdString(b) {
      HexInjective(a as int, b as int, 24);
    }
  }

  /** The value of one hexadecimal digit, either case. */
  function HexValue(c: char): (r: Option<nat>)
    ensures r.Some? ==> r.value < 16
  {
    if '0' <= c <= '9' then Some(c as nat - '0' as nat)
    else if 'a' <= c <= 'f' then Some(c as nat - 'a' as nat + 10)
    else if 'A' <= c <= 'F' then Some(c as nat - 'A' as nat + 10)
    else None
  }

  /** A string of hexadecimal digits, most significant first. */
  function ParseHex(s: string): (r: Option<nat>)
    ensures r.Some? ==> r.value < Pow16(|s|)
  {
    if s == [] then Some(0)
    else
      match (ParseHex(s[..|s| - 1]), HexValue(s[|s| - 1]))
      case (Some(high), Some(low)) => Some(16 * high + low)
      case _ => None
  }

  /** `ObjectId.Parse`: exactly 24 hexadecimal digits, else a format error. */
  function ParseId(s: string): Option<ObjectId>
  {
    if |s| != 24 then None
    else
      match ParseHex(s)
      case Some(n) => Pow16Of24(); Some(n as ObjectId)
      case None => None
  }

  lemma {:induction false} HexRoundTrip(n: nat, width: nat)
    requires n < Pow16(width)
    ensures ParseHex(Hex(n, width)) == Some(n)
  {
    if width > 0 {
      var h := Hex(n, width);
      assert h[..width - 1] == Hex(n / 16, width - 1);
      HexRoundTrip(n / 16, width - 1);
      var d := n % 16;
      assert HexValue(HexDigit(d)) == Some(d);
    }
  }

  /** Parsing an id's string gives the id back. */
  lemma ParseIdRoundTrip(id: ObjectId)
    ensures ParseId(IdString(id)) == Some(id)
  {
    Pow16Of24();
    HexRoundTrip(id as nat, 24);
  }
}
