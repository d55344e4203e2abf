/** Document identifiers: a 12-byte object id, parsed from and rendered as
    24 hexadecimal digits at the service boundary (the driver's
    `ObjectIDFromHex` and `ObjectID.Hex`). */
module ObjectIds {
  import opened Mongo

  /** One hexadecimal digit. */
  type Nibble = x: int | 0 <= x < 16

  /** An object id, kept as its 24 hexadecimal digits (two per byte). */
  type ObjectId = s: seq<Nibble> | |s| == 24 witness seq(24, _ => 0)

  /** The value of a hex digit; both letter cases are accepted. */
  function DigitValue(c: char): (r: Option<Nibble>)
    ensures r.Some? <==> ('0' <= c <= '9' || 'a' <= c <= 'f' || 'A' <= c <= 'F')
  {
    if '0' <= c <= '9' then Some(c as int - '0' as int)
    else if 'a' <= c <= 'f' then Some(c as int - 'a' as int + 10)
    else if 'A' <= c <= 'F' then Some(c as int - 'A' as int + 10)
    else None
  }

  /** The lower-case digit for a value. */
  function DigitChar(n: Nibble): (c: char)
    ensures DigitValue(c) == Some(n)
    ensures '0' <= c <= '9' || 'a' <= c <= 'f'
  {
    if n < 10 then ('0' as int + n) as char else ('a' as int + n - 10) as char
  }

  predicate IsHexDigit(c: char) {
    DigitValue(c).Some?
  }

  function Render(ds: seq<Nibble>): (s: string)
    ensures |s| == |ds|
  {
    if ds == [] then "" else [DigitChar(ds[0])] + Render(ds[1..])
  }

  function Parse(s: string): (r: Option<seq<Nibble>>)
    ensures r.Some? <==> forall i :: 0 <= i < |s| ==> IsHexDigit(s[i])
    ensures r.Some? ==> |r.value| == |s|
  {
    if s == [] then Some([])
    else
      match DigitValue(s[0])
      case None => None
      case Some(d) =>
        match Parse(s[1..])
        case None => (assert !IsHexDigit(s[1..][ParseFailure(s[1..])]); None)
        case Some(rest) => Some([d] + rest)
  }

  /** An index of a non-digit, for a string that does not parse. */
  function ParseFailure(s: string): (i: nat)
    requires !(forall i :: 0 <= i < |s| ==> IsHexDigit(s[i]))
    ensures i < |s| && !IsHexDigit(s[i])
  {
    if !IsHexDigit(s[0]) then 0 else 1 + ParseFailure(s[1..])
  }

  /** `ObjectID.Hex()`: 24 lower-case hex digits. */
  function Hex(id: ObjectId): (s: string)
    ensures |s| == 24
  {
    Render(id)
  }

  /** `primitive.ObjectIDFromHex`: exactly 24 characters, every one a hex
      digit of either case; anything else is an invalid id. */
  function FromHex(s: string): (r: Option<ObjectId>)
    ensures r.Some? <==> |s| == 24 && forall i :: 0 <= i < |s| ==> IsHexDigit(s[i])
  {
    if |s| != 24 then None
    else
      match Parse(s)
      case None => None
      case Some(ds) => Some(ds)
  }

  lemma {:induction false} ParseRender(ds: seq<Nibble>)
    ensures Parse(Render(ds)) == Some(ds)
  {
    if ds != [] {
      var s := Render(ds);
      assert s[0] == DigitChar(ds[0]);
      assert s[1..] == Render(ds[1..]);
      ParseRender(ds[1..]);
      assert [ds[0]] + ds[1..] == ds;
    }
  }

  /** The hex form of an id parses back to that id. */
  lemma FromHexOfHex(id: ObjectId)
    ensures FromHex(Hex(id)) == Some(id)
  {
    ParseRender(id);
  }

  /** Distinct ids have distinct hex forms. */
  lemma HexInjective(a: ObjectId, b: ObjectId)
    ensures Hex(a) == Hex(b) ==> a == b
  {
    FromHexOfHex(a);
    FromHexOfHex(b);
  }
}
