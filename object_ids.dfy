/**
  The store's internal identifier, a BSON ObjectId: twelve bytes whose string
  form is 24 lower-case hexadecimal digits. Parsing accepts a string of exactly
  24 hexadecimal digits in either case and fails on anything else.
*/
module ObjectIds {
  import opened Wrappers

  type Byte = b: int | 0 <= b < 256

  type IdBytes = s: seq<Byte> | |s| == 12 witness [0, 0, 0, 0, 0, 0, 0, 0, 0, 0, 0, 0]

  datatype ObjectId = ObjectId(bytes: IdBytes)

  /** The value of one hexadecimal digit, in either case. */
  function DigitValue(c: char): (r: Option<int>)
    ensures r.Some? ==> 0 <= r.value < 16
    ensures r.Some? <==> ('0' <= c <= '9' || 'a' <= c <= 'f' || 'A' <= c <= 'F')
  {
    if '0' <= c <= '9' then Some(c as int - '0' as int)
    else if 'a' <= c <= 'f' then Some(c as int - 'a' as int + 10)
    else if 'A' <= c <= 'F' then Some(c as int - 'A' as int + 10)
    else None
  }

  /** The lower-case digit for `n`; reading it back gives `n`. */
  function HexDigit(n: int): (c: char)
    requires 0 <= n < 16
    ensures DigitValue(c) == Some(n)
    ensures !('A' <= c <= 'F')
  {
    if n < 10 then ('0' as int + n) as char else ('a' as int + n - 10) as char
  }

  function Hex(bytes: seq<Byte>): (s: string)
    ensures |s| == 2 * |bytes|
  {
    if bytes == [] then []
    else [HexDigit(bytes[0] / 16), HexDigit(bytes[0] % 16)] + Hex(bytes[1..])
  }

  function Unhex(s: string): (r: Option<seq<Byte>>)
    ensures r.Some? ==> 2 * |r.value| == |s|
    decreases |s|
  {
    if s == [] then Some([])
    else if |s| == 1 then None
    else
      var hi :- DigitValue(s[0]);
      var lo :- DigitValue(s[1]);
      var rest :- Unhex(s[2..]);
      Some([hi * 16 + lo] + rest)
  }

  /** `str(oid)`: the canonical string form. */
  function Render(oid: ObjectId): (s: string)
    ensures |s| == 24
  {
    Hex(oid.bytes)
  }

  /** Every digit of `s` is a hexadecimal digit. */
  predicate AllHexDigits(s: string) {
    forall i :: 0 <= i < |s| ==> DigitValue(s[i]).Some?
  }

  /** Decoding succeeds exactly on an even number of hexadecimal digits. */
  lemma {:induction false} UnhexAccepts(s: string)
    ensures Unhex(s).Some? <==> |s| % 2 == 0 && AllHexDigits(s)
    decreases |s|
  {
    if |s| >= 2 {
      UnhexAccepts(s[2..]);
      assert AllHexDigits(s) <==>
        DigitValue(s[0]).Some? && DigitValue(s[1]).Some? && AllHexDigits(s[2..]) by {
        if DigitValue(s[0]).Some? && DigitValue(s[1]).Some? && AllHexDigits(s[2..]) {
          forall i | 0 <= i < |s|
            ensures DigitValue(s[i]).Some?
          {
            if i >= 2 {
              assert s[i] == s[2..][i - 2];
            }
          }
        }
      }
    }
  }

  /** `ObjectId(s)`: `None` where the library raises `InvalidId`. */
  function Parse(s: string): (r: Option<ObjectId>)
    ensures r.Some? <==> |s| == 24 && AllHexDigits(s)
  {
    UnhexAccepts(s);
    if |s| != 24 then None
    else
      var bytes :- Unhex(s);
      Some(ObjectId(bytes))
  }

  lemma {:induction false} UnhexHex(bytes: seq<Byte>)
    ensures Unhex(Hex(bytes)) == Some(bytes)
  {
    if bytes != [] {
      var b := bytes[0];
      var s := Hex(bytes);
      assert s[0] == HexDigit(b / 16) && s[1] == HexDigit(b % 16);
      assert s[2..] == Hex(bytes[1..]);
      UnhexHex(bytes[1..]);
      assert (b / 16) * 16 + b % 16 == b;
      assert [b] + bytes[1..] == bytes;
    }
  }

  /** Parsing the rendered form gives back the identifier. */
  lemma ParseRender(oid: ObjectId)
    ensures Parse(Render(oid)) == Some(oid)
  {
    UnhexHex(oid.bytes);
  }

  /** Distinct identifiers have distinct string forms. */
  lemma RenderInjective(a: ObjectId, b: ObjectId)
    ensures Render(a) == Render(b) ==> a == b
  {
    ParseRender(a);
    ParseRender(b);
  }
}
