/**
 * The text handling of the greeting stage: `Encoding.ASCII.GetString`
 * and `string.Trim()` as .NET defines them.
 */
module Text {

  newtype byte = x: int | 0 <= x < 256

  /** .NET's ASCII decoder maps bytes above 0x7F to its replacement '?'. */
  function DecodeByte(b: byte): (c: char)
    ensures c as int < 128
  {
    if b < 128 then b as int as char else '?'
  }

  predicate IsAscii(s: string) {
    forall i :: 0 <= i < |s| ==> s[i] as int < 128
  }

  /** `Encoding.ASCII.GetString`: one character per byte. */
  function AsciiDecode(bytes: seq<byte>): (s: string)
    ensures |s| == |bytes|
    ensures IsAscii(s)
  {
    seq(|bytes|, i requires 0 <= i < |bytes| => DecodeByte(bytes[i]))
  }

  /** `Encoding.ASCII.GetBytes` on text that is already ASCII. */
  function AsciiEncode(s: string): (bytes: seq<byte>)
    requires IsAscii(s)
    ensures |bytes| == |s|
  {
    seq(|s|, i requires 0 <= i < |s| && IsAscii(s) => s[i] as int as byte)
  }

  /** Bytes in the ASCII range decode without loss. */
  lemma AsciiRoundTrip(bytes: seq<byte>)
    requires forall i :: 0 <= i < |bytes| ==> bytes[i] < 128
    ensures AsciiEncode(AsciiDecode(bytes)) == bytes
  {
    var s := AsciiDecode(bytes);
    forall i | 0 <= i < |bytes|
      ensures AsciiEncode(s)[i] == bytes[i]
    {
      assert s[i] == bytes[i] as int as char;
    }
  }

  /** A byte outside ASCII is not recovered: it decodes to '?'. */
  lemma NonAsciiIsReplaced(bytes: seq<byte>, i: nat)
    requires i < |bytes| && bytes[i] >= 128
    ensures AsciiDecode(bytes)[i] == '?'
  {
  }

  /**
   * `char.IsWhiteSpace`: the characters with the Unicode White_Space
   * property, which is what `string.Trim()` removes.
   */
  predicate IsWhiteSpace(c: char) {
    c == ' ' || '\t' <= c <= '\r' || c == '\U{0085}' || c == '\U{00A0}'
    || c == '\U{1680}' || '\U{2000}' <= c <= '\U{200A}' || c == '\U{2028}'
    || c == '\U{2029}' || c == '\U{202F}' || c == '\U{205F}' || c == '\U{3000}'
  }

  /** How many characters `TrimStart()` removes. */
  function LeadingWhiteSpace(s: string): (n: nat)
    ensures n <= |s|
    ensures forall k :: 0 <= k < n ==> IsWhiteSpace(s[k])
    ensures n < |s| ==> !IsWhiteSpace(s[n])
    decreases |s|
  {
    if |s| > 0 && IsWhiteSpace(s[0]) then 1 + LeadingWhiteSpace(s[1..]) else 0
  }

  /** How many characters `TrimEnd()` removes. */
  function TrailingWhiteSpace(s: string): (n: nat)
    ensures n <= |s|
    ensures forall k :: |s| - n <= k < |s| ==> IsWhiteSpace(s[k])
    ensures n < |s| ==> !IsWhiteSpace(s[|s| - n - 1])
    decreases |s|
  {
    if |s| > 0 && IsWhiteSpace(s[|s| - 1]) then 1 + TrailingWhiteSpace(s[..|s| - 1]) else 0
  }

  /** `string.Trim()`. */
  function Trim(s: string): string {
    var rest := s[LeadingWhiteSpace(s)..];
    rest[..|rest| - TrailingWhiteSpace(rest)]
  }

  /** Neither end of a string starts or ends with white space. */
  predicate IsTrimmed(s: string) {
    |s| == 0 || (!IsWhiteSpace(s[0]) && !IsWhiteSpace(s[|s| - 1]))
  }

  /**
   * Trim keeps one contiguous slice `s[i..j]` of its input, has no white
   * space at either end, and everything it removed was white space.
   */
  lemma TrimIsMaximalSlice(s: string)
    ensures exists i, j ::
              && 0 <= i <= j <= |s| && Trim(s) == s[i..j]
              && (forall k :: 0 <= k < i ==> IsWhiteSpace(s[k]))
              && (forall k :: j <= k < |s| ==> IsWhiteSpace(s[k]))
    ensures IsTrimmed(Trim(s))
  {
    var i := LeadingWhiteSpace(s);
    var rest := s[i..];
    var j := i + |rest| - TrailingWhiteSpace(rest);
    assert Trim(s) == s[i..j];
    assert forall k :: j <= k < |s| ==> s[k] == rest[k - i];
    var r := Trim(s);
    if |r| > 0 {
      assert r[0] == s[i];
      assert r[|r| - 1] == rest[|rest| - TrailingWhiteSpace(rest) - 1];
    }
  }

  /** Trimming twice is trimming once. */
  lemma TrimIdempotent(s: string)
    ensures Trim(Trim(s)) == Trim(s)
  {
    var r := Trim(s);
    TrimIsMaximalSlice(s);
    assert LeadingWhiteSpace(r) == 0;
    assert r[0..] == r;
    assert TrailingWhiteSpace(r) == 0;
  }

  /** Text made only of white space trims to the empty string. */
  lemma TrimAllWhiteSpace(s: string)
    requires forall k :: 0 <= k < |s| ==> IsWhiteSpace(s[k])
    ensures Trim(s) == ""
  {
    assert LeadingWhiteSpace(s) == |s|;
  }
}
