/** Small shared vocabulary: optional values, bytes and UTF-8 validity. */
module Common {

  /** A value that may be absent (`null`/`undefined` in the client code, `None` in Python). */
  datatype Option<T> = None | Some(value: T)

  /** One octet of a Python `bytes` object. */
  newtype byte = x: int | 0 <= x < 256

  function Min(a: int, b: int): int
  {
    if a <= b then a else b
  }

  /** A UTF-8 continuation byte, 10xxxxxx. */
  predicate Continuation(b: byte)
  {
    0x80 <= b <= 0xBF
  }

  /**
   * The byte strings that `bytes.decode()` (strict UTF-8) accepts: the well-formed UTF-8 byte
   * sequences of table 3-7 in section 3.9 of the Unicode Standard. Overlong forms, surrogates,
   * code points above U+10FFFF and sequences cut short are refused.
   */
  predicate ValidUtf8(s: seq<byte>)
    ensures ValidUtf8(s) && s != [] ==> s[|s| - 1] < 0x80 || Continuation(s[|s| - 1])
    decreases |s|
  {
    if s == [] then true
    else if s[0] < 0x80 then ValidUtf8(s[1..])
    else if 0xC2 <= s[0] <= 0xDF then
      |s| >= 2 && Continuation(s[1]) && ValidUtf8(s[2..])
    else if 0xE0 <= s[0] <= 0xEF then
      && |s| >= 3
      && (if s[0] == 0xE0 then 0xA0 <= s[1] <= 0xBF
          else if s[0] == 0xED then 0x80 <= s[1] <= 0x9F
          else Continuation(s[1]))
      && Continuation(s[2])
      && ValidUtf8(s[3..])
    else if 0xF0 <= s[0] <= 0xF4 then
      && |s| >= 4
      && (if s[0] == 0xF0 then 0x90 <= s[1] <= 0xBF
          else if s[0] == 0xF4 then 0x80 <= s[1] <= 0x8F
          else Continuation(s[1]))
      && Continuation(s[2]) && Continuation(s[3])
      && ValidUtf8(s[4..])
    else false
  }

  /** Every ASCII string decodes. */
  lemma {:induction false} AsciiIsValidUtf8(s: seq<byte>)
    requires forall i :: 0 <= i < |s| ==> s[i] < 0x80
    ensures ValidUtf8(s)
  {
    if s != [] {
      AsciiIsValidUtf8(s[1..]);
    }
  }

  /** The bytes C0, C1 and F5 to FF never occur in a string that decodes. */
  lemma {:induction false} ValidUtf8Bytes(s: seq<byte>)
    requires ValidUtf8(s)
    ensures forall i :: 0 <= i < |s| ==> s[i] != 0xC0 && s[i] != 0xC1 && s[i] < 0xF5
  {
    if s != [] {
      var k := if s[0] < 0x80 then 1 else if s[0] <= 0xDF then 2 else if s[0] <= 0xEF then 3 else 4;
      ValidUtf8Bytes(s[k..]);
      forall i | k <= i < |s| ensures s[i] != 0xC0 && s[i] != 0xC1 && s[i] < 0xF5 {
        assert s[i] == s[k..][i - k];
      }
    }
  }
}
