/** UTF-8 as Go reads it: the encoding of a string of code points, and the size of the rune that a
    byte sequence starts with. */
module Utf8 {
  type byte = b: int | 0 <= b < 256

  function EncodeChar(c: char): (bytes: seq<byte>)
    ensures 1 <= |bytes| <= 4
  {
    var n := c as int;
    if n < 0x80 then [n]
    else if n < 0x800 then [0xC0 + n / 64, 0x80 + n % 64]
    else if n < 0x10000 then [0xE0 + n / 4096, 0x80 + n / 64 % 64, 0x80 + n % 64]
    else [0xF0 + n / 262144, 0x80 + n / 4096 % 64, 0x80 + n / 64 % 64, 0x80 + n % 64]
  }

  function Encode(s: string): seq<byte> {
    if s == "" then [] else EncodeChar(s[0]) + Encode(s[1..])
  }

  predicate IsContinuation(b: byte) { 0x80 <= b < 0xC0 }

  /** The size `utf8.DecodeRuneInString` reports: 1 for a byte that starts no valid encoding. */
  function RuneSize(b: seq<byte>): (n: nat)
    ensures n <= |b|
    ensures b != [] ==> n > 0
  {
    if b == [] then 0
    else if 0xC2 <= b[0] <= 0xDF && |b| >= 2 && IsContinuation(b[1]) then 2
    else if 0xE0 <= b[0] <= 0xEF && |b| >= 3 && ThirdOk(b[0], b[1]) && IsContinuation(b[2]) then 3
    else if 0xF0 <= b[0] <= 0xF4 && |b| >= 4 && FourthOk(b[0], b[1]) && IsContinuation(b[2]) && IsContinuation(b[3])
    then 4
    else 1
  }

  /** The second byte of a three-byte encoding: no overlong forms, no surrogates. */
  predicate ThirdOk(first: byte, second: byte) {
    (if first == 0xE0 then 0xA0 else 0x80) <= second <= (if first == 0xED then 0x9F else 0xBF)
  }

  /** The second byte of a four-byte encoding: no overlong forms, nothing beyond U+10FFFF. */
  predicate FourthOk(first: byte, second: byte) {
    (if first == 0xF0 then 0x90 else 0x80) <= second <= (if first == 0xF4 then 0x8F else 0xBF)
  }

  /** The byte position of the `n`th rune, or the end. */
  function RuneOffset(b: seq<byte>, n: nat): (at: nat)
    ensures at <= |b|
  {
    if n == 0 || b == [] then 0 else RuneSize(b) + RuneOffset(b[RuneSize(b)..], n - 1)
  }

  lemma RuneSizeOfEncoded(c: char, rest: seq<byte>)
    ensures RuneSize(EncodeChar(c) + rest) == |EncodeChar(c)|
  {
    var b, n := EncodeChar(c) + rest, c as int;
    assert forall i | 0 <= i < |EncodeChar(c)| :: b[i] == EncodeChar(c)[i];
    if 0x80 <= n < 0x800 {
      assert 2 <= n / 64 < 32;
    } else if 0x800 <= n < 0x10000 {
      assert n / 4096 == 0 ==> n / 64 >= 32;
      assert n / 64 == n / 4096 * 64 + n / 64 % 64;
      assert n / 4096 == 13 ==> n < 0xD800;
    } else if 0x10000 <= n {
      assert n / 4096 == n / 262144 * 64 + n / 4096 % 64;
      assert n / 4096 >= 16 && n / 4096 <= 0x10F;
    }
  }

  /** The byte offset of the `k`th code point. */
  function Offset(s: string, k: nat): nat
    requires k <= |s|
  {
    |Encode(s[..k])|
  }

  lemma {:induction false} EncodeConcat(s: string, t: string)
    ensures Encode(s + t) == Encode(s) + Encode(t)
  {
    hide EncodeChar;
    if s == "" {
      assert s + t == t;
    } else {
      assert (s + t)[1..] == s[1..] + t;
      EncodeConcat(s[1..], t);
      assert EncodeChar(s[0]) + (Encode(s[1..]) + Encode(t)) == EncodeChar(s[0]) + Encode(s[1..]) + Encode(t);
    }
  }

  /** Cutting the bytes at a code point's offset cuts the string there. */
  lemma OffsetSplits(s: string, k: nat)
    requires k <= |s|
    ensures Offset(s, k) <= |Encode(s)|
    ensures Encode(s)[..Offset(s, k)] == Encode(s[..k])
    ensures Encode(s)[Offset(s, k)..] == Encode(s[k..])
  {
    assert s == s[..k] + s[k..];
    EncodeConcat(s[..k], s[k..]);
  }

  lemma EncodeFirst(s: string)
    requires s != ""
    ensures Encode(s) == EncodeChar(s[0]) + Encode(s[1..])
  {
  }

  lemma OffsetStep(s: string, k: nat)
    requires k < |s|
    ensures Offset(s, k + 1) == Offset(s, k) + |EncodeChar(s[k])|
    ensures Offset(s, k + 1) <= |Encode(s)|
    ensures forall i | 0 <= i < |EncodeChar(s[k])| :: Encode(s)[Offset(s, k) + i] == EncodeChar(s[k])[i]
  {
    hide EncodeChar, Encode;
    OffsetSplits(s, k);
    OffsetSplits(s, k + 1);
    EncodeFirst(s[k..]);
    EncodeFirst([s[k]]);
    EncodeEmpty();
    EncodeConcat(s[..k], [s[k]]);
    assert s[..k + 1] == s[..k] + [s[k]];
    assert [s[k]][1..] == "";
    assert EncodeChar(s[k]) + [] == EncodeChar(s[k]);
    assert forall i | 0 <= i < |EncodeChar(s[k])| ::
        Encode(s)[Offset(s, k) + i] == Encode(s)[Offset(s, k)..][i] == EncodeChar(s[k])[i];
  }

  lemma EncodeEmpty()
    ensures Encode("") == []
  {
  }

  lemma {:induction false} OffsetsIncrease(s: string, j: nat, k: nat)
    requires j <= k <= |s|
    ensures Offset(s, j) + (k - j) <= Offset(s, k) <= Offset(s, j) + 4 * (k - j)
    decreases k - j
  {
    hide Encode, EncodeChar;
    if j < k {
      OffsetStep(s, k - 1);
      OffsetsIncrease(s, j, k - 1);
    }
  }

  /** On valid UTF-8 the byte-wise walk over runes stops at code point offsets. */
  lemma {:induction false} RuneOffsetIsOffset(s: string, n: nat)
    ensures RuneOffset(Encode(s), n) == Offset(s, if n < |s| then n else |s|)
    decreases n
  {
    hide EncodeChar, RuneSize;
    if n == 0 || s == "" {
      assert s[..0] == "" && s[..|s|] == s;
    } else {
      RuneSizeOfEncoded(s[0], Encode(s[1..]));
      EncodeFirst(s);
      var size := |EncodeChar(s[0])|;
      assert Encode(s)[size..] == Encode(s[1..]);
      RuneOffsetIsOffset(s[1..], n - 1);
      var k := if n < |s| then n else |s|;
      assert s[..k] == [s[0]] + s[1..][..k - 1];
      EncodeConcat([s[0]], s[1..][..k - 1]);
      EncodeFirst([s[0]]);
      assert [s[0]][1..] == "" && EncodeChar(s[0]) + [] == EncodeChar(s[0]);
    }
  }
}
