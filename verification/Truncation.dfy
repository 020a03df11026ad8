/** Shortening a long string at a sentence or word boundary near its limit: the byte loops of the
    source against a description in code points. */
module Truncation {
  import opened Utf8

  const SENTENCE_WINDOW := 100
  const WORD_WINDOW := 50

  predicate IsSentenceEnd(c: char) { c == '.' || c == '\n' }

  predicate IsSpace(c: char) { c == ' ' }

  // ---- In code points ----

  /** The last matching code point at or before `k` whose offset is positive and above `floor`, or -1. */
  function LastMatch(s: string, k: nat, floor: int, wanted: char -> bool): (at: int)
    requires k < |s|
    ensures at == -1 || (0 < at <= k && wanted(s[at]))
  {
    if k == 0 || Offset(s, k) <= floor then -1
    else if wanted(s[k]) then k
    else LastMatch(s, k - 1, floor, wanted)
  }

  /** How many code points of a string survive the cut. */
  function CutLength(s: string, limit: nat): (n: nat)
    ensures n <= |s|
  {
    if limit >= |s| then |s|
    else
      var sentence := LastMatch(s, limit, Offset(s, limit) - SENTENCE_WINDOW, IsSentenceEnd);
      if sentence >= 0 then sentence + 1
      else
        var word := LastMatch(s, limit, Offset(s, limit) - WORD_WINDOW, IsSpace);
        if word >= 0 then word else limit
  }

  function Cut(s: string, limit: nat): string { s[..CutLength(s, limit)] }

  lemma {:induction false} LastMatchIsLast(s: string, k: nat, floor: int, wanted: char -> bool)
    requires k < |s|
    ensures var at := LastMatch(s, k, floor, wanted);
            && (at >= 0 ==> Offset(s, at) > floor)
            && forall j | 0 < j <= k && at < j && Offset(s, j) > floor :: !wanted(s[j])
  {
    hide Offset;
    if k > 0 {
      if Offset(s, k) <= floor {
        forall j | 0 < j <= k ensures Offset(s, j) <= floor { OffsetsIncrease(s, j, k); }
      } else if !wanted(s[k]) {
        LastMatchIsLast(s, k - 1, floor, wanted);
      }
    }
  }

  /** The cut of a string longer than its positive limit: not empty, at most one code point over the
      limit and then only for a sentence end, and within a window of bytes below the limit. */
  lemma CutBounds(s: string, limit: nat)
    requires 0 < limit < |s|
    ensures 0 < CutLength(s, limit) <= limit + 1
    ensures CutLength(s, limit) == limit + 1 ==> IsSentenceEnd(s[limit])
    ensures Offset(s, limit) - 98 <= Offset(s, CutLength(s, limit)) <= Offset(s, limit) + 1
  {
    hide Offset, Encode;
    var at := Offset(s, limit);
    var sentence := LastMatch(s, limit, at - SENTENCE_WINDOW, IsSentenceEnd);
    LastMatchIsLast(s, limit, at - SENTENCE_WINDOW, IsSentenceEnd);
    LastMatchIsLast(s, limit, at - WORD_WINDOW, IsSpace);
    if sentence >= 0 {
      OffsetStep(s, sentence);
      OffsetsIncrease(s, sentence, limit);
    } else {
      var word := LastMatch(s, limit, at - WORD_WINDOW, IsSpace);
      if word >= 0 {
        OffsetsIncrease(s, word, limit);
      }
    }
  }

  /** A code point that may end the cut: within `window` bytes before the limit and not the first. */
  predicate InWindow(s: string, j: nat, limit: nat, window: nat, wanted: char -> bool)
    requires limit < |s|
  {
    0 < j <= limit && Offset(s, j) > Offset(s, limit) - window && wanted(s[j])
  }

  /** The cut prefers the latest sentence end within its window of bytes, then the latest space. */
  lemma CutIsLatestBoundary(s: string, limit: nat)
    requires 0 < limit < |s|
    ensures var n := CutLength(s, limit);
            if exists j: nat :: InWindow(s, j, limit, SENTENCE_WINDOW, IsSentenceEnd) then
              && InWindow(s, n - 1, limit, SENTENCE_WINDOW, IsSentenceEnd)
              && forall j: nat | InWindow(s, j, limit, SENTENCE_WINDOW, IsSentenceEnd) :: j < n
            else if exists j: nat :: InWindow(s, j, limit, WORD_WINDOW, IsSpace) then
              && InWindow(s, n, limit, WORD_WINDOW, IsSpace)
              && forall j: nat | InWindow(s, j, limit, WORD_WINDOW, IsSpace) :: j <= n
            else n == limit
  {
    hide Offset;
    var at := Offset(s, limit);
    LastMatchIsLast(s, limit, at - SENTENCE_WINDOW, IsSentenceEnd);
    LastMatchIsLast(s, limit, at - WORD_WINDOW, IsSpace);
    var sentence := LastMatch(s, limit, at - SENTENCE_WINDOW, IsSentenceEnd);
    var word := LastMatch(s, limit, at - WORD_WINDOW, IsSpace);
    if sentence >= 0 {
      assert InWindow(s, sentence, limit, SENTENCE_WINDOW, IsSentenceEnd);
    } else if word >= 0 {
      assert InWindow(s, word, limit, WORD_WINDOW, IsSpace);
    }
  }

  // ---- In bytes, as the source scans ----

  /** The last byte at or before `i`, positive and above `floor`, that is one of `stops`; or -1. */
  function ScanBack(b: seq<byte>, i: nat, floor: int, stops: set<int>): int
    requires i < |b|
  {
    if i <= floor || i == 0 then -1
    else if b[i] in stops then i
    else ScanBack(b, i - 1, floor, stops)
  }

  function CutBytes(b: seq<byte>, limit: nat): seq<byte> {
    var at := RuneOffset(b, limit);
    if at >= |b| then b
    else
      var sentence := ScanBack(b, at, at - SENTENCE_WINDOW, {46, 10});
      if sentence >= 0 then CutAt(b, sentence + 1)
      else
        var word := ScanBack(b, at, at - WORD_WINDOW, {32});
        if word >= 0 then CutAt(b, word) else b[..at]
  }

  function CutAt(b: seq<byte>, at: nat): seq<byte> {
    if at <= |b| then b[..at] else b
  }

  method RuneOffsetLoop(text: seq<byte>, n: nat) returns (at: nat)
    ensures at == RuneOffset(text, n)
  {
    hide RuneSize;
    at := 0;
    var k := 0;
    while k < n
      invariant 0 <= k <= n && at <= |text|
      invariant at + RuneOffset(text[at..], n - k) == RuneOffset(text, n)
    {
      var size := RuneSize(text[at..]);
      assert text[at..][size..] == text[at + size..];
      at := at + size;
      if at >= |text| {
        return |text|;
      }
      k := k + 1;
    }
  }

  method ScanBackward(text: seq<byte>, limit: nat, window: nat, stops: set<int>) returns (at: int)
    requires limit < |text|
    ensures at == ScanBack(text, limit, limit - window, stops)
  {
    var i := limit;
    while i > limit - window && i > 0
      invariant 0 <= i <= limit
      invariant ScanBack(text, i, limit - window, stops) == ScanBack(text, limit, limit - window, stops)
    {
      if text[i] in stops {
        return i;
      }
      i := i - 1;
    }
    return -1;
  }

  lemma {:induction false} ScanBackRange(b: seq<byte>, i: nat, floor: int, stops: set<int>)
    requires i < |b|
    ensures -1 <= ScanBack(b, i, floor, stops) <= i
  {
    if i > 0 {
      ScanBackRange(b, i - 1, floor, stops);
    }
  }

  method TruncateAtBoundary(text: seq<byte>, runeLimit: nat) returns (cut: seq<byte>)
    ensures cut == CutBytes(text, runeLimit)
  {
    var byteLimit := RuneOffsetLoop(text, runeLimit);
    if byteLimit >= |text| {
      return text;
    }
    var sentenceCut := ScanBackward(text, byteLimit, SENTENCE_WINDOW, {46, 10});
    ScanBackRange(text, byteLimit, byteLimit - SENTENCE_WINDOW, {46, 10});
    if sentenceCut >= 0 {
      return text[..sentenceCut + 1];
    }
    var wordCut := ScanBackward(text, byteLimit, WORD_WINDOW, {32});
    ScanBackRange(text, byteLimit, byteLimit - WORD_WINDOW, {32});
    if wordCut >= 0 {
      return text[..wordCut];
    }
    return text[..byteLimit];
  }

  // ---- The two agree on valid UTF-8 ----

  /** Whether a byte set stands for a property of single code points. */
  ghost predicate Marks(stops: set<int>, wanted: char -> bool) {
    && (forall b | b in stops :: b < 0x80)
    && forall c: char :: wanted(c) <==> c as int < 0x80 && c as int in stops
  }

  /** Bytes inside a code point never stop the scan. */
  lemma {:induction false} SkipContinuation(s: string, k: nat, i: nat, floor: int, stops: set<int>)
    requires k < |s| && Offset(s, k) <= i < Offset(s, k + 1)
    requires forall b | b in stops :: b < 0x80
    requires Offset(s, k + 1) <= |Encode(s)|
    ensures ScanBack(Encode(s), i, floor, stops) ==
            if i > floor && floor < Offset(s, k) then ScanBack(Encode(s), Offset(s, k), floor, stops) else -1
    decreases i
  {
    hide Offset, Encode;
    OffsetStep(s, k);
    if i > Offset(s, k) {
      var j := i - Offset(s, k);
      LaterBytes(s[k], j);
      assert Encode(s)[Offset(s, k) + j] == EncodeChar(s[k])[j];
      SkipContinuation(s, k, i - 1, floor, stops);
    }
  }

  lemma LaterBytes(c: char, j: nat)
    requires 0 < j < |EncodeChar(c)|
    ensures EncodeChar(c)[j] >= 0x80
  {
  }

  lemma FirstByte(c: char)
    ensures if c as int < 0x80 then EncodeChar(c) == [c as int] else EncodeChar(c)[0] >= 0x80
  {
  }

  lemma {:induction false} ScanFindsMatch(s: string, k: nat, floor: int, stops: set<int>, wanted: char -> bool)
    requires k < |s| && Marks(stops, wanted)
    requires Offset(s, k) < |Encode(s)|
    ensures var at := LastMatch(s, k, floor, wanted);
            ScanBack(Encode(s), Offset(s, k), floor, stops) == if at >= 0 then Offset(s, at) else -1
    decreases k
  {
    hide Offset, Encode, EncodeChar;
    FirstByte(s[k]);
    OffsetStep(s, k);
    assert Encode(s)[Offset(s, k) + 0] == EncodeChar(s[k])[0];
    if k == 0 {
      ZeroOffset(s);
    } else if Offset(s, k) > floor {
      OffsetStep(s, k - 1);
      if !wanted(s[k]) {
        SkipContinuation(s, k - 1, Offset(s, k) - 1, floor, stops);
        ScanFindsMatch(s, k - 1, floor, stops, wanted);
      }
    }
  }

  lemma ZeroOffset(s: string)
    ensures Offset(s, 0) == 0
  {
    assert s[..0] == "";
  }

  /** On valid UTF-8 the byte loops cut exactly where the code point description says, so never inside
      a code point. */
  lemma CutBytesIsCut(s: string, limit: nat)
    ensures CutBytes(Encode(s), limit) == Encode(Cut(s, limit))
  {
    hide Encode, Offset, RuneOffset;
    RuneOffsetIsOffset(s, limit);
    WholeOffset(s);
    if limit < |s| {
      var at, b := Offset(s, limit), Encode(s);
      OffsetStep(s, limit);
      ScanFindsMatch(s, limit, at - SENTENCE_WINDOW, {46, 10}, IsSentenceEnd);
      ScanFindsMatch(s, limit, at - WORD_WINDOW, {32}, IsSpace);
      var sentence := LastMatch(s, limit, at - SENTENCE_WINDOW, IsSentenceEnd);
      if sentence >= 0 {
        OffsetStep(s, sentence);
        FirstByte(s[sentence]);
      }
      OffsetSplits(s, CutLength(s, limit));
    }
  }

  lemma WholeOffset(s: string)
    ensures Offset(s, |s|) == |Encode(s)| && s[..|s|] == s
  {
    assert s[..|s|] == s;
  }
}
