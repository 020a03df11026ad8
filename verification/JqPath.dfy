/** Printing a projection path as a jq filter, and replacing the array indexes in a printed path. */
module JqPath {
  import opened Options
  import opened ToonText

  /** A step of a path: an object key or an array index. The source keeps both as strings. */
  datatype Seg = Key(key: string) | Index(index: nat)

  function SegText(seg: Seg): string {
    match seg
    case Key(key) => key
    case Index(index) => "[" + Digits(index) + "]"
  }

  function PathTexts(segs: seq<Seg>): (path: seq<string>)
    ensures |path| == |segs| && forall i | 0 <= i < |segs| :: path[i] == SegText(segs[i])
  {
    seq(|segs|, i requires 0 <= i < |segs| => SegText(segs[i]))
  }

  predicate IsIdentChar(c: char) { 'a' <= c <= 'z' || 'A' <= c <= 'Z' || IsDigit(c) || c == '_' }

  predicate IsIdentSafe(s: string) {
    s != "" && !IsDigit(s[0]) && forall i | 0 <= i < |s| :: IsIdentChar(s[i])
  }

  /** A character inside a JSON string, with HTML escaping on as `encoding/json` has it. */
  function JsonEscape(c: char): string {
    if c == '"' then "\\\""
    else if c == '\\' then "\\\\"
    else if c == '\U{08}' then "\\b"
    else if c == '\U{0C}' then "\\f"
    else if c == '\n' then "\\n"
    else if c == '\r' then "\\r"
    else if c == '\t' then "\\t"
    else if c < ' ' || c == '<' || c == '>' || c == '&' then "\\u00" + [HexDigit(c as nat / 16), HexDigit(c as nat % 16)]
    else if c == '\U{2028}' then "\\u2028"
    else if c == '\U{2029}' then "\\u2029"
    else [c]
  }

  function JsonEscapeAll(s: string): string {
    if s == "" then "" else JsonEscape(s[0]) + JsonEscapeAll(s[1..])
  }

  /** One segment; a leading dot is added elsewhere when the path starts with a bracket. */
  function Segment(seg: string): string {
    if IsIdentSafe(seg) then "." + seg
    else if seg != "" && seg[0] == '[' then seg
    else "[\"" + JsonEscapeAll(seg) + "\"]"
  }

  function Segments(path: seq<string>): string {
    if path == [] then "" else Segment(path[0]) + Segments(path[1..])
  }

  function FormatPath(path: seq<string>): string {
    if path == [] then "."
    else if IsIdentSafe(path[0]) then Segments(path)
    else "." + Segments(path)
  }

  lemma {:induction false} SegmentsSnoc(path: seq<string>, seg: string)
    ensures Segments(path + [seg]) == Segments(path) + Segment(seg)
  {
    hide Segment;
    if path == [] {
      assert path + [seg] == [seg] && [seg][1..] == [];
      assert "" + Segment(seg) == Segment(seg) + "";
    } else {
      assert (path + [seg])[1..] == path[1..] + [seg];
      SegmentsSnoc(path[1..], seg);
      assert Segment(path[0]) + (Segments(path[1..]) + Segment(seg)) == Segment(path[0]) + Segments(path[1..]) + Segment(seg);
    }
  }

  lemma SegmentNonEmpty(seg: string)
    ensures Segment(seg) != ""
  {
  }

  method WriteSegment(b: string, seg: string) returns (out: string)
    ensures out == b + (if b == "" && !IsIdentSafe(seg) then "." else "") + Segment(seg)
  {
    if IsIdentSafe(seg) {
      assert b + "" == b;
      return b + ("." + seg);
    }
    var start := if |b| == 0 then "." else b;
    assert start == b + (if b == "" then "." else "");
    if |seg| > 0 && seg[0] == '[' {
      return start + seg;
    }
    return start + ("[\"" + JsonEscapeAll(seg) + "\"]");
  }

  method FormatPathLoop(path: seq<string>) returns (text: string)
    ensures text == FormatPath(path)
  {
    hide Segment, IsIdentSafe;
    if |path| == 0 {
      return ".";
    }
    var b := "";
    ghost var dot := if IsIdentSafe(path[0]) then "" else ".";
    for i := 0 to |path|
      invariant i == 0 ==> b == ""
      invariant i > 0 ==> b != "" && b == dot + Segments(path[..i])
    {
      SegmentsSnoc(path[..i], path[i]);
      SegmentNonEmpty(path[i]);
      assert path[..i + 1] == path[..i] + [path[i]];
      ghost var before := b;
      b := WriteSegment(b, path[i]);
      if i == 0 {
        assert path[..0] == [] && "" + Segment(path[0]) == Segment(path[0]);
        assert b == dot + Segment(path[0]);
      } else {
        assert before + "" == before;
        assert dot + Segments(path[..i]) + Segment(path[i]) == dot + (Segments(path[..i]) + Segment(path[i]));
      }
    }
    assert path[..|path|] == path;
    assert "" + Segments(path) == Segments(path);
    return b;
  }

  // ---- Collapsing indexes ----

  /** The length of `[N]` at the start of `s`, or 0 if no such index starts there. */
  function IndexLength(s: string): (n: nat)
    requires s != ""
    ensures n <= |s|
  {
    var digits := DigitRun(s[1..]);
    if digits > 0 && digits + 1 < |s| && s[digits + 1] == ']' then digits + 2 else 0
  }

  /** A quoted key, after its opening `["`: what is copied and what is left. */
  function CopyQuoted(s: string): (r: (string, string))
    ensures |r.1| <= |s|
    decreases |s|
  {
    if s == "" then ("", "")
    else if s[0] == '\\' && |s| >= 2 then
      var (copied, rest) := CopyQuoted(s[2..]);
      (s[..2] + copied, rest)
    else if s[0] == '"' && |s| >= 2 && s[1] == ']' then ("\"]", s[2..])
    else
      var (copied, rest) := CopyQuoted(s[1..]);
      ([s[0]] + copied, rest)
  }

  predicate OpensQuoted(s: string) { |s| >= 2 && s[0] == '[' && s[1] == '"' }

  function Collapse(s: string): string
    decreases |s|
  {
    if s == "" then ""
    else if OpensQuoted(s) then
      var (copied, rest) := CopyQuoted(s[2..]);
      "[\"" + copied + Collapse(rest)
    else if s[0] == '[' && IndexLength(s) > 0 then "[]" + Collapse(s[IndexLength(s)..])
    else [s[0]] + Collapse(s[1..])
  }

  /** What copying does at position `i` of a quoted key. */
  lemma CopyQuotedAt(p: string, i: nat)
    requires i < |p|
    ensures var (c, last) := (p[i], i + 1 == |p|);
            CopyQuoted(p[i..]) ==
            if c == '\\' && !last then ([p[i], p[i + 1]] + CopyQuoted(p[i + 2..]).0, CopyQuoted(p[i + 2..]).1)
            else if c == '"' && !last && p[i + 1] == ']' then ("\"]", p[i + 2..])
            else ([c] + CopyQuoted(p[i + 1..]).0, CopyQuoted(p[i + 1..]).1)
  {
    var rest := p[i..];
    assert rest[0] == p[i] && rest[1..] == p[i + 1..];
    if i + 1 < |p| {
      assert rest[1] == p[i + 1] && rest[2..] == p[i + 2..] && rest[..2] == [p[i], p[i + 1]];
    }
  }

  lemma Regroup(a: string, b: string, c: string)
    ensures a + (b + c) == a + b + c
  {
  }

  method CopyQuotedKey(b: string, p: string, start: nat) returns (out: string, i: nat)
    requires start + 2 <= |p|
    ensures i <= |p| && i > start
    ensures out == b + ("[\"" + CopyQuoted(p[start + 2..]).0) && p[i..] == CopyQuoted(p[start + 2..]).1
  {
    hide CopyQuoted;
    out := b + "[\"";
    i := start + 2;
    ghost var whole := CopyQuoted(p[start + 2..]);
    Regroup(b, "[\"", whole.0);
    while i < |p|
      invariant start + 2 <= i <= |p|
      invariant out + CopyQuoted(p[i..]).0 == b + ("[\"" + whole.0)
      invariant CopyQuoted(p[i..]).1 == whole.1
    {
      CopyQuotedAt(p, i);
      if p[i] == '\\' && i + 1 < |p| {
        Regroup(out, [p[i], p[i + 1]], CopyQuoted(p[i + 2..]).0);
        out := out + [p[i], p[i + 1]];
        i := i + 2;
        continue;
      }
      if p[i] == '"' && i + 1 < |p| && p[i + 1] == ']' {
        out := out + "\"]";
        i := i + 2;
        return;
      }
      Regroup(out, [p[i]], CopyQuoted(p[i + 1..]).0);
      out := out + [p[i]];
      i := i + 1;
    }
    CopyNothing(p[i..]);
    assert out + "" == out;
  }

  lemma CopyNothing(s: string)
    requires s == ""
    ensures CopyQuoted(s) == ("", "") && Collapse(s) == ""
  {
  }

  lemma {:induction false} NothingToCollapse(s: string)
    requires '[' !in s
    ensures Collapse(s) == s
  {
    if s != "" {
      assert s[0] in s && forall c | c in s[1..] :: c in s;
      NothingToCollapse(s[1..]);
      assert [s[0]] + s[1..] == s;
    }
  }

  method CollapseNumericIndex(p: string, i: nat) returns (next: nat, ok: bool)
    requires i < |p|
    ensures next <= |p|
    ensures ok == (IndexLength(p[i..]) > 0) && next == i + IndexLength(p[i..])
  {
    var j := i + 1;
    while j < |p| && '0' <= p[j] <= '9'
      invariant i + 1 <= j <= |p|
      invariant forall k | i + 1 <= k < j :: IsDigit(p[k])
    {
      j := j + 1;
    }
    assert p[i..][1..] == p[i + 1..j] + p[j..];
    DigitRunOf(p[i + 1..j], p[j..]);
    if j > i + 1 && j < |p| && p[j] == ']' {
      return j + 1, true;
    }
    return i, false;
  }

  /** What collapsing does at position `i`. */
  lemma CollapseAt(p: string, i: nat)
    requires i < |p|
    ensures var rest := p[i..];
            Collapse(rest) ==
            if p[i] == '[' && i + 1 < |p| && p[i + 1] == '"' then
              "[\"" + CopyQuoted(p[i + 2..]).0 + Collapse(CopyQuoted(p[i + 2..]).1)
            else if p[i] == '[' && IndexLength(rest) > 0 then "[]" + Collapse(p[i + IndexLength(rest)..])
            else [p[i]] + Collapse(p[i + 1..])
  {
    hide CopyQuoted, IndexLength;
    var rest := p[i..];
    assert rest[0] == p[i] && rest[1..] == p[i + 1..];
    if OpensQuoted(rest) {
      assert rest[2..] == p[i + 2..];
    }
    assert rest[IndexLength(rest)..] == p[i + IndexLength(rest)..];
  }

  method CollapseIndex(p: string) returns (text: string)
    ensures text == Collapse(p)
  {
    hide CopyQuoted, IndexLength, Collapse;
    if '[' !in p {
      NothingToCollapse(p);
      return p;
    }
    var b := "";
    var i := 0;
    assert p[0..] == p && "" + Collapse(p) == Collapse(p);
    while i < |p|
      invariant i <= |p|
      invariant b + Collapse(p[i..]) == Collapse(p)
      decreases |p| - i
    {
      CollapseAt(p, i);
      if p[i] == '[' && i + 1 < |p| && p[i + 1] == '"' {
        Regroup(b, "[\"" + CopyQuoted(p[i + 2..]).0, Collapse(CopyQuoted(p[i + 2..]).1));
        b, i := CopyQuotedKey(b, p, i);
        continue;
      }
      if p[i] == '[' {
        var next, ok := CollapseNumericIndex(p, i);
        if ok {
          Regroup(b, "[]", Collapse(p[next..]));
          b := b + "[]";
          i := next;
          continue;
        }
      }
      Regroup(b, [p[i]], Collapse(p[i + 1..]));
      b := b + [p[i]];
      i := i + 1;
    }
    CopyNothing(p[i..]);
    assert b + "" == b;
    return b;
  }

  // ---- Collapsing a printed path prints the collapsed path ----

  /** A key that starts with a bracket is printed verbatim. */
  predicate IsBracketed(s: string) { s != "" && s[0] == '[' }

  /** Keys that are printed as keys. */
  predicate PlainKeys(segs: seq<Seg>) {
    forall i | 0 <= i < |segs| && segs[i].Key? :: !IsBracketed(segs[i].key)
  }

  /** Whether a quoted key, after its opening `["`, comes to an end. */
  predicate Closes(s: string)
    decreases |s|
  {
    if s == "" then false
    else if s[0] == '\\' && |s| >= 2 then Closes(s[2..])
    else if s[0] == '"' && |s| >= 2 && s[1] == ']' then true
    else Closes(s[1..])
  }

  /** A text in which collapsing finds no index and that does not leave a quoted key open. */
  predicate Inert(s: string)
    decreases |s|
  {
    if s == "" then true
    else if OpensQuoted(s) then Closes(s[2..]) && Inert(CopyQuoted(s[2..]).1)
    else !(s[0] == '[' && IndexLength(s) > 0) && Inert(s[1..])
  }

  predicate InertKeys(segs: seq<Seg>) {
    forall i | 0 <= i < |segs| && segs[i].Key? && IsBracketed(segs[i].key) :: Inert(segs[i].key)
  }

  /** The path with every index segment replaced by `[]`. */
  function Generalized(segs: seq<Seg>): (path: seq<string>)
    ensures |path| == |segs|
  {
    seq(|segs|, i requires 0 <= i < |segs| => if segs[i].Index? then "[]" else segs[i].key)
  }

  lemma {:induction false} CopyPlain(s: string, rest: string)
    requires '[' !in s
    ensures Collapse(s + rest) == s + Collapse(rest)
  {
    if s == "" {
      assert s + rest == rest && "" + Collapse(rest) == Collapse(rest);
    } else {
      assert s[0] in s && forall c | c in s[1..] :: c in s;
      assert (s + rest)[1..] == s[1..] + rest;
      CopyPlain(s[1..], rest);
      assert [s[0]] + (s[1..] + Collapse(rest)) == s + Collapse(rest);
    }
  }

  lemma {:induction false} CopyQuotedEscaped(s: string, rest: string)
    ensures CopyQuoted(JsonEscapeAll(s) + "\"]" + rest) == (JsonEscapeAll(s) + "\"]", rest)
  {
    hide JsonEscape;
    var t := JsonEscapeAll(s) + "\"]" + rest;
    if s == "" {
      assert t[0] == '"' && t[1] == ']' && t[2..] == rest && "" + "\"]" == "\"]";
    } else {
      var more := JsonEscapeAll(s[1..]) + "\"]" + rest;
      CopyQuotedEscaped(s[1..], rest);
      assert t == JsonEscape(s[0]) + more;
      CopyEscape(s[0], more);
      assert JsonEscape(s[0]) + (JsonEscapeAll(s[1..]) + "\"]") == JsonEscapeAll(s) + "\"]";
    }
  }

  /** An escaped character is itself, or a backslash, one character, and plain ones after that. */
  lemma EscapeShape(c: char)
    ensures var e := JsonEscape(c);
            if e[0] == '\\' then |e| >= 2 && forall i | 2 <= i < |e| :: e[i] != '\\' && e[i] != '"'
            else e == [c] && c != '"'
  {
  }

  /** An escape sequence is copied whole and never ends the key. */
  lemma CopyEscape(c: char, more: string)
    ensures CopyQuoted(JsonEscape(c) + more) == (JsonEscape(c) + CopyQuoted(more).0, CopyQuoted(more).1)
  {
    hide JsonEscape, CopyQuoted;
    EscapeShape(c);
    var e := JsonEscape(c);
    var t := e + more;
    CopyStep(t);
    if e[0] == '\\' {
      assert t[0] == '\\';
      assert t[2..] == e[2..] + more && t[..2] == e[..2];
      CopyOrdinary(e[2..], more);
      assert e[..2] + (e[2..] + CopyQuoted(more).0) == e + CopyQuoted(more).0;
    } else {
      assert t[1..] == more;
    }
  }

  lemma {:induction false} CopyOrdinary(s: string, more: string)
    requires forall i | 0 <= i < |s| :: s[i] != '\\' && s[i] != '"'
    ensures CopyQuoted(s + more) == (s + CopyQuoted(more).0, CopyQuoted(more).1)
  {
    if s == "" {
      assert s + more == more && "" + CopyQuoted(more).0 == CopyQuoted(more).0;
    } else {
      assert (s + more)[1..] == s[1..] + more;
      CopyOrdinary(s[1..], more);
      assert [s[0]] + (s[1..] + CopyQuoted(more).0) == s + CopyQuoted(more).0;
    }
  }

  lemma IdentHasNoBracket(s: string)
    requires IsIdentSafe(s)
    ensures '[' !in "." + s
  {
  }

  /** What printing can continue with. */
  predicate Continues(rest: string) { rest == "" || rest[0] == '.' || rest[0] == '[' }

  lemma {:induction false} CopyClosed(s: string, rest: string)
    requires Closes(s)
    ensures CopyQuoted(s + rest) == (CopyQuoted(s).0, CopyQuoted(s).1 + rest) && CopyQuoted(s).0 + CopyQuoted(s).1 == s
    decreases |s|
  {
    hide CopyQuoted, Closes;
    var t := s + rest;
    NotClosed();
    CopyStep(s);
    CopyStep(t);
    if s[0] == '\\' && |s| >= 2 {
      assert t[2..] == s[2..] + rest && t[..2] == s[..2];
      CopyClosed(s[2..], rest);
      assert s[..2] + s[2..] == s;
    } else if s[0] == '"' && |s| >= 2 && s[1] == ']' {
      assert t[2..] == s[2..] + rest;
      assert "\"]" + s[2..] == s;
    } else {
      assert s[1..] != "" && t[1..] == s[1..] + rest;
      CopyClosed(s[1..], rest);
      assert [s[0]] + s[1..] == s;
    }
  }

  lemma NotClosed()
    ensures !Closes("")
  {
  }

  lemma CopyStep(s: string)
    requires s != ""
    ensures CopyQuoted(s) ==
            if s[0] == '\\' && |s| >= 2 then (s[..2] + CopyQuoted(s[2..]).0, CopyQuoted(s[2..]).1)
            else if s[0] == '"' && |s| >= 2 && s[1] == ']' then ("\"]", s[2..])
            else ([s[0]] + CopyQuoted(s[1..]).0, CopyQuoted(s[1..]).1)
    ensures Closes(s) <==>
            if s[0] == '\\' && |s| >= 2 then Closes(s[2..])
            else (s[0] == '"' && |s| >= 2 && s[1] == ']') || Closes(s[1..])
  {
  }

  lemma CopyIndex()
    ensures CopyQuoted("[0]") == ("[0]", "") && CopyQuoted("0]") == ("0]", "")
  {
    hide CopyQuoted;
    CopyNothing("");
    CopyOrdinary("[0]", "");
    CopyOrdinary("0]", "");
    assert "[0]" + "" == "[0]" && "0]" + "" == "0]";
  }

  /** A quoted key left open is copied to the end, an index behind it included. */
  lemma {:induction false} CopyOpen(s: string)
    requires !Closes(s)
    ensures CopyQuoted(s + "[0]") == (s + "[0]", "")
    decreases |s|
  {
    hide CopyQuoted, Closes;
    var t := s + "[0]";
    CopyIndex();
    CopyStep(t);
    if s == "" {
      assert t == "[0]";
      return;
    }
    CopyStep(s);
    if s[0] == '\\' && |s| >= 2 {
      assert t[2..] == s[2..] + "[0]" && t[..2] == s[..2];
      CopyOpen(s[2..]);
      assert s[..2] + (s[2..] + "[0]") == t;
    } else if s == "\\" {
      assert t[2..] == "0]" && t[..2] == "\\[" && "\\[" + "0]" == t;
    } else {
      assert t[1..] == s[1..] + "[0]";
      CopyOpen(s[1..]);
      assert [s[0]] + (s[1..] + "[0]") == t;
    }
  }

  /** What comes behind a text does not make an index of its end. */
  lemma IndexStays(s: string, rest: string)
    requires s != "" && Continues(rest)
    ensures OpensQuoted(s + rest) == OpensQuoted(s)
    ensures s[0] == '[' ==> IndexLength(s + rest) == IndexLength(s)
  {
    var t, n := s + rest, DigitRun(s[1..]);
    assert t[1..] == s[1..] + rest;
    var digits := s[1..][..n];
    assert s[1..] == digits + s[1..][n..] && t[1..] == digits + (s[1..][n..] + rest);
    DigitRunOf(digits, s[1..][n..] + rest);
  }

  lemma CollapseStep(s: string)
    requires s != ""
    ensures OpensQuoted(s) ==>
              && Collapse(s) == "[\"" + CopyQuoted(s[2..]).0 + Collapse(CopyQuoted(s[2..]).1)
              && (Inert(s) <==> Closes(s[2..]) && Inert(CopyQuoted(s[2..]).1))
    ensures !OpensQuoted(s) && s[0] == '[' && IndexLength(s) > 0 ==>
              Collapse(s) == "[]" + Collapse(s[IndexLength(s)..]) && !Inert(s)
    ensures !OpensQuoted(s) && !(s[0] == '[' && IndexLength(s) > 0) ==>
              Collapse(s) == [s[0]] + Collapse(s[1..]) && (Inert(s) <==> Inert(s[1..]))
  {
    hide CopyQuoted, IndexLength, Closes;
  }

  lemma {:induction false} CollapseInert(s: string, rest: string)
    requires Inert(s) && Continues(rest)
    ensures Collapse(s + rest) == s + Collapse(rest)
    decreases |s|
  {
    hide IndexLength, Collapse, CopyQuoted, Closes;
    var t := s + rest;
    if s == "" {
      assert t == rest && "" + Collapse(rest) == Collapse(rest);
    } else {
      IndexStays(s, rest);
      CollapseStep(s);
      CollapseStep(t);
      hide Inert;
      if OpensQuoted(s) {
        assert t[2..] == s[2..] + rest;
        CopyClosed(s[2..], rest);
        var (copied, left) := CopyQuoted(s[2..]);
        CollapseInert(left, rest);
        assert s == "[\"" + s[2..];
        assert "[\"" + copied + (left + Collapse(rest)) == "[\"" + (copied + left) + Collapse(rest);
      } else {
        assert t[1..] == s[1..] + rest;
        CollapseInert(s[1..], rest);
        assert [s[0]] + (s[1..] + Collapse(rest)) == s + Collapse(rest);
      }
    }
  }

  /** Before an index, any other text either loses an index of its own or hides the one behind it. */
  lemma {:induction false} CollapseNotInert(s: string)
    requires !Inert(s)
    ensures Collapse(s + "[0]") != s + "[]"
    decreases |s|
  {
    assert s != "";
    hide IndexLength, Collapse, CopyQuoted, Closes, Inert;
    CollapseStep(s);
    if OpensQuoted(s) && Closes(s[2..]) {
      CopyClosed(s[2..], "[0]");
      CollapseNotInert(CopyQuoted(s[2..]).1);
      BehindClosed(s);
    } else if OpensQuoted(s) {
      BehindOpen(s);
    } else if s[0] == '[' && IndexLength(s) > 0 {
      BehindIndex(s);
    } else {
      CollapseNotInert(s[1..]);
      BehindPlain(s);
    }
  }

  lemma BehindClosed(s: string)
    requires OpensQuoted(s) && Closes(s[2..])
    requires var left := CopyQuoted(s[2..]).1; Collapse(left + "[0]") != left + "[]"
    ensures Collapse(s + "[0]") != s + "[]"
  {
    hide IndexLength, Collapse, CopyQuoted, Closes, Inert;
    var t := s + "[0]";
    var (copied, left) := CopyQuoted(s[2..]);
    CollapseStep(t);
    assert t[2..] == s[2..] + "[0]";
    CopyClosed(s[2..], "[0]");
    assert s == "[\"" + (copied + left);
    assert s + "[]" == "[\"" + copied + (left + "[]");
    SameTail("[\"" + copied, Collapse(left + "[0]"), left + "[]");
  }

  lemma BehindOpen(s: string)
    requires OpensQuoted(s) && !Closes(s[2..])
    ensures Collapse(s + "[0]") != s + "[]"
  {
    hide IndexLength, Collapse, CopyQuoted, Closes, Inert;
    var t := s + "[0]";
    CollapseStep(t);
    assert t[2..] == s[2..] + "[0]";
    CopyOpen(s[2..]);
    CollapseEmpty();
    assert |Collapse(t)| == |t|;
  }

  lemma BehindIndex(s: string)
    requires s != "" && s[0] == '[' && IndexLength(s) > 0
    ensures Collapse(s + "[0]") != s + "[]"
  {
    IndexHasDigit(s);
    IndexStays(s, "[0]");
    hide IndexLength, Collapse, CopyQuoted, Closes, Inert;
    var t := s + "[0]";
    CollapseStep(t);
    assert t[0] == s[0] && t[1] == s[1];
    assert Collapse(t)[1] == ']' && (s + "[]")[1] == s[1];
  }

  lemma BehindPlain(s: string)
    requires s != "" && !OpensQuoted(s) && !(s[0] == '[' && IndexLength(s) > 0)
    requires Collapse(s[1..] + "[0]") != s[1..] + "[]"
    ensures Collapse(s + "[0]") != s + "[]"
  {
    hide IndexLength, Collapse, CopyQuoted, Closes, Inert;
    var t := s + "[0]";
    IndexStays(s, "[0]");
    CollapseStep(t);
    assert t[1..] == s[1..] + "[0]" && t[0] == s[0];
    assert s + "[]" == [s[0]] + (s[1..] + "[]");
    SameTail([s[0]], Collapse(s[1..] + "[0]"), s[1..] + "[]");
  }

  lemma SameTail(a: string, b: string, c: string)
    ensures a + b == a + c <==> b == c
  {
    assert (a + b)[|a|..] == b && (a + c)[|a|..] == c;
  }

  lemma IndexHasDigit(s: string)
    requires s != "" && IndexLength(s) > 0
    ensures |s| > 1 && IsDigit(s[1])
  {
  }

  lemma CollapseSegment(seg: Seg, rest: string)
    requires seg.Key? && IsBracketed(seg.key) ==> Inert(seg.key)
    requires Continues(rest)
    ensures Collapse(Segment(SegText(seg)) + rest)
            == Segment(if seg.Index? then "[]" else seg.key) + Collapse(rest)
  {
    hide JsonEscapeAll, Inert;
    match seg
    case Index(n) =>
      var t := SegText(seg) + rest;
      DigitsInvert(n);
      assert !IsIdentSafe(SegText(seg)) && Segment(SegText(seg)) == SegText(seg) && Segment("[]") == "[]";
      assert t[1..] == Digits(n) + ("]" + rest);
      DigitRunOf(Digits(n), "]" + rest);
      assert t[|Digits(n)| + 2..] == rest;
      assert t[0] == '[' && t[1] == Digits(n)[0];
    case Key(key) =>
      if IsIdentSafe(key) {
        IdentHasNoBracket(key);
        CopyPlain("." + key, rest);
      } else if IsBracketed(key) {
        CollapseInert(key, rest);
      } else {
        CollapseQuoted(key, rest);
      }
  }

  lemma CollapseQuoted(key: string, rest: string)
    ensures var quoted := "[\"" + JsonEscapeAll(key) + "\"]";
            Collapse(quoted + rest) == quoted + Collapse(rest)
  {
    hide JsonEscapeAll, CopyQuoted;
    var t := "[\"" + JsonEscapeAll(key) + "\"]" + rest;
    CopyQuotedEscaped(key, rest);
    assert t[2..] == JsonEscapeAll(key) + "\"]" + rest;
    assert OpensQuoted(t);
    assert "[\"" + (JsonEscapeAll(key) + "\"]") + Collapse(rest) == "[\"" + JsonEscapeAll(key) + "\"]" + Collapse(rest);
  }

  lemma {:induction false} CollapseSegments(segs: seq<Seg>)
    requires InertKeys(segs)
    ensures Collapse(Segments(PathTexts(segs))) == Segments(Generalized(segs))
  {
    hide Segment, Collapse, SegText, Inert;
    if segs == [] {
      CollapseEmpty();
    } else {
      assert PathTexts(segs)[1..] == PathTexts(segs[1..]) && Generalized(segs)[1..] == Generalized(segs[1..]);
      assert InertKeys(segs[1..]);
      CollapseSegments(segs[1..]);
      SegmentsStart(PathTexts(segs[1..]));
      CollapseSegment(segs[0], Segments(PathTexts(segs[1..])));
    }
  }

  lemma CollapseEmpty()
    ensures Collapse("") == ""
  {
  }

  /** Collapsing the indexes of a printed path prints the path with every index replaced by `[]`, even
      when a quoted key contains `[0]`, quotes or backslashes, and for every key that starts with a bracket
      as long as it is inert. */
  lemma CollapsePrintedPath(segs: seq<Seg>)
    requires InertKeys(segs)
    ensures Collapse(FormatPath(PathTexts(segs))) == FormatPath(Generalized(segs))
  {
    hide Segment, Segments;
    if segs == [] {
      CopyPlain(".", "");
    } else {
      CollapseSegments(segs);
      var printed := Segments(PathTexts(segs));
      assert IsIdentSafe(PathTexts(segs)[0]) == IsIdentSafe(Generalized(segs)[0]);
      CopyPlain(".", printed);
    }
  }

  /** And no longer than that: such a key is inert exactly when paths through it collapse as they should. */
  lemma BracketKeyCollapsesIff(key: string)
    requires IsBracketed(key)
    ensures Inert(key) <==>
              forall more: seq<Seg> | InertKeys(more) ::
                Collapse(FormatPath(PathTexts([Key(key)] + more))) == FormatPath(Generalized([Key(key)] + more))
  {
    hide Inert, Collapse, Segment, Segments;
    if Inert(key) {
      forall more: seq<Seg> | InertKeys(more)
        ensures Collapse(FormatPath(PathTexts([Key(key)] + more))) == FormatPath(Generalized([Key(key)] + more))
      {
        assert InertKeys([Key(key)] + more);
        CollapsePrintedPath([Key(key)] + more);
      }
    } else {
      var more := [Index(0)];
      assert InertKeys(more);
      BracketThenIndex(key);
      CollapseNotInert(key);
      CopyPlain(".", key + "[0]");
      SameTail(".", Collapse(key + "[0]"), key + "[]");
      assert Collapse(FormatPath(PathTexts([Key(key)] + more))) != FormatPath(Generalized([Key(key)] + more));
    }
  }

  lemma BracketThenIndex(key: string)
    requires IsBracketed(key)
    ensures FormatPath(PathTexts([Key(key)] + [Index(0)])) == "." + (key + "[0]")
    ensures FormatPath(Generalized([Key(key)] + [Index(0)])) == "." + (key + "[]")
  {
    assert Digits(0) == "0" && SegText(Index(0)) == "[0]";
    assert PathTexts([Key(key)] + [Index(0)]) == [key, "[0]"] && Generalized([Key(key)] + [Index(0)]) == [key, "[]"];
    TwoBrackets(key, "[0]");
    TwoBrackets(key, "[]");
  }

  lemma TwoBrackets(a: string, b: string)
    requires IsBracketed(a) && IsBracketed(b)
    ensures Segments([a, b]) == a + b && !IsIdentSafe(a)
  {
    assert [a, b][1..] == [b] && [b][1..] == [];
    assert b + "" == b;
    assert Segments([b]) == b + Segments([]);
  }

  predicate IsCleanChar(c: char) {
    c >= ' ' && c != '<' && c != '>' && c != '&' && c != '\U{2028}' && c != '\U{2029}'
  }

  lemma EscapeIsClean(c: char)
    ensures forall i | 0 <= i < |JsonEscape(c)| :: IsCleanChar(JsonEscape(c)[i])
  {
    hide HexDigit;
    if c as nat < 128 {
      HexIsClean(c as nat / 16);
      HexIsClean(c as nat % 16);
    }
  }

  lemma HexIsClean(n: nat)
    requires n < 16
    ensures IsCleanChar(HexDigit(n))
  {
  }

  /** What is printed of a quoted key has no control character, nothing that means something to HTML, and no line
      separator. */
  lemma {:induction false} EscapedIsClean(s: string)
    ensures forall i | 0 <= i < |JsonEscapeAll(s)| :: IsCleanChar(JsonEscapeAll(s)[i])
  {
    hide JsonEscape, IsCleanChar;
    if s != "" {
      EscapeIsClean(s[0]);
      EscapedIsClean(s[1..]);
    }
  }

  // ---- Which printed paths can be read back ----

  function ParseJsonEscape(s: string): (r: Option<(char, string)>)
    ensures r.Some? ==> |r.value.1| < |s|
  {
    if s != "" && s[0] == 'b' then Some(('\U{08}', s[1..]))
    else if s != "" && s[0] == 'f' then Some(('\U{0C}', s[1..]))
    else ParseEscape(s)
  }

  /** Characters that are written escaped are not read in the clear. */
  function ParseJsonString(s: string): (r: Option<(string, string)>)
    ensures r.Some? ==> |r.value.1| < |s|
  {
    if s == "" then None
    else if s[0] == '"' then Some(("", s[1..]))
    else if s[0] == '\\' then
      var (c, after) :- ParseJsonEscape(s[1..]);
      var (tail, rest) :- ParseJsonString(after);
      Some(([c] + tail, rest))
    else if JsonEscape(s[0]) != [s[0]] then None
    else
      var (tail, rest) :- ParseJsonString(s[1..]);
      Some(([s[0]] + tail, rest))
  }

  lemma HexInverts(n: nat)
    requires n < 16
    ensures HexValue(HexDigit(n)) == Some(n)
  {
  }

  lemma LowEscapeInverts(n: nat, rest: string)
    requires n < 128
    ensures ParseJsonEscape("u00" + [HexDigit(n / 16), HexDigit(n % 16)] + rest) == Some((n as char, rest))
  {
    hide HexDigit;
    var t := "u00" + [HexDigit(n / 16), HexDigit(n % 16)] + rest;
    assert t[5..] == rest && t[3] == HexDigit(n / 16) && t[4] == HexDigit(n % 16);
    HexInverts(n / 16);
    HexInverts(n % 16);
  }

  lemma SeparatorsInvert(rest: string)
    ensures ParseJsonEscape("u2028" + rest) == Some(('\U{2028}', rest))
    ensures ParseJsonEscape("u2029" + rest) == Some(('\U{2029}', rest))
  {
    assert ("u2028" + rest)[5..] == rest && ("u2029" + rest)[5..] == rest;
  }

  lemma LettersInvert(c: char, rest: string)
    requires |JsonEscape(c)| == 2
    ensures ParseJsonEscape(JsonEscape(c)[1..] + rest) == Some((c, rest))
  {
    assert (JsonEscape(c)[1..] + rest)[1..] == rest;
  }

  /** An escape has one letter behind its backslash, or `u` and four digits. */
  lemma EscapeForms(c: char)
    requires JsonEscape(c)[0] == '\\'
    ensures || |JsonEscape(c)| == 2
            || (c as nat < 128 && JsonEscape(c)[1..] == "u00" + [HexDigit(c as nat / 16), HexDigit(c as nat % 16)])
            || (c == '\U{2028}' && JsonEscape(c)[1..] == "u2028")
            || (c == '\U{2029}' && JsonEscape(c)[1..] == "u2029")
  {
    if c == '\U{2028}' { assert JsonEscape(c)[1..] == "u2028"; }
    if c == '\U{2029}' { assert JsonEscape(c)[1..] == "u2029"; }
  }

  lemma JsonEscapeInverts(c: char, rest: string)
    requires JsonEscape(c)[0] == '\\'
    ensures ParseJsonEscape(JsonEscape(c)[1..] + rest) == Some((c, rest))
  {
    hide ParseJsonEscape, HexDigit;
    EscapeForms(c);
    SeparatorsInvert(rest);
    if c as nat < 128 { LowEscapeInverts(c as nat, rest); }
    if |JsonEscape(c)| == 2 { LettersInvert(c, rest); }
  }

  lemma {:induction false} JsonStringRoundTrip(s: string, rest: string)
    ensures ParseJsonString(JsonEscapeAll(s) + "\"" + rest) == Some((s, rest))
  {
    hide ParseJsonEscape, JsonEscape;
    var t := JsonEscapeAll(s) + "\"" + rest;
    if s == "" {
      assert t[1..] == rest;
    } else {
      var e, more := JsonEscape(s[0]), JsonEscapeAll(s[1..]) + "\"" + rest;
      assert t == e + more;
      EscapeShape(s[0]);
      JsonStringRoundTrip(s[1..], rest);
      if e[0] == '\\' {
        JsonEscapeInverts(s[0], more);
        assert t[1..] == e[1..] + more;
      } else {
        assert t[1..] == more;
      }
      assert [s[0]] + s[1..] == s;
    }
  }

  function IdentRun(s: string): (n: nat)
    ensures n <= |s|
  {
    if s == "" || !IsIdentChar(s[0]) then 0 else 1 + IdentRun(s[1..])
  }

  lemma {:induction false} IdentRunOf(ident: string, rest: string)
    requires forall i | 0 <= i < |ident| :: IsIdentChar(ident[i])
    requires rest == "" || !IsIdentChar(rest[0])
    ensures IdentRun(ident + rest) == |ident|
  {
    if ident == "" {
      assert ident + rest == rest;
    } else {
      assert (ident + rest)[1..] == ident[1..] + rest;
      IdentRunOf(ident[1..], rest);
    }
  }

  /** Reads a printed path, segment by segment. */
  function ParseSegments(s: string): Option<seq<Seg>>
    decreases |s|
  {
    if s == "" then Some([])
    else
      var (seg, rest) :- ParseSegment(s);
      if |rest| >= |s| then None
      else
        var more :- ParseSegments(rest);
        Some([seg] + more)
  }

  function ParseSegment(s: string): Option<(Seg, string)> {
    if s != "" && s[0] == '.' then
      var n := IdentRun(s[1..]);
      if IsIdentSafe(s[1..][..n]) then Some((Key(s[1..][..n]), s[1..][n..])) else None
    else if OpensQuoted(s) then
      var (key, after) :- ParseJsonString(s[2..]);
      if after != "" && after[0] == ']' then Some((Key(key), after[1..])) else None
    else if s != "" && s[0] == '[' then
      var (n, after) :- ParseCount(s[1..]);
      if after != "" && after[0] == ']' then Some((Index(n), after[1..])) else None
    else None
  }

  /** The first character of a printed segment: never one that continues an identifier. */
  lemma SegmentsStart(path: seq<string>)
    ensures Segments(path) == "" || Segments(path)[0] == '.' || Segments(path)[0] == '['
  {
  }

  lemma IndexRoundTrip(n: nat, rest: string)
    ensures ParseSegment("[" + Digits(n) + "]" + rest) == Some((Index(n), rest))
  {
    hide ParseCount, Digits;
    var t := "[" + Digits(n) + "]" + rest;
    DigitsInvert(n);
    assert t[1..] == Digits(n) + ("]" + rest);
    CountRoundTrip(n, "]" + rest);
    assert t[1] == Digits(n)[0];
    assert ("]" + rest)[1..] == rest;
  }

  lemma IdentRoundTrip(key: string, rest: string)
    requires IsIdentSafe(key)
    requires rest == "" || !IsIdentChar(rest[0])
    ensures ParseSegment("." + key + rest) == Some((Key(key), rest))
  {
    var t := "." + key + rest;
    assert t[1..] == key + rest;
    IdentRunOf(key, rest);
    assert (key + rest)[..|key|] == key && (key + rest)[|key|..] == rest;
  }

  lemma QuotedSegmentRoundTrip(key: string, rest: string)
    ensures ParseSegment("[\"" + JsonEscapeAll(key) + "\"]" + rest) == Some((Key(key), rest))
  {
    hide JsonEscapeAll, ParseJsonString;
    var t := "[\"" + JsonEscapeAll(key) + "\"]" + rest;
    assert t[2..] == JsonEscapeAll(key) + "\"" + ("]" + rest);
    JsonStringRoundTrip(key, "]" + rest);
    assert ("]" + rest)[1..] == rest;
  }

  lemma SegmentRoundTrip(seg: Seg, rest: string)
    requires seg.Key? ==> !IsBracketed(seg.key)
    requires Continues(rest)
    ensures ParseSegment(Segment(SegText(seg)) + rest) == Some((seg, rest))
  {
    hide JsonEscapeAll, ParseSegment, Digits;
    match seg
    case Index(n) =>
      assert !IsIdentSafe(SegText(seg));
      IndexRoundTrip(n, rest);
    case Key(key) =>
      if IsIdentSafe(key) {
        IdentRoundTrip(key, rest);
      } else {
        QuotedSegmentRoundTrip(key, rest);
      }
  }

  lemma {:induction false} SegmentsRoundTrip(segs: seq<Seg>)
    requires PlainKeys(segs)
    ensures ParseSegments(Segments(PathTexts(segs))) == Some(segs)
  {
    hide Segment, ParseSegment, SegText;
    if segs != [] {
      assert PathTexts(segs)[1..] == PathTexts(segs[1..]);
      assert PlainKeys(segs[1..]);
      SegmentsRoundTrip(segs[1..]);
      var rest := Segments(PathTexts(segs[1..]));
      SegmentsStart(PathTexts(segs[1..]));
      SegmentRoundTrip(segs[0], rest);
      SegmentNonEmpty(SegText(segs[0]));
      assert [segs[0]] + segs[1..] == segs;
    }
  }

  // Reading consumes at least as much as printing what was read writes, and more for a bracketed key.

  lemma EscapeConsumes(s: string)
    requires ParseJsonEscape(s).Some?
    ensures |JsonEscape(ParseJsonEscape(s).value.0)| + |ParseJsonEscape(s).value.1| <= |s| + 1
  {
  }

  lemma {:induction false} StringConsumes(s: string)
    requires ParseJsonString(s).Some?
    ensures |JsonEscapeAll(ParseJsonString(s).value.0)| + 1 + |ParseJsonString(s).value.1| <= |s|
    decreases |s|
  {
    hide JsonEscape, ParseJsonEscape;
    if s[0] == '"' {
    } else if s[0] == '\\' {
      EscapeConsumes(s[1..]);
      var (c, after) := ParseJsonEscape(s[1..]).value;
      StringConsumes(after);
      var tail := ParseJsonString(after).value.0;
      assert ([c] + tail)[1..] == tail;
    } else {
      StringConsumes(s[1..]);
      var tail := ParseJsonString(s[1..]).value.0;
      assert ([s[0]] + tail)[1..] == tail;
    }
  }

  lemma {:induction false} EscapesLengthen(s: string)
    ensures |s| <= |JsonEscapeAll(s)|
  {
    if s != "" { EscapesLengthen(s[1..]); }
  }

  lemma {:induction false} DigitsShortest(digits: string)
    requires digits != "" && AllDigits(digits)
    ensures |Digits(DigitsValue(digits))| <= |digits|
  {
    var k := |digits| - 1;
    if k > 0 {
      DigitsShortest(digits[..k]);
      var high := DigitsValue(digits[..k]);
      assert DigitsValue(digits) / 10 == high by { OneMoreDigit(digits); }
    } else {
      OneMoreDigit(digits);
    }
  }

  lemma OneMoreDigit(digits: string)
    requires digits != "" && AllDigits(digits)
    ensures digits[..|digits| - 1] == "" ==> DigitsValue(digits) < 10
    ensures DigitsValue(digits) / 10 == DigitsValue(digits[..|digits| - 1])
  {
  }

  lemma SegmentConsumes(s: string)
    requires ParseSegment(s).Some?
    ensures var (seg, rest) := ParseSegment(s).value;
            && |Segment(SegText(seg))| + |rest| <= |s|
            && (seg.Key? && IsBracketed(seg.key) ==> |Segment(SegText(seg))| + |rest| < |s|)
  {
    hide JsonEscapeAll, ParseJsonString, Digits, DigitsValue;
    var (seg, rest) := ParseSegment(s).value;
    if s[0] == '.' {
    } else if OpensQuoted(s) {
      StringConsumes(s[2..]);
      EscapesLengthen(seg.key);
    } else {
      var n := DigitRun(s[1..]);
      DigitsShortest(s[1..][..n]);
    }
  }

  lemma {:induction false} SegmentsConsume(s: string)
    requires ParseSegments(s).Some?
    ensures var segs := ParseSegments(s).value;
            |Segments(PathTexts(segs))| <= |s| && (!PlainKeys(segs) ==> |Segments(PathTexts(segs))| < |s|)
    decreases |s|
  {
    hide ParseSegment, Segment, SegText;
    if s != "" {
      SegmentConsumes(s);
      var (seg, rest) := ParseSegment(s).value;
      SegmentsConsume(rest);
      var segs, more := ParseSegments(s).value, ParseSegments(rest).value;
      assert segs == [seg] + more && PathTexts(segs)[1..] == PathTexts(more);
      assert forall i | 0 < i < |segs| :: segs[i] == more[i - 1];
    }
  }

  /** A printed path is read back as it was if and only if none of its keys starts with a bracket. */
  lemma ReadBackIffPlain(segs: seq<Seg>)
    ensures ParseSegments(Segments(PathTexts(segs))) == Some(segs) <==> PlainKeys(segs)
  {
    if PlainKeys(segs) {
      SegmentsRoundTrip(segs);
    } else if ParseSegments(Segments(PathTexts(segs))) == Some(segs) {
      SegmentsConsume(Segments(PathTexts(segs)));
    }
  }

  // ---- Which paths print differently from all others ----

  /** The leading dot of a printed path can be told from the dot of a first identifier. */
  lemma AfterDot(path: seq<string>)
    ensures var text := FormatPath(path);
            text != "" && text[0] == '.' && Segments(path) == if |text| == 1 || text[1] == '[' then text[1..] else text
  {
    if path != [] {
      if IsIdentSafe(path[0]) {
        assert Segments(path)[1] == path[0][0];
      } else {
        assert FormatPath(path)[1..] == Segments(path);
        SegmentNonEmpty(path[0]);
        assert Segment(path[0])[0] == '[';
      }
    }
  }

  lemma SamePrint(a: seq<string>, b: seq<string>)
    ensures FormatPath(a) == FormatPath(b) <==> Segments(a) == Segments(b)
  {
    hide Segment, IsIdentSafe;
    AfterDot(a);
    AfterDot(b);
    if Segments(a) == Segments(b) {
      PrintBySegments(a);
      PrintBySegments(b);
    }
  }

  lemma PrintBySegments(path: seq<string>)
    ensures FormatPath(path) == if Segments(path) != "" && Segments(path)[0] == '.' then Segments(path) else "." + Segments(path)
  {
    if path != [] {
      SegmentNonEmpty(path[0]);
      assert Segments(path)[0] == Segment(path[0])[0];
    }
  }

  /** Two paths with plain keys print alike only if they are the same path. */
  lemma PrintedPathsDiffer(a: seq<Seg>, b: seq<Seg>)
    requires PlainKeys(a) && PlainKeys(b)
    requires FormatPath(PathTexts(a)) == FormatPath(PathTexts(b))
    ensures a == b
  {
    SegmentsRoundTrip(a);
    SegmentsRoundTrip(b);
    SamePrint(PathTexts(a), PathTexts(b));
  }

  predicate IsDotted(seg: Seg) { seg.Key? && IsIdentSafe(seg.key) }

  ghost predicate IsIndexText(s: string) { exists n: nat :: s == SegText(Index(n)) }

  ghost predicate IsQuotedText(s: string) {
    exists key: string :: !IsIdentSafe(key) && !IsBracketed(key) && s == Segment(key)
  }

  predicate EndsDotted(s: string) { exists i | 0 < i < |s| :: s[i] == '.' && IsIdentSafe(s[i + 1..]) }

  /** A key that starts with a bracket and is neither an index nor a quoted key, and of which no later part
      reads as a segment. */
  ghost predicate LoneBracket(seg: Seg) {
    && seg.Key? && IsBracketed(seg.key)
    && !IsIndexText(seg.key) && !IsQuotedText(seg.key)
    && '[' !in seg.key[1..] && !EndsDotted(seg.key)
  }

  ghost predicate UniquelyPrinted(segs: seq<Seg>) {
    && (forall i | 0 <= i < |segs| - 1 :: IsDotted(segs[i]))
    && (segs != [] ==> IsDotted(segs[|segs| - 1]) || LoneBracket(segs[|segs| - 1]))
  }

  lemma {:induction false} TextsConcat(a: seq<string>, b: seq<string>)
    ensures Segments(a + b) == Segments(a) + Segments(b)
  {
    hide Segment, Segments;
    SegmentsStep(a);
    if a == [] {
      assert a + b == b && "" + Segments(b) == Segments(b);
    } else {
      TextsConcat(a[1..], b);
      SegmentsStep(a + b);
      assert (a + b)[1..] == a[1..] + b;
      assert Segment(a[0]) + (Segments(a[1..]) + Segments(b)) == Segment(a[0]) + Segments(a[1..]) + Segments(b);
    }
  }

  lemma SegmentsStep(path: seq<string>)
    ensures Segments(path) == if path == [] then "" else Segment(path[0]) + Segments(path[1..])
  {
    hide Segment;
  }

  lemma SegmentsConcat(a: seq<Seg>, b: seq<Seg>)
    ensures Segments(PathTexts(a + b)) == Segments(PathTexts(a)) + Segments(PathTexts(b))
  {
    hide Segments, SegText;
    TextsConcat(PathTexts(a), PathTexts(b));
    assert PathTexts(a + b) == PathTexts(a) + PathTexts(b);
  }

  lemma OneSegment(seg: Seg)
    ensures Segments(PathTexts([seg])) == Segment(SegText(seg))
  {
    hide Segment, SegText;
    assert PathTexts([seg]) == [SegText(seg)] && [SegText(seg)][1..] == [];
    assert Segment(SegText(seg)) + "" == Segment(SegText(seg));
  }

  lemma TwoSegments(a: Seg, b: Seg)
    ensures Segments(PathTexts([a, b])) == Segment(SegText(a)) + Segment(SegText(b))
  {
    hide Segment, Segments, SegText;
    assert [a, b] == [a] + [b];
    SegmentsConcat([a], [b]);
    OneSegment(a);
    OneSegment(b);
  }

  lemma SegmentStart(seg: Seg)
    ensures Segment(SegText(seg)) != ""
    ensures Segment(SegText(seg))[0] == '.' <==> IsDotted(seg)
    ensures Segment(SegText(seg))[0] == '[' <==> !IsDotted(seg)
    ensures IsDotted(seg) ==> Segment(SegText(seg)) == "." + seg.key
  {
  }

  lemma BracketPrintsItself(s: string)
    requires IsBracketed(s)
    ensures Segment(s) == s && SegText(Key(s)) == s
  {
  }

  // Of that form: no other path prints like it.

  lemma SameIdent(a: string, b: string, restA: string, restB: string)
    requires IsIdentSafe(a) && IsIdentSafe(b) && Continues(restA) && Continues(restB)
    requires a + restA == b + restB
    ensures a == b && restA == restB
  {
    IdentRunOf(a, restA);
    IdentRunOf(b, restB);
    assert (a + restA)[..|a|] == a && (b + restB)[..|b|] == b;
    assert (a + restA)[|a|..] == restA && (b + restB)[|b|..] == restB;
  }

  lemma {:induction false} FormIsUnique(segs: seq<Seg>, other: seq<Seg>)
    requires UniquelyPrinted(segs) && Segments(PathTexts(segs)) == Segments(PathTexts(other))
    ensures other == segs
    decreases |segs|
  {
    hide Segment, SegText, Segments, LoneBracket, IsIdentSafe;
    if segs == [] {
      NoSegments();
      if other != [] { FirstPrints(other); }
    } else if other == [] {
      NoSegments();
      FirstPrints(segs);
    } else if IsDotted(segs[0]) {
      SameFirst(segs, other);
      assert UniquelyPrinted(segs[1..]);
      FormIsUnique(segs[1..], other[1..]);
      assert segs == [segs[0]] + segs[1..] && other == [other[0]] + other[1..];
    } else {
      assert segs == [segs[0]];
      OneSegment(segs[0]);
      LoneIsUnique(segs[0], other);
    }
  }

  lemma FirstAndRest(segs: seq<Seg>)
    requires segs != []
    ensures Segments(PathTexts(segs)) == Segment(SegText(segs[0])) + Segments(PathTexts(segs[1..]))
    ensures Continues(Segments(PathTexts(segs[1..])))
  {
    hide Segment, SegText;
    assert PathTexts(segs)[1..] == PathTexts(segs[1..]);
    SegmentsStart(PathTexts(segs[1..]));
  }

  lemma SameFirst(segs: seq<Seg>, other: seq<Seg>)
    requires segs != [] && other != [] && IsDotted(segs[0]) && Segments(PathTexts(segs)) == Segments(PathTexts(other))
    ensures other[0] == segs[0] && Segments(PathTexts(segs[1..])) == Segments(PathTexts(other[1..]))
  {
    hide Segment, SegText, Segments, IsIdentSafe;
    SegmentStart(segs[0]);
    SegmentStart(other[0]);
    FirstAndRest(segs);
    FirstAndRest(other);
    var rest, rest' := Segments(PathTexts(segs[1..])), Segments(PathTexts(other[1..]));
    assert Segments(PathTexts(segs))[0] == '.';
    SameTail(".", segs[0].key + rest, other[0].key + rest');
    assert "." + (segs[0].key + rest) == Segments(PathTexts(segs)) && "." + (other[0].key + rest') == Segments(PathTexts(other));
    SameIdent(segs[0].key, other[0].key, rest, rest');
  }

  lemma LoneIsUnique(seg: Seg, other: seq<Seg>)
    requires LoneBracket(seg) && other != [] && Segments(PathTexts(other)) == Segment(SegText(seg))
    ensures other == [seg]
  {
    hide Segments, IsIdentSafe, JsonEscapeAll;
    var init, last := other[..|other| - 1], other[|other| - 1];
    assert other == init + [last];
    SegmentsConcat(init, [last]);
    OneSegment(last);
    BracketPrintsItself(seg.key);
    SegmentStart(last);
    if init == [] {
      NoSegments();
      assert Segment(SegText(last)) == seg.key;
      AloneBracket(last, seg.key);
    } else {
      FirstPrints(init);
      LastDotted(Segments(PathTexts(init)), last, seg.key);
    }
  }

  lemma AloneBracket(last: Seg, text: string)
    requires Segment(SegText(last)) == text && IsBracketed(text)
    ensures last == Key(text) || IsIndexText(text) || IsQuotedText(text)
  {
    hide JsonEscapeAll, Digits;
    match last
    case Index(n) => assert text == SegText(Index(n));
    case Key(key) => assert IsIdentSafe(key) || IsBracketed(key) || (!IsIdentSafe(key) && !IsBracketed(key) && text == Segment(key));
  }

  lemma LastDotted(before: string, last: Seg, text: string)
    requires before != "" && text == before + Segment(SegText(last)) && '[' !in text[1..]
    ensures EndsDotted(text)
  {
    hide Segment, SegText, IsIdentSafe;
    SegmentStart(last);
    var i := |before|;
    assert text[i] == Segment(SegText(last))[0];
    assert text[1..][i - 1] == text[i];
    assert text[i + 1..] == last.key;
  }

  lemma NoSegments()
    ensures Segments(PathTexts([])) == ""
  {
  }

  lemma FirstPrints(segs: seq<Seg>)
    requires segs != []
    ensures Segments(PathTexts(segs)) != ""
  {
    SegmentStart(segs[0]);
  }

  // Not of that form: another path prints like it.

  ghost predicate PrintsLike(a: seq<Seg>, b: seq<Seg>) { FormatPath(PathTexts(a)) == FormatPath(PathTexts(b)) }

  lemma OtherTail(start: seq<Seg>, tail: seq<Seg>, other: seq<Seg>)
    requires Segments(PathTexts(tail)) == Segments(PathTexts(other))
    ensures PrintsLike(start + tail, start + other)
  {
    hide Segments;
    SegmentsConcat(start, tail);
    SegmentsConcat(start, other);
    SamePrint(PathTexts(start + tail), PathTexts(start + other));
  }

  /** How many segments at the start are identifiers. */
  function DottedRun(segs: seq<Seg>): (n: nat)
    ensures n <= |segs| && (forall i | 0 <= i < n :: IsDotted(segs[i])) && (n < |segs| ==> !IsDotted(segs[n]))
  {
    if segs == [] || !IsDotted(segs[0]) then 0
    else
      assert forall i | 0 < i < |segs| :: segs[i] == segs[1..][i - 1];
      1 + DottedRun(segs[1..])
  }

  /** From the first segment that is not an identifier on, a path prints like one bracketed key. */
  lemma TailAsKey(segs: seq<Seg>) returns (other: seq<Seg>)
    requires DottedRun(segs) < |segs|
    ensures var n := DottedRun(segs);
            && PrintsLike(segs, other) && |other| == n + 1 && other[n].Key?
            && IsBracketed(other[n].key) && other[n].key == Segments(PathTexts(segs[n..]))
  {
    hide Segments, Segment, SegText, PrintsLike, DottedRun, IsDotted;
    var n := DottedRun(segs);
    var text := Segments(PathTexts(segs[n..]));
    SegmentStart(segs[n]);
    TailStart(segs[n..]);
    BracketPrintsItself(text);
    OneSegment(Key(text));
    other := segs[..n] + [Key(text)];
    OtherTail(segs[..n], segs[n..], [Key(text)]);
    assert segs == segs[..n] + segs[n..];
  }

  lemma TailStart(segs: seq<Seg>)
    requires segs != []
    ensures Segments(PathTexts(segs)) != "" && Segments(PathTexts(segs))[0] == Segment(SegText(segs[0]))[0]
  {
    hide Segment, SegText;
    SegmentStart(segs[0]);
  }

  /** Another way to print a bracketed key that is not alone. */
  lemma OtherSegments(seg: Seg) returns (other: seq<Seg>)
    requires seg.Key? && IsBracketed(seg.key) && !LoneBracket(seg)
    ensures other != [seg] && Segments(PathTexts(other)) == Segments(PathTexts([seg]))
  {
    hide Segments, IsIdentSafe, JsonEscapeAll;
    OneSegment(seg);
    BracketPrintsItself(seg.key);
    if IsIndexText(seg.key) {
      var n: nat :| seg.key == SegText(Index(n));
      other := [Index(n)];
      OneSegment(Index(n));
    } else if IsQuotedText(seg.key) {
      var key: string :| !IsIdentSafe(key) && !IsBracketed(key) && seg.key == Segment(key);
      other := [Key(key)];
      OneSegment(Key(key));
    } else if '[' in seg.key[1..] {
      var i :| 0 <= i < |seg.key[1..]| && seg.key[1..][i] == '[';
      var a, b := seg.key[..i + 1], seg.key[i + 1..];
      assert a + b == seg.key && b[0] == '[';
      other := [Key(a), Key(b)];
      BracketPrintsItself(a);
      BracketPrintsItself(b);
      TwoSegments(Key(a), Key(b));
    } else {
      var i :| 0 < i < |seg.key| && seg.key[i] == '.' && IsIdentSafe(seg.key[i + 1..]);
      var a, b := seg.key[..i], seg.key[i + 1..];
      assert a + ("." + b) == seg.key;
      other := [Key(a), Key(b)];
      BracketPrintsItself(a);
      SegmentStart(Key(b));
      TwoSegments(Key(a), Key(b));
    }
  }

  /** No other path prints like this one if and only if its segments are identifiers, except that the last
      may be a bracketed key that cannot be read in any other way. */
  lemma UniquelyPrintedIff(segs: seq<Seg>)
    ensures UniquelyPrinted(segs) <==> forall other | PrintsLike(segs, other) :: other == segs
  {
    hide Segments, LoneBracket;
    if UniquelyPrinted(segs) {
      forall other | PrintsLike(segs, other) ensures other == segs {
        SamePrint(PathTexts(segs), PathTexts(other));
        FormIsUnique(segs, other);
      }
    } else {
      var n := DottedRun(segs);
      var other := TailAsKey(segs);
      if other == segs {
        var again := OtherSegments(segs[n]);
        assert segs == segs[..n] + [segs[n]];
        OtherTail(segs[..n], [segs[n]], again);
        assert (segs[..n] + again)[n..] == again && segs[n..] == [segs[n]];
        assert PrintsLike(segs, segs[..n] + again) && segs[..n] + again != segs;
      }
    }
  }

  /** In particular a key prints like an index exactly when it is the text of one. */
  lemma KeyPrintsLikeIndexIff(before: seq<Seg>, after: seq<Seg>, key: string, n: nat)
    ensures PrintsLike(before + [Key(key)] + after, before + [Index(n)] + after) <==> key == "[" + Digits(n) + "]"
  {
    hide Segments, Segment, SegText, Digits;
    SegmentsConcat(before + [Key(key)], after);
    SegmentsConcat(before, [Key(key)]);
    SegmentsConcat(before + [Index(n)], after);
    SegmentsConcat(before, [Index(n)]);
    OneSegment(Key(key));
    OneSegment(Index(n));
    SamePrint(PathTexts(before + [Key(key)] + after), PathTexts(before + [Index(n)] + after));
    var (start, k, i, rest) := (Segments(PathTexts(before)), Segment(SegText(Key(key))), Segment(SegText(Index(n))), Segments(PathTexts(after)));
    if start + k + rest == start + i + rest {
      assert |k| == |i|;
      assert (start + k + rest)[|start|..][..|k|] == k && (start + i + rest)[|start|..][..|i|] == i;
    }
    OnlyIndexText(key, n);
  }

  lemma OnlyIndexText(key: string, n: nat)
    ensures Segment(SegText(Key(key))) == Segment(SegText(Index(n))) <==> key == "[" + Digits(n) + "]"
  {
    hide JsonEscapeAll, Digits;
    DigitsInvert(n);
    var text := SegText(Index(n));
    assert Segment(text) == text && text[1] == Digits(n)[0];
  }
}
