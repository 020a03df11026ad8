/** The character layer of TOON: quoting, keys, numeric look-alikes, counts and indented lines.
    Every printer comes with the reader that inverts it. */
module ToonText {
  import opened Options

  predicate IsDigit(c: char) { '0' <= c <= '9' }

  predicate AllDigits(s: string) { forall i | 0 <= i < |s| :: IsDigit(s[i]) }

  /** The length of the leading run of digits. */
  function DigitRun(s: string): (n: nat)
    ensures n <= |s| && AllDigits(s[..n])
    ensures n < |s| ==> !IsDigit(s[n])
  {
    if s == "" || !IsDigit(s[0]) then 0 else 1 + DigitRun(s[1..])
  }

  lemma {:induction false} DigitRunOf(digits: string, rest: string)
    requires AllDigits(digits)
    requires rest == "" || !IsDigit(rest[0])
    ensures DigitRun(digits + rest) == |digits|
  {
    if digits == "" {
      assert digits + rest == rest;
    } else {
      assert (digits + rest)[1..] == digits[1..] + rest;
      DigitRunOf(digits[1..], rest);
    }
  }

  function AfterSign(s: string): string {
    if s != "" && (s[0] == '+' || s[0] == '-') then s[1..] else s
  }

  /** `^[+-]?\d+(\.\d+)?(e[+-]?\d+)?$`, ignoring the case of `e`. */
  predicate NumericLike(s: string) {
    var u := AfterSign(s);
    var n := DigitRun(u);
    n > 0 && FractionThenExponent(u[n..])
  }

  predicate FractionThenExponent(s: string) {
    if s != "" && s[0] == '.' then
      var n := DigitRun(s[1..]);
      n > 0 && ExponentPart(s[1..][n..])
    else
      ExponentPart(s)
  }

  predicate ExponentPart(s: string) {
    s == "" ||
    ((s[0] == 'e' || s[0] == 'E') && AfterSign(s[1..]) != "" && AllDigits(AfterSign(s[1..])))
  }

  const STRUCTURAL_CHARS := ":\"\\[]{},"

  predicate IsAsciiSpace(c: char) { c == ' ' || c == '\t' || c == '\n' || c == '\r' || c == '\U{0C}' || c == '\U{0B}' }

  predicate IsControl(c: char) { c <= '\U{1F}' }

  predicate HasEdgeSpace(s: string)
    requires s != ""
  {
    IsAsciiSpace(s[0]) || IsAsciiSpace(s[|s| - 1])
  }

  predicate NeedsQuoting(s: string) {
    || s == ""
    || HasEdgeSpace(s)
    || s == "true" || s == "false" || s == "null"
    || NumericLike(s)
    || (exists i | 0 <= i < |s| :: s[i] in STRUCTURAL_CHARS)
    || (exists i | 0 <= i < |s| :: IsControl(s[i]))
    || s[0] == '#'
    || s[0] == '-'
  }

  predicate IsWordChar(c: char) { 'a' <= c <= 'z' || 'A' <= c <= 'Z' || IsDigit(c) || c == '_' }

  /** Plain words stay bare: letters, digits and underscores that do not start with a digit. */
  lemma PlainWordStaysBare(s: string)
    requires s != "" && (forall i | 0 <= i < |s| :: IsWordChar(s[i])) && !IsDigit(s[0])
    ensures EncodeString(s) == s <==> s !in {"true", "false", "null"}
  {
    assert !NumericLike(s);
    assert forall c | IsWordChar(c) :: c !in STRUCTURAL_CHARS && !IsControl(c) && !IsAsciiSpace(c);
    assert NeedsQuoting(s) <==> s in {"true", "false", "null"};
    assert Quote(s) != s by { assert Quote(s)[0] == '"'; }
  }

  function HexDigit(n: nat): char
    requires n < 16
  {
    "0123456789abcdef"[n]
  }

  function HexValue(c: char): Option<nat> {
    if IsDigit(c) then Some(c as nat - '0' as nat)
    else if 'a' <= c <= 'f' then Some(10 + (c as nat - 'a' as nat))
    else if 'A' <= c <= 'F' then Some(10 + (c as nat - 'A' as nat))
    else None
  }

  function Escape(c: char): string {
    if c == '\\' then "\\\\"
    else if c == '"' then "\\\""
    else if c == '\n' then "\\n"
    else if c == '\r' then "\\r"
    else if c == '\t' then "\\t"
    else if IsControl(c) then "\\u00" + [HexDigit(c as nat / 16), HexDigit(c as nat % 16)]
    else [c]
  }

  function EscapeAll(s: string): string {
    if s == "" then "" else Escape(s[0]) + EscapeAll(s[1..])
  }

  function Quote(s: string): string { "\"" + EscapeAll(s) + "\"" }

  function EncodeString(s: string): string {
    if NeedsQuoting(s) then Quote(s) else s
  }

  /** One escape sequence, after its backslash; the rest of the text follows it. */
  function ParseEscape(s: string): (r: Option<(char, string)>)
    ensures r.Some? ==> |r.value.1| < |s|
  {
    if s == "" then None
    else if s[0] == '\\' then Some(('\\', s[1..]))
    else if s[0] == '"' then Some(('"', s[1..]))
    else if s[0] == 'n' then Some(('\n', s[1..]))
    else if s[0] == 'r' then Some(('\r', s[1..]))
    else if s[0] == 't' then Some(('\t', s[1..]))
    else if s[0] == 'u' && |s| >= 5 then
      var a :- HexValue(s[1]);
      var b :- HexValue(s[2]);
      var c :- HexValue(s[3]);
      var d :- HexValue(s[4]);
      var code := ((a * 16 + b) * 16 + c) * 16 + d;
      if code < 0xD800 || 0xE000 <= code < 0x10000 then Some((code as char, s[5..])) else None
    else None
  }

  /** A quoted string, after its opening quote, with the text behind the closing one. */
  function ParseQuoted(s: string): (r: Option<(string, string)>)
    ensures r.Some? ==> |r.value.1| < |s|
  {
    if s == "" then None
    else if s[0] == '"' then Some(("", s[1..]))
    else if s[0] == '\\' then
      var (c, after) :- ParseEscape(s[1..]);
      var (tail, rest) :- ParseQuoted(after);
      Some(([c] + tail, rest))
    else
      var (tail, rest) :- ParseQuoted(s[1..]);
      Some(([s[0]] + tail, rest))
  }

  lemma EscapeInverts(c: char, rest: string)
    requires Escape(c)[0] == '\\'
    ensures ParseEscape(Escape(c)[1..] + rest) == Some((c, rest))
  {
    var t := Escape(c)[1..] + rest;
    if c != '\\' && c != '"' && c != '\n' && c != '\r' && c != '\t' {
      var n := c as nat;
      assert t[0] == 'u' && t[1] == '0' && t[2] == '0' && t[3] == HexDigit(n / 16) && t[4] == HexDigit(n % 16);
      assert n / 16 < 2 && HexValue(HexDigit(n / 16)) == Some(n / 16);
      assert HexValue(HexDigit(n % 16)) == Some(n % 16);
      assert t[5..] == rest;
    } else {
      assert t[1..] == rest;
    }
  }

  lemma {:induction false} QuotedRoundTrip(s: string, rest: string)
    ensures ParseQuoted(EscapeAll(s) + "\"" + rest) == Some((s, rest))
  {
    var t := EscapeAll(s) + "\"" + rest;
    if s == "" {
      assert t[1..] == rest;
    } else {
      var e, more := Escape(s[0]), EscapeAll(s[1..]) + "\"" + rest;
      assert t == e + more;
      QuotedRoundTrip(s[1..], rest);
      if e[0] == '\\' {
        EscapeInverts(s[0], more);
        assert t[1..] == e[1..] + more;
      } else {
        assert t[1..] == more;
      }
      assert [s[0]] + s[1..] == s;
    }
  }

  predicate Printable(s: string) { forall i | 0 <= i < |s| :: !IsControl(s[i]) }

  lemma {:induction false} EscapedIsPrintable(s: string)
    ensures Printable(EscapeAll(s))
  {
    if s != "" {
      EscapedIsPrintable(s[1..]);
      assert Printable(Escape(s[0]));
    }
  }

  lemma EncodedStringIsPrintable(s: string)
    ensures Printable(EncodeString(s)) && EncodeString(s) != ""
  {
    EscapedIsPrintable(s);
  }

  predicate IsKeyStart(c: char) { 'A' <= c <= 'Z' || 'a' <= c <= 'z' || c == '_' }

  predicate IsKeyChar(c: char) { IsKeyStart(c) || IsDigit(c) || c == '.' }

  /** `^[A-Za-z_][A-Za-z0-9_.]*$` */
  predicate UnquotedKey(s: string) {
    s != "" && IsKeyStart(s[0]) && forall i | 0 <= i < |s| :: IsKeyChar(s[i])
  }

  function EncodeKey(key: string): string {
    if UnquotedKey(key) then key else Quote(key)
  }

  function KeyRun(s: string): (n: nat)
    ensures n <= |s|
  {
    if s == "" || !IsKeyChar(s[0]) then 0 else 1 + KeyRun(s[1..])
  }

  function ParseKey(s: string): (r: Option<(string, string)>)
    ensures r.Some? ==> |r.value.1| < |s|
  {
    if s == "" then None
    else if s[0] == '"' then ParseQuoted(s[1..])
    else if IsKeyStart(s[0]) then Some((s[..KeyRun(s)], s[KeyRun(s)..]))
    else None
  }

  lemma {:induction false} KeyRunOf(key: string, rest: string)
    requires forall i | 0 <= i < |key| :: IsKeyChar(key[i])
    requires rest == "" || !IsKeyChar(rest[0])
    ensures KeyRun(key + rest) == |key|
  {
    if key == "" {
      assert key + rest == rest;
    } else {
      assert (key + rest)[1..] == key[1..] + rest;
      KeyRunOf(key[1..], rest);
    }
  }

  lemma QuotedKeyRoundTrip(key: string, rest: string)
    ensures ParseKey(Quote(key) + rest) == Some((key, rest))
  {
    var t := Quote(key) + rest;
    QuotedRoundTrip(key, rest);
    assert t[1..] == EscapeAll(key) + "\"" + rest;
    assert t[0] == '"';
  }

  lemma KeyRoundTrip(key: string, rest: string)
    requires rest == "" || !IsKeyChar(rest[0])
    ensures ParseKey(EncodeKey(key) + rest) == Some((key, rest))
  {
    var t := EncodeKey(key) + rest;
    if UnquotedKey(key) {
      assert t == key + rest;
      KeyRunOf(key, rest);
      assert KeyRun(t) == |key|;
      assert t[..|key|] == key && t[|key|..] == rest;
      assert t[0] == key[0];
    } else {
      QuotedKeyRoundTrip(key, rest);
    }
  }

  lemma EncodedKeyShape(key: string)
    ensures EncodeKey(key) != "" && Printable(EncodeKey(key))
    ensures EncodeKey(key)[0] == '"' || IsKeyStart(EncodeKey(key)[0])
  {
    EscapedIsPrintable(key);
  }

  function DigitChar(n: nat): char
    requires n < 10
  {
    "0123456789"[n]
  }

  /** Decimal digits of a count, as `strconv.Itoa` prints them. */
  function Digits(n: nat): string {
    if n < 10 then [DigitChar(n)] else Digits(n / 10) + [DigitChar(n % 10)]
  }

  function DigitsValue(s: string): nat
    requires AllDigits(s)
  {
    if s == "" then 0
    else DigitsValue(s[..|s| - 1]) * 10 + (s[|s| - 1] as nat - '0' as nat)
  }

  lemma {:induction false} DigitsInvert(n: nat)
    ensures Digits(n) != "" && AllDigits(Digits(n)) && DigitsValue(Digits(n)) == n
  {
    if n >= 10 {
      DigitsInvert(n / 10);
      var s := Digits(n);
      assert s[..|s| - 1] == Digits(n / 10);
    } else {
      assert Digits(n)[..0] == "";
    }
  }

  function ParseCount(s: string): (r: Option<(nat, string)>)
    ensures r.Some? ==> |r.value.1| < |s|
  {
    var n := DigitRun(s);
    if n == 0 then None else Some((DigitsValue(s[..n]), s[n..]))
  }

  lemma CountRoundTrip(n: nat, rest: string)
    requires rest == "" || !IsDigit(rest[0])
    ensures ParseCount(Digits(n) + rest) == Some((n, rest))
  {
    DigitsInvert(n);
    DigitRunOf(Digits(n), rest);
    var t := Digits(n) + rest;
    assert t[..|Digits(n)|] == Digits(n) && t[|Digits(n)|..] == rest;
  }

  /** One output line: its indentation level and what follows the indentation. */
  datatype Line = Line(depth: nat, text: string)

  function Indent(depth: nat): string {
    if depth == 0 then "" else "  " + Indent(depth - 1)
  }

  function Render(lines: seq<Line>): string {
    if lines == [] then ""
    else Indent(lines[0].depth) + lines[0].text + "\n" + Render(lines[1..])
  }

  /** A line whose indentation and end can be told from its text. */
  predicate GoodText(s: string) { s != "" && s[0] != ' ' && Printable(s) }

  predicate GoodLines(lines: seq<Line>) { forall i | 0 <= i < |lines| :: GoodText(lines[i].text) }

  function LineEnd(s: string): (n: nat)
    ensures n <= |s|
    ensures n < |s| ==> s[n] == '\n'
  {
    if s == "" || s[0] == '\n' then 0 else 1 + LineEnd(s[1..])
  }

  function ParseLine(s: string): (r: Option<(Line, string)>)
    ensures r.Some? ==> |r.value.1| < |s|
  {
    if |s| >= 2 && s[0] == ' ' && s[1] == ' ' then
      var (line, rest) :- ParseLine(s[2..]);
      Some((Line(line.depth + 1, line.text), rest))
    else
      var n := LineEnd(s);
      if n < |s| then Some((Line(0, s[..n]), s[n + 1..])) else None
  }

  function ParseLines(s: string): Option<seq<Line>>
    decreases |s|
  {
    if s == "" then Some([])
    else
      var (line, rest) :- ParseLine(s);
      var lines :- ParseLines(rest);
      Some([line] + lines)
  }

  lemma {:induction false} LineEndOf(text: string, rest: string)
    requires Printable(text)
    ensures LineEnd(text + "\n" + rest) == |text|
  {
    var t := text + "\n" + rest;
    if text != "" {
      assert t[1..] == text[1..] + "\n" + rest;
      LineEndOf(text[1..], rest);
    }
  }

  lemma FlatLine(text: string, rest: string)
    requires GoodText(text)
    ensures ParseLine(text + "\n" + rest) == Some((Line(0, text), rest))
  {
    var t := text + "\n" + rest;
    LineEndOf(text, rest);
    assert t[0] == text[0];
    assert t[..|text|] == text && t[|text| + 1..] == rest;
  }

  lemma DeeperLine(s: string, line: Line, rest: string)
    requires ParseLine(s) == Some((line, rest))
    ensures ParseLine("  " + s) == Some((Line(line.depth + 1, line.text), rest))
  {
    assert ("  " + s)[2..] == s;
  }

  lemma {:induction false} LineRoundTrip(line: Line, rest: string)
    requires GoodText(line.text)
    ensures ParseLine(Indent(line.depth) + line.text + "\n" + rest) == Some((line, rest))
    decreases line.depth
  {
    hide ParseLine, GoodText;
    if line.depth == 0 {
      FlatLine(line.text, rest);
      assert "" + line.text + "\n" + rest == line.text + "\n" + rest;
    } else {
      var inner := Line(line.depth - 1, line.text);
      LineRoundTrip(inner, rest);
      DeeperLine(Indent(inner.depth) + inner.text + "\n" + rest, inner, rest);
      assert Indent(line.depth) + line.text + "\n" + rest == "  " + (Indent(inner.depth) + inner.text + "\n" + rest);
    }
  }

  lemma {:induction false} LinesRoundTrip(lines: seq<Line>)
    requires GoodLines(lines)
    ensures ParseLines(Render(lines)) == Some(lines)
  {
    if lines != [] {
      assert GoodLines(lines[1..]);
      LinesRoundTrip(lines[1..]);
      LineRoundTrip(lines[0], Render(lines[1..]));
      assert [lines[0]] + lines[1..] == lines;
    }
  }

  lemma {:induction false} RenderConcat(a: seq<Line>, b: seq<Line>)
    ensures Render(a + b) == Render(a) + Render(b)
  {
    if a == [] {
      assert a + b == b;
    } else {
      assert (a + b)[1..] == a[1..] + b && (a + b)[0] == a[0];
      RenderConcat(a[1..], b);
    }
  }
}
