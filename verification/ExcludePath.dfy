/** Exclude rules: the text of a rule and the steps it stands for. */
module ExcludePath {
  import opened Options

  datatype Step = FieldStep(name: string) | ItemStep

  datatype RuleError = EmptyField | BadCharacter | BadBracket | NumericIndex | EndsInArray

  datatype Parsed<T> = Steps(steps: T) | Rejected(error: RuleError)

  predicate IsFieldChar(c: char) {
    'a' <= c <= 'z' || 'A' <= c <= 'Z' || '0' <= c <= '9' || c == '_' || c == '-'
  }

  predicate IsFieldName(s: string) { s != "" && forall i | 0 <= i < |s| :: IsFieldChar(s[i]) }

  // ---- The notation: fields separated by dots, `[]` for every item of an array ----

  /** Steps a rule can name: real field names, ending in a field. */
  predicate WellFormed(steps: seq<Step>) {
    && steps != []
    && steps[|steps| - 1].FieldStep?
    && forall i | 0 <= i < |steps| && steps[i].FieldStep? :: IsFieldName(steps[i].name)
  }

  function Print(steps: seq<Step>, first: bool): string {
    if steps == [] then ""
    else match steps[0]
      case FieldStep(name) => (if first then "" else ".") + name + Print(steps[1..], false)
      case ItemStep => "[]" + Print(steps[1..], false)
  }

  /** Whether a rule is the notation of the steps. */
  predicate Denotes(rule: string, steps: seq<Step>) { WellFormed(steps) && Print(steps, true) == rule }

  // ---- The parser of the source, on segments between dots ----

  function FieldRun(s: string): (n: nat)
    ensures n <= |s|
    ensures forall i | 0 <= i < n :: IsFieldChar(s[i])
    ensures n < |s| ==> !IsFieldChar(s[n])
  {
    if s == "" || !IsFieldChar(s[0]) then 0 else 1 + FieldRun(s[1..])
  }

  function CountItems(s: string): Option<nat> {
    if s == "" then Some(0)
    else if |s| >= 2 && s[0] == '[' && s[1] == ']' then
      var more :- CountItems(s[2..]);
      Some(more + 1)
    else None
  }

  function Items(n: nat): (steps: seq<Step>)
    ensures |steps| == n
    ensures forall i | 0 <= i < n :: steps[i] == ItemStep
  {
    seq(n, i => ItemStep)
  }

  function SegmentSteps(segment: string, first: bool): Option<seq<Step>> {
    var n := FieldRun(segment);
    var items :- CountItems(segment[n..]);
    if n == 0 && (!first || items == 0) then None
    else Some((if n == 0 then [] else [FieldStep(segment[..n])]) + Items(items))
  }

  function DotAt(s: string): (n: nat)
    ensures n <= |s|
    ensures n < |s| ==> s[n] == '.'
    ensures forall i | 0 <= i < n :: s[i] != '.'
  {
    if s == "" || s[0] == '.' then 0 else 1 + DotAt(s[1..])
  }

  function Split(s: string): (segments: seq<string>)
    ensures segments != []
    decreases |s|
  {
    var n := DotAt(s);
    if n == |s| then [s] else [s[..n]] + Split(s[n + 1..])
  }

  function AllSteps(segments: seq<string>, first: bool): Option<seq<Step>> {
    if segments == [] then Some([])
    else
      var steps :- SegmentSteps(segments[0], first);
      var more :- AllSteps(segments[1..], false);
      Some(steps + more)
  }

  function Parse(rule: string): Option<seq<Step>> {
    var steps :- AllSteps(Split(rule), true);
    if steps != [] && steps[|steps| - 1].FieldStep? then Some(steps) else None
  }

  // ---- The parser accepts exactly the rules of the notation ----

  lemma {:induction false} PrintConcat(a: seq<Step>, b: seq<Step>, first: bool)
    ensures Print(a + b, first) == Print(a, first) + Print(b, first && a == [])
  {
    if a == [] {
      assert a + b == b && "" + Print(b, first) == Print(b, first);
    } else {
      assert (a + b)[1..] == a[1..] + b && (a + b)[0] == a[0];
      PrintConcat(a[1..], b, false);
    }
  }

  lemma {:induction false} PrintItems(n: nat)
    ensures CountItems(Print(Items(n), false)) == Some(n)
    ensures Print(Items(n), true) == Print(Items(n), false)
    ensures n > 0 ==> Print(Items(n), false)[0] == '['
    ensures '.' !in Print(Items(n), false)
  {
    if n > 0 {
      assert Items(n)[1..] == Items(n - 1);
      PrintItems(n - 1);
      var text := Print(Items(n), false);
      assert text == "[]" + Print(Items(n - 1), false);
      assert text[2..] == Print(Items(n - 1), false);
    }
  }

  lemma {:induction false} CountPrints(s: string)
    requires CountItems(s).Some?
    ensures Print(Items(CountItems(s).value), false) == s
  {
    if s != "" {
      var n := CountItems(s).value;
      CountPrints(s[2..]);
      assert Items(n)[1..] == Items(n - 1);
      assert s == "[]" + s[2..];
    }
  }

  lemma SegmentPrints(segment: string, first: bool)
    requires SegmentSteps(segment, first).Some?
    ensures var steps := SegmentSteps(segment, first).value;
            && steps != []
            && Print(steps, true) == segment
            && (!first ==> steps[0].FieldStep?)
            && forall i | 0 <= i < |steps| && steps[i].FieldStep? :: IsFieldName(steps[i].name)
  {
    hide CountItems;
    var n := FieldRun(segment);
    var items := CountItems(segment[n..]).value;
    CountPrints(segment[n..]);
    PrintItems(items);
    if n > 0 {
      PrintConcat([FieldStep(segment[..n])], Items(items), true);
      assert [FieldStep(segment[..n])][1..] == [];
      assert Print([FieldStep(segment[..n])], true) == segment[..n] by {
        assert "" + segment[..n] + "" == segment[..n];
      }
      assert segment[..n] + segment[n..] == segment;
    } else {
      assert [] + Items(items) == Items(items) && segment[n..] == segment;
    }
  }

  lemma {:induction false} SplitJoins(s: string)
    ensures Join(Split(s)) == s
    decreases |s|
  {
    var n := DotAt(s);
    if n < |s| {
      SplitJoins(s[n + 1..]);
      var rest := s[n + 1..];
      CutAtDot(s, n);
      assert Split(s) == [s[..n]] + Split(rest);
      assert ([s[..n]] + Split(rest))[1..] == Split(rest);
    }
  }

  lemma CutAtDot(s: string, n: nat)
    requires n < |s| && s[n] == '.'
    ensures s == s[..n] + "." + s[n + 1..]
  {
  }

  function Join(segments: seq<string>): string {
    if segments == [] then ""
    else if |segments| == 1 then segments[0]
    else segments[0] + "." + Join(segments[1..])
  }

  /** Printing a later segment behind a dot. */
  lemma DotFirst(steps: seq<Step>)
    requires steps != [] && steps[0].FieldStep?
    ensures Print(steps, false) == "." + Print(steps, true)
  {
    assert "." + steps[0].name + Print(steps[1..], false) == "." + ("" + steps[0].name + Print(steps[1..], false));
  }

  lemma {:induction false} StepsPrint(segments: seq<string>, first: bool)
    requires segments != [] && AllSteps(segments, first).Some?
    ensures var steps := AllSteps(segments, first).value;
            && steps != []
            && Print(steps, true) == Join(segments)
            && (!first ==> steps[0].FieldStep?)
            && forall i | 0 <= i < |steps| && steps[i].FieldStep? :: IsFieldName(steps[i].name)
  {
    hide SegmentSteps, Print, IsFieldName;
    SegmentPrints(segments[0], first);
    var head := SegmentSteps(segments[0], first).value;
    if |segments| == 1 {
      assert segments[1..] == [] && head + [] == head;
    } else {
      var more := AllSteps(segments[1..], false).value;
      StepsPrint(segments[1..], false);
      PrintConcat(head, more, true);
      DotFirst(more);
      assert Print(head, true) + ("." + Print(more, true)) == segments[0] + "." + Join(segments[1..]);
    }
  }

  /** The steps of the first segment: everything before the second field. */
  function GroupLength(steps: seq<Step>): (n: nat)
    requires steps != []
    ensures 0 < n <= |steps|
    ensures n < |steps| ==> steps[n].FieldStep?
    ensures forall i | 0 < i < n :: steps[i] == ItemStep
  {
    1 + ItemRun(steps[1..])
  }

  function ItemRun(steps: seq<Step>): (n: nat)
    ensures n <= |steps|
    ensures n < |steps| ==> steps[n].FieldStep?
    ensures forall i | 0 <= i < n :: steps[i] == ItemStep
  {
    if steps == [] || steps[0].FieldStep? then 0 else 1 + ItemRun(steps[1..])
  }

  lemma FieldRunOf(name: string, rest: string)
    requires forall i | 0 <= i < |name| :: IsFieldChar(name[i])
    requires rest == "" || !IsFieldChar(rest[0])
    ensures FieldRun(name + rest) == |name|
  {
    var t := name + rest;
    assert forall i | 0 <= i < |name| :: t[i] == name[i];
    assert rest != "" ==> t[|name|] == rest[0];
  }

  /** A group of steps is the parse of its own text, which holds no dot. */
  lemma GroupParses(group: seq<Step>, first: bool)
    requires group != [] && (first || group[0].FieldStep?)
    requires forall i | 0 < i < |group| :: group[i] == ItemStep
    requires group[0].FieldStep? ==> IsFieldName(group[0].name)
    ensures SegmentSteps(Print(group, true), first) == Some(group)
    ensures '.' !in Print(group, true)
  {
    hide Print, SegmentSteps;
    if group[0].FieldStep? {
      assert group == [group[0]] + Items(|group| - 1);
      NamedGroupParses(group[0].name, |group| - 1, first);
    } else {
      assert group == Items(|group|);
      ItemGroupParses(|group|);
    }
  }

  lemma ItemGroupParses(n: nat)
    requires n > 0
    ensures SegmentSteps(Print(Items(n), true), true) == Some(Items(n)) && '.' !in Print(Items(n), true)
  {
    hide CountItems, Print;
    PrintItems(n);
    var text := Print(Items(n), true);
    assert FieldRun(text) == 0;
    assert text[0..] == text && [] + Items(n) == Items(n);
  }

  lemma NamedGroupParses(name: string, n: nat, first: bool)
    requires IsFieldName(name)
    ensures var group := [FieldStep(name)] + Items(n);
            SegmentSteps(Print(group, true), first) == Some(group) && '.' !in Print(group, true)
  {
    hide CountItems, IsFieldName;
    PrintConcat([FieldStep(name)], Items(n), true);
    PrintField(name);
    PrintItems(n);
    var tail := Print(Items(n), false);
    var text := name + tail;
    assert tail == "" || tail[0] == '[' by { if n == 0 { PrintNothing(); assert Items(0) == []; } }
    FieldRunOf(name, tail);
    assert text[..|name|] == name && text[|name|..] == tail;
    assert name != "";
  }

  lemma PrintField(name: string)
    ensures Print([FieldStep(name)], true) == name
    ensures IsFieldName(name) ==> name != "" && '.' !in name && forall i | 0 <= i < |name| :: IsFieldChar(name[i])
  {
    assert [FieldStep(name)][1..] == [] && "" + name + "" == name;
  }

  lemma DotAtOf(s: string, rest: string)
    requires '.' !in s
    ensures DotAt(s + "." + rest) == |s| && DotAt(s) == |s|
  {
    var t := s + "." + rest;
    assert forall i | 0 <= i < |s| :: t[i] == s[i] && s[i] in s;
    assert t[|s|] == '.';
  }

  lemma {:induction false} NotationParses(steps: seq<Step>, first: bool)
    requires steps != [] && (first || steps[0].FieldStep?)
    requires forall i | 0 <= i < |steps| && steps[i].FieldStep? :: IsFieldName(steps[i].name)
    ensures AllSteps(Split(Print(steps, true)), first) == Some(steps)
    decreases |steps|
  {
    hide SegmentSteps, Print, IsFieldName;
    var n := GroupLength(steps);
    var group, more := steps[..n], steps[n..];
    var text := Print(group, true);
    GroupParses(group, first);
    assert steps == group + more;
    PrintConcat(group, more, true);
    DotAtOf(text, Print(more, true));
    if more == [] {
      PrintNothing();
      assert text + "" == text;
      assert [text][1..] == [] && group + [] == group;
    } else {
      DotFirst(more);
      var whole := text + "." + Print(more, true);
      assert Print(steps, true) == whole;
      assert whole[..|text|] == text && whole[|text| + 1..] == Print(more, true);
      NotationParses(more, false);
      assert Split(whole)[1..] == Split(Print(more, true));
    }
  }

  lemma PrintNothing()
    ensures Print([], false) == "" && Print([], true) == ""
  {
  }

  /** A rule is accepted exactly when it is the notation of some steps, and yields those steps. */
  lemma ParseIffDenotes(rule: string, steps: seq<Step>)
    ensures Parse(rule) == Some(steps) <==> Denotes(rule, steps)
  {
    hide AllSteps, Split, Print, IsFieldName;
    if Parse(rule) == Some(steps) {
      StepsPrint(Split(rule), true);
      SplitJoins(rule);
    }
    if Denotes(rule, steps) {
      NotationParses(steps, true);
    }
  }

  // ---- The loops of the source ----

  method CountArraySteps(text: string) returns (count: nat, error: Option<RuleError>)
    ensures CountItems(text) == if error.None? then Some(count) else None
  {
    var s := text;
    count, error := 0, None;
    while s != ""
      invariant CountItems(text) == (match CountItems(s) case None => None case Some(n) => Some(count + n))
      decreases |s|
    {
      if s[0] != '[' && s[0] != ']' {
        return 0, Some(BadCharacter);
      }
      var closing := 0;
      while closing < |s| && s[closing] != ']'
        invariant 0 <= closing <= |s|
        invariant forall i | 0 <= i < closing :: s[i] != ']'
      {
        closing := closing + 1;
      }
      if s[0] != '[' || closing == |s| {
        return 0, Some(BadBracket);
      }
      if closing > 1 {
        var digits := true;
        for i := 1 to closing {
          digits := digits && '0' <= s[i] <= '9';
        }
        return 0, Some(if digits then NumericIndex else BadBracket);
      }
      assert s[closing + 1..] == s[2..];
      count := count + 1;
      s := s[closing + 1..];
    }
  }

  method ParseExcludeSegment(segment: string, first: bool) returns (r: Parsed<seq<Step>>)
    ensures SegmentSteps(segment, first) == if r.Steps? then Some(r.steps) else None
  {
    hide CountItems;
    var end := 0;
    while end < |segment| && IsFieldChar(segment[end])
      invariant 0 <= end <= |segment|
      invariant forall i | 0 <= i < end :: IsFieldChar(segment[i])
    {
      end := end + 1;
    }
    assert segment == segment[..end] + segment[end..];
    FieldRunOf(segment[..end], segment[end..]);
    var items, error := CountArraySteps(segment[end..]);
    if error.Some? {
      return Rejected(error.value);
    }
    if end == 0 && (!first || items == 0) {
      return Rejected(EmptyField);
    }
    var steps: seq<Step> := [];
    if end > 0 {
      steps := steps + [FieldStep(segment[..end])];
    }
    ghost var named := steps;
    assert named == if end == 0 then [] else [FieldStep(segment[..end])];
    for i := 0 to items
      invariant steps == named + Items(i)
    {
      assert Items(i + 1) == Items(i) + [ItemStep];
      steps := steps + [ItemStep];
    }
    return Steps(steps);
  }

  lemma {:induction false} StepsSnoc(segments: seq<string>, i: nat)
    requires i < |segments|
    ensures var (before, last) := (AllSteps(segments[..i], true), SegmentSteps(segments[i], i == 0));
            && (before.Some? && last.Some? ==> AllSteps(segments[..i + 1], true) == Some(before.value + last.value))
            && (last.None? ==> AllSteps(segments, true).None?)
  {
    StepsSnocFrom(segments, i, true);
  }

  lemma {:induction false} StepsSnocFrom(segments: seq<string>, i: nat, first: bool)
    requires i < |segments|
    ensures var (before, last) := (AllSteps(segments[..i], first), SegmentSteps(segments[i], first && i == 0));
            && (before.Some? && last.Some? ==> AllSteps(segments[..i + 1], first) == Some(before.value + last.value))
            && (last.None? ==> AllSteps(segments, first).None?)
    decreases i
  {
    hide SegmentSteps;
    if i == 0 {
      assert segments[..1][1..] == [] && segments[..0] == [];
      assert AllSteps([], first) == Some([]) == AllSteps([], false);
      if SegmentSteps(segments[0], first).Some? {
        var steps := SegmentSteps(segments[0], first).value;
        assert steps + [] == steps && [] + steps == steps;
      }
    } else {
      assert segments[..i][1..] == segments[1..][..i - 1] && segments[..i + 1][1..] == segments[1..][..i];
      assert segments[..i][0] == segments[0] == segments[..i + 1][0] && segments[1..][i - 1] == segments[i];
      StepsSnocFrom(segments[1..], i - 1, false);
      var (head, mid, last) := (SegmentSteps(segments[0], first), AllSteps(segments[1..][..i - 1], false),
                                SegmentSteps(segments[i], false));
      if head.Some? && mid.Some? && last.Some? {
        assert head.value + (mid.value + last.value) == head.value + mid.value + last.value;
      }
    }
  }

  /** Accepts exactly the rules of the notation. */
  method ParseExcludePath(rule: string) returns (r: Parsed<seq<Step>>)
    ensures r.Steps? ==> Denotes(rule, r.steps)
    ensures r.Rejected? ==> forall steps :: !Denotes(rule, steps)
  {
    hide SegmentSteps, AllSteps, Split, Denotes;
    forall steps ensures Parse(rule) == Some(steps) <==> Denotes(rule, steps) {
      ParseIffDenotes(rule, steps);
    }
    var segments := Split(rule);
    var steps: seq<Step> := [];
    assert AllSteps(segments[..0], true) == Some([]) by { NoSegments(segments[..0]); }
    for i := 0 to |segments|
      invariant AllSteps(segments[..i], true) == Some(steps)
    {
      StepsSnoc(segments, i);
      var parsed := ParseExcludeSegment(segments[i], i == 0);
      if parsed.Rejected? {
        return Rejected(parsed.error);
      }
      steps := steps + parsed.steps;
    }
    assert segments[..|segments|] == segments;
    StepsPrint(segments, true);
    if steps[|steps| - 1].ItemStep? {
      return Rejected(EndsInArray);
    }
    return Steps(steps);
  }

  lemma NoSegments(segments: seq<string>)
    requires segments == []
    ensures AllSteps(segments, true) == Some([])
  {
  }
}
