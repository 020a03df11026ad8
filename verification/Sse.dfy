/** Server-sent events: the frames the server writes, and the byte-wise scanner that reads them. */
module Sse {
  import opened Options
  import opened Utf8

  type Bytes = seq<byte>

  const LF: byte := 10
  const CR: byte := 13
  const COLON: byte := 58
  const SPACE: byte := 32
  const BOM: Bytes := [0xef, 0xbb, 0xbf]

  /** "data" and "event: message", then a line feed. */
  const DATA: Bytes := [100, 97, 116, 97]
  const EVENT_LINE: Bytes := [101, 118, 101, 110, 116, 58, 32, 109, 101, 115, 115, 97, 103, 101]
  const DATA_PREFIX: Bytes := DATA + [COLON, SPACE]

  datatype Limits = Limits(messageBytes: nat, lineBytes: nat)

  // ---- Lines ----

  /** Where the first line ends: at a line feed, a carriage return, or the end. */
  function LineEnd(s: Bytes): (k: nat)
    ensures k <= |s|
    ensures forall i | 0 <= i < k :: s[i] != LF && s[i] != CR
    ensures k < |s| ==> s[k] == LF || s[k] == CR
  {
    if s == [] || s[0] == LF || s[0] == CR then 0 else 1 + LineEnd(s[1..])
  }

  /** What follows the first line and its break; a carriage return and a line feed are one break. */
  function AfterLine(s: Bytes): (rest: Bytes)
    ensures s != [] ==> |rest| < |s|
  {
    var k := LineEnd(s);
    if k == |s| then []
    else if s[k] == CR && k + 1 < |s| && s[k + 1] == LF then s[k + 2..]
    else s[k + 1..]
  }

  /** The lines of a text; a break at the very end starts no further line. */
  function Lines(s: Bytes): seq<Bytes>
    decreases |s|
  {
    if s == [] then [] else [s[..LineEnd(s)]] + Lines(AfterLine(s))
  }

  function WithoutBom(s: Bytes): Bytes { if BOM <= s then s[|BOM|..] else s }

  datatype Read = Line(line: Bytes) | Eof | TooLarge

  class LineReader {
    const input: Bytes
    const lineBytes: nat
    var pos: nat

    ghost predicate Valid()
      reads this
    {
      pos <= |input|
    }

    ghost function Rest(): Bytes
      requires Valid()
      reads this
    {
      input[pos..]
    }

    constructor (input': Bytes, lineBytes': nat)
      ensures Valid() && lineBytes == lineBytes' && Rest() == WithoutBom(input')
    {
      input, lineBytes := input', lineBytes';
      pos := if |input'| >= 3 && input'[..3] == BOM then 3 else 0;
    }

    /** Reads byte by byte; a line is refused as soon as it is longer than allowed. */
    method ReadLine() returns (r: Read)
      requires Valid()
      modifies this
      ensures Valid()
      ensures r.Eof? <==> old(Rest()) == []
      ensures r.TooLarge? <==> LineEnd(old(Rest())) > lineBytes
      ensures r.Line? ==> r.line == old(Rest())[..LineEnd(old(Rest()))] && Rest() == AfterLine(old(Rest()))
    {
      hide LineEnd, AfterLine;
      ghost var start, rest := pos, Rest();
      if pos == |input| { return Eof; }
      var line: Bytes := [];
      while pos < |input|
        invariant start <= pos <= |input| && line == input[start..pos] && |line| <= lineBytes
        invariant forall i | start <= i < pos :: input[i] != LF && input[i] != CR
      {
        var b := input[pos];
        if b == LF || b == CR {
          BreaksAt(input, start, pos);
          pos := pos + 1;
          if b == CR && pos < |input| && input[pos] == LF { pos := pos + 1; }
          return Line(line);
        }
        pos := pos + 1;
        line := line + [b];
        if |line| > lineBytes {
          RunsTo(input, start, pos);
          return TooLarge;
        }
      }
      BreaksAt(input, start, pos);
      return Line(line);
    }
  }

  lemma {:induction false} EndsAfter(s: Bytes, k: nat)
    requires k <= |s| && forall i | 0 <= i < k :: s[i] != LF && s[i] != CR
    ensures LineEnd(s) >= k
  {
    if k > 0 { EndsAfter(s[1..], k - 1); }
  }

  lemma RunsTo(input: Bytes, start: nat, pos: nat)
    requires start <= pos <= |input| && forall i | start <= i < pos :: input[i] != LF && input[i] != CR
    ensures LineEnd(input[start..]) >= pos - start
  {
    EndsAfter(input[start..], pos - start);
  }

  lemma BreaksAt(input: Bytes, start: nat, pos: nat)
    requires start <= pos <= |input| && forall i | start <= i < pos :: input[i] != LF && input[i] != CR
    requires pos < |input| ==> input[pos] == LF || input[pos] == CR
    ensures var rest := input[start..];
            && LineEnd(rest) == pos - start && rest[..LineEnd(rest)] == input[start..pos]
            && AfterLine(rest) == if pos == |input| then []
                                  else if input[pos] == CR && pos + 1 < |input| && input[pos + 1] == LF then input[pos + 2..]
                                  else input[pos + 1..]
  {
    EndsAt(input[start..], pos - start);
  }

  lemma EndsAt(s: Bytes, k: nat)
    requires k <= |s| && (forall i | 0 <= i < k :: s[i] != LF && s[i] != CR) && (k < |s| ==> s[k] == LF || s[k] == CR)
    ensures LineEnd(s) == k
  {
    EndsAfter(s, k);
  }

  // ---- Events ----

  function FirstColon(line: Bytes): (k: nat)
    ensures k <= |line|
    ensures forall i | 0 <= i < k :: line[i] != COLON
    ensures k < |line| ==> line[k] == COLON
  {
    if line == [] || line[0] == COLON then 0 else 1 + FirstColon(line[1..])
  }

  /** The value of a data line, less one leading space; None for a comment, another field or a blank line. */
  function DataValue(line: Bytes): Option<Bytes> {
    var k := FirstColon(line);
    if line == [] || line[0] == COLON || line[..k] != DATA then None
    else if k == |line| then Some([])
    else
      var value := line[k + 1..];
      Some(if value != [] && value[0] == SPACE then value[1..] else value)
  }

  /** How a scan ends: at the end of the input, over a limit, or by the handler's wish. */
  datatype Ending = Finished | Oversized | Refused

  /** `valid` says which texts are JSON, `accepts` which messages the handler takes without error. */
  datatype Handler = Handler(valid: Bytes -> bool, accepts: Bytes -> bool)

  /** The event being gathered. */
  datatype Gathered = Gathered(event: Bytes, seenData: bool)

  const NOTHING := Gathered([], false)

  /** What one line does to the event; None when it would grow over the limit. */
  function AfterData(g: Gathered, value: Bytes, limit: nat): Option<Gathered> {
    var separator: Bytes := if g.seenData then [LF] else [];
    if |separator| > limit - |g.event| || |value| > limit - |g.event + separator| then None
    else Some(Gathered(g.event + separator + value, true))
  }

  /** What one line does: the message it delivers, if any, the event after it, and whether it ends the scan. */
  datatype Effect = Effect(sent: seq<Bytes>, next: Gathered, stop: Option<Ending>)

  function EffectOf(line: Bytes, g: Gathered, limits: Limits, h: Handler): Effect {
    if line == [] then
      if !g.seenData || !h.valid(g.event) then Effect([], NOTHING, None)
      else Effect([g.event], NOTHING, if h.accepts(g.event) then None else Some(Refused))
    else
      match DataValue(line)
      case None => Effect([], g, None)
      case Some(value) =>
        match AfterData(g, value, limits.messageBytes)
        case None => Effect([], g, Some(Oversized))
        case Some(g') => Effect([], g', None)
  }

  /** The messages the remaining lines deliver, and how the scan ends. */
  function Scan(lines: seq<Bytes>, g: Gathered, limits: Limits, h: Handler): (seq<Bytes>, Ending) {
    if lines == [] then ([], Finished)
    else if |lines[0]| > limits.lineBytes then ([], Oversized)
    else
      var effect := EffectOf(lines[0], g, limits, h);
      if effect.stop.Some? then (effect.sent, effect.stop.value)
      else
        var rest := Scan(lines[1..], effect.next, limits, h);
        (effect.sent + rest.0, rest.1)
  }

  class Scanner {
    const reader: LineReader
    const limits: Limits
    const handler: Handler
    var event: Bytes
    var seenData: bool
    var delivered: seq<Bytes>

    /** The event buffer never grows over its bound. */
    ghost predicate Valid()
      reads this, reader
    {
      && reader.Valid() && reader.lineBytes == limits.lineBytes
      && |event| <= limits.messageBytes
      && (!seenData ==> event == [])
    }

    ghost function State(): Gathered
      reads this
    {
      Gathered(event, seenData)
    }

    constructor (body: Bytes, limits': Limits, handler': Handler)
      ensures Valid() && State() == NOTHING && delivered == []
      ensures reader.Rest() == WithoutBom(body) && limits == limits' && handler == handler' && fresh(reader)
    {
      var r := new LineReader(body, limits'.lineBytes);
      reader, limits, handler := r, limits', handler';
      event, seenData, delivered := [], false, [];
    }

    method AppendBounded(value: Bytes) returns (ok: bool)
      modifies this`event
      ensures ok <==> |value| <= limits.messageBytes - |old(event)|
      ensures event == if ok then old(event) + value else old(event)
    {
      if |value| > limits.messageBytes - |event| { return false; }
      event := event + value;
      ok := true;
    }

    method Flush() returns (ok: bool)
      requires Valid()
      modifies this`event, this`seenData, this`delivered
      ensures Valid() && State() == NOTHING
      ensures var sends := old(seenData) && handler.valid(old(event));
              && delivered == old(delivered) + (if sends then [old(event)] else [])
              && ok == (sends ==> handler.accepts(old(event)))
    {
      if !seenData { return true; }
      seenData := false;
      var raw := event;
      event := [];
      if !handler.valid(raw) { return true; }
      delivered := delivered + [raw];
      ok := handler.accepts(raw);
    }

    /** Whether scanning goes on, and if not, why. */
    method ProcessLine(line: Bytes) returns (ending: Option<Ending>)
      requires Valid()
      modifies this`event, this`seenData, this`delivered
      ensures Valid()
      ensures var effect := EffectOf(line, old(State()), limits, handler);
              && ending == effect.stop && delivered == old(delivered) + effect.sent
              && (ending.None? ==> State() == effect.next)
    {
      if |line| == 0 {
        var ok := Flush();
        return if ok then None else Some(Refused);
      }
      var value := DataValue(line);
      if value.None? { return None; }
      if seenData {
        var fits := AppendBounded([LF]);
        if !fits { return Some(Oversized); }
      }
      seenData := true;
      var fits := AppendBounded(value.value);
      return if fits then None else Some(Oversized);
    }

    method ScanAll() returns (ending: Ending)
      requires Valid()
      modifies this, reader
      ensures Valid()
      ensures var result := Scan(Lines(old(reader.Rest())), old(State()), limits, handler);
              delivered == old(delivered) + result.0 && ending == result.1
    {
      hide EffectOf, Scan, Lines;
      ghost var result := Scan(Lines(reader.Rest()), State(), limits, handler);
      ghost var before := delivered;
      ghost var sent: seq<Bytes> := [];
      assert [] + result.0 == result.0;
      while true
        invariant Valid() && delivered == before + sent
        invariant Continues(result, sent, Scan(Lines(reader.Rest()), State(), limits, handler))
        decreases |reader.Rest()|
      {
        ghost var rest, g := reader.Rest(), State();
        ScanStep(rest, g, limits, handler);
        var read := reader.ReadLine();
        if read.Eof? { return Finished; }
        if read.TooLarge? { return Oversized; }
        var stop := ProcessLine(read.line);
        ghost var effect := EffectOf(read.line, g, limits, handler);
        SentMore(before, sent, effect.sent);
        if stop.Some? { return stop.value; }
        ContinuesMore(result, sent, effect.sent, Scan(Lines(reader.Rest()), State(), limits, handler));
        sent := sent + effect.sent;
      }
    }
  }

  /** The whole result is what has been sent and what the rest will come to. */
  ghost predicate Continues(whole: (seq<Bytes>, Ending), sent: seq<Bytes>, rest: (seq<Bytes>, Ending)) {
    whole.0 == sent + rest.0 && whole.1 == rest.1
  }

  lemma ContinuesMore(whole: (seq<Bytes>, Ending), sent: seq<Bytes>, more: seq<Bytes>, rest: (seq<Bytes>, Ending))
    ensures Continues(whole, sent, (more + rest.0, rest.1)) <==> Continues(whole, sent + more, rest)
  {
    assert sent + (more + rest.0) == (sent + more) + rest.0;
  }

  lemma SentMore(before: seq<Bytes>, sent: seq<Bytes>, more: seq<Bytes>)
    ensures before + sent + more == before + (sent + more)
  {
  }

  lemma ScanStep(rest: Bytes, g: Gathered, limits: Limits, h: Handler)
    ensures rest == [] ==> Scan(Lines(rest), g, limits, h) == ([], Finished)
    ensures rest != [] && LineEnd(rest) > limits.lineBytes ==> Scan(Lines(rest), g, limits, h) == ([], Oversized)
    ensures rest != [] && LineEnd(rest) <= limits.lineBytes ==>
              var effect := EffectOf(rest[..LineEnd(rest)], g, limits, h);
              var more := Scan(Lines(AfterLine(rest)), effect.next, limits, h);
              Scan(Lines(rest), g, limits, h) ==
              if effect.stop.Some? then (effect.sent, effect.stop.value) else (effect.sent + more.0, more.1)
  {
    hide EffectOf, LineEnd, AfterLine;
    if rest != [] {
      assert Lines(rest)[0] == rest[..LineEnd(rest)] && Lines(rest)[1..] == Lines(AfterLine(rest));
    }
  }

  // ---- The standard's reading of the same lines (section 9.2.6 of the WHATWG HTML Standard) ----

  /** The data values of a block of lines. */
  function DataValues(block: seq<Bytes>): seq<Bytes> {
    if block == [] then []
    else
      var before, last := DataValues(block[..|block| - 1]), DataValue(block[|block| - 1]);
      if last.Some? then before + [last.value] else before
  }

  /** Each value is followed by a line feed, of which the last is dropped. */
  function Joined(values: seq<Bytes>): Bytes {
    if values == [] then [] else if |values| == 1 then values[0] else Joined(values[..|values| - 1]) + [LF] + values[|values| - 1]
  }

  /** Every blank line ends a block; a block with data is an event, delivered if it is JSON; what follows
      the last blank line is discarded. */
  function Delivered(block: seq<Bytes>, lines: seq<Bytes>, valid: Bytes -> bool): seq<Bytes>
    decreases |lines|
  {
    if lines == [] then []
    else if lines[0] != [] then Delivered(block + [lines[0]], lines[1..], valid)
    else
      var values := DataValues(block);
      (if values != [] && valid(Joined(values)) then [Joined(values)] else []) + Delivered([], lines[1..], valid)
  }

  function GatheredFrom(block: seq<Bytes>): Gathered { Gathered(Joined(DataValues(block)), DataValues(block) != []) }

  lemma GatherLine(block: seq<Bytes>, line: Bytes)
    ensures GatheredFrom(block + [line]) ==
            match DataValue(line)
            case None => GatheredFrom(block)
            case Some(value) =>
              var g := GatheredFrom(block);
              Gathered(g.event + (if g.seenData then [LF] else []) + value, true)
  {
    assert (block + [line])[..|block|] == block;
    if DataValue(line).Some? {
      var values, value := DataValues(block), DataValue(line).value;
      assert DataValues(block + [line]) == values + [value];
      assert (values + [value])[..|values|] == values;
      assert values == [] ==> Joined(values) + [] + value == value;
      assert values != [] ==> Joined(values + [value]) == Joined(values) + [LF] + value;
    }
  }

  /** While no limit is reached and the handler is content, the scanner delivers exactly the events of the
      standard that are JSON. */
  lemma {:induction false} ScanFollowsStandard(block: seq<Bytes>, lines: seq<Bytes>, limits: Limits, h: Handler)
    requires Scan(lines, GatheredFrom(block), limits, h).1.Finished?
    ensures Scan(lines, GatheredFrom(block), limits, h).0 == Delivered(block, lines, h.valid)
    decreases |lines|
  {
    hide DataValue, AfterData;
    if lines != [] {
      if lines[0] == [] {
        assert GatheredFrom([]) == NOTHING;
        ScanFollowsStandard([], lines[1..], limits, h);
      } else {
        GatherLine(block, lines[0]);
        DataGathers(block, lines[0], limits);
        ScanFollowsStandard(block + [lines[0]], lines[1..], limits, h);
      }
    }
  }

  lemma DataGathers(block: seq<Bytes>, line: Bytes, limits: Limits)
    ensures DataValue(line).Some? && AfterData(GatheredFrom(block), DataValue(line).value, limits.messageBytes).Some? ==>
              AfterData(GatheredFrom(block), DataValue(line).value, limits.messageBytes).value == GatheredFrom(block + [line])
  {
    GatherLine(block, line);
  }

  // ---- The server's frames ----

  function Frame(message: Bytes): Bytes { EVENT_LINE + [LF] + DATA_PREFIX + message + [LF, LF] }

  function Frames(messages: seq<Bytes>): Bytes {
    if messages == [] then [] else Frame(messages[0]) + Frames(messages[1..])
  }

  /** A message on one line, within the limits. */
  predicate Sendable(message: Bytes, limits: Limits) {
    && (forall i | 0 <= i < |message| :: message[i] != LF && message[i] != CR)
    && |message| <= limits.messageBytes
    && |DATA_PREFIX| + |message| <= limits.lineBytes
    && |EVENT_LINE| <= limits.lineBytes
  }

  class EventStream {
    var written: Bytes

    constructor ()
      ensures written == []
    {
      written := [];
    }

    /** Writes messages until one cannot be written; `fails` says at which the connection breaks, if any. */
    method WriteNotifications(messages: seq<Bytes>, fails: Option<nat>) returns (sent: nat)
      modifies this
      ensures sent <= |messages| && (fails.None? ==> sent == |messages|) && (fails.Some? ==> sent <= fails.value)
      ensures written == old(written) + Frames(messages[..sent])
    {
      sent := 0;
      while sent < |messages|
        invariant sent <= |messages| && (fails.Some? ==> sent <= fails.value)
        invariant written == old(written) + Frames(messages[..sent])
      {
        if fails == Some(sent) { return; }
        written := written + Frame(messages[sent]);
        FramesSnoc(messages[..sent], messages[sent]);
        assert messages[..sent + 1] == messages[..sent] + [messages[sent]];
        sent := sent + 1;
      }
    }
  }

  lemma {:induction false} FramesSnoc(messages: seq<Bytes>, message: Bytes)
    ensures Frames(messages + [message]) == Frames(messages) + Frame(message)
  {
    hide Frame;
    if messages == [] {
      assert messages + [message] == [message] && Frames([message][1..]) == [];
      assert Frame(message) + [] == Frame(message);
    } else {
      FramesSnoc(messages[1..], message);
      assert (messages + [message])[1..] == messages[1..] + [message];
      assert (messages + [message])[0] == messages[0];
    }
  }

  lemma LineBeforeBreak(line: Bytes, rest: Bytes)
    requires forall i | 0 <= i < |line| :: line[i] != LF && line[i] != CR
    ensures LineEnd(line + [LF] + rest) == |line| && AfterLine(line + [LF] + rest) == rest
    ensures Lines(line + [LF] + rest) == [line] + Lines(rest)
  {
    var s := line + [LF] + rest;
    EndsAt(s, |line|);
    assert s[..|line|] == line && s[|line| + 1..] == rest;
  }

  lemma FrameLines(message: Bytes, rest: Bytes)
    requires forall i | 0 <= i < |message| :: message[i] != LF && message[i] != CR
    ensures Lines(Frame(message) + rest) == [EVENT_LINE, DATA_PREFIX + message, []] + Lines(rest)
  {
    var data := DATA_PREFIX + message;
    FrameParts(message, rest);
    hide Frame, Lines, LineEnd, AfterLine;
    LineBeforeBreak(EVENT_LINE, data + [LF] + ([] + [LF] + rest));
    LineBeforeBreak(data, [] + [LF] + rest);
    LineBeforeBreak([], rest);
  }

  lemma FrameParts(message: Bytes, rest: Bytes)
    ensures Frame(message) + rest == EVENT_LINE + [LF] + (DATA_PREFIX + message + [LF] + ([] + [LF] + rest))
  {
    Regroup(EVENT_LINE + [LF], DATA_PREFIX + message, [LF], rest);
  }

  lemma Regroup(a: Bytes, b: Bytes, lf: Bytes, rest: Bytes)
    ensures a + DATA_PREFIX + [LF, LF] + rest == a + (DATA_PREFIX + ([LF] + ([] + [LF] + rest)))
    ensures a + b + [LF, LF] + rest == a + (b + [LF] + ([] + [LF] + rest))
  {
  }

  lemma FrameFields(message: Bytes)
    ensures DataValue(EVENT_LINE).None?
    ensures DataValue(DATA_PREFIX + message) == Some(message)
  {
    var line := DATA_PREFIX + message;
    hide FirstColon;
    ColonAt(EVENT_LINE, 5);
    ColonAt(line, 4);
    assert EVENT_LINE[..5][0] != DATA[0];
    assert line[..4] == DATA && line[5..] == [SPACE] + message && ([SPACE] + message)[1..] == message;
  }

  lemma {:induction false} ColonAt(line: Bytes, k: nat)
    requires k < |line| && line[k] == COLON && forall i | 0 <= i < k :: line[i] != COLON
    ensures FirstColon(line) == k
    decreases k
  {
    if k > 0 { ColonAt(line[1..], k - 1); }
  }

  lemma {:induction false} FramesDelivered(messages: seq<Bytes>, limits: Limits, h: Handler)
    requires forall i | 0 <= i < |messages| :: Sendable(messages[i], limits) && h.valid(messages[i]) && h.accepts(messages[i])
    ensures Scan(Lines(Frames(messages)), NOTHING, limits, h) == (messages, Finished)
  {
    if messages != [] {
      var message, rest := messages[0], messages[1..];
      FramesDelivered(rest, limits, h);
      FrameDelivered(message, Frames(rest), limits, h);
      assert messages == [message] + rest;
    }
  }

  lemma FrameDelivered(message: Bytes, rest: Bytes, limits: Limits, h: Handler)
    requires Sendable(message, limits) && h.valid(message) && h.accepts(message)
    ensures var more := Scan(Lines(rest), NOTHING, limits, h);
            Scan(Lines(Frame(message) + rest), NOTHING, limits, h) == ([message] + more.0, more.1)
  {
    hide EffectOf, Frame, Lines, Sendable;
    var data, tail := DATA_PREFIX + message, Lines(rest);
    FrameFits(message, limits);
    FrameLines(message, rest);
    FrameEffects(message, limits, h);
    assert [EVENT_LINE, data, []] + tail == [EVENT_LINE] + ([data] + ([[]] + tail));
    var more := Scan(tail, NOTHING, limits, h);
    ScanCons([], tail, Gathered(message, true), limits, h);
    ScanCons(data, [[]] + tail, NOTHING, limits, h);
    ScanCons(EVENT_LINE, [data] + ([[]] + tail), NOTHING, limits, h);
    hide Scan;
    assert [] + ([message] + more.0) == [message] + more.0;
  }

  lemma FrameFits(message: Bytes, limits: Limits)
    requires Sendable(message, limits)
    ensures forall i | 0 <= i < |message| :: message[i] != LF && message[i] != CR
    ensures |EVENT_LINE| <= limits.lineBytes && |DATA_PREFIX + message| <= limits.lineBytes && |message| <= limits.messageBytes
  {
  }

  lemma FrameEffects(message: Bytes, limits: Limits, h: Handler)
    requires |message| <= limits.messageBytes && h.valid(message) && h.accepts(message)
    ensures EffectOf(EVENT_LINE, NOTHING, limits, h) == Effect([], NOTHING, None)
    ensures EffectOf(DATA_PREFIX + message, NOTHING, limits, h) == Effect([], Gathered(message, true), None)
    ensures EffectOf([], Gathered(message, true), limits, h) == Effect([message], NOTHING, None)
  {
    FrameFields(message);
    hide DataValue;
    assert |DATA_PREFIX + message| > 0 && |EVENT_LINE| > 0;
    assert [] + [] + message == message;
  }

  lemma ScanCons(line: Bytes, lines: seq<Bytes>, g: Gathered, limits: Limits, h: Handler)
    requires |line| <= limits.lineBytes
    ensures var effect := EffectOf(line, g, limits, h);
            var more := Scan(lines, effect.next, limits, h);
            Scan([line] + lines, g, limits, h) ==
            if effect.stop.Some? then (effect.sent, effect.stop.value) else (effect.sent + more.0, more.1)
  {
    hide EffectOf;
    assert ([line] + lines)[1..] == lines;
  }

  lemma FramesHaveNoBom(messages: seq<Bytes>)
    ensures WithoutBom(Frames(messages)) == Frames(messages)
  {
    if messages != [] { assert Frames(messages)[0] == EVENT_LINE[0]; }
  }

  /** Scanning the frames a server wrote delivers exactly their messages, in order. */
  method ReadBack(messages: seq<Bytes>, limits: Limits, handler: Handler) returns (ending: Ending, delivered: seq<Bytes>)
    requires forall i | 0 <= i < |messages| ::
               Sendable(messages[i], limits) && handler.valid(messages[i]) && handler.accepts(messages[i])
    ensures ending.Finished? && delivered == messages
  {
    hide Frames, Lines, Scan;
    var stream := new EventStream();
    var sent := stream.WriteNotifications(messages, None);
    assert messages[..sent] == messages;
    FramesHaveNoBom(messages);
    FramesDelivered(messages, limits, handler);
    assert [] + messages == messages && [] + Frames(messages) == Frames(messages);
    var scanner := new Scanner(stream.written, limits, handler);
    ending := scanner.ScanAll();
    delivered := scanner.delivered;
  }
}
