/** The converter from response chunks to stream events: which runs keep the grammar. */
module StreamConverter {
  import opened StreamGrammar

  /** A tool call with its arguments as encoded, if they do encode. */
  datatype ToolCall = ToolCall(id: string, name: string, args: string, encodes: bool)

  /** A response chunk: the thinking and the content it carries, its tool calls, and whether it is the last. */
  datatype Chunk = Chunk(thinking: string, content: string, toolCalls: seq<ToolCall>, done: bool)

  datatype Conv = Conv(firstWrite: bool, contentIndex: int, thinkingStarted: bool, thinkingDone: bool,
                       textStarted: bool,
                       toolCallsSent: set<string>)

  const NEW := Conv(true, 0, false, false, false, {})

  predicate ThinkingOpen(c: Conv) { c.thinkingStarted && !c.thinkingDone }

  // ---- the parts of Process ----

  function Started(c: Conv): (Conv, seq<Event>) {
    if c.firstWrite then (c.(firstWrite := false), [MessageStart]) else (c, [])
  }

  function ThinkingPart(c: Conv, r: Chunk): (Conv, seq<Event>) {
    if r.thinking != "" && !c.thinkingDone then
      (c.(thinkingStarted := true),
       (if c.thinkingStarted then [] else [BlockStart(c.contentIndex, ThinkingHead)])
       + [BlockDelta(c.contentIndex, ThinkingBlock, r.thinking)])
    else (c, [])
  }

  function TextPart(c: Conv, r: Chunk): (Conv, seq<Event>) {
    if r.content == "" then (c, [])
    else
      var c1 := if ThinkingOpen(c) then c.(thinkingDone := true, contentIndex := c.contentIndex + 1) else c;
      (c1.(textStarted := true),
       (if ThinkingOpen(c) then [BlockStop(c.contentIndex)] else [])
       + (if c1.textStarted then [] else [BlockStart(c1.contentIndex, TextHead)])
       + [BlockDelta(c1.contentIndex, TextBlock, r.content)])
  }

  /** The block of a tool call. */
  function ToolEvents(i: int, tc: ToolCall): seq<Event> {
    [BlockStart(i, ToolHead(tc.id, tc.name)), BlockDelta(i, ToolBlock, tc.args), BlockStop(i)]
  }

  function OneTool(c: Conv, tc: ToolCall): (Conv, seq<Event>) {
    if tc.id in c.toolCallsSent then (c, [])
    else
      var c1 := if c.textStarted then c.(contentIndex := c.contentIndex + 1, textStarted := false) else c;
      var stop := if c.textStarted then [BlockStop(c.contentIndex)] else [];
      if !tc.encodes then (c1, stop)
      else
        var i := c1.contentIndex;
        (c1.(toolCallsSent := c1.toolCallsSent + {tc.id}, contentIndex := i + 1),
         stop + ToolEvents(i, tc))
  }

  function ToolPart(c: Conv, tcs: seq<ToolCall>, n: nat): (Conv, seq<Event>)
    requires n <= |tcs|
  {
    if n == 0 then (c, [])
    else
      var (c1, e1) := ToolPart(c, tcs, n - 1);
      var (c2, e2) := OneTool(c1, tcs[n - 1]);
      (c2, e1 + e2)
  }

  function DonePart(c: Conv, r: Chunk): seq<Event> {
    if !r.done then []
    else (if c.textStarted || ThinkingOpen(c) then [BlockStop(c.contentIndex)] else []) + [MessageDelta, MessageStop]
  }

  function Process(c: Conv, r: Chunk): (Conv, seq<Event>) {
    var (c1, e1) := Started(c);
    var (c2, e2) := ThinkingPart(c1, r);
    var (c3, e3) := TextPart(c2, r);
    var (c4, e4) := ToolPart(c3, r.toolCalls, |r.toolCalls|);
    (c4, e1 + e2 + e3 + e4 + DonePart(c4, r))
  }

  // ---- where the stream is ----

  /** The place that the converter's fields stand for, before the end of the message. */
  function PlaceOf(c: Conv): Place {
    if c.firstWrite then NotStarted
    else if c.textStarted then InBlock(c.contentIndex, TextBlock)
    else if ThinkingOpen(c) then InBlock(c.contentIndex, ThinkingBlock)
    else Between(c.contentIndex)
  }

  /** At most one block is open, and none before the message has started. */
  predicate ConvOk(c: Conv) {
    && !(c.textStarted && ThinkingOpen(c))
    && (c.firstWrite ==> c == NEW)
  }

  // ---- what a caller must not do ----

  /** Thinking that starts while a text block is open. */
  predicate ThinkingTooLate(c: Conv, r: Chunk) {
    r.thinking != "" && !c.thinkingDone && !c.thinkingStarted && c.textStarted
  }

  /** A tool call, not sent yet, while a thinking block is open. */
  predicate ToolTooEarly(c: Conv, r: Chunk) {
    && (ThinkingOpen(c) || (r.thinking != "" && !c.thinkingDone)) && r.content == ""
    && exists i :: 0 <= i < |r.toolCalls| && r.toolCalls[i].id !in c.toolCallsSent && r.toolCalls[i].encodes
  }

  predicate Fits(c: Conv, r: Chunk) { !ThinkingTooLate(c, r) && !ToolTooEarly(c, r) }

  lemma {:induction false} After1(g: Place, e: Event)
    ensures After(g, [e]) == Next(g, e)
  {
    assert After(g, [e]) == After(Next(g, e), []);
  }

  lemma {:induction false} After2(g: Place, a: Event, b: Event)
    ensures After(g, [a, b]) == Next(Next(g, a), b)
  {
    assert [a, b][1..] == [b];
    After1(Next(g, a), b);
  }

  lemma {:induction false} After3(g: Place, a: Event, b: Event, c: Event)
    ensures After(g, [a, b, c]) == Next(Next(Next(g, a), b), c)
  {
    assert [a, b, c][1..] == [b, c];
    After2(Next(g, a), b, c);
  }

  lemma {:induction false} StartStep(c: Conv)
    requires ConvOk(c)
    ensures var (c1, e) := Started(c); ConvOk(c1) && !c1.firstWrite && After(PlaceOf(c), e) == PlaceOf(c1)
  {
    After1(NotStarted, MessageStart);
  }

  lemma {:induction false} ThinkingStep(c: Conv, r: Chunk)
    requires ConvOk(c) && !c.firstWrite
    ensures var (c1, e) := ThinkingPart(c, r);
            if ThinkingTooLate(c, r) then After(PlaceOf(c), e) == Broken
            else ConvOk(c1) && !c1.firstWrite && After(PlaceOf(c), e) == PlaceOf(c1)
  {
    var i := c.contentIndex;
    if r.thinking != "" && !c.thinkingDone {
      var delta := BlockDelta(i, ThinkingBlock, r.thinking);
      if c.thinkingStarted {
        assert [] + [delta] == [delta];
        After1(PlaceOf(c), delta);
      } else {
        assert [BlockStart(i, ThinkingHead)] + [delta] == [BlockStart(i, ThinkingHead), delta];
        After2(PlaceOf(c), BlockStart(i, ThinkingHead), delta);
      }
    }
  }

  lemma {:induction false} TextStep(c: Conv, r: Chunk)
    requires ConvOk(c) && !c.firstWrite
    ensures var (c1, e) := TextPart(c, r); ConvOk(c1) && !c1.firstWrite && After(PlaceOf(c), e) == PlaceOf(c1)
  {
    if r.content != "" {
      var i := if ThinkingOpen(c) then c.contentIndex + 1 else c.contentIndex;
      var delta := BlockDelta(i, TextBlock, r.content);
      if ThinkingOpen(c) {
        assert [BlockStop(i - 1)] + [BlockStart(i, TextHead)] + [delta]
            == [BlockStop(i - 1), BlockStart(i, TextHead), delta];
        After3(PlaceOf(c), BlockStop(i - 1), BlockStart(i, TextHead), delta);
      } else if c.textStarted {
        assert [] + [] + [delta] == [delta];
        After1(PlaceOf(c), delta);
      } else {
        assert [] + [BlockStart(i, TextHead)] + [delta] == [BlockStart(i, TextHead), delta];
        After2(PlaceOf(c), BlockStart(i, TextHead), delta);
      }
    }
  }

  /** A tool call outside a thinking block. */
  lemma {:induction false} ToolStep(c: Conv, tc: ToolCall)
    requires ConvOk(c) && !c.firstWrite && !ThinkingOpen(c)
    ensures var (c1, e) := OneTool(c, tc);
            ConvOk(c1) && !c1.firstWrite && !ThinkingOpen(c1) && After(PlaceOf(c), e) == PlaceOf(c1)
  {
    if tc.id !in c.toolCallsSent {
      var i := if c.textStarted then c.contentIndex + 1 else c.contentIndex;
      var stop := if c.textStarted then [BlockStop(c.contentIndex)] else [];
      assert After(PlaceOf(c), stop) == Between(i) by { After1(PlaceOf(c), BlockStop(c.contentIndex)); }
      if tc.encodes {
        var tool := ToolEvents(i, tc);
        AfterAppend(PlaceOf(c), stop, tool);
        After3(Between(i), tool[0], tool[1], tool[2]);
      }
    }
  }

  lemma {:induction false} ToolsStep(c: Conv, tcs: seq<ToolCall>, n: nat)
    requires ConvOk(c) && !c.firstWrite && !ThinkingOpen(c) && n <= |tcs|
    ensures var (c1, e) := ToolPart(c, tcs, n);
            ConvOk(c1) && !c1.firstWrite && !ThinkingOpen(c1) && After(PlaceOf(c), e) == PlaceOf(c1)
  {
    if n > 0 {
      ToolsStep(c, tcs, n - 1);
      var (c1, e1) := ToolPart(c, tcs, n - 1);
      ToolStep(c1, tcs[n - 1]);
      AfterAppend(PlaceOf(c), e1, OneTool(c1, tcs[n - 1]).1);
    }
  }

  /** New tool calls among the first `n`. */
  predicate NewTool(c: Conv, tcs: seq<ToolCall>, n: nat)
    requires n <= |tcs|
  {
    exists i :: 0 <= i < n && tcs[i].id !in c.toolCallsSent && tcs[i].encodes
  }

  /** Tool calls inside a thinking block: nothing happens, or the stream breaks. */
  lemma {:induction false} ToolsInThinking(c: Conv, tcs: seq<ToolCall>, n: nat)
    requires ConvOk(c) && !c.firstWrite && ThinkingOpen(c) && n <= |tcs|
    ensures var (c1, e) := ToolPart(c, tcs, n);
            if NewTool(c, tcs, n) then After(PlaceOf(c), e) == Broken else c1 == c && e == []
  {
    if n > 0 {
      ToolsInThinking(c, tcs, n - 1);
      var (c1, e1) := ToolPart(c, tcs, n - 1);
      var (c2, e2) := OneTool(c1, tcs[n - 1]);
      AfterAppend(PlaceOf(c), e1, e2);
      if NewTool(c, tcs, n - 1) {
        StaysBroken(e2);
      } else if tcs[n - 1].id !in c.toolCallsSent && tcs[n - 1].encodes {
        var i := c.contentIndex;
        var tool := ToolEvents(i, tcs[n - 1]);
        assert [] + tool == tool;
        After3(PlaceOf(c), tool[0], tool[1], tool[2]);
      }
    }
  }

  lemma {:induction false} DoneStep(c: Conv, r: Chunk)
    requires ConvOk(c) && !c.firstWrite
    ensures After(PlaceOf(c), DonePart(c, r)) == if r.done then Ended else PlaceOf(c)
  {
    if r.done {
      var stop := if c.textStarted || ThinkingOpen(c) then [BlockStop(c.contentIndex)] else [];
      AfterAppend(PlaceOf(c), stop, [MessageDelta, MessageStop]);
      After1(PlaceOf(c), BlockStop(c.contentIndex));
      After2(Between(c.contentIndex), MessageDelta, MessageStop);
      After2(Between(c.contentIndex + 1), MessageDelta, MessageStop);
    }
  }

  // ---- whole chunks and whole runs ----

  lemma {:induction false} Carried(c: Conv, r: Chunk)
    requires ConvOk(c)
    ensures var c3 := TextPart(ThinkingPart(Started(c).0, r).0, r).0;
            && c3.toolCallsSent == c.toolCallsSent
            && (ThinkingOpen(c3) <==> (ThinkingOpen(c) || (r.thinking != "" && !c.thinkingDone)) && r.content == "")
  {
  }

  /** Starting, thinking and text. */
  lemma {:induction false} FrontStep(c: Conv, r: Chunk)
    requires ConvOk(c)
    ensures var (c1, e1) := Started(c);
            var (c2, e2) := ThinkingPart(c1, r);
            var (c3, e3) := TextPart(c2, r);
            if ThinkingTooLate(c, r) then After(PlaceOf(c), e1 + e2 + e3) == Broken
            else ConvOk(c3) && !c3.firstWrite && After(PlaceOf(c), e1 + e2 + e3) == PlaceOf(c3)
  {
    var (c1, e1) := Started(c);
    var (c2, e2) := ThinkingPart(c1, r);
    var (c3, e3) := TextPart(c2, r);
    StartStep(c);
    ThinkingStep(c1, r);
    AfterAppend(PlaceOf(c), e1, e2);
    AfterAppend(PlaceOf(c), e1 + e2, e3);
    if ThinkingTooLate(c, r) {
      StaysBroken(e3);
    } else {
      TextStep(c2, r);
    }
  }

  /** Tools and the end. */
  lemma {:induction false} BackStep(c: Conv, r: Chunk)
    requires ConvOk(c) && !c.firstWrite
    ensures var (c4, e4) := ToolPart(c, r.toolCalls, |r.toolCalls|);
            if ThinkingOpen(c) && NewTool(c, r.toolCalls, |r.toolCalls|)
                then After(PlaceOf(c), e4 + DonePart(c4, r)) == Broken
            else ConvOk(c4) && !c4.firstWrite && After(PlaceOf(c), e4 + DonePart(c4, r)) == if r.done then Ended
                else PlaceOf(c4)
  {
    var (c4, e4) := ToolPart(c, r.toolCalls, |r.toolCalls|);
    AfterAppend(PlaceOf(c), e4, DonePart(c4, r));
    if ThinkingOpen(c) {
      ToolsInThinking(c, r.toolCalls, |r.toolCalls|);
      StaysBroken(DonePart(c4, r));
    } else {
      ToolsStep(c, r.toolCalls, |r.toolCalls|);
    }
    if !(ThinkingOpen(c) && NewTool(c, r.toolCalls, |r.toolCalls|)) { DoneStep(c4, r); }
  }

  /** A chunk keeps the grammar exactly when thinking does not start inside a text block and no new
      tool call comes inside a thinking block. */
  lemma {:induction false} ProcessStep(c: Conv, r: Chunk)
    requires ConvOk(c)
    ensures var (c', e) := Process(c, r);
            if Fits(c, r) then ConvOk(c') && !c'.firstWrite
                && After(PlaceOf(c), e) == (if r.done then Ended else PlaceOf(c'))
            else After(PlaceOf(c), e) == Broken
  {
    var (c1, e1) := Started(c);
    var (c2, e2) := ThinkingPart(c1, r);
    var (c3, e3) := TextPart(c2, r);
    var (c4, e4) := ToolPart(c3, r.toolCalls, |r.toolCalls|);
    assert e1 + e2 + e3 + e4 + DonePart(c4, r) == (e1 + e2 + e3) + (e4 + DonePart(c4, r));
    FrontStep(c, r);
    AfterAppend(PlaceOf(c), e1 + e2 + e3, e4 + DonePart(c4, r));
    if ThinkingTooLate(c, r) {
      StaysBroken(e4 + DonePart(c4, r));
    } else {
      BackStep(c3, r);
      Carried(c, r);
    }
  }

  function RunEvents(c: Conv, chunks: seq<Chunk>): seq<Event>
    decreases |chunks|
  {
    if chunks == [] then [] else Process(c, chunks[0]).1 + RunEvents(Process(c, chunks[0]).0, chunks[1..])
  }

  /** Tool calls of which nothing is told: sent before, or impossible to encode while no text is open. */
  predicate SilentTools(c: Conv, tcs: seq<ToolCall>, n: nat)
    requires n <= |tcs|
  {
    forall i :: 0 <= i < n ==> tcs[i].id in c.toolCallsSent || (!tcs[i].encodes && !c.textStarted)
  }

  /** A chunk that carries nothing to tell. */
  predicate Silent(c: Conv, r: Chunk) {
    !r.done && r.content == "" && (r.thinking != "" ==> c.thinkingDone) && SilentTools(c, r.toolCalls, |r.toolCalls|)
  }

  lemma {:induction false} ToolsSilent(c: Conv, tcs: seq<ToolCall>, n: nat)
    requires n <= |tcs|
    ensures ToolPart(c, tcs, n).1 == [] <==> SilentTools(c, tcs, n)
    ensures SilentTools(c, tcs, n) ==> ToolPart(c, tcs, n).0 == c
  {
    if n > 0 { ToolsSilent(c, tcs, n - 1); }
  }

  /** After the start, a chunk leads to no event exactly when it is silent, and then nothing changes. */
  lemma {:induction false} NothingToldIff(c: Conv, r: Chunk)
    requires !c.firstWrite
    ensures Process(c, r).1 == [] <==> Silent(c, r)
    ensures Silent(c, r) ==> Process(c, r).0 == c
  {
    var c3 := TextPart(ThinkingPart(c, r).0, r).0;
    ToolsSilent(c3, r.toolCalls, |r.toolCalls|);
  }

  /** Every chunk fits, and after the last one only silent chunks follow. */
  predicate RunFits(c: Conv, chunks: seq<Chunk>, ended: bool)
    decreases |chunks|
  {
    chunks == []
    || ((if ended then Silent(c, chunks[0]) else Fits(c, chunks[0]))
        && RunFits(Process(c, chunks[0]).0, chunks[1..], ended || chunks[0].done))
  }

  lemma {:induction false} RunFrom(c: Conv, chunks: seq<Chunk>, ended: bool)
    requires if ended then !c.firstWrite else ConvOk(c)
    ensures After(if ended then Ended else PlaceOf(c), RunEvents(c, chunks)) != Broken <==> RunFits(c, chunks, ended)
    decreases |chunks|
  {
    if chunks != [] {
      var g := if ended then Ended else PlaceOf(c);
      var (c', e) := Process(c, chunks[0]);
      var rest := RunEvents(c', chunks[1..]);
      AfterAppend(g, e, rest);
      if ended {
        NothingToldIff(c, chunks[0]);
        if e != [] {
          StaysBroken(e[1..]);
          StaysBroken(rest);
        } else {
          RunFrom(c', chunks[1..], true);
        }
      } else {
        ProcessStep(c, chunks[0]);
        if Fits(c, chunks[0]) {
          RunFrom(c', chunks[1..], chunks[0].done);
        } else {
          StaysBroken(rest);
        }
      }
    }
  }

  /** Main theorem: the events of a run are a prefix of a well-formed stream exactly when every chunk
      fits and only silent chunks follow the end. */
  lemma {:induction false} RunKeepsGrammarIff(chunks: seq<Chunk>)
    ensures (exists blocks :: IsPrefix(RunEvents(NEW, chunks), Word(blocks))) <==> RunFits(NEW, chunks, false)
  {
    RunFrom(NEW, chunks, false);
    AcceptsPrefixes(RunEvents(NEW, chunks));
  }

  const TEXT := Chunk("", "text", [], false)
  const THINKING := Chunk("thought", "", [], false)

  /** Runs that break the grammar: thinking after text, a tool call with thinking, text after the end. */
  lemma {:induction false} BrokenRuns(chunks: seq<Chunk>)
    requires chunks == [TEXT, THINKING] || chunks == [THINKING.(toolCalls := [ToolCall("id", "name", "{}", true)])]
          || chunks == [TEXT.(done := true), TEXT]
    ensures !exists blocks :: IsPrefix(RunEvents(NEW, chunks), Word(blocks))
  {
    RunKeepsGrammarIff(chunks);
    if |chunks| == 2 {
      var c' := Process(NEW, chunks[0]).0;
      assert chunks[1..] == [chunks[1]];
      assert c'.textStarted && !c'.thinkingStarted && !c'.thinkingDone;
    } else {
      assert chunks[0].toolCalls[0].encodes && chunks[0].toolCalls[0].id !in NEW.toolCallsSent;
    }
  }

  // ---- the converter as an object ----

  class Converter {
    var firstWrite: bool
    var contentIndex: int
    var thinkingStarted: bool
    var thinkingDone: bool
    var textStarted: bool
    var toolCallsSent: set<string>

    ghost function C(): Conv
      reads this
    {
      Conv(firstWrite, contentIndex, thinkingStarted, thinkingDone, textStarted, toolCallsSent)
    }

    constructor ()
      ensures C() == NEW
    {
      firstWrite, contentIndex, thinkingStarted, thinkingDone, textStarted, toolCallsSent := true, 0, false, false,
          false, {};
    }

    method ProcessThinking(r: Chunk) returns (events: seq<Event>)
      modifies this
      ensures C() == ThinkingPart(old(C()), r).0 && events == ThinkingPart(old(C()), r).1
    {
      events := [];
      if r.thinking != "" && !thinkingDone {
        if !thinkingStarted {
          thinkingStarted := true;
          events := events + [BlockStart(contentIndex, ThinkingHead)];
        }
        events := events + [BlockDelta(contentIndex, ThinkingBlock, r.thinking)];
      }
    }

    method ProcessText(r: Chunk) returns (events: seq<Event>)
      modifies this
      ensures C() == TextPart(old(C()), r).0 && events == TextPart(old(C()), r).1
    {
      events := [];
      if r.content != "" {
        if thinkingStarted && !thinkingDone {
          thinkingDone := true;
          events := events + [BlockStop(contentIndex)];
          contentIndex := contentIndex + 1;
        }
        if !textStarted {
          textStarted := true;
          events := events + [BlockStart(contentIndex, TextHead)];
        }
        events := events + [BlockDelta(contentIndex, TextBlock, r.content)];
      }
    }

    method ProcessTool(tc: ToolCall) returns (events: seq<Event>)
      modifies this
      ensures C() == OneTool(old(C()), tc).0 && events == OneTool(old(C()), tc).1
    {
      events := [];
      if tc.id in toolCallsSent {
        return;
      }
      if textStarted {
        events := events + [BlockStop(contentIndex)];
        contentIndex := contentIndex + 1;
        textStarted := false;
      }
      if !tc.encodes {
        return;
      }
      events := events + [BlockStart(contentIndex, ToolHead(tc.id, tc.name))];
      events := events + [BlockDelta(contentIndex, ToolBlock, tc.args)];
      events := events + [BlockStop(contentIndex)];
      toolCallsSent := toolCallsSent + {tc.id};
      contentIndex := contentIndex + 1;
    }

    method ProcessTools(tcs: seq<ToolCall>) returns (events: seq<Event>)
      modifies this
      ensures C() == ToolPart(old(C()), tcs, |tcs|).0 && events == ToolPart(old(C()), tcs, |tcs|).1
    {
      events := [];
      for n := 0 to |tcs|
        invariant C() == ToolPart(old(C()), tcs, n).0 && events == ToolPart(old(C()), tcs, n).1
      {
        var tool := ProcessTool(tcs[n]);
        events := events + tool;
      }
    }

    method ProcessDone(r: Chunk) returns (events: seq<Event>)
      ensures events == DonePart(C(), r)
    {
      events := [];
      if r.done {
        if textStarted {
          events := events + [BlockStop(contentIndex)];
        } else if thinkingStarted && !thinkingDone {
          events := events + [BlockStop(contentIndex)];
        }
        events := events + [MessageDelta];
        events := events + [MessageStop];
      }
    }

    method ProcessStart() returns (events: seq<Event>)
      modifies this
      ensures C() == Started(old(C())).0 && events == Started(old(C())).1
    {
      events := [];
      if firstWrite {
        firstWrite := false;
        events := [MessageStart];
      }
    }

    /** The events of one chunk. */
    method ProcessChunk(r: Chunk) returns (events: seq<Event>)
      modifies this
      ensures C() == Process(old(C()), r).0 && events == Process(old(C()), r).1
    {
      events := ProcessStart();
      var thinking := ProcessThinking(r);
      events := events + thinking;
      var text := ProcessText(r);
      events := events + text;
      var tools := ProcessTools(r.toolCalls);
      events := events + tools;
      var end := ProcessDone(r);
      events := events + end;
    }
  }
}
