/** The writer that lets a web search finish the stream. */
module WebSearchStream {
  import opened StreamGrammar
  import opened StreamContents
  import opened StreamConverter

  datatype Writer = Writer(conv: Conv, terminalSent: bool, loopInFlight: bool, started: bool, hasOpen: bool,
                           openIndex: int, nextIndex: int)

  const NEW_WRITER := Writer(NEW, false, false, false, false, 0, 0)

  predicate WebSearchCall(tc: ToolCall) { tc.name == "web_search" }

  predicate HasWebSearch(r: Chunk) { exists i :: 0 <= i < |r.toolCalls| && WebSearchCall(r.toolCalls[i]) }

  // ---- writing ----

  /** What the writer notes about an event it passes on. */
  function Note(w: Writer, e: Event): Writer {
    match e
    case MessageStart => w.(started := true)
    case BlockStart(i, _) =>
      w.(hasOpen := true, openIndex := i, nextIndex := if i + 1 > w.nextIndex then i + 1 else w.nextIndex)
    case BlockStop(i) =>
      w.(hasOpen := w.hasOpen && w.openIndex != i, nextIndex := if i + 1 > w.nextIndex then i + 1 else w.nextIndex)
    case MessageStop => w.(terminalSent := true)
    case _ => w
  }

  function NoteAll(w: Writer, events: seq<Event>, n: nat): Writer
    requires n <= |events|
  {
    if n == 0 then w else Note(NoteAll(w, events, n - 1), events[n - 1])
  }

  function PassThrough(w: Writer, r: Chunk): (Writer, seq<Event>) {
    var (c, e) := Process(w.conv, r);
    (NoteAll(w, e, |e|).(conv := c), e)
  }

  /** A block of the search result: a text in one delta, anything else all at once. */
  function OneBlock(index: int, b: Shown): seq<Event> {
    if b.head == TextHead then [BlockStart(index, TextHead), BlockDelta(index, TextBlock, b.text), BlockStop(index)]
    else [BlockStart(index, b.head), BlockStop(index)]
  }

  function ContentBlocks(next: int, content: seq<Shown>, n: nat): seq<Event>
    requires n <= |content|
  {
    if n == 0 then [] else ContentBlocks(next, content, n - 1) + OneBlock(next + n - 1, content[n - 1])
  }

  /** Start the message if need be, close the open block, write the blocks, and end the message. */
  function Terminal(w: Writer, content: seq<Shown>): (Writer, seq<Event>) {
    if w.terminalSent then (w, [])
    else
      var next := if w.hasOpen && w.openIndex + 1 > w.nextIndex then w.openIndex + 1 else w.nextIndex;
      (w.(started := true, hasOpen := false, nextIndex := next + |content|, terminalSent := true),
       (if w.started then [] else [MessageStart])
       + (if w.hasOpen then [BlockStop(w.openIndex)] else [])
       + ContentBlocks(next, content, |content|)
       + [MessageDelta, MessageStop])
  }

  /** One chunk arrives; `content` is what the search loop produced, used when its result is due. */
  function Write(w: Writer, r: Chunk, content: seq<Shown>): (Writer, seq<Event>) {
    if w.terminalSent then (w, [])
    else if w.loopInFlight then
      if !r.done then (w, []) else Terminal(w.(loopInFlight := false), content)
    else if !HasWebSearch(r) then PassThrough(w, r)
    else if r.done then Terminal(w, content)
    else (w.(loopInFlight := true), [])
  }

  // ---- the writer keeps track of the place ----

  ghost predicate Tracks(w: Writer, g: Place) {
    match g
    case NotStarted => !w.started && !w.hasOpen && w.nextIndex == 0 && !w.terminalSent
    case Between(n) => w.started && !w.hasOpen && w.nextIndex == n && !w.terminalSent
    case InBlock(n, _) => w.started && w.hasOpen && w.openIndex == n && w.nextIndex == n + 1 && !w.terminalSent
    case Ending => w.started && !w.hasOpen && !w.terminalSent
    case Ended => w.terminalSent
    case Broken => false
  }

  lemma {:induction false} NoteTracks(w: Writer, g: Place, e: Event)
    requires Tracks(w, g) && Next(g, e) != Broken
    ensures Tracks(Note(w, e), Next(g, e))
  {
  }

  lemma {:induction false} NoteAllTracks(w: Writer, g: Place, events: seq<Event>, n: nat)
    requires Tracks(w, g) && n <= |events| && After(g, events[..n]) != Broken
    ensures Tracks(NoteAll(w, events, n), After(g, events[..n]))
  {
    if n > 0 {
      assert events[..n] == events[..n - 1] + [events[n - 1]];
      AfterAppend(g, events[..n - 1], [events[n - 1]]);
      After1(After(g, events[..n - 1]), events[n - 1]);
      NoteAllTracks(w, g, events, n - 1);
      NoteTracks(NoteAll(w, events, n - 1), After(g, events[..n - 1]), events[n - 1]);
    }
  }

  /** Between two chunks: the place is tracked, and until the search takes over it is the converter's. */
  ghost predicate WriterOk(w: Writer, g: Place) {
    && Tracks(w, g) && g != Ending
    && (!w.terminalSent && !w.loopInFlight ==> ConvOk(w.conv) && g == PlaceOf(w.conv))
  }

  lemma {:induction false} ContentAccepted(next: int, content: seq<Shown>, n: nat)
    requires n <= |content|
    ensures After(Between(next), ContentBlocks(next, content, n)) == Between(next + n)
  {
    if n == 0 {
    } else {
      var i, b := next + n - 1, content[n - 1];
      ContentAccepted(next, content, n - 1);
      AfterAppend(Between(next), ContentBlocks(next, content, n - 1), OneBlock(i, b));
      if b.head == TextHead {
        After3(Between(i), BlockStart(i, TextHead), BlockDelta(i, TextBlock, b.text), BlockStop(i));
      } else {
        After2(Between(i), BlockStart(i, b.head), BlockStop(i));
      }
    }
  }

  lemma {:induction false} TerminalEnds(w: Writer, g: Place, content: seq<Shown>)
    requires Tracks(w, g) && g != Ending && !w.terminalSent
    ensures After(g, Terminal(w, content).1) == Ended && Tracks(Terminal(w, content).0, Ended)
  {
    var next := if w.hasOpen && w.openIndex + 1 > w.nextIndex then w.openIndex + 1 else w.nextIndex;
    var a := if w.started then [] else [MessageStart];
    var b := if w.hasOpen then [BlockStop(w.openIndex)] else [];
    var blocks := ContentBlocks(next, content, |content|);
    AfterAppend(g, a, b);
    AfterAppend(g, a + b, blocks);
    AfterAppend(g, a + b + blocks, [MessageDelta, MessageStop]);
    After1(NotStarted, MessageStart);
    assert After(g, a + b) == Between(next) by {
      if g.InBlock? { After1(g, BlockStop(w.openIndex)); }
    }
    ContentAccepted(next, content, |content|);
    After2(Between(next + |content|), MessageDelta, MessageStop);
  }

  /** The chunk is one that the converter can take, if it gets to see it. */
  predicate WriteFits(w: Writer, r: Chunk) {
    !w.terminalSent && !w.loopInFlight && !HasWebSearch(r) ==> Fits(w.conv, r)
  }

  /** A chunk keeps the grammar unless the converter gets to see it and it does not fit. */
  lemma {:induction false} WriteStep(w: Writer, g: Place, r: Chunk, content: seq<Shown>)
    requires WriterOk(w, g)
    ensures var (w', e) := Write(w, r, content);
            if WriteFits(w, r) then After(g, e) != Broken && WriterOk(w', After(g, e)) else After(g, e) == Broken
  {
    var (w', e) := Write(w, r, content);
    if !w.terminalSent {
      if w.loopInFlight {
        if r.done { TerminalEnds(w.(loopInFlight := false), g, content); }
      } else if !HasWebSearch(r) {
        ProcessStep(w.conv, r);
        assert e[..|e|] == e;
        if Fits(w.conv, r) { NoteAllTracks(w, g, e, |e|); }
      } else if r.done {
        TerminalEnds(w, g, content);
      }
    }
  }

  // ---- whole runs ----

  /** A chunk, and the blocks of the search result should it be due with it. */
  datatype Input = Input(r: Chunk, content: seq<Shown>)

  function AllEvents(w: Writer, inputs: seq<Input>): seq<Event>
    decreases |inputs|
  {
    if inputs == [] then []
    else Write(w, inputs[0].r, inputs[0].content).1 + AllEvents(Write(w, inputs[0].r, inputs[0].content).0, inputs[1..])
  }

  predicate AllFit(w: Writer, inputs: seq<Input>)
    decreases |inputs|
  {
    inputs == [] || (WriteFits(w, inputs[0].r) && AllFit(Write(w, inputs[0].r, inputs[0].content).0, inputs[1..]))
  }

  lemma {:induction false} WriteAll(w: Writer, g: Place, inputs: seq<Input>)
    requires WriterOk(w, g)
    ensures After(g, AllEvents(w, inputs)) != Broken <==> AllFit(w, inputs)
    decreases |inputs|
  {
    if inputs != [] {
      var (w', e) := Write(w, inputs[0].r, inputs[0].content);
      AfterAppend(g, e, AllEvents(w', inputs[1..]));
      WriteStep(w, g, inputs[0].r, inputs[0].content);
      if WriteFits(w, inputs[0].r) {
        WriteAll(w', After(g, e), inputs[1..]);
      } else {
        StaysBroken(AllEvents(w', inputs[1..]));
      }
    }
  }

  /** Whenever the search cuts the converter off, and whatever it returns, the stream is a prefix of a
      well-formed one with at most one message_stop, exactly when the chunks that the converter gets
      to see fit; chunks after the end are ignored. */
  lemma {:induction false} SearchKeepsGrammarIff(inputs: seq<Input>)
    ensures (exists blocks :: IsPrefix(AllEvents(NEW_WRITER, inputs), Word(blocks))) <==> AllFit(NEW_WRITER, inputs)
    ensures AllFit(NEW_WRITER, inputs) ==> Stops(AllEvents(NEW_WRITER, inputs)) <= 1
  {
    WriteAll(NEW_WRITER, NotStarted, inputs);
    AcceptsPrefixes(AllEvents(NEW_WRITER, inputs));
    if AllFit(NEW_WRITER, inputs) { OneStop(NotStarted, AllEvents(NEW_WRITER, inputs)); }
  }

  // ---- what the client reads ----

  /** Only the text of a text block is sent as such. */
  function AsSent(b: Shown): Shown { if b.head == TextHead then b else Shown(b.head, "") }

  function SentBlocks(content: seq<Shown>): seq<Shown> {
    if content == [] then [] else SentBlocks(content[..|content| - 1]) + [AsSent(content[|content| - 1])]
  }

  lemma {:induction false} ReadBlock(shown: seq<Shown>, index: int, b: Shown)
    ensures Read(shown, OneBlock(index, b)) == shown + [AsSent(b)]
  {
    var start, delta, stop := BlockStart(index, b.head), BlockDelta(index, TextBlock, b.text), BlockStop(index);
    var shown1 := shown + [Shown(b.head, "")];
    if b.head == TextHead {
      assert [start, delta, stop][1..] == [delta, stop] && [delta, stop][1..] == [stop];
      FirstDelta(shown, b.head, b.text);
      assert Read(shown1, [delta, stop]) == Read(AddText(shown1, b.text), [stop]);
    } else {
      assert [start, stop][1..] == [stop];
      assert Read(shown1, [stop]) == Read(shown1, []);
    }
  }

  lemma {:induction false} ReadBlocks(shown: seq<Shown>, next: int, content: seq<Shown>, n: nat)
    requires n <= |content|
    ensures Read(shown, ContentBlocks(next, content, n)) == shown + SentBlocks(content[..n])
  {
    if n > 0 {
      assert content[..n][..n - 1] == content[..n - 1];
      ReadBlocks(shown, next, content, n - 1);
      ReadAppend(shown, ContentBlocks(next, content, n - 1), OneBlock(next + n - 1, content[n - 1]));
      ReadBlock(shown + SentBlocks(content[..n - 1]), next + n - 1, content[n - 1]);
    }
  }

  lemma {:induction false} NothingRead(shown: seq<Shown>, events: seq<Event>)
    requires forall e :: e in events ==> !e.BlockStart? && !e.BlockDelta?
    ensures Read(shown, events) == shown
    decreases |events|
  {
    if events != [] {
      assert events[0] in events;
      NothingRead(shown, events[1..]);
    }
  }

  lemma {:induction false} ReadInside(shown: seq<Shown>, a: seq<Event>, b: seq<Event>, c: seq<Event>)
    requires forall e :: e in a || e in c ==> !e.BlockStart? && !e.BlockDelta?
    ensures Read(shown, a + b + c) == Read(shown, b)
  {
    ReadAppend(shown, a + b, c);
    ReadAppend(shown, a, b);
    NothingRead(shown, a);
    NothingRead(Read(shown, b), c);
  }

  /** The blocks of the search result follow those told before. */
  lemma {:induction false} TerminalReads(w: Writer, content: seq<Shown>, shown: seq<Shown>)
    requires !w.terminalSent
    ensures Read(shown, Terminal(w, content).1) == shown + SentBlocks(content)
  {
    var next := if w.hasOpen && w.openIndex + 1 > w.nextIndex then w.openIndex + 1 else w.nextIndex;
    var a := (if w.started then [] else [MessageStart]) + (if w.hasOpen then [BlockStop(w.openIndex)] else []);
    ReadInside(shown, a, ContentBlocks(next, content, |content|), [MessageDelta, MessageStop]);
    ReadBlocks(shown, next, content, |content|);
    assert content[..|content|] == content;
  }

  function WriterAfter(w: Writer, inputs: seq<Input>): Writer
    decreases |inputs|
  {
    if inputs == [] then w else WriterAfter(Write(w, inputs[0].r, inputs[0].content).0, inputs[1..])
  }

  lemma {:induction false} EventsAppend(w: Writer, a: seq<Input>, b: seq<Input>)
    ensures AllEvents(w, a + b) == AllEvents(w, a) + AllEvents(WriterAfter(w, a), b)
    ensures WriterAfter(w, a + b) == WriterAfter(WriterAfter(w, a), b)
    decreases |a|
  {
    if a == [] {
      assert a + b == b;
    } else {
      assert (a + b)[1..] == a[1..] + b;
      EventsAppend(Write(w, a[0].r, a[0].content).0, a[1..], b);
    }
  }

  function ChunksOf(inputs: seq<Input>): seq<Chunk> {
    seq(|inputs|, i requires 0 <= i < |inputs| => inputs[i].r)
  }

  lemma {:induction false} ToolsNeverStop(c: Conv, tcs: seq<ToolCall>, n: nat)
    requires n <= |tcs|
    ensures MessageStop !in ToolPart(c, tcs, n).1
  {
    if n > 0 { ToolsNeverStop(c, tcs, n - 1); }
  }

  /** Only the last chunk ends the message. */
  lemma {:induction false} StopsWhenDone(c: Conv, r: Chunk)
    requires !r.done
    ensures MessageStop !in Process(c, r).1
  {
    ToolsNeverStop(TextPart(ThinkingPart(Started(c).0, r).0, r).0, r.toolCalls, |r.toolCalls|);
  }

  lemma {:induction false} NoteNoStop(w: Writer, events: seq<Event>, n: nat)
    requires n <= |events| && MessageStop !in events
    ensures NoteAll(w, events, n).terminalSent == w.terminalSent
    ensures NoteAll(w, events, n).loopInFlight == w.loopInFlight
  {
    if n > 0 { NoteNoStop(w, events, n - 1); }
  }

  /** Until the model calls the search, the writer passes on what the converter says. */
  lemma {:induction false} PassedOn(w: Writer, before: seq<Input>)
    requires !w.terminalSent && !w.loopInFlight
    requires forall x :: x in before ==> !x.r.done && !HasWebSearch(x.r)
    ensures AllEvents(w, before) == RunEvents(w.conv, ChunksOf(before))
    ensures !WriterAfter(w, before).terminalSent && !WriterAfter(w, before).loopInFlight
    decreases |before|
  {
    if before != [] {
      var r := before[0].r;
      assert before[0] in before;
      StopsWhenDone(w.conv, r);
      NoteNoStop(w, Process(w.conv, r).1, |Process(w.conv, r).1|);
      assert ChunksOf(before)[1..] == ChunksOf(before[1..]);
      PassedOn(Write(w, r, before[0].content).0, before[1..]);
    }
  }

  /** The chunk that calls the search, others that are not the last, and the last one. */
  ghost predicate Asks(search: seq<Input>) {
    && search != [] && HasWebSearch(search[0].r) && search[|search| - 1].r.done
    && forall i :: 0 <= i < |search| - 1 ==> !search[i].r.done
  }

  lemma {:induction false} Swallowed(w: Writer, quiet: seq<Input>)
    requires !w.terminalSent && w.loopInFlight && forall x :: x in quiet ==> !x.r.done
    ensures AllEvents(w, quiet) == [] && WriterAfter(w, quiet) == w
    decreases |quiet|
  {
    if quiet != [] {
      assert quiet[0] in quiet;
      Swallowed(w, quiet[1..]);
    }
  }

  lemma {:induction false} OneInput(w: Writer, x: Input)
    ensures AllEvents(w, [x]) == Write(w, x.r, x.content).1 && WriterAfter(w, [x]) == Write(w, x.r, x.content).0
  {
    assert [x][1..] == [];
    assert AllEvents(Write(w, x.r, x.content).0, []) == [];
  }

  lemma {:induction false} SearchReads(w: Writer, search: seq<Input>, shown: seq<Shown>)
    requires !w.terminalSent && !w.loopInFlight && Asks(search)
    ensures Read(shown, AllEvents(w, search)) == shown + SentBlocks(search[|search| - 1].content)
    ensures WriterAfter(w, search).terminalSent
  {
    var n := |search| - 1;
    var last := search[n];
    if n == 0 {
      assert search == [last];
      OneInput(w, last);
      TerminalReads(w, last.content, shown);
    } else {
      var w1, quiet := w.(loopInFlight := true), search[1..n];
      assert search == [search[0]] + quiet + [last];
      EventsAppend(w, [search[0]] + quiet, [last]);
      EventsAppend(w, [search[0]], quiet);
      OneInput(w, search[0]);
      Swallowed(w1, quiet);
      OneInput(w1, last);
      assert w1.(loopInFlight := false) == w;
      assert AllEvents(w, [search[0]]) == [] && WriterAfter(w, [search[0]]) == w1;
      assert AllEvents(w, search) == [] + [] + Terminal(w, last.content).1 == Terminal(w, last.content).1;
      TerminalReads(w, last.content, shown);
    }
  }

  lemma {:induction false} NothingAfter(w: Writer, rest: seq<Input>)
    requires w.terminalSent
    ensures AllEvents(w, rest) == []
    decreases |rest|
  {
    if rest != [] { NothingAfter(w, rest[1..]); }
  }

  /** When the model calls the search, the client reads the blocks told before, then exactly the blocks
      of the search result, and nothing that comes later. */
  lemma {:induction false} SearchResultShown(before: seq<Input>, search: seq<Input>, rest: seq<Input>)
    requires Asks(search) && forall x :: x in before ==> !x.r.done && !HasWebSearch(x.r)
    ensures Read([], AllEvents(NEW_WRITER, before + search + rest))
            == Read([], RunEvents(NEW, ChunksOf(before))) + SentBlocks(search[|search| - 1].content)
  {
    var w := WriterAfter(NEW_WRITER, before);
    PassedOn(NEW_WRITER, before);
    EventsAppend(NEW_WRITER, before + search, rest);
    EventsAppend(NEW_WRITER, before, search);
    ReadAppend([], AllEvents(NEW_WRITER, before), AllEvents(w, search));
    SearchReads(w, search, Read([], AllEvents(NEW_WRITER, before)));
    NothingAfter(WriterAfter(w, search), rest);
    assert AllEvents(NEW_WRITER, before + search) + [] == AllEvents(NEW_WRITER, before + search);
  }

  // ---- the writer as an object ----

  class WebSearchWriter {
    const converter: Converter
    var terminalSent: bool
    var loopInFlight: bool
    var started: bool
    var hasOpen: bool
    var openIndex: int
    var nextIndex: int
    var sent: seq<Event>

    ghost function W(): Writer
      reads this, converter
    {
      Writer(converter.C(), terminalSent, loopInFlight, started, hasOpen, openIndex, nextIndex)
    }

    constructor ()
      ensures W() == NEW_WRITER && sent == [] && fresh(converter)
    {
      converter := new Converter();
      terminalSent, loopInFlight, started, hasOpen, openIndex, nextIndex, sent := false, false, false, false, 0, 0, [];
    }

    /** Note what an event means for the open block, and send it. */
    method PassOn(e: Event)
      modifies `terminalSent, `started, `hasOpen, `openIndex, `nextIndex, `sent
      ensures W() == Note(old(W()), e) && sent == old(sent) + [e]
    {
      match e {
        case MessageStart =>
          started := true;
        case BlockStart(i, _) =>
          hasOpen, openIndex := true, i;
          if i + 1 > nextIndex {
            nextIndex := i + 1;
          }
        case BlockStop(i) =>
          if hasOpen && openIndex == i {
            hasOpen := false;
          }
          if i + 1 > nextIndex {
            nextIndex := i + 1;
          }
        case MessageStop =>
          terminalSent := true;
        case _ =>
      }
      sent := sent + [e];
    }

    /** Events, one after the other. */
    method PassAll(events: seq<Event>)
      modifies `terminalSent, `started, `hasOpen, `openIndex, `nextIndex, `sent
      ensures W() == NoteAll(old(W()), events, |events|) && sent == old(sent) + events
    {
      ghost var w := W();
      for n := 0 to |events|
        invariant W() == NoteAll(w, events, n) && sent == old(sent) + events[..n]
      {
        PassOn(events[n]);
        assert events[..n + 1] == events[..n] + [events[n]];
      }
      assert events[..|events|] == events;
    }

    method WritePassThrough(r: Chunk)
      modifies this, converter
      ensures W() == PassThrough(old(W()), r).0 && sent == old(sent) + PassThrough(old(W()), r).1
    {
      ghost var w := W();
      var events := converter.ProcessChunk(r);
      NoteAllConv(w, events, |events|, converter.C());
      PassAll(events);
    }

    method EnsureMessageStart()
      modifies `started, `sent
      ensures started && sent == old(sent) + if old(started) then [] else [MessageStart]
    {
      if !started {
        sent := sent + [MessageStart];
        started := true;
      }
    }

    method CloseOpenBlock()
      modifies `hasOpen, `nextIndex, `sent
      ensures !hasOpen && sent == old(sent) + if old(hasOpen) then [BlockStop(openIndex)] else []
      ensures nextIndex == if old(hasOpen) && openIndex + 1 > old(nextIndex) then openIndex + 1 else old(nextIndex)
    {
      if hasOpen {
        sent := sent + [BlockStop(openIndex)];
        if openIndex + 1 > nextIndex {
          nextIndex := openIndex + 1;
        }
        hasOpen := false;
      }
    }

    method WriteContentBlocks(content: seq<Shown>)
      modifies `nextIndex, `sent
      ensures nextIndex == old(nextIndex) + |content|
      ensures sent == old(sent) + ContentBlocks(old(nextIndex), content, |content|)
    {
      for n := 0 to |content|
        invariant nextIndex == old(nextIndex) + n && sent == old(sent) + ContentBlocks(old(nextIndex), content, n)
      {
        var index := nextIndex;
        ghost var before := sent;
        if content[n].head == TextHead {
          sent := sent + [BlockStart(index, TextHead)];
          sent := sent + [BlockDelta(index, TextBlock, content[n].text)];
        } else {
          sent := sent + [BlockStart(index, content[n].head)];
        }
        sent := sent + [BlockStop(index)];
        assert sent == before + OneBlock(index, content[n]);
        nextIndex := nextIndex + 1;
      }
    }

    method WriteEnd()
      modifies `terminalSent, `sent
      ensures terminalSent && sent == old(sent) + [MessageDelta, MessageStop]
    {
      sent := sent + [MessageDelta];
      sent := sent + [MessageStop];
      terminalSent := true;
    }

    method WriteTerminalResponse(content: seq<Shown>)
      modifies `terminalSent, `started, `hasOpen, `nextIndex, `sent
      ensures W() == Terminal(old(W()), content).0 && sent == old(sent) + Terminal(old(W()), content).1
    {
      if terminalSent {
        return;
      }
      ghost var next := if hasOpen && openIndex + 1 > nextIndex then openIndex + 1 else nextIndex;
      InOneGo(sent, if started then [] else [MessageStart], if hasOpen then [BlockStop(openIndex)] else [],
              ContentBlocks(next, content, |content|), [MessageDelta, MessageStop]);
      EnsureMessageStart();
      CloseOpenBlock();
      WriteContentBlocks(content);
      WriteEnd();
    }

    /** One chunk; `result` is what the search worker will have produced when it is asked. */
    method WriteChunk(r: Chunk, result: seq<Shown>)
      modifies this, converter
      ensures W() == Write(old(W()), r, result).0 && sent == old(sent) + Write(old(W()), r, result).1
    {
      if terminalSent {
        return;
      }
      if loopInFlight {
        if r.done {
          loopInFlight := false;
          WriteTerminalResponse(result);
        }
        return;
      }
      var hasWebSearch := FindWebSearch(r.toolCalls);
      if !hasWebSearch {
        WritePassThrough(r);
        return;
      }
      loopInFlight := true;
      if r.done {
        loopInFlight := false;
        WriteTerminalResponse(result);
      }
    }

    method FindWebSearch(tcs: seq<ToolCall>) returns (found: bool)
      ensures found <==> exists i :: 0 <= i < |tcs| && WebSearchCall(tcs[i])
    {
      for i := 0 to |tcs|
        invariant forall j :: 0 <= j < i ==> !WebSearchCall(tcs[j])
      {
        if tcs[i].name == "web_search" {
          assert WebSearchCall(tcs[i]);
          return true;
        }
      }
      return false;
    }
  }

  lemma {:induction false} InOneGo(sent: seq<Event>, a: seq<Event>, b: seq<Event>, c: seq<Event>, d: seq<Event>)
    ensures sent + a + b + c + d == sent + (a + b + c + d)
  {
  }

  /** Noting events has nothing to do with the converter's state. */
  lemma {:induction false} NoteAllConv(w: Writer, events: seq<Event>, n: nat, c: Conv)
    requires n <= |events|
    ensures NoteAll(w.(conv := c), events, n) == NoteAll(w, events, n).(conv := c)
  {
    if n > 0 {
      NoteAllConv(w, events, n - 1, c);
      NoteConv(NoteAll(w, events, n - 1), events[n - 1], c);
    }
  }

  lemma {:induction false} NoteConv(w: Writer, e: Event, c: Conv)
    ensures Note(w.(conv := c), e) == Note(w, e).(conv := c)
  {
  }
}
