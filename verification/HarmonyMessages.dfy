/** Rendered messages through the streaming parser, the parser as an object, and the handler that
    sorts content by channel. */
module HarmonyMessages {
  import opened Wrappers
  import opened TagSearch
  import opened Harmony

  // ---- round trip ----

  datatype Message = Message(header: string, content: string)

  function RenderOne(t: Tags, m: Message, rest: string): string {
    t.start + (m.header + t.headerEnd + (m.content + t.end + rest))
  }

  /** The messages one after the other, each between its tags. */
  function Render(t: Tags, ms: seq<Message>): string {
    if ms == [] then [] else RenderOne(t, ms[0], Render(t, ms[1..]))
  }

  function ExpectOne(m: Message): seq<Item> { [StartItem, HeaderItem(m.header)] + (Chars(m.content) + [EndItem]) }

  /** The items of exactly these messages. */
  function Expect(ms: seq<Message>): seq<Item> {
    if ms == [] then [] else ExpectOne(ms[0]) + Expect(ms[1..])
  }

  predicate Clean(t: Tags, m: Message) { !Contains(m.header, t.headerEnd) && !Contains(m.content, t.end) }

  ghost predicate TagsClear(t: Tags) { TagsOk(t) && Borderless(t.headerEnd) && Borderless(t.end) }

  const INITIAL := PState(LookingForMessageStart, "")

  lemma {:induction false} OneItem(e: Event)
    ensures Items([e]) == ItemsOf(e)
  {
    assert Items([e]) == ItemsOf(e) + Items([]);
  }

  lemma {:induction false} RunStart(t: Tags, rest: string)
    requires TagsOk(t)
    ensures RunItems(t, PState(LookingForMessageStart, t.start + rest))
        == [StartItem] + RunItems(t, PState(ParsingHeader, rest))
    ensures Run(t, PState(LookingForMessageStart, t.start + rest)).s == Run(t, PState(ParsingHeader, rest)).s
  {
    var acc := t.start + rest;
    assert OccursAt(acc, t.start, 0) && acc[|t.start|..] == rest;
    RunStep(t, PState(LookingForMessageStart, acc));
    OneItem(MessageStart);
  }

  lemma {:induction false} EatHeader(t: Tags, acc: string)
    requires Contains(acc, t.headerEnd)
    ensures var i := IndexOf(acc, t.headerEnd);
            && Eat(t, PState(ParsingHeader, acc)).s == PState(ParsingContent, acc[i + |t.headerEnd|..])
            && Eat(t, PState(ParsingHeader, acc)).more
                && EatItems(t, PState(ParsingHeader, acc)) == [HeaderItem(acc[..i])]
  {
    OneItem(HeaderComplete(acc[..IndexOf(acc, t.headerEnd)]));
  }

  lemma {:induction false} RunAnyHeader(t: Tags, acc: string, i: nat)
    requires TagsOk(t) && Contains(acc, t.headerEnd) && i == IndexOf(acc, t.headerEnd)
    ensures RunItems(t, PState(ParsingHeader, acc))
        == [HeaderItem(acc[..i])] + RunItems(t, PState(ParsingContent, acc[i + |t.headerEnd|..]))
    ensures Run(t, PState(ParsingHeader, acc)).s == Run(t, PState(ParsingContent, acc[i + |t.headerEnd|..])).s
  {
    EatHeader(t, acc);
    StepInto(t, PState(ParsingHeader, acc), PState(ParsingContent, acc[i + |t.headerEnd|..]), [HeaderItem(acc[..i])]);
  }

  lemma {:induction false} StepInto(t: Tags, s: PState, next: PState, items: seq<Item>)
    requires TagsOk(t) && Eat(t, s).more && Eat(t, s).s == next && EatItems(t, s) == items
    ensures Run(t, s).s == Run(t, next).s && RunItems(t, s) == items + RunItems(t, next)
  {
    RunStep(t, s);
  }

  lemma {:induction false} CutAt(a: string, tag: string, rest: string)
    ensures (a + tag + rest)[..|a|] == a && (a + tag + rest)[|a| + |tag|..] == rest
  {
  }

  lemma {:induction false} RunHeader(t: Tags, header: string, rest: string)
    requires TagsClear(t) && !Contains(header, t.headerEnd)
    ensures RunItems(t, PState(ParsingHeader, header + t.headerEnd + rest))
        == [HeaderItem(header)] + RunItems(t, PState(ParsingContent, rest))
    ensures Run(t, PState(ParsingHeader, header + t.headerEnd + rest)).s == Run(t, PState(ParsingContent, rest)).s
  {
    FoundAfter(header, t.headerEnd, rest);
    CutAt(header, t.headerEnd, rest);
    RunAnyHeader(t, header + t.headerEnd + rest, |header|);
  }

  lemma {:induction false} RunContent(t: Tags, content: string, rest: string)
    requires TagsClear(t) && !Contains(content, t.end)
    ensures RunItems(t, PState(ParsingContent, content + t.end + rest))
            == Chars(content) + [EndItem] + RunItems(t, PState(LookingForMessageStart, rest))
    ensures Run(t, PState(ParsingContent, content + t.end + rest)).s == Run(t, PState(LookingForMessageStart, rest)).s
  {
    FoundAfter(content, t.end, rest);
    CutAt(content, t.end, rest);
    EatEnd(t, content + t.end + rest);
    RunStep(t, PState(ParsingContent, content + t.end + rest));
  }

  lemma {:induction false} RunOne(t: Tags, m: Message, rest: string)
    requires TagsClear(t) && Clean(t, m)
    ensures RunItems(t, PState(LookingForMessageStart, RenderOne(t, m, rest)))
            == ExpectOne(m) + RunItems(t, PState(LookingForMessageStart, rest))
    ensures Run(t, PState(LookingForMessageStart, RenderOne(t, m, rest))).s
        == Run(t, PState(LookingForMessageStart, rest)).s
  {
    RunStart(t, m.header + t.headerEnd + (m.content + t.end + rest));
    RunHeader(t, m.header, m.content + t.end + rest);
    RunContent(t, m.content, rest);
    OneAssoc(m, RunItems(t, PState(LookingForMessageStart, rest)));
  }

  lemma {:induction false} OneAssoc(m: Message, tail: seq<Item>)
    ensures [StartItem] + ([HeaderItem(m.header)] + (Chars(m.content) + [EndItem] + tail)) == ExpectOne(m) + tail
  {
  }

  lemma {:induction false} RunRendered(t: Tags, ms: seq<Message>)
    requires TagsClear(t) && forall i :: 0 <= i < |ms| ==> Clean(t, ms[i])
    ensures RunItems(t, PState(LookingForMessageStart, Render(t, ms))) == Expect(ms)
    ensures Run(t, PState(LookingForMessageStart, Render(t, ms))).s == INITIAL
  {
    if ms == [] {
      assert !Contains("", t.start);
      assert Items([]) == [];
    } else {
      RunRendered(t, ms[1..]);
      RunOne(t, ms[0], Render(t, ms[1..]));
    }
  }

  /** Round trip: rendered messages, fed in any chunks, come out as exactly those headers and
      contents, and nothing is left in the buffer. */
  lemma {:induction false} RoundTrip(t: Tags, ms: seq<Message>, chunks: seq<string>)
    requires TagsClear(t) && (forall i :: 0 <= i < |ms| ==> Clean(t, ms[i]))
    requires chunks != [] && Joined(chunks) == Render(t, ms)
    ensures Items(FeedAll(t, INITIAL, chunks).events) == Expect(ms) && FeedAll(t, INITIAL, chunks).s == INITIAL
  {
    AllItemsAre(t, INITIAL, chunks);
    AllItemsJoined(t, INITIAL, chunks);
    assert Add(INITIAL, Joined(chunks)) == PState(LookingForMessageStart, Render(t, ms)) by {
      assert "" + Joined(chunks) == Joined(chunks);
    }
    RunRendered(t, ms);
  }

  /** The tags in use. */
  const HARMONY := Tags("<|start|>", "<|end|>", "<|message|>")

  lemma {:induction false} HarmonyTagsClear()
    ensures TagsClear(HARMONY)
  {
    FirstCharOnce(HARMONY.headerEnd);
    FirstCharOnce(HARMONY.end);
  }

  // ---- the condition is needed ----

  /** A header that contains the header tag is cut short. */
  lemma {:induction false} DirtyHeader(t: Tags, m: Message, rest: string)
    requires TagsOk(t) && Contains(m.header, t.headerEnd)
    ensures var items := RunItems(t, PState(LookingForMessageStart, RenderOne(t, m, rest)));
            |items| >= 2 && items[1].HeaderItem? && |items[1].raw| < |m.header|
  {
    var acc := m.header + t.headerEnd + (m.content + t.end + rest);
    assert acc == m.header + (t.headerEnd + (m.content + t.end + rest));
    IndexStays(m.header, t.headerEnd, t.headerEnd + (m.content + t.end + rest));
    RunStart(t, acc);
    RunAnyHeader(t, acc, IndexOf(m.header, t.headerEnd));
  }

  lemma {:induction false} EarlyEnd(t: Tags, content: string, rest: string)
    requires TagsOk(t) && Contains(content, t.end)
    ensures var items, i := RunItems(t, PState(ParsingContent, content + t.end + rest)), IndexOf(content, t.end);
            i < |content| && |items| > i && items[i] == EndItem
  {
    var acc := content + t.end + rest;
    assert acc == content + (t.end + rest);
    IndexStays(content, t.end, t.end + rest);
    EatEnd(t, acc);
    RunStep(t, PState(ParsingContent, acc));
  }

  /** Content that contains the end tag is cut short. */
  lemma {:induction false} DirtyContent(t: Tags, m: Message, rest: string)
    requires TagsClear(t) && !Contains(m.header, t.headerEnd) && Contains(m.content, t.end)
    ensures var items := RunItems(t, PState(LookingForMessageStart, RenderOne(t, m, rest)));
            var i := IndexOf(m.content, t.end);
            i < |m.content| && |items| > 2 + i && items[2 + i] == EndItem
  {
    RunStart(t, m.header + t.headerEnd + (m.content + t.end + rest));
    RunHeader(t, m.header, m.content + t.end + rest);
    EarlyEnd(t, m.content, rest);
    Third(StartItem, HeaderItem(m.header), RunItems(t, PState(ParsingContent, m.content + t.end + rest)),
          IndexOf(m.content, t.end));
  }

  lemma {:induction false} Third(a: Item, b: Item, c: seq<Item>, i: nat)
    requires i < |c|
    ensures |[a] + ([b] + c)| > 2 + i && ([a] + ([b] + c))[2 + i] == c[i]
  {
  }

  lemma {:induction false} ExpectedItems(m: Message, tail: seq<Item>)
    ensures |ExpectOne(m) + tail| == 3 + |m.content| + |tail| && (ExpectOne(m) + tail)[1] == HeaderItem(m.header)
    ensures forall i :: 0 <= i < |m.content| ==> (ExpectOne(m) + tail)[2 + i] == Char(m.content[i])
  {
    forall i | 0 <= i < |m.content| ensures (ExpectOne(m) + tail)[2 + i] == Char(m.content[i]) {
      assert (Chars(m.content) + [EndItem])[i] == Chars(m.content)[i];
      assert (ExpectOne(m) + tail)[2 + i] == ExpectOne(m)[2 + i];
    }
  }

  lemma {:induction false} DirtyDiffers(t: Tags, m: Message, rest: string, tail: seq<Item>)
    requires TagsClear(t) && !Clean(t, m)
    ensures RunItems(t, PState(LookingForMessageStart, RenderOne(t, m, rest))) != ExpectOne(m) + tail
  {
    ExpectedItems(m, tail);
    if Contains(m.header, t.headerEnd) {
      DirtyHeader(t, m, rest);
    } else {
      DirtyContent(t, m, rest);
      assert (ExpectOne(m) + tail)[2 + IndexOf(m.content, t.end)] == Char(m.content[IndexOf(m.content, t.end)]);
    }
  }

  /** Rendered messages come back exactly when no header contains the header tag and no content
      contains the end tag. */
  lemma {:induction false} ComesBackIff(t: Tags, ms: seq<Message>)
    requires TagsClear(t)
    ensures RunItems(t, PState(LookingForMessageStart, Render(t, ms))) == Expect(ms)
        <==> forall i :: 0 <= i < |ms| ==> Clean(t, ms[i])
  {
    if ms == [] {
      RunRendered(t, ms);
    } else {
      var m, rest := ms[0], Render(t, ms[1..]);
      if Clean(t, m) {
        RunOne(t, m, rest);
        ComesBackIff(t, ms[1..]);
        SameTail(ExpectOne(m), RunItems(t, PState(LookingForMessageStart, rest)), Expect(ms[1..]));
        assert (forall i :: 0 <= i < |ms[1..]| ==> Clean(t, ms[1..][i]))
            <==> forall i :: 0 <= i < |ms| ==> Clean(t, ms[i]) by {
          CleanTail(t, ms);
        }
      } else {
        DirtyDiffers(t, m, rest, Expect(ms[1..]));
      }
    }
  }

  lemma {:induction false} CleanTail(t: Tags, ms: seq<Message>)
    requires ms != [] && Clean(t, ms[0])
    ensures (forall i :: 0 <= i < |ms[1..]| ==> Clean(t, ms[1..][i])) <==> forall i :: 0 <= i < |ms| ==> Clean(t, ms[i])
  {
    if forall i :: 0 <= i < |ms[1..]| ==> Clean(t, ms[1..][i]) {
      forall i | 0 <= i < |ms| ensures Clean(t, ms[i]) {
        if i > 0 { assert ms[1..][i - 1] == ms[i]; }
      }
    }
  }

  lemma {:induction false} SameTail(a: seq<Item>, b: seq<Item>, c: seq<Item>)
    ensures a + b == a + c <==> b == c
  {
    assert (a + b)[|a|..] == b && (a + c)[|a|..] == c;
  }

  // ---- the parser as an object ----

  class HarmonyParser {
    const tags: Tags
    var phase: Phase
    var acc: string

    ghost function S(): PState
      reads this
    {
      PState(phase, acc)
    }

    constructor (tags: Tags)
      ensures this.tags == tags && S() == INITIAL
    {
      this.tags, phase, acc := tags, LookingForMessageStart, "";
    }

    /** The longest suffix of the buffer that is a prefix of the end tag, longest candidate first. */
    method OverlapWithEnd() returns (n: nat)
      ensures n == Overlap(acc, tags.end)
    {
      var i := if |tags.end| < |acc| then |tags.end| else |acc|;
      while i > 0
        invariant 0 <= i <= |tags.end| && i <= |acc| && Overlap(acc, tags.end) == OverlapFrom(acc, tags.end, i)
      {
        if acc[|acc| - i..] == tags.end[..i] {
          return i;
        }
        i := i - 1;
      }
      return 0;
    }

    /** One step: split the buffer at the tag that ends the phase, or give away settled content. */
    method EatOnce() returns (events: seq<Event>, more: bool)
      requires TagsOk(tags)
      modifies this
      ensures Step(S(), events, more) == Eat(tags, old(S())) && (more ==> |acc| < |old(acc)|)
    {
      events, more := [], false;
      match phase
      case LookingForMessageStart =>
        var i := IndexOf(acc, tags.start);
        if i >= 0 {
          phase, acc := ParsingHeader, acc[i + |tags.start|..];
          return [MessageStart], true;
        }
      case ParsingHeader =>
        var i := IndexOf(acc, tags.headerEnd);
        if i >= 0 {
          var header := acc[..i];
          phase, acc := ParsingContent, acc[i + |tags.headerEnd|..];
          return [HeaderComplete(header)], true;
        }
      case ParsingContent =>
        events, more := EatContent();
    }

    /** Content up to the end tag, or all of it that cannot be the start of the end tag. */
    method EatContent() returns (events: seq<Event>, more: bool)
      requires TagsOk(tags) && phase == ParsingContent
      modifies this
      ensures Step(S(), events, more) == Eat(tags, old(S())) && (more ==> |acc| < |old(acc)|)
    {
      events, more := [], false;
      var i := IndexOf(acc, tags.end);
      if i >= 0 {
        var content := acc[..i];
        phase, acc := LookingForMessageStart, acc[i + |tags.end|..];
        if content != "" {
          events := [ContentEmitted(content)];
        }
        return events + [MessageEnd], true;
      }
      var n := OverlapWithEnd();
      var content := acc[..|acc| - n];
      acc := acc[|acc| - n..];
      if content != "" {
        return [ContentEmitted(content)], false;
      }
    }

    /** Take in more text and eat as long as there is more to eat. */
    method AddContent(content: string) returns (events: seq<Event>)
      requires TagsOk(tags)
      modifies this
      ensures Outcome(S(), events) == Feed(tags, old(S()), content)
    {
      acc := acc + content;
      events := [];
      ghost var start := S();
      var keepLooping := true;
      while keepLooping
        invariant Run(tags, start) == Eaten(tags, events, S(), keepLooping)
        decreases keepLooping, |acc|
      {
        ghost var before := S();
        var newEvents;
        newEvents, keepLooping := EatOnce();
        EatenStep(tags, events, before, Step(S(), newEvents, keepLooping));
        events := events + newEvents;
      }
    }
  }

  /** The outcome of a call that has emitted `events` so far and is in state `s`. */
  function Eaten(t: Tags, events: seq<Event>, s: PState, more: bool): Outcome
    requires TagsOk(t)
  {
    if more then Outcome(Run(t, s).s, events + Run(t, s).events) else Outcome(s, events)
  }

  lemma {:induction false} EatenStep(t: Tags, events: seq<Event>, s: PState, step: Step)
    requires TagsOk(t) && step == Eat(t, s)
    ensures Eaten(t, events, s, true) == Eaten(t, events + step.events, step.s, step.more)
  {
    if step.more {
      var rest := Run(t, step.s).events;
      assert events + (step.events + rest) == events + step.events + rest;
    }
  }

  // ---- content by channel ----

  datatype Header = Header(role: string, channel: string, recipient: string)

  datatype Mode = Normal | Thinking | ToolCalling

  datatype HState = HState(mode: Mode, toolName: Option<string>)

  /** What a call returns: content, thinking, and tool content. */
  datatype Output = Output(content: string, thinking: string, tool: string)

  const NOTHING := Output("", "", "")

  function Plus(a: Output, b: Output): Output {
    Output(a.content + b.content, a.thinking + b.thinking, a.tool + b.tool)
  }

  /** The mode for the content after a header; unknown channels leave it as it is. */
  function ModeAfter(h: Header, s: HState): HState {
    if h.channel == "analysis" then (if h.recipient != "" then HState(ToolCalling, Some(h.recipient))
                                     else s.(mode := Thinking))
    else if h.channel == "commentary" then (if h.recipient != "" then HState(ToolCalling, Some(h.recipient))
                                            else s.(mode := Normal))
    else if h.channel == "final" then s.(mode := Normal)
    else s
  }

  function Put(mode: Mode, text: string): Output {
    match mode
    case Normal => Output(text, "", "")
    case Thinking => Output("", text, "")
    case ToolCalling => Output("", "", text)
  }

  /** One item, for any way of reading a raw header. */
  function HandleItem(parse: string -> Header, s: HState, item: Item): (HState, Output) {
    match item
    case StartItem => (s, NOTHING)
    case HeaderItem(raw) => (ModeAfter(parse(raw), s), NOTHING)
    case Char(c) => (s, Put(s.mode, [c]))
    case EndItem => (s.(mode := Normal), NOTHING)
  }

  function HandleState(parse: string -> Header, s: HState, items: seq<Item>): HState
    decreases |items|
  {
    if items == [] then s else HandleState(parse, HandleItem(parse, s, items[0]).0, items[1..])
  }

  function HandleOutput(parse: string -> Header, s: HState, items: seq<Item>): Output
    decreases |items|
  {
    if items == [] then NOTHING
    else Plus(HandleItem(parse, s, items[0]).1, HandleOutput(parse, HandleItem(parse, s, items[0]).0, items[1..]))
  }

  lemma {:induction false} PlusAssoc(a: Output, b: Output, c: Output)
    ensures Plus(Plus(a, b), c) == Plus(a, Plus(b, c)) && Plus(NOTHING, a) == a && Plus(a, NOTHING) == a
  {
    assert a.content + b.content + c.content == a.content + (b.content + c.content);
    assert a.thinking + b.thinking + c.thinking == a.thinking + (b.thinking + c.thinking);
    assert a.tool + b.tool + c.tool == a.tool + (b.tool + c.tool);
    assert "" + a.content == a.content && "" + a.thinking == a.thinking && "" + a.tool == a.tool;
  }

  lemma {:induction false} HandleAppend(parse: string -> Header, s: HState, a: seq<Item>, b: seq<Item>)
    ensures HandleState(parse, s, a + b) == HandleState(parse, HandleState(parse, s, a), b)
    ensures HandleOutput(parse, s, a + b)
        == Plus(HandleOutput(parse, s, a), HandleOutput(parse, HandleState(parse, s, a), b))
    decreases |a|
  {
    if a == [] {
      assert a + b == b;
      PlusAssoc(HandleOutput(parse, s, b), NOTHING, NOTHING);
    } else {
      var s1 := HandleItem(parse, s, a[0]).0;
      assert (a + b)[0] == a[0] && (a + b)[1..] == a[1..] + b;
      HandleAppend(parse, s1, a[1..], b);
      PlusAssoc(HandleItem(parse, s, a[0]).1, HandleOutput(parse, s1, a[1..]),
                HandleOutput(parse, HandleState(parse, s, a), b));
    }
  }

  lemma {:induction false} HandleText(parse: string -> Header, s: HState, text: string)
    ensures HandleState(parse, s, Chars(text)) == s && HandleOutput(parse, s, Chars(text)) == Put(s.mode, text)
  {
    if text != [] {
      assert Chars(text)[1..] == Chars(text[1..]) && Chars(text)[0] == Char(text[0]);
      HandleText(parse, s, text[1..]);
      assert [text[0]] + text[1..] == text;
    }
  }

  class MessageHandler {
    const parser: HarmonyParser
    const parse: string -> Header
    var mode: Mode
    var toolName: Option<string>

    ghost function H(): HState
      reads this
    {
      HState(mode, toolName)
    }

    constructor (parse: string -> Header)
      ensures this.parse == parse && H() == HState(Normal, None) && fresh(parser) && parser.S() == INITIAL
          && parser.tags == HARMONY
    {
      this.parse, mode, toolName := parse, Normal, None;
      parser := new HarmonyParser(HARMONY);
    }

    method OnHeader(header: Header)
      modifies this
      ensures H() == ModeAfter(header, old(H()))
    {
      if header.channel == "analysis" {
        if header.recipient != "" {
          mode, toolName := ToolCalling, Some(header.recipient);
        } else {
          mode := Thinking;
        }
      } else if header.channel == "commentary" {
        if header.recipient != "" {
          mode, toolName := ToolCalling, Some(header.recipient);
        } else {
          mode := Normal;
        }
      } else if header.channel == "final" {
        mode := Normal;
      }
    }

    method OnEvent(event: Event, out: Output) returns (out': Output)
      modifies this
      ensures H() == HandleState(parse, old(H()), ItemsOf(event))
      ensures out' == Plus(out, HandleOutput(parse, old(H()), ItemsOf(event)))
    {
      PlusAssoc(out, NOTHING, NOTHING);
      out' := out;
      match event
      case MessageStart =>
      case HeaderComplete(raw) => OnHeader(parse(raw));
      case ContentEmitted(text) =>
        HandleText(parse, H(), text);
        match mode {
          case Normal => out' := out.(content := out.content + text);
          case Thinking => out' := out.(thinking := out.thinking + text);
          case ToolCalling => out' := out.(tool := out.tool + text);
        }
      case MessageEnd => mode := Normal;
    }

    /** Parse more text and sort its content by channel. */
    method AddContent(text: string) returns (out: Output)
      requires TagsOk(parser.tags)
      modifies this, parser
      ensures parser.S() == Feed(parser.tags, old(parser.S()), text).s
      ensures H() == HandleState(parse, old(H()), Items(Feed(parser.tags, old(parser.S()), text).events))
      ensures out == HandleOutput(parse, old(H()), Items(Feed(parser.tags, old(parser.S()), text).events))
    {
      var events := parser.AddContent(text);
      out := NOTHING;
      for i := 0 to |events|
        invariant parser.S() == Feed(parser.tags, old(parser.S()), text).s
        invariant H() == HandleState(parse, old(H()), Items(events[..i]))
        invariant out == HandleOutput(parse, old(H()), Items(events[..i]))
      {
        OneItem(events[i]);
        assert events[..i + 1] == events[..i] + [events[i]];
        ItemsAppend(events[..i], [events[i]]);
        HandleAppend(parse, old(H()), Items(events[..i]), ItemsOf(events[i]));
        out := OnEvent(events[i], out);
      }
      assert events[..|events|] == events;
    }
  }

  // ---- the handler does not see chunks either ----

  function OutputOfChunks(t: Tags, parse: string -> Header, s: PState, h: HState, chunks: seq<string>): Output
    requires TagsOk(t)
    decreases |chunks|
  {
    if chunks == [] then NOTHING
    else
      var items := RunItems(t, Add(s, chunks[0]));
      Plus(HandleOutput(parse, h, items),
           OutputOfChunks(t, parse, Run(t, Add(s, chunks[0])).s, HandleState(parse, h, items), chunks[1..]))
  }

  lemma {:induction false} OutputOfItems(t: Tags, parse: string -> Header, s: PState, h: HState, chunks: seq<string>)
    requires TagsOk(t)
    ensures OutputOfChunks(t, parse, s, h, chunks) == HandleOutput(parse, h, AllItems(t, s, chunks))
    decreases |chunks|
  {
    if chunks != [] {
      var items, next := RunItems(t, Add(s, chunks[0])), Run(t, Add(s, chunks[0])).s;
      OutputOfItems(t, parse, next, HandleState(parse, h, items), chunks[1..]);
      HandleAppend(parse, h, items, AllItems(t, next, chunks[1..]));
    }
  }

  /** Content, thinking and tool content collected over all chunks are those of the whole text. */
  lemma {:induction false} OutputsDoNotSeeChunks(t: Tags, parse: string -> Header, s: PState, h: HState,
                                                 chunks: seq<string>)
    requires TagsOk(t) && chunks != []
    ensures OutputOfChunks(t, parse, s, h, chunks) == HandleOutput(parse, h, RunItems(t, Add(s, Joined(chunks))))
  {
    OutputOfItems(t, parse, s, h, chunks);
    AllItemsJoined(t, s, chunks);
  }

  // ---- where the content of a message goes ----

  /** To the tool that the header names, to the thinking of an analysis, or else to the answer. */
  function Destination(h: Header): Mode {
    if h.recipient != "" && (h.channel == "analysis" || h.channel == "commentary") then ToolCalling
    else if h.channel == "analysis" then Thinking
    else Normal
  }

  /** The contents of the messages with one destination, joined. */
  function SentTo(parse: string -> Header, ms: seq<Message>, mode: Mode): string {
    if ms == [] then ""
    else (if Destination(parse(ms[0].header)) == mode then ms[0].content else "") + SentTo(parse, ms[1..], mode)
  }

  /** The tool named last. */
  function LastTool(parse: string -> Header, ms: seq<Message>, before: Option<string>): Option<string>
    decreases |ms|
  {
    if ms == [] then before
    else
      var h := parse(ms[0].header);
      LastTool(parse, ms[1..], if Destination(h) == ToolCalling then Some(h.recipient) else before)
  }

  lemma {:induction false} Handle1(parse: string -> Header, s: HState, item: Item)
    ensures HandleState(parse, s, [item]) == HandleItem(parse, s, item).0
    ensures HandleOutput(parse, s, [item]) == HandleItem(parse, s, item).1
  {
    var (s1, out) := HandleItem(parse, s, item);
    assert HandleState(parse, s1, []) == s1 && HandleOutput(parse, s1, []) == NOTHING;
    PlusAssoc(out, NOTHING, NOTHING);
  }

  lemma {:induction false} HeadHandled(parse: string -> Header, s: HState, raw: string)
    ensures HandleState(parse, s, [StartItem, HeaderItem(raw)]) == ModeAfter(parse(raw), s)
    ensures HandleOutput(parse, s, [StartItem, HeaderItem(raw)]) == NOTHING
  {
    assert [StartItem, HeaderItem(raw)] == [StartItem] + [HeaderItem(raw)];
    HandleAppend(parse, s, [StartItem], [HeaderItem(raw)]);
    Handle1(parse, s, StartItem);
    Handle1(parse, s, HeaderItem(raw));
    PlusAssoc(NOTHING, NOTHING, NOTHING);
  }

  lemma {:induction false} BodyHandled(parse: string -> Header, s: HState, content: string)
    ensures HandleState(parse, s, Chars(content) + [EndItem]) == s.(mode := Normal)
    ensures HandleOutput(parse, s, Chars(content) + [EndItem]) == Put(s.mode, content)
  {
    HandleText(parse, s, content);
    HandleAppend(parse, s, Chars(content), [EndItem]);
    Handle1(parse, s, EndItem);
    PlusAssoc(Put(s.mode, content), NOTHING, NOTHING);
  }

  lemma {:induction false} InTurn(parse: string -> Header, s: HState, a: seq<Item>, b: seq<Item>, s1: HState)
    requires HandleState(parse, s, a) == s1 && HandleOutput(parse, s, a) == NOTHING
    ensures HandleState(parse, s, a + b) == HandleState(parse, s1, b)
    ensures HandleOutput(parse, s, a + b) == HandleOutput(parse, s1, b)
  {
    HandleAppend(parse, s, a, b);
    PlusAssoc(HandleOutput(parse, s1, b), NOTHING, NOTHING);
  }

  lemma {:induction false} ModeIsDestination(h: Header, s: HState)
    requires s.mode == Normal
    ensures ModeAfter(h, s)
            == HState(Destination(h), if Destination(h) == ToolCalling then Some(h.recipient) else s.toolName)
  {
  }

  lemma {:induction false} MessageSorted(parse: string -> Header, s: HState, m: Message)
    requires s.mode == Normal
    ensures var h := parse(m.header);
            && HandleState(parse, s, ExpectOne(m))
               == HState(Normal, if Destination(h) == ToolCalling then Some(h.recipient) else s.toolName)
            && HandleOutput(parse, s, ExpectOne(m)) == Put(Destination(h), m.content)
  {
    var h := parse(m.header);
    ModeIsDestination(h, s);
    SortedFrom(parse, s, m, ModeAfter(h, s));
  }

  lemma {:induction false} SortedFrom(parse: string -> Header, s: HState, m: Message, s1: HState)
    requires s1 == ModeAfter(parse(m.header), s)
    ensures HandleState(parse, s, ExpectOne(m)) == s1.(mode := Normal)
    ensures HandleOutput(parse, s, ExpectOne(m)) == Put(s1.mode, m.content)
  {
    HeadHandled(parse, s, m.header);
    BodyHandled(parse, s1, m.content);
    InTurn(parse, s, [StartItem, HeaderItem(m.header)], Chars(m.content) + [EndItem], s1);
  }

  lemma {:induction false} MessagesSorted(parse: string -> Header, s: HState, ms: seq<Message>)
    requires s.mode == Normal
    ensures HandleState(parse, s, Expect(ms)) == HState(Normal, LastTool(parse, ms, s.toolName))
    ensures HandleOutput(parse, s, Expect(ms))
            == Output(SentTo(parse, ms, Normal), SentTo(parse, ms, Thinking), SentTo(parse, ms, ToolCalling))
    decreases |ms|
  {
    if ms != [] {
      var s1 := HandleState(parse, s, ExpectOne(ms[0]));
      MessageSorted(parse, s, ms[0]);
      HandleAppend(parse, s, ExpectOne(ms[0]), Expect(ms[1..]));
      MessagesSorted(parse, s1, ms[1..]);
    }
  }

  /** Rendered messages, fed to the handler in any chunks: analysis comes out as thinking, what has a
      recipient as tool content, and everything else as content, each in order. */
  lemma {:induction false} ContentSorted(t: Tags, parse: string -> Header, ms: seq<Message>, chunks: seq<string>)
    requires TagsClear(t) && (forall i :: 0 <= i < |ms| ==> Clean(t, ms[i]))
    requires chunks != [] && Joined(chunks) == Render(t, ms)
    ensures OutputOfChunks(t, parse, INITIAL, HState(Normal, None), chunks)
            == Output(SentTo(parse, ms, Normal), SentTo(parse, ms, Thinking), SentTo(parse, ms, ToolCalling))
  {
    OutputsDoNotSeeChunks(t, parse, INITIAL, HState(Normal, None), chunks);
    assert Add(INITIAL, Joined(chunks)) == PState(LookingForMessageStart, Render(t, ms)) by {
      assert "" + Joined(chunks) == Joined(chunks);
    }
    RunRendered(t, ms);
    MessagesSorted(parse, HState(Normal, None), ms);
  }
}
