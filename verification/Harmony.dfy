/** The streaming parser for tagged messages: chunk boundaries do not matter. */
module Harmony {
  import opened TagSearch

  datatype Tags = Tags(start: string, end: string, headerEnd: string)

  predicate TagsOk(t: Tags) { t.start != [] && t.end != [] && t.headerEnd != [] }

  datatype Phase = LookingForMessageStart | ParsingHeader | ParsingContent

  datatype Event = MessageStart | HeaderComplete(raw: string) | ContentEmitted(content: string) | MessageEnd

  datatype PState = PState(phase: Phase, acc: string)

  /** The events of one step, the next state, and whether to go on. */
  datatype Step = Step(s: PState, events: seq<Event>, more: bool)

  function Content(text: string): seq<Event> { if text == [] then [] else [ContentEmitted(text)] }

  /** The tag that ends a phase, the phase after it, and what the text up to it means. */
  function TagOf(t: Tags, phase: Phase): string {
    match phase case LookingForMessageStart => t.start case ParsingHeader => t.headerEnd case ParsingContent => t.end
  }

  function After(phase: Phase): Phase {
    match phase
    case LookingForMessageStart => ParsingHeader
    case ParsingHeader => ParsingContent
    case ParsingContent => LookingForMessageStart
  }

  function Found(phase: Phase, text: string): seq<Event> {
    match phase
    case LookingForMessageStart => [MessageStart]
    case ParsingHeader => [HeaderComplete(text)]
    case ParsingContent => Content(text) + [MessageEnd]
  }

  function Eat(t: Tags, s: PState): Step {
    var tag := TagOf(t, s.phase);
    var i := IndexOf(s.acc, tag);
    if i >= 0 then Step(PState(After(s.phase), s.acc[i + |tag|..]), Found(s.phase, s.acc[..i]), true)
    else if s.phase == ParsingContent then
      Step(PState(ParsingContent, Kept(s.acc, tag)), Content(Given(s.acc, tag)), false)
    else Step(s, [], false)
  }

  datatype Outcome = Outcome(s: PState, events: seq<Event>)

  /** Eat as long as there is more: every step that goes on shortens the buffer. */
  function Run(t: Tags, s: PState): Outcome
    requires TagsOk(t)
    decreases |s.acc|
  {
    var step := Eat(t, s);
    if !step.more then Outcome(step.s, step.events)
    else
      var rest := Run(t, step.s);
      Outcome(rest.s, step.events + rest.events)
  }

  function Add(s: PState, chunk: string): PState { s.(acc := s.acc + chunk) }

  /** One call of AddContent. */
  function Feed(t: Tags, s: PState, chunk: string): Outcome
    requires TagsOk(t)
  {
    Run(t, Add(s, chunk))
  }

  function FeedAll(t: Tags, s: PState, chunks: seq<string>): Outcome
    requires TagsOk(t)
    decreases |chunks|
  {
    if chunks == [] then Outcome(s, [])
    else
      var first := Feed(t, s, chunks[0]);
      var rest := FeedAll(t, first.s, chunks[1..]);
      Outcome(rest.s, first.events + rest.events)
  }

  function Joined(chunks: seq<string>): string {
    if chunks == [] then [] else chunks[0] + Joined(chunks[1..])
  }

  // ---- events up to merging adjacent content ----

  datatype Item = StartItem | HeaderItem(raw: string) | Char(c: char) | EndItem

  function Chars(text: string): (r: seq<Item>)
    ensures |r| == |text|
  {
    seq(|text|, i requires 0 <= i < |text| => Char(text[i]))
  }

  function ItemsOf(event: Event): seq<Item> {
    match event
    case MessageStart => [StartItem]
    case HeaderComplete(raw) => [HeaderItem(raw)]
    case ContentEmitted(text) => Chars(text)
    case MessageEnd => [EndItem]
  }

  /** The events with content taken apart into characters: equal for event lists that differ only
      in how adjacent content is split. */
  function Items(events: seq<Event>): seq<Item> {
    if events == [] then [] else ItemsOf(events[0]) + Items(events[1..])
  }

  lemma {:induction false} Assoc(a: seq<Item>, b: seq<Item>, c: seq<Item>)
    ensures a + b + c == a + (b + c)
  {
  }

  lemma {:induction false} ItemsAppend(a: seq<Event>, b: seq<Event>)
    ensures Items(a + b) == Items(a) + Items(b)
  {
    if a == [] {
      assert a + b == b;
    } else {
      ItemsAppend(a[1..], b);
      assert (a + b)[1..] == a[1..] + b && (a + b)[0] == a[0];
      Assoc(ItemsOf(a[0]), Items(a[1..]), Items(b));
    }
  }

  lemma {:induction false} ContentItems(text: string)
    ensures Items(Content(text)) == Chars(text)
  {
    if text != [] { assert Items([ContentEmitted(text)]) == Chars(text) + Items([]); }
  }

  lemma {:induction false} CharsAppend(a: string, b: string)
    ensures Chars(a + b) == Chars(a) + Chars(b)
  {
  }

  // ---- the same, item by item ----

  function EatItems(t: Tags, s: PState): seq<Item> { Items(Eat(t, s).events) }

  function RunItems(t: Tags, s: PState): seq<Item>
    requires TagsOk(t)
    decreases |s.acc|
  {
    var step := Eat(t, s);
    if step.more then EatItems(t, s) + RunItems(t, step.s) else EatItems(t, s)
  }

  lemma {:induction false} RunItemsAre(t: Tags, s: PState)
    requires TagsOk(t)
    ensures Items(Run(t, s).events) == RunItems(t, s)
    decreases |s.acc|
  {
    var step := Eat(t, s);
    if step.more {
      RunItemsAre(t, step.s);
      ItemsAppend(step.events, Run(t, step.s).events);
    }
  }

  lemma {:induction false} FoundItems(text: string)
    ensures Items(Found(ParsingContent, text)) == Chars(text) + [EndItem]
  {
    ItemsAppend(Content(text), [MessageEnd]);
    ContentItems(text);
    assert Items([MessageEnd]) == [EndItem] + Items([]);
  }

  // ---- chunk independence ----

  lemma {:induction false} CutInside(a: string, b: string, i: nat)
    requires i <= |a|
    ensures (a + b)[..i] == a[..i] && (a + b)[i..] == a[i..] + b
  {
  }

  lemma {:induction false} FoundStill(acc: string, tag: string, more: string)
    requires Contains(acc, tag)
    ensures var i := IndexOf(acc, tag);
            && IndexOf(acc + more, tag) == i
            && (acc + more)[..i] == acc[..i] && (acc + more)[i + |tag|..] == acc[i + |tag|..] + more
  {
    IndexStays(acc, tag, more);
    CutInside(acc, more, IndexOf(acc, tag));
    CutInside(acc, more, IndexOf(acc, tag) + |tag|);
  }

  /** A step that goes on does the same thing when more input follows. */
  lemma {:induction false} EatMore(t: Tags, s: PState, more: string)
    requires TagsOk(t) && Eat(t, s).more
    ensures Eat(t, Add(s, more)) == Step(Add(Eat(t, s).s, more), Eat(t, s).events, true)
  {
    FoundStill(s.acc, TagOf(t, s.phase), more);
  }

  lemma {:induction false} EatEnd(t: Tags, acc: string)
    requires Contains(acc, t.end)
    ensures var i := IndexOf(acc, t.end);
            && Eat(t, PState(ParsingContent, acc)).s == PState(LookingForMessageStart, acc[i + |t.end|..])
            && Eat(t, PState(ParsingContent, acc)).more
            && EatItems(t, PState(ParsingContent, acc)) == Chars(acc[..i]) + [EndItem]
  {
    FoundItems(acc[..IndexOf(acc, t.end)]);
  }

  lemma {:induction false} EatText(t: Tags, acc: string)
    requires !Contains(acc, t.end)
    ensures Eat(t, PState(ParsingContent, acc)).s == PState(ParsingContent, Kept(acc, t.end))
    ensures !Eat(t, PState(ParsingContent, acc)).more
    ensures EatItems(t, PState(ParsingContent, acc)) == Chars(Given(acc, t.end))
  {
    ContentItems(Given(acc, t.end));
  }

  lemma {:induction false} CutConcat(a: string, b: string, i: nat)
    requires i <= |b|
    ensures (a + b)[..|a| + i] == a + b[..i] && (a + b)[|a| + i..] == b[i..]
  {
  }

  lemma {:induction false} GivenAndKept(acc: string, tag: string, more: string)
    ensures acc + more == Given(acc, tag) + (Kept(acc, tag) + more)
  {
  }

  lemma {:induction false} SplitAtTag(acc: string, tag: string, more: string)
    requires tag != [] && !Contains(acc, tag) && Contains(Kept(acc, tag) + more, tag)
    ensures var i, j := IndexOf(Kept(acc, tag) + more, tag), IndexOf(acc + more, tag);
            && Contains(acc + more, tag)
            && (acc + more)[..j] == Given(acc, tag) + (Kept(acc, tag) + more)[..i]
            && (acc + more)[j + |tag|..] == (Kept(acc, tag) + more)[i + |tag|..]
  {
    var given, kept := Given(acc, tag), Kept(acc, tag) + more;
    var i := IndexOf(kept, tag);
    KeptIndex(acc, tag, more);
    GivenAndKept(acc, tag, more);
    CutConcat(given, kept, i);
    CutConcat(given, kept, i + |tag|);
  }

  lemma {:induction false} SplitAtOverlap(acc: string, tag: string, more: string)
    requires tag != [] && !Contains(acc, tag) && !Contains(Kept(acc, tag) + more, tag)
    ensures !Contains(acc + more, tag)
    ensures Given(acc + more, tag) == Given(acc, tag) + Given(Kept(acc, tag) + more, tag)
    ensures Kept(acc + more, tag) == Kept(Kept(acc, tag) + more, tag)
  {
    var given, kept := Given(acc, tag), Kept(acc, tag) + more;
    KeptIndex(acc, tag, more);
    KeptOverlap(acc, tag, more);
    GivenAndKept(acc, tag, more);
    CutConcat(given, kept, |kept| - Overlap(kept, tag));
  }

  ghost predicate AgreeAfter(t: Tags, a: PState, b: PState, front: seq<Item>) {
    Eat(t, a).s == Eat(t, b).s && Eat(t, a).more == Eat(t, b).more && EatItems(t, a) == front + EatItems(t, b)
  }

  lemma {:induction false} AgreeAtEnd(t: Tags, a: string, b: string, front: string)
    requires Contains(a, t.end) && Contains(b, t.end)
    requires a[..IndexOf(a, t.end)] == front + b[..IndexOf(b, t.end)]
    requires a[IndexOf(a, t.end) + |t.end|..] == b[IndexOf(b, t.end) + |t.end|..]
    ensures AgreeAfter(t, PState(ParsingContent, a), PState(ParsingContent, b), Chars(front))
  {
    EatEnd(t, a);
    EatEnd(t, b);
    CharsAppend(front, b[..IndexOf(b, t.end)]);
    Assoc(Chars(front), Chars(b[..IndexOf(b, t.end)]), [EndItem]);
  }

  lemma {:induction false} GivenBeforeTag(t: Tags, acc: string, more: string)
    requires TagsOk(t) && !Contains(acc, t.end) && Contains(Kept(acc, t.end) + more, t.end)
    ensures AgreeAfter(t, PState(ParsingContent, acc + more), PState(ParsingContent, Kept(acc, t.end) + more),
                       Chars(Given(acc, t.end)))
  {
    var all, kept := acc + more, Kept(acc, t.end) + more;
    SplitAtTag(acc, t.end, more);
    AgreeAtEnd(t, all, kept, Given(acc, t.end));
  }

  /** Content given away early is the beginning of the content that would be emitted later. */
  lemma {:induction false} GivenAway(t: Tags, acc: string, more: string)
    requires TagsOk(t) && !Contains(acc, t.end)
    ensures AgreeAfter(t, PState(ParsingContent, acc + more), PState(ParsingContent, Kept(acc, t.end) + more),
                       Chars(Given(acc, t.end)))
  {
    var kept := Kept(acc, t.end) + more;
    if Contains(kept, t.end) {
      GivenBeforeTag(t, acc, more);
    } else {
      SplitAtOverlap(acc, t.end, more);
      EatText(t, acc + more);
      EatText(t, kept);
      CharsAppend(Given(acc, t.end), Given(kept, t.end));
    }
  }

  /** States whose next step agrees, up to content in front, agree for good. */
  lemma {:induction false} AfterStep(t: Tags, a: PState, b: PState, front: seq<Item>)
    requires TagsOk(t) && AgreeAfter(t, a, b, front)
    ensures Run(t, a).s == Run(t, b).s && RunItems(t, a) == front + RunItems(t, b)
  {
    if Eat(t, a).more {
      RunStep(t, a);
      RunStep(t, b);
      Assoc(front, EatItems(t, b), RunItems(t, Eat(t, b).s));
    }
  }

  lemma {:induction false} RunStep(t: Tags, s: PState)
    requires TagsOk(t) && Eat(t, s).more
    ensures Run(t, s).s == Run(t, Eat(t, s).s).s && RunItems(t, s) == EatItems(t, s) + RunItems(t, Eat(t, s).s)
  {
  }

  /** Running on what is there and then on more is running on everything. */
  lemma {:induction false} RunMore(t: Tags, s: PState, more: string)
    requires TagsOk(t)
    ensures Run(t, Add(s, more)).s == Run(t, Add(Run(t, s).s, more)).s
    ensures RunItems(t, Add(s, more)) == RunItems(t, s) + RunItems(t, Add(Run(t, s).s, more))
    decreases |s.acc|
  {
    var step := Eat(t, s);
    if step.more {
      EatMore(t, s, more);
      RunMore(t, step.s, more);
    } else if s.phase == ParsingContent {
      GivenAway(t, s.acc, more);
      EatText(t, s.acc);
      AfterStep(t, Add(s, more), Add(step.s, more), Chars(Given(s.acc, t.end)));
    }
  }

  /** State and items after all chunks. */
  function StateAfter(t: Tags, s: PState, chunks: seq<string>): PState
    requires TagsOk(t)
    decreases |chunks|
  {
    if chunks == [] then s else StateAfter(t, Run(t, Add(s, chunks[0])).s, chunks[1..])
  }

  function AllItems(t: Tags, s: PState, chunks: seq<string>): seq<Item>
    requires TagsOk(t)
    decreases |chunks|
  {
    if chunks == [] then [] else RunItems(t, Add(s, chunks[0])) + AllItems(t, Run(t, Add(s, chunks[0])).s, chunks[1..])
  }

  lemma {:induction false} AllItemsAre(t: Tags, s: PState, chunks: seq<string>)
    requires TagsOk(t)
    ensures FeedAll(t, s, chunks).s == StateAfter(t, s, chunks)
    ensures Items(FeedAll(t, s, chunks).events) == AllItems(t, s, chunks)
    decreases |chunks|
  {
    if chunks != [] {
      var first := Feed(t, s, chunks[0]);
      RunItemsAre(t, Add(s, chunks[0]));
      AllItemsAre(t, first.s, chunks[1..]);
      ItemsAppend(first.events, FeedAll(t, first.s, chunks[1..]).events);
    }
  }

  lemma {:induction false} OneChunk(t: Tags, s: PState, chunk: string)
    requires TagsOk(t)
    ensures Joined([chunk]) == chunk
    ensures StateAfter(t, s, [chunk]) == Run(t, Add(s, chunk)).s
        && AllItems(t, s, [chunk]) == RunItems(t, Add(s, chunk))
  {
    var first := Run(t, Add(s, chunk)).s;
    assert [chunk][1..] == [];
    assert AllItems(t, first, []) == [] && StateAfter(t, first, []) == first;
    assert Joined([chunk]) == chunk + Joined([]);
  }

  lemma {:induction false} AddTwice(s: PState, a: string, b: string)
    ensures Add(Add(s, a), b) == Add(s, a + b)
  {
    assert s.acc + a + b == s.acc + (a + b);
  }

  lemma {:induction false} AllItemsJoined(t: Tags, s: PState, chunks: seq<string>)
    requires TagsOk(t) && chunks != []
    ensures StateAfter(t, s, chunks) == Run(t, Add(s, Joined(chunks))).s
    ensures AllItems(t, s, chunks) == RunItems(t, Add(s, Joined(chunks)))
    decreases |chunks|
  {
    if |chunks| == 1 {
      assert chunks == [chunks[0]];
      OneChunk(t, s, chunks[0]);
    } else {
      AllItemsJoined(t, Run(t, Add(s, chunks[0])).s, chunks[1..]);
      RunMore(t, Add(s, chunks[0]), Joined(chunks[1..]));
      AddTwice(s, chunks[0], Joined(chunks[1..]));
    }
  }

  /** Chunk independence: however the input is cut, the parser ends in the same state and buffer and
      emits the same events, up to merging adjacent content. */
  lemma {:induction false} ChunksDoNotMatter(t: Tags, s: PState, chunks: seq<string>)
    requires TagsOk(t) && chunks != []
    ensures FeedAll(t, s, chunks).s == Feed(t, s, Joined(chunks)).s
    ensures Items(FeedAll(t, s, chunks).events) == Items(Feed(t, s, Joined(chunks)).events)
  {
    AllItemsAre(t, s, chunks);
    AllItemsJoined(t, s, chunks);
    RunItemsAre(t, Add(s, Joined(chunks)));
  }
}
