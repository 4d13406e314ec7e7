/** The grammar of a message stream, and the converter from response chunks to its events. */
module StreamGrammar {
  // ---- the grammar ----

  datatype Kind = ThinkingBlock | TextBlock | ToolBlock | OtherBlock

  /** What the start of a block tells about it. */
  datatype Head = ThinkingHead | TextHead | ToolHead(id: string, name: string) | OtherHead(body: string)

  function KindOf(h: Head): Kind {
    match h
    case ThinkingHead => ThinkingBlock
    case TextHead => TextBlock
    case ToolHead(_, _) => ToolBlock
    case OtherHead(_) => OtherBlock
  }

  datatype Event =
    | MessageStart
    | BlockStart(index: int, head: Head)
    | BlockDelta(index: int, kind: Kind, text: string)
    | BlockStop(index: int)
    | MessageDelta
    | MessageStop

  /** Where a stream is: between blocks with the next index, in a block, near or at its end. */
  datatype Place = NotStarted | Between(next: int) | InBlock(index: int, kind: Kind) | Ending | Ended | Broken

  function Next(g: Place, e: Event): Place {
    match g
    case NotStarted => if e == MessageStart then Between(0) else Broken
    case Between(n) =>
      if e.BlockStart? && e.index == n then InBlock(n, KindOf(e.head)) else if e == MessageDelta then Ending else Broken
    case InBlock(n, kind) =>
      if e.BlockDelta? && e.index == n && e.kind == kind then g else if e == BlockStop(n) then Between(n + 1)
      else Broken
    case Ending => if e == MessageStop then Ended else Broken
    case Ended => Broken
    case Broken => Broken
  }

  function After(g: Place, events: seq<Event>): Place
    decreases |events|
  {
    if events == [] then g else After(Next(g, events[0]), events[1..])
  }

  lemma {:induction false} AfterAppend(g: Place, a: seq<Event>, b: seq<Event>)
    ensures After(g, a + b) == After(After(g, a), b)
    decreases |a|
  {
    if a == [] {
      assert a + b == b;
    } else {
      assert (a + b)[0] == a[0] && (a + b)[1..] == a[1..] + b;
      AfterAppend(Next(g, a[0]), a[1..], b);
    }
  }

  lemma {:induction false} StaysBroken(events: seq<Event>)
    ensures After(Broken, events) == Broken
  {
    if events != [] { StaysBroken(events[1..]); }
  }

  // ---- the same as words ----

  /** A block with the texts of its deltas. */
  datatype Block = Block(head: Head, texts: seq<string>)

  function Deltas(index: int, kind: Kind, texts: seq<string>): seq<Event> {
    if texts == [] then []
    else Deltas(index, kind, texts[..|texts| - 1]) + [BlockDelta(index, kind, texts[|texts| - 1])]
  }

  function BlockWord(index: int, b: Block): seq<Event> {
    [BlockStart(index, b.head)] + Deltas(index, KindOf(b.head), b.texts) + [BlockStop(index)]
  }

  /** message_start, then complete blocks numbered 0, 1, 2 and so on. */
  function Blocks(blocks: seq<Block>): seq<Event> {
    if blocks == [] then [MessageStart]
    else Blocks(blocks[..|blocks| - 1]) + BlockWord(|blocks| - 1, blocks[|blocks| - 1])
  }

  /** A complete stream. */
  function Word(blocks: seq<Block>): seq<Event> { Blocks(blocks) + [MessageDelta, MessageStop] }

  ghost predicate IsPrefix(a: seq<Event>, b: seq<Event>) { a <= b }

  /** The events so far, when the stream is at this place after complete blocks. */
  function SoFar(g: Place, blocks: seq<Block>, open: Block): seq<Event> {
    match g
    case NotStarted => []
    case Between(_) => Blocks(blocks)
    case InBlock(n, kind) => Blocks(blocks) + ([BlockStart(n, open.head)] + Deltas(n, kind, open.texts))
    case Ending => Blocks(blocks) + [MessageDelta]
    case Ended => Word(blocks)
    case Broken => []
  }

  ghost predicate Describes(g: Place, blocks: seq<Block>, events: seq<Event>, open: Block) {
    && events == SoFar(g, blocks, open)
    && (g.Between? ==> g.next == |blocks|) && (g.InBlock? ==> g.index == |blocks| && g.kind == KindOf(open.head))
  }

  /** Every unbroken stream has this form. */
  lemma {:induction false} Described(events: seq<Event>) returns (blocks: seq<Block>, open: Block)
    requires After(NotStarted, events) != Broken
    ensures Describes(After(NotStarted, events), blocks, events, open)
  {
    if events == [] {
      blocks, open := [], Block(TextHead, []);
    } else {
      var front, e := events[..|events| - 1], events[|events| - 1];
      assert events == front + [e];
      AfterAppend(NotStarted, front, [e]);
      assert After(After(NotStarted, front), [e]) == Next(After(NotStarted, front), e);
      blocks, open := Described(front);
      blocks, open := DescribedNext(After(NotStarted, front), blocks, open, front, e);
    }
  }

  lemma {:induction false} DescribedNext(g: Place, blocks: seq<Block>, open: Block, events: seq<Event>, e: Event)
    returns (blocks': seq<Block>, open': Block)
    requires Describes(g, blocks, events, open) && Next(g, e) != Broken
    ensures Describes(Next(g, e), blocks', events + [e], open')
  {
    blocks', open' := blocks, open;
    match g {
      case NotStarted => blocks' := [];
      case Between(n) =>
        if e.BlockStart? {
          open' := Block(e.head, []);
          assert Blocks(blocks) + [e] == Blocks(blocks) + ([e] + []);
        }
      case InBlock(n, kind) =>
        if e.BlockDelta? {
          open' := Block(open.head, open.texts + [e.text]);
          assert open'.texts[..|open'.texts| - 1] == open.texts;
        } else {
          blocks' := blocks + [open];
          assert blocks'[..|blocks'| - 1] == blocks;
          assert Blocks(blocks) + ([BlockStart(n, open.head)] + Deltas(n, kind, open.texts)) + [e] == Blocks(blocks');
        }
      case Ending => assert Blocks(blocks) + [MessageDelta] + [MessageStop] == Word(blocks);
    }
  }

  /** An unbroken stream is a prefix of a complete one, and a stream that has ended is complete. */
  lemma {:induction false} UnbrokenIsPrefix(events: seq<Event>) returns (blocks: seq<Block>)
    requires After(NotStarted, events) != Broken
    ensures IsPrefix(events, Word(blocks)) && (After(NotStarted, events) == Ended ==> events == Word(blocks))
  {
    var done, open := Described(events);
    blocks := done;
    var g := After(NotStarted, events);
    if g == NotStarted {
      blocks := [];
    } else if g.InBlock? {
      blocks := done + [open];
      assert blocks[..|blocks| - 1] == done;
      assert Word(blocks) == events + ([BlockStop(g.index)] + [MessageDelta, MessageStop]);
    } else if g == Ending {
      assert Word(blocks) == events + [MessageStop];
    }
  }

  function Stops(events: seq<Event>): nat
  {
    if events == [] then 0 else Stops(events[1..]) + if events[0] == MessageStop then 1 else 0
  }

  /** At most one message_stop. */
  lemma {:induction false} OneStop(g: Place, events: seq<Event>)
    requires After(g, events) != Broken
    ensures Stops(events) <= (if g == Ended then 0 else 1)
    decreases |events|
  {
    if events != [] {
      if Next(g, events[0]) == Broken { StaysBroken(events[1..]); }
      OneStop(Next(g, events[0]), events[1..]);
      if g == Ending && events[1..] != [] { StaysBroken(events[2..]); }
    }
  }

  lemma {:induction false} DeltasAccepted(index: int, kind: Kind, texts: seq<string>)
    ensures After(InBlock(index, kind), Deltas(index, kind, texts)) == InBlock(index, kind)
  {
    if texts != [] {
      var n := |texts| - 1;
      DeltasAccepted(index, kind, texts[..n]);
      AfterAppend(InBlock(index, kind), Deltas(index, kind, texts[..n]), [BlockDelta(index, kind, texts[n])]);
      assert After(InBlock(index, kind), [BlockDelta(index, kind, texts[n])]) == After(InBlock(index, kind), []);
    }
  }

  lemma {:induction false} BlocksAccepted(blocks: seq<Block>)
    ensures After(NotStarted, Blocks(blocks)) == Between(|blocks|)
  {
    if blocks == [] {
      assert After(NotStarted, [MessageStart]) == After(Between(0), []);
    } else {
      var n, b := |blocks| - 1, blocks[|blocks| - 1];
      var kind, ds := KindOf(b.head), Deltas(n, KindOf(b.head), b.texts);
      BlocksAccepted(blocks[..n]);
      AfterAppend(NotStarted, Blocks(blocks[..n]), BlockWord(n, b));
      assert BlockWord(n, b) == [BlockStart(n, b.head)] + (ds + [BlockStop(n)]);
      assert BlockWord(n, b)[1..] == ds + [BlockStop(n)];
      DeltasAccepted(n, kind, b.texts);
      AfterAppend(InBlock(n, kind), ds, [BlockStop(n)]);
      assert After(InBlock(n, kind), [BlockStop(n)]) == After(Between(n + 1), []);
    }
  }

  /** The grammar accepts exactly the prefixes of complete streams. */
  lemma {:induction false} AcceptsPrefixes(events: seq<Event>)
    ensures After(NotStarted, events) != Broken <==> exists blocks :: IsPrefix(events, Word(blocks))
  {
    if After(NotStarted, events) != Broken {
      var blocks := UnbrokenIsPrefix(events);
    } else if blocks :| IsPrefix(events, Word(blocks)) {
      var word := Word(blocks);
      BlocksAccepted(blocks);
      AfterAppend(NotStarted, Blocks(blocks), [MessageDelta, MessageStop]);
      assert After(Between(|blocks|), [MessageDelta, MessageStop]) == After(Ending, [MessageStop]) == After(Ended, []);
      assert word == events + word[|events|..];
      AfterAppend(NotStarted, events, word[|events|..]);
      StaysBroken(word[|events|..]);
    }
  }

  // ---- what a client reads ----

  /** A block as a client has it: its head, and the texts of its deltas joined. */
  datatype Shown = Shown(head: Head, text: string)

  function AddText(shown: seq<Shown>, text: string): seq<Shown> {
    if shown == [] then []
    else
      var n := |shown| - 1;
      shown[..n] + [Shown(shown[n].head, shown[n].text + text)]
  }

  /** A start opens a new block, and a delta goes to the newest one. */
  function ReadOne(shown: seq<Shown>, e: Event): seq<Shown> {
    if e.BlockStart? then shown + [Shown(e.head, "")]
    else if e.BlockDelta? then AddText(shown, e.text)
    else shown
  }

  /** The blocks after some events, going on from those read before. */
  function Read(shown: seq<Shown>, events: seq<Event>): seq<Shown>
    decreases |events|
  {
    if events == [] then shown else Read(ReadOne(shown, events[0]), events[1..])
  }

  function OfKind(shown: seq<Shown>, kind: Kind): seq<Shown> {
    if shown == [] then []
    else
      var n := |shown| - 1;
      OfKind(shown[..n], kind) + if KindOf(shown[n].head) == kind then [shown[n]] else []
  }

  function Joined(shown: seq<Shown>): string {
    if shown == [] then "" else Joined(shown[..|shown| - 1]) + shown[|shown| - 1].text
  }

  function ReadOneKind(shown: seq<Shown>, e: Event, kind: Kind): seq<Shown> {
    if e.BlockStart? && KindOf(e.head) == kind then shown + [Shown(e.head, "")]
    else if e.BlockDelta? && e.kind == kind then AddText(shown, e.text)
    else shown
  }

  /** The blocks of one kind, read from the events of that kind alone. */
  function ReadKind(shown: seq<Shown>, events: seq<Event>, kind: Kind): seq<Shown>
    decreases |events|
  {
    if events == [] then shown else ReadKind(ReadOneKind(shown, events[0], kind), events[1..], kind)
  }

  lemma {:induction false} OfKindAdd(shown: seq<Shown>, b: Shown, kind: Kind)
    ensures OfKind(shown + [b], kind) == OfKind(shown, kind) + if KindOf(b.head) == kind then [b] else []
  {
    assert (shown + [b])[..|shown|] == shown;
  }

  /** Text for the newest block. */
  lemma {:induction false} OfKindText(shown: seq<Shown>, text: string, kind: Kind)
    requires shown != []
    ensures OfKind(AddText(shown, text), kind)
            == if KindOf(shown[|shown| - 1].head) == kind then AddText(OfKind(shown, kind), text)
               else OfKind(shown, kind)
  {
    var k := |shown| - 1;
    OfKindAdd(shown[..k], Shown(shown[k].head, shown[k].text + text), kind);
    assert KindOf(shown[k].head) == kind ==>
        OfKind(shown, kind)[..|OfKind(shown, kind)| - 1] == OfKind(shown[..k], kind);
  }

  /** The newest block is the open one. */
  ghost predicate Newest(g: Place, shown: seq<Shown>) {
    g.InBlock? ==> shown != [] && KindOf(shown[|shown| - 1].head) == g.kind
  }

  lemma {:induction false} ReadStep(g: Place, shown: seq<Shown>, e: Event, kind: Kind)
    requires Newest(g, shown) && Next(g, e) != Broken
    ensures Newest(Next(g, e), ReadOne(shown, e))
    ensures OfKind(ReadOne(shown, e), kind) == ReadOneKind(OfKind(shown, kind), e, kind)
  {
    if e.BlockStart? {
      OfKindAdd(shown, Shown(e.head, ""), kind);
    } else if e.BlockDelta? {
      OfKindText(shown, e.text, kind);
    }
  }

  /** In an unbroken stream every delta goes to a block of its kind. */
  lemma {:induction false} ReadByKind(g: Place, shown: seq<Shown>, events: seq<Event>, kind: Kind)
    requires Newest(g, shown) && After(g, events) != Broken
    ensures OfKind(Read(shown, events), kind) == ReadKind(OfKind(shown, kind), events, kind)
    decreases |events|
  {
    if events != [] {
      if Next(g, events[0]) == Broken { StaysBroken(events[1..]); }
      ReadStep(g, shown, events[0], kind);
      ReadByKind(Next(g, events[0]), ReadOne(shown, events[0]), events[1..], kind);
    }
  }

  lemma {:induction false} ReadAppend(shown: seq<Shown>, a: seq<Event>, b: seq<Event>)
    ensures Read(shown, a + b) == Read(Read(shown, a), b)
    decreases |a|
  {
    if a == [] {
      assert a + b == b;
    } else {
      assert (a + b)[0] == a[0] && (a + b)[1..] == a[1..] + b;
      ReadAppend(ReadOne(shown, a[0]), a[1..], b);
    }
  }

  lemma {:induction false} ReadKindAppend(shown: seq<Shown>, a: seq<Event>, b: seq<Event>, kind: Kind)
    ensures ReadKind(shown, a + b, kind) == ReadKind(ReadKind(shown, a, kind), b, kind)
    decreases |a|
  {
    if a == [] {
      assert a + b == b;
    } else {
      assert (a + b)[0] == a[0] && (a + b)[1..] == a[1..] + b;
      ReadKindAppend(ReadOneKind(shown, a[0], kind), a[1..], b, kind);
    }
  }
}
