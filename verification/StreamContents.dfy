/** What a client reads from the stream, in terms of the response chunks alone. */
module StreamContents {
  import opened StreamGrammar
  import opened StreamConverter

  // ---- what should be told ----

  /** The contents of the chunks, joined. */
  function Contents(chunks: seq<Chunk>): string {
    if chunks == [] then "" else Contents(chunks[..|chunks| - 1]) + chunks[|chunks| - 1].content
  }

  ghost predicate Thought(chunks: seq<Chunk>) { exists i :: 0 <= i < |chunks| && chunks[i].thinking != "" }

  /** Content has come with or after the first thinking. */
  ghost predicate Answered(chunks: seq<Chunk>) {
    exists i, j :: 0 <= i <= j < |chunks| && chunks[i].thinking != "" && chunks[j].content != ""
  }

  /** The thinking of the chunks, as long as no chunk before has answered it. */
  ghost function Thoughts(chunks: seq<Chunk>): string {
    if chunks == [] then ""
    else
      var front := chunks[..|chunks| - 1];
      Thoughts(front) + if Answered(front) then "" else chunks[|chunks| - 1].thinking
  }

  /** All tool calls in order. */
  function Calls(chunks: seq<Chunk>): seq<ToolCall> {
    if chunks == [] then [] else Calls(chunks[..|chunks| - 1]) + chunks[|chunks| - 1].toolCalls
  }

  function Sent(calls: seq<ToolCall>): set<string> {
    set i | 0 <= i < |calls| && calls[i].encodes :: calls[i].id
  }

  /** The calls to tell: each one that encodes and whose id no earlier such call had. */
  function NewCalls(calls: seq<ToolCall>): seq<ToolCall> {
    if calls == [] then []
    else
      var front, tc := calls[..|calls| - 1], calls[|calls| - 1];
      NewCalls(front) + if tc.encodes && tc.id !in Sent(front) then [tc] else []
  }

  /** One block for each call: its id and name, and its arguments. */
  function CallBlocks(calls: seq<ToolCall>): seq<Shown> {
    seq(|calls|, i requires 0 <= i < |calls| => Shown(ToolHead(calls[i].id, calls[i].name), calls[i].args))
  }

  // ---- what the parts of a chunk tell ----

  lemma {:induction false} Read1(shown: seq<Shown>, e: Event, kind: Kind)
    ensures ReadKind(shown, [e], kind) == ReadOneKind(shown, e, kind)
  {
    assert ReadKind(shown, [e], kind) == ReadKind(ReadOneKind(shown, e, kind), [], kind);
  }

  lemma {:induction false} Read2(shown: seq<Shown>, a: Event, b: Event, kind: Kind)
    ensures ReadKind(shown, [a, b], kind) == ReadOneKind(ReadOneKind(shown, a, kind), b, kind)
  {
    assert [a, b][1..] == [b];
    Read1(ReadOneKind(shown, a, kind), b, kind);
  }

  lemma {:induction false} Read3(shown: seq<Shown>, a: Event, b: Event, c: Event, kind: Kind)
    ensures ReadKind(shown, [a, b, c], kind)
            == ReadOneKind(ReadOneKind(ReadOneKind(shown, a, kind), b, kind), c, kind)
  {
    assert [a, b, c][1..] == [b, c];
    Read2(ReadOneKind(shown, a, kind), b, c, kind);
  }

  lemma {:induction false} JoinedAdd(shown: seq<Shown>, head: Head, text: string)
    ensures Joined(shown + [Shown(head, text)]) == Joined(shown) + text
    ensures shown != [] ==> Joined(AddText(shown, text)) == Joined(shown) + text
  {
    assert (shown + [Shown(head, text)])[..|shown|] == shown;
    if shown != [] {
      var n := |shown| - 1;
      assert AddText(shown, text)[..n] == shown[..n];
      assert Joined(shown[..n]) + (shown[n].text + text) == Joined(shown[..n]) + shown[n].text + text;
    }
  }

  lemma {:induction false} StartTells(c: Conv, shown: seq<Shown>, kind: Kind)
    ensures ReadKind(shown, Started(c).1, kind) == shown
  {
    Read1(shown, MessageStart, kind);
  }

  lemma {:induction false} DoneTells(c: Conv, r: Chunk, shown: seq<Shown>, kind: Kind)
    ensures ReadKind(shown, DonePart(c, r), kind) == shown
  {
    if r.done {
      assert [] + [MessageDelta, MessageStop] == [MessageDelta, MessageStop];
      assert [BlockStop(c.contentIndex)] + [MessageDelta, MessageStop]
          == [BlockStop(c.contentIndex), MessageDelta, MessageStop];
      Read2(shown, MessageDelta, MessageStop, kind);
      Read3(shown, BlockStop(c.contentIndex), MessageDelta, MessageStop, kind);
    }
  }

  /** A new block and its first delta. */
  lemma {:induction false} FirstDelta(shown: seq<Shown>, head: Head, text: string)
    ensures AddText(shown + [Shown(head, "")], text) == shown + [Shown(head, text)]
  {
    assert "" + text == text;
  }

  function DeltaEvents(index: int, head: Head, text: string, open: bool): seq<Event> {
    (if open then [] else [BlockStart(index, head)]) + [BlockDelta(index, KindOf(head), text)]
  }

  lemma {:induction false} DeltaRead(shown: seq<Shown>, index: int, head: Head, text: string, open: bool, kind: Kind)
    ensures ReadKind(shown, DeltaEvents(index, head, text, open), kind)
            == if KindOf(head) != kind then shown
               else if open then AddText(shown, text) else shown + [Shown(head, text)]
  {
    var start, delta := BlockStart(index, head), BlockDelta(index, KindOf(head), text);
    var first := if open then [] else [start];
    var shown1 := ReadOneKind(shown, start, kind);
    ReadKindAppend(shown, first, [delta], kind);
    Read1(shown, start, kind);
    Read1(shown, delta, kind);
    Read1(shown1, delta, kind);
    FirstDelta(shown, head, text);
  }

  /** The text of a delta, in the open block or in a new one. */
  lemma {:induction false} DeltaTells(shown: seq<Shown>, index: int, head: Head, text: string, open: bool, kind: Kind)
    requires open && KindOf(head) == kind ==> shown != []
    ensures var shown' := ReadKind(shown, DeltaEvents(index, head, text, open), kind);
            if KindOf(head) != kind then shown' == shown else shown' != [] && Joined(shown') == Joined(shown) + text
  {
    DeltaRead(shown, index, head, text, open, kind);
    if KindOf(head) == kind { JoinedAdd(shown, head, text); }
  }

  lemma {:induction false} ThinkingTells(c: Conv, r: Chunk, shown: seq<Shown>, kind: Kind)
    requires kind == ThinkingBlock && c.thinkingStarted ==> shown != []
    ensures var (c', e) := ThinkingPart(c, r);
            var shown' := ReadKind(shown, e, kind);
            if kind != ThinkingBlock then shown' == shown
            else (c'.thinkingStarted ==> shown' != [])
                 && Joined(shown') == Joined(shown) + if c.thinkingDone then "" else r.thinking
  {
    if r.thinking != "" && !c.thinkingDone {
      DeltaTells(shown, c.contentIndex, ThinkingHead, r.thinking, c.thinkingStarted, kind);
    }
  }

  lemma {:induction false} TextEvents(c: Conv, r: Chunk)
    requires r.content != ""
    ensures var i := if ThinkingOpen(c) then c.contentIndex + 1 else c.contentIndex;
            var stop := if ThinkingOpen(c) then [BlockStop(c.contentIndex)] else [];
            TextPart(c, r).1 == stop + DeltaEvents(i, TextHead, r.content, c.textStarted)
  {
  }

  lemma {:induction false} TextTells(c: Conv, r: Chunk, shown: seq<Shown>, kind: Kind)
    requires kind == TextBlock && c.textStarted ==> shown != []
    ensures var (c', e) := TextPart(c, r);
            var shown' := ReadKind(shown, e, kind);
            if kind != TextBlock then shown' == shown
            else (c'.textStarted ==> shown' != []) && Joined(shown') == Joined(shown) + r.content
  {
    if r.content != "" {
      var stop := if ThinkingOpen(c) then [BlockStop(c.contentIndex)] else [];
      var i := if ThinkingOpen(c) then c.contentIndex + 1 else c.contentIndex;
      TextEvents(c, r);
      ReadKindAppend(shown, stop, DeltaEvents(i, TextHead, r.content, c.textStarted), kind);
      Read1(shown, BlockStop(c.contentIndex), kind);
      DeltaTells(shown, i, TextHead, r.content, c.textStarted, kind);
    }
  }

  lemma {:induction false} ToolTells(c: Conv, tc: ToolCall, shown: seq<Shown>, kind: Kind)
    ensures var (c', e) := OneTool(c, tc);
            && (c'.textStarted ==> c.textStarted)
            && c'.toolCallsSent == c.toolCallsSent + (if tc.encodes then {tc.id} else {})
            && ReadKind(shown, e, kind)
               == if kind == ToolBlock && tc.encodes && tc.id !in c.toolCallsSent
                  then shown + [Shown(ToolHead(tc.id, tc.name), tc.args)] else shown
  {
    if tc.id !in c.toolCallsSent {
      var i := if c.textStarted then c.contentIndex + 1 else c.contentIndex;
      var stop := if c.textStarted then [BlockStop(c.contentIndex)] else [];
      Read1(shown, BlockStop(c.contentIndex), kind);
      if tc.encodes {
        var tool := ToolEvents(i, tc);
        ReadKindAppend(shown, stop, tool, kind);
        Read3(shown, tool[0], tool[1], tool[2], kind);
        FirstDelta(shown, ToolHead(tc.id, tc.name), tc.args);
      }
    } else {
      assert c.toolCallsSent + {tc.id} == c.toolCallsSent;
    }
  }

  lemma {:induction false} SentStep(calls: seq<ToolCall>, tc: ToolCall)
    ensures Sent(calls + [tc]) == Sent(calls) + if tc.encodes then {tc.id} else {}
    ensures CallBlocks(NewCalls(calls + [tc]))
            == CallBlocks(NewCalls(calls)) + if tc.encodes && tc.id !in Sent(calls)
                                             then [Shown(ToolHead(tc.id, tc.name), tc.args)] else []
  {
    var all := calls + [tc];
    assert all[..|all| - 1] == calls;
    assert CallBlocks(NewCalls(calls) + [tc])
        == CallBlocks(NewCalls(calls)) + [Shown(ToolHead(tc.id, tc.name), tc.args)];
    forall id ensures id in Sent(all) <==> id in Sent(calls) || (tc.encodes && id == tc.id) {
      if id in Sent(calls) {
        var i :| 0 <= i < |calls| && calls[i].encodes && calls[i].id == id;
        assert all[i] == calls[i];
      }
      if tc.encodes && id == tc.id { assert all[|calls|] == tc; }
    }
  }

  lemma {:induction false} ToolsTell(c: Conv, tcs: seq<ToolCall>, n: nat, shown: seq<Shown>, kind: Kind,
                                     before: seq<ToolCall>)
    requires n <= |tcs| && c.toolCallsSent == Sent(before)
    requires kind == ToolBlock ==> shown == CallBlocks(NewCalls(before))
    ensures var (c', e) := ToolPart(c, tcs, n);
            && (c'.textStarted ==> c.textStarted) && c'.toolCallsSent == Sent(before + tcs[..n])
            && ReadKind(shown, e, kind)
               == if kind == ToolBlock then CallBlocks(NewCalls(before + tcs[..n])) else shown
  {
    if n == 0 {
      assert before + tcs[..0] == before;
    } else {
      var (c1, e1) := ToolPart(c, tcs, n - 1);
      var calls, tc := before + tcs[..n - 1], tcs[n - 1];
      ToolsTell(c, tcs, n - 1, shown, kind, before);
      assert before + tcs[..n] == calls + [tc];
      SentStep(calls, tc);
      var shown1 := ReadKind(shown, e1, kind);
      ReadKindAppend(shown, e1, OneTool(c1, tc).1, kind);
      ToolTells(c1, tc, shown1, kind);
    }
  }

  // ---- what a chunk tells ----

  /** What has been read of one kind after some chunks. */
  ghost predicate Told(chunks: seq<Chunk>, shown: seq<Shown>, kind: Kind) {
    match kind
    case TextBlock => Joined(shown) == Contents(chunks)
    case ThinkingBlock => Joined(shown) == Thoughts(chunks)
    case ToolBlock => shown == CallBlocks(NewCalls(Calls(chunks)))
    case OtherBlock => shown == []
  }

  /** What the fields of the converter say about the chunks so far. */
  ghost predicate Remembers(c: Conv, chunks: seq<Chunk>) {
    && (c.thinkingStarted <==> Thought(chunks)) && (c.thinkingDone <==> Answered(chunks))
    && c.toolCallsSent == Sent(Calls(chunks))
  }

  ghost predicate OpenRead(c: Conv, shown: seq<Shown>, kind: Kind) {
    (kind == TextBlock && c.textStarted) || (kind == ThinkingBlock && c.thinkingStarted) ==> shown != []
  }

  lemma {:induction false} ThoughtStep(chunks: seq<Chunk>, r: Chunk)
    ensures Thought(chunks + [r]) <==> Thought(chunks) || r.thinking != ""
    ensures Answered(chunks + [r]) <==> Answered(chunks) || (Thought(chunks + [r]) && r.content != "")
  {
    var all := chunks + [r];
    assert all[|chunks|] == r;
    forall i | 0 <= i < |chunks| ensures all[i] == chunks[i] {}
    if Answered(chunks) {
      var i, j :| 0 <= i <= j < |chunks| && chunks[i].thinking != "" && chunks[j].content != "";
      assert all[i].thinking != "" && all[j].content != "";
    }
    if Thought(chunks) {
      var i :| 0 <= i < |chunks| && chunks[i].thinking != "";
      assert all[i].thinking != "";
    }
  }

  lemma {:induction false} ChunkRemembered(c: Conv, chunks: seq<Chunk>, r: Chunk)
    requires Remembers(c, chunks)
    ensures Remembers(Process(c, r).0, chunks + [r])
  {
    var c3 := TextPart(ThinkingPart(Started(c).0, r).0, r).0;
    ThoughtStep(chunks, r);
    assert (chunks + [r])[..|chunks|] == chunks;
    ToolsTell(c3, r.toolCalls, |r.toolCalls|, [], OtherBlock, Calls(chunks));
    ToolsKeep(c3, r.toolCalls, |r.toolCalls|);
    assert r.toolCalls[..|r.toolCalls|] == r.toolCalls;
  }

  lemma {:induction false} ToolsKeep(c: Conv, tcs: seq<ToolCall>, n: nat)
    requires n <= |tcs|
    ensures ToolPart(c, tcs, n).0.thinkingStarted == c.thinkingStarted
    ensures ToolPart(c, tcs, n).0.thinkingDone == c.thinkingDone
  {
    if n > 0 { ToolsKeep(c, tcs, n - 1); }
  }

  lemma {:induction false} ToldStep(chunks: seq<Chunk>, r: Chunk)
    ensures Contents(chunks + [r]) == Contents(chunks) + r.content
    ensures Thoughts(chunks + [r]) == Thoughts(chunks) + if Answered(chunks) then "" else r.thinking
    ensures Calls(chunks + [r]) == Calls(chunks) + r.toolCalls
  {
    assert (chunks + [r])[..|chunks|] == chunks;
  }

  /** A chunk adds what it should, to the blocks of each kind. */
  lemma {:induction false} ChunkTold(c: Conv, chunks: seq<Chunk>, r: Chunk, shown: seq<Shown>, kind: Kind)
    requires Remembers(c, chunks) && Told(chunks, shown, kind) && OpenRead(c, shown, kind)
    ensures var (c', e) := Process(c, r);
            Told(chunks + [r], ReadKind(shown, e, kind), kind) && OpenRead(c', ReadKind(shown, e, kind), kind)
  {
    var (c1, e1) := Started(c);
    var (c2, e2) := ThinkingPart(c1, r);
    var (c3, e3) := TextPart(c2, r);
    var (c4, e4) := ToolPart(c3, r.toolCalls, |r.toolCalls|);
    var e5 := DonePart(c4, r);
    StartTells(c, shown, kind);
    ReadKindAppend(shown, e1, e2, kind);
    ThinkingTells(c1, r, shown, kind);
    var s2 := ReadKind(shown, e2, kind);
    ReadKindAppend(shown, e1 + e2, e3, kind);
    TextTells(c2, r, s2, kind);
    var s3 := ReadKind(s2, e3, kind);
    ReadKindAppend(shown, e1 + e2 + e3, e4, kind);
    ToolsTell(c3, r.toolCalls, |r.toolCalls|, s3, kind, Calls(chunks));
    ToolsKeep(c3, r.toolCalls, |r.toolCalls|);
    ReadKindAppend(shown, e1 + e2 + e3 + e4, e5, kind);
    DoneTells(c4, r, ReadKind(s3, e4, kind), kind);
    assert r.toolCalls[..|r.toolCalls|] == r.toolCalls;
    ToldStep(chunks, r);
  }

  // ---- every run ----

  function ConvAfter(c: Conv, chunks: seq<Chunk>): Conv
    decreases |chunks|
  {
    if chunks == [] then c else ConvAfter(Process(c, chunks[0]).0, chunks[1..])
  }

  lemma {:induction false} OneMoreChunk(c: Conv, chunks: seq<Chunk>, r: Chunk)
    ensures ConvAfter(c, chunks + [r]) == Process(ConvAfter(c, chunks), r).0
    ensures RunEvents(c, chunks + [r]) == RunEvents(c, chunks) + Process(ConvAfter(c, chunks), r).1
    decreases |chunks|
  {
    if chunks == [] {
      assert [r][1..] == [];
      assert RunEvents(Process(c, r).0, []) == [];
    } else {
      assert (chunks + [r])[1..] == chunks[1..] + [r];
      OneMoreChunk(Process(c, chunks[0]).0, chunks[1..], r);
    }
  }

  lemma {:induction false} RunTold(chunks: seq<Chunk>, kind: Kind)
    ensures Remembers(ConvAfter(NEW, chunks), chunks)
    ensures Told(chunks, ReadKind([], RunEvents(NEW, chunks), kind), kind)
    ensures OpenRead(ConvAfter(NEW, chunks), ReadKind([], RunEvents(NEW, chunks), kind), kind)
  {
    if chunks != [] {
      var n := |chunks| - 1;
      var c, before := ConvAfter(NEW, chunks[..n]), RunEvents(NEW, chunks[..n]);
      assert chunks == chunks[..n] + [chunks[n]];
      RunTold(chunks[..n], kind);
      OneMoreChunk(NEW, chunks[..n], chunks[n]);
      ChunkRemembered(c, chunks[..n], chunks[n]);
      ReadKindAppend([], before, Process(c, chunks[n]).1, kind);
      ChunkTold(c, chunks[..n], chunks[n], ReadKind([], before, kind), kind);
    } else {
      assert Sent([]) == {};
    }
  }

  /** Main theorem. Whatever the chunks are, as long as they fit, the client reads: in the text blocks the
      contents of all chunks, in the thinking blocks the thinking up to the first answer to it, and one tool
      block, in order, for each call that encodes and was not told before, with its name and arguments. As
      it holds after every chunk, nothing is told late. */
  lemma {:induction false} ClientReads(chunks: seq<Chunk>)
    requires RunFits(NEW, chunks, false)
    ensures var shown := Read([], RunEvents(NEW, chunks));
            && Joined(OfKind(shown, TextBlock)) == Contents(chunks)
            && Joined(OfKind(shown, ThinkingBlock)) == Thoughts(chunks)
            && OfKind(shown, ToolBlock) == CallBlocks(NewCalls(Calls(chunks)))
            && OfKind(shown, OtherBlock) == []
  {
    RunFrom(NEW, chunks, false);
    RunTold(chunks, TextBlock);
    RunTold(chunks, ThinkingBlock);
    RunTold(chunks, ToolBlock);
    RunTold(chunks, OtherBlock);
    ReadByKind(NotStarted, [], RunEvents(NEW, chunks), TextBlock);
    ReadByKind(NotStarted, [], RunEvents(NEW, chunks), ThinkingBlock);
    ReadByKind(NotStarted, [], RunEvents(NEW, chunks), ToolBlock);
    ReadByKind(NotStarted, [], RunEvents(NEW, chunks), OtherBlock);
  }
}
