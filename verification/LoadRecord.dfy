/** The record that a search for a layout leaves: every layout that was made, every request that was
    sent, and the answers. What was tried, what is chosen and how far the search has backed off are read
    off the record alone, and each entry demands something of the next: a layout worth trying is tried,
    a gap in the number of layers is explored from the top, and what passes is kept. */
module LoadRecord {
  import opened GreedyFit
  import opened Wrappers

  /** What identifies a layout; devices without layers do not count. */
  function LayoutKey(list: seq<GpuLayers>): seq<GpuLayers> {
    if list == [] then [] else (if list[0].layers == [] then [] else [list[0]]) + LayoutKey(list[1..])
  }

  /** The number of layers of a layout. */
  function CountOf(list: seq<GpuLayers>): nat { |Flat(list)| }

  /** A layout, or the error that no layout is possible. */
  datatype LayoutResult = Fitting(list: seq<GpuLayers>) | NoLayout

  /** The runner's answer to a load request, or a failure to answer. */
  datatype Response = Answer(success: bool) | Broken

  /** The phases of loading: see what fits, allocate it, and take it into use. */
  datatype Operation = Fit | Alloc | Commit

  /** A layout was made, for so many layers if not negative, and the number was free afterwards; or a
      layout was sent. A probe belongs to the exploration of a number of layers in between. */
  datatype Step =
    | Made(result: LayoutResult, asked: int, free: bool, backoff: real, probe: bool)
    | Sent(layout: seq<GpuLayers>, operation: Operation, probe: bool, answer: Response)

  predicate Trial(e: Step) { e.Sent? && !e.probe }

  /** The runner accepted a probe, and the layout made without a fixed number does not fall short of it. */
  predicate Passing(log: seq<Step>, i: int) {
    && 0 <= i && i + 1 < |log|
    && log[i].Sent? && log[i].probe && log[i].answer == Answer(true)
    && log[i + 1].Made? && log[i + 1].probe && log[i + 1].asked < 0 && log[i + 1].result.Fitting?
    && CountOf(log[i].layout) <= CountOf(log[i + 1].result.list)
  }

  // ---- what the record says ----

  /** The layout tried last, or the probe that passed since. */
  function Chosen(log: seq<Step>): Option<seq<GpuLayers>> {
    if log == [] then None
    else
      var n := |log| - 1;
      if Trial(log[n]) then Some(log[n].layout)
      else if Passing(log, n - 1) then Some(log[n - 1].layout)
      else Chosen(log[..n])
  }

  /** The keys of the layouts tried since the last probe that passed. */
  function Past(log: seq<Step>): set<seq<GpuLayers>> {
    if log == [] then {}
    else
      var n := |log| - 1;
      if Trial(log[n]) then Past(log[..n]) + {LayoutKey(log[n].layout)}
      else if Passing(log, n - 1) then {}
      else Past(log[..n])
  }

  /** The backoff of the last layout made. */
  function Level(log: seq<Step>): real {
    if log == [] then 0.0
    else if log[|log| - 1].Made? then log[|log| - 1].backoff
    else Level(log[..|log| - 1])
  }

  function LastSent(log: seq<Step>): (last: Option<Step>)
    ensures last.Some? ==> last.value.Sent?
  {
    if log == [] then None
    else if log[|log| - 1].Sent? then Some(log[|log| - 1])
    else LastSent(log[..|log| - 1])
  }

  predicate Accepted(log: seq<Step>) { LastSent(log).Some? && LastSent(log).value.answer == Answer(true) }

  predicate Refused(log: seq<Step>) { LastSent(log).Some? && LastSent(log).value.answer == Answer(false) }

  /** The search was cut short: no layout, or no answer. */
  predicate Cut(log: seq<Step>) {
    log != [] && var e := log[|log| - 1]; if e.Made? then e.result.NoLayout? else e.answer == Broken
  }

  // ---- what it demands ----

  /** A layout worth trying: the first one, or one that was not tried and is not larger than the last. */
  predicate Worth(log: seq<Step>, i: int)
    requires 0 <= i < |log|
  {
    var e := log[i];
    && e.Made? && !e.probe && e.result.Fitting?
    && (Chosen(log[..i]).Some? ==>
          LayoutKey(e.result.list) !in Past(log[..i]) && CountOf(e.result.list) <= CountOf(Chosen(log[..i]).value))
  }

  /** A layout that is more than one layer ahead of the one chosen, with the number of layers free. */
  predicate Gap(log: seq<Step>, i: int)
    requires 0 <= i < |log|
  {
    var e := log[i];
    && e.Made? && !e.probe && e.result.Fitting? && e.free
    && Chosen(log[..i]).Some? && CountOf(e.result.list) > CountOf(Chosen(log[..i]).value) + 1
  }

  predicate ProbesOnly(log: seq<Step>, i: int, k: int)
    requires 0 <= i && k < |log|
  {
    forall m :: i < m <= k ==> log[m].probe
  }

  /** In the exploration after entry `i`, `count` layers were asked for, or a probe for more passed. */
  ghost predicate Covered(log: seq<Step>, i: int, count: int)
    requires 0 <= i < |log|
  {
    exists k :: i < k < |log| && log[k].Made? && ProbesOnly(log, i, k)
                && (log[k].asked == count || (count < log[k].asked && Passing(log, k + 1)))
  }

  /** The number asked for lies in the gap that is being explored. */
  ghost predicate InGap(log: seq<Step>, k: int)
    requires 0 <= k < |log| && log[k].Made?
  {
    exists i :: 0 <= i < k && Gap(log, i) && ProbesOnly(log, i, k)
                && CountOf(Chosen(log[..i]).value) <= log[k].asked < CountOf(log[i].result.list)
  }

  function Following(o: Operation): Operation { if o == Fit then Alloc else Commit }

  /** What may be tried: a layout worth it in the same operation, or in the next one the layout that was
      settled on. */
  predicate MayTry(log: seq<Step>, layout: seq<GpuLayers>, operation: Operation) {
    var last := LastSent(log);
    if log != [] && Worth(log, |log| - 1) then
      log[|log| - 1].result.list == layout && operation == if last.None? then Fit else last.value.operation
    else
      Chosen(log) == Some(layout) && Accepted(log) && operation == Following(last.value.operation)
  }

  /** A new round keeps the backoff after a try, and raises it by a tenth after a round that found
      nothing for a layout that was refused. */
  predicate Paced(log: seq<Step>, backoff: real) {
    if log == [] || Trial(log[|log| - 1]) then backoff == Level(log)
    else Refused(log) && backoff == Level(log) + 0.1
  }

  /** Entry `i` was called for, and what it calls for came next. A layout worth trying is tried. In a gap
      each number of layers is explored, from the top, down to the first one that passes. What passes is
      kept. */
  ghost predicate Heeded(log: seq<Step>, i: int)
    requires 0 <= i < |log|
  {
    match log[i]
    case Made(result, asked, free, backoff, probe) =>
      if !probe then
        && Paced(log[..i], backoff)
        && (Worth(log, i) ==> i + 1 < |log| && Trial(log[i + 1]) && log[i + 1].layout == result.list)
        && (Gap(log, i) && !Cut(log) ==>
              forall c :: CountOf(Chosen(log[..i]).value) <= c < CountOf(result.list) ==> Covered(log, i, c))
      else if asked >= 0 then
        && backoff == Level(log[..i]) && InGap(log, i)
        && (result.Fitting? ==> i + 1 < |log| && log[i + 1].Sent? && log[i + 1].probe
                                && log[i + 1].layout == result.list)
      else
        && backoff == Level(log[..i])
        && i > 0 && log[i - 1].Sent? && log[i - 1].probe && log[i - 1].answer == Answer(true)
        && (Passing(log, i - 1) && i + 1 < |log| ==> Trial(log[i + 1]) && log[i + 1].layout == log[i - 1].layout)
    case Sent(layout, operation, probe, answer) =>
      if !probe then MayTry(log[..i], layout, operation)
      else
        && i > 0 && log[i - 1].Made? && log[i - 1].probe && log[i - 1].result == Fitting(layout)
        && LastSent(log[..i]).Some? && operation == LastSent(log[..i]).value.operation
        && (answer == Answer(true) ==> i + 1 < |log| && log[i + 1].Made? && log[i + 1].probe && log[i + 1].asked < 0)
  }

  /** Every entry but those in `open` was called for and heeded. */
  ghost predicate Orderly(log: seq<Step>, open: set<int>) {
    forall i :: 0 <= i < |log| && i !in open ==> Heeded(log, i)
  }

  // ---- one more entry ----

  /** What an entry adds to what the record says. */
  lemma {:induction false} Added(log: seq<Step>, e: Step)
    ensures var log', n := log + [e], |log|;
            && log'[..n] == log && log'[n] == e
            && (Trial(e) ==> Chosen(log') == Some(e.layout) && Past(log') == Past(log) + {LayoutKey(e.layout)})
            && (!Trial(e) && !Passing(log', n - 1) ==> Chosen(log') == Chosen(log) && Past(log') == Past(log))
            && (Passing(log', n - 1) ==> Chosen(log') == Some(log[n - 1].layout) && Past(log') == {})
            && Level(log') == (if e.Made? then e.backoff else Level(log))
            && LastSent(log') == (if e.Sent? then Some(e) else LastSent(log))
  {
    var log' := log + [e];
    assert log'[..|log|] == log;
  }

  lemma {:induction false} SamePrefix(log: seq<Step>, e: Step, i: nat)
    requires i <= |log|
    ensures (log + [e])[..i] == log[..i]
  {
  }

  /** The last entry is a passing probe's check, and `e` does not keep the probe. */
  predicate Forgets(log: seq<Step>, e: Step) {
    Passing(log, |log| - 2) && !(Trial(e) && e.layout == log[|log| - 2].layout)
  }

  lemma {:induction false} StillCovered(log: seq<Step>, e: Step, i: nat, c: int)
    requires i < |log| && Covered(log, i, c)
    ensures Covered(log + [e], i, c)
  {
    var k :| i < k < |log| && log[k].Made? && ProbesOnly(log, i, k)
             && (log[k].asked == c || (c < log[k].asked && Passing(log, k + 1)));
    var log' := log + [e];
    assert log'[k] == log[k] && ProbesOnly(log', i, k);
    assert Passing(log, k + 1) ==> Passing(log', k + 1);
  }

  lemma {:induction false} StillInGap(log: seq<Step>, e: Step, k: nat)
    requires k < |log| && log[k].Made? && InGap(log, k)
    ensures InGap(log + [e], k)
  {
    var i :| 0 <= i < k && Gap(log, i) && ProbesOnly(log, i, k)
             && CountOf(Chosen(log[..i]).value) <= log[k].asked < CountOf(log[i].result.list);
    SamePrefix(log, e, i);
    assert Gap(log + [e], i) && ProbesOnly(log + [e], i, k);
  }

  /** A heeded entry stays heeded, as long as the search goes on. */
  lemma {:induction false} StaysHeeded(log: seq<Step>, e: Step, i: nat)
    requires i < |log| && Heeded(log, i) && !Cut(log) && !Forgets(log, e)
    ensures Heeded(log + [e], i)
  {
    var log' := log + [e];
    SamePrefix(log, e, i);
    assert log'[i] == log[i] && (i + 1 < |log| ==> log'[i + 1] == log[i + 1]);
    match log[i]
    case Made(result, asked, free, backoff, probe) =>
      if !probe {
        if Gap(log, i) {
          forall c | CountOf(Chosen(log[..i]).value) <= c < CountOf(result.list) ensures Covered(log', i, c) {
            StillCovered(log, e, i, c);
          }
        }
      } else if asked >= 0 {
        StillInGap(log, e, i);
      } else {
        assert log'[i - 1] == log[i - 1];
      }
    case Sent(_, _, _, _) =>
      assert i > 0 ==> log'[i - 1] == log[i - 1];
  }

  lemma {:induction false} StaysOrderly(log: seq<Step>, e: Step, open: set<int>)
    requires Orderly(log, open) && !Cut(log) && !Forgets(log, e)
    ensures Orderly(log + [e], open + {|log|})
  {
    forall i | 0 <= i < |log| && i !in open ensures Heeded(log + [e], i) {
      StaysHeeded(log, e, i);
    }
  }

  lemma {:induction false} Closed(log: seq<Step>, open: set<int>, i: int)
    requires Orderly(log, open) && (0 <= i < |log| ==> Heeded(log, i))
    ensures Orderly(log, open - {i})
  {
  }

  // ---- the points of a search ----

  /** What a search has to know, and nothing is due. */
  ghost predicate Steady(log: seq<Step>, layout: seq<GpuLayers>, past: set<seq<GpuLayers>>, backoff: real,
                         operation: Operation, answer: Response, open: set<int>) {
    && Orderly(log, open) && !Cut(log) && !Passing(log, |log| - 2)
    && Knows(log, layout, past, backoff) && LastSent(log).Some?
    && LastSent(log).value.operation == operation && LastSent(log).value.answer == answer
  }

  predicate Knows(log: seq<Step>, layout: seq<GpuLayers>, past: set<seq<GpuLayers>>, backoff: real) {
    Chosen(log) == Some(layout) && Past(log) == past && Level(log) == backoff
  }

  /** The layout is to be tried next. */
  ghost predicate Expecting(log: seq<Step>, layout: seq<GpuLayers>, past: set<seq<GpuLayers>>, backoff: real,
                            operation: Operation) {
    && MayTry(log, layout, operation) && !Cut(log) && Past(log) == past && Level(log) == backoff
    && if log != [] && Worth(log, |log| - 1)
       then Orderly(log, {|log| - 1}) && Paced(log[..|log| - 1], log[|log| - 1].backoff)
       else Orderly(log, {})
  }

  /** The try that was due. */
  lemma {:induction false} TrialMade(log: seq<Step>, layout: seq<GpuLayers>, past: set<seq<GpuLayers>>, backoff: real,
                                 operation: Operation, answer: Response)
    requires Expecting(log, layout, past, backoff, operation)
    ensures var log' := log + [Sent(layout, operation, false, answer)];
            && Orderly(log', {}) && Knows(log', layout, past + {LayoutKey(layout)}, backoff)
            && LastSent(log') == Some(log'[|log|])
  {
    var e := Sent(layout, operation, false, answer);
    var log', n := log + [e], |log|;
    var open := if log != [] && Worth(log, n - 1) then {n - 1} else {};
    Added(log, e);
    assert !Forgets(log, e);
    StaysOrderly(log, e, open);
    if open != {} {
      LastTried(log, layout, operation, answer);
      Closed(log', open + {n}, n - 1);
      assert open + {n} - {n - 1} == {n};
    }
    Closed(log', {n}, n);
    assert {n} - {n} == {};
  }

  /** The layout worth trying that is tried. */
  lemma {:induction false} LastTried(log: seq<Step>, layout: seq<GpuLayers>, operation: Operation, answer: Response)
    requires log != [] && Worth(log, |log| - 1) && MayTry(log, layout, operation)
    requires Paced(log[..|log| - 1], log[|log| - 1].backoff)
    ensures Heeded(log + [Sent(layout, operation, false, answer)], |log| - 1)
  {
    var e := Sent(layout, operation, false, answer);
    SamePrefix(log, e, |log| - 1);
    assert (log + [e])[|log| - 1] == log[|log| - 1] && (log + [e])[|log|] == e;
  }

  // ---- a round ----

  /** A new layout: worth trying, or far ahead, or neither. */
  lemma {:induction false} RoundMade(log: seq<Step>, layout: seq<GpuLayers>, past: set<seq<GpuLayers>>, backoff: real,
                                     operation: Operation, answer: Response, e: Step)
    requires e.Made? && !e.probe
    requires Steady(log, layout, past, backoff, operation, answer, {}) && Paced(log, e.backoff)
    ensures var log', n := log + [e], |log|;
            && Orderly(log', {n}) && Knows(log', layout, past, e.backoff) && LastSent(log') == LastSent(log)
            && (Worth(log', n) <==> e.result.Fitting? && LayoutKey(e.result.list) !in past
                                    && CountOf(e.result.list) <= CountOf(layout))
            && (Gap(log', n) <==> e.result.Fitting? && e.free && CountOf(e.result.list) > CountOf(layout) + 1)
            && (!Worth(log', n) && (!Gap(log', n) || Cut(log')) ==> Orderly(log', {}))
  {
    var log', n := log + [e], |log|;
    Added(log, e);
    assert !Forgets(log, e) && !Passing(log', n - 1);
    StaysOrderly(log, e, {});
    assert {} + {n} == {n};
    if !Worth(log', n) && (!Gap(log', n) || Cut(log')) {
      Closed(log', {n}, n);
      assert {n} - {n} == {};
    }
  }

  lemma {:induction false} RoundWorth(log: seq<Step>, layout: seq<GpuLayers>, past: set<seq<GpuLayers>>, backoff: real,
                                      operation: Operation, answer: Response, e: Step)
    requires e.Made? && !e.probe && e.result.Fitting?
    requires Steady(log, layout, past, backoff, operation, answer, {}) && Paced(log, e.backoff)
    requires LayoutKey(e.result.list) !in past && CountOf(e.result.list) <= CountOf(layout)
    ensures Expecting(log + [e], e.result.list, past, e.backoff, operation)
  {
    RoundMade(log, layout, past, backoff, operation, answer, e);
    assert (log + [e])[..|log|] == log;
  }

  lemma {:induction false} RoundIdle(log: seq<Step>, layout: seq<GpuLayers>, past: set<seq<GpuLayers>>, backoff: real,
                                     operation: Operation, answer: Response, e: Step)
    requires e.Made? && !e.probe && e.result.Fitting?
    requires Steady(log, layout, past, backoff, operation, answer, {}) && Paced(log, e.backoff)
    requires LayoutKey(e.result.list) in past || CountOf(e.result.list) > CountOf(layout)
    requires !(e.free && CountOf(e.result.list) > CountOf(layout) + 1)
    ensures Steady(log + [e], layout, past, e.backoff, operation, answer, {})
  {
    RoundMade(log, layout, past, backoff, operation, answer, e);
  }

  /** The exploration that began with entry `g` has asked for everything above `next`. */
  ghost predicate GapAt(log: seq<Step>, g: int, layout: seq<GpuLayers>, next: int) {
    && 0 <= g < |log| && Gap(log, g) && ProbesOnly(log, g, |log| - 1) && Chosen(log[..g]) == Some(layout)
    && Paced(log[..g], log[g].backoff) && !Worth(log, g)
    && forall c :: next < c < CountOf(log[g].result.list) ==> Covered(log, g, c)
  }

  ghost predicate Exploring(log: seq<Step>, g: int, layout: seq<GpuLayers>, past: set<seq<GpuLayers>>, backoff: real,
                            operation: Operation, answer: Response, next: int) {
    GapAt(log, g, layout, next) && Steady(log, layout, past, backoff, operation, answer, {g})
  }

  lemma {:induction false} RoundGap(log: seq<Step>, layout: seq<GpuLayers>, past: set<seq<GpuLayers>>, backoff: real,
                                    operation: Operation, answer: Response, e: Step)
    requires e.Made? && !e.probe && e.result.Fitting? && e.free && CountOf(e.result.list) > CountOf(layout) + 1
    requires Steady(log, layout, past, backoff, operation, answer, {}) && Paced(log, e.backoff)
    ensures Exploring(log + [e], |log|, layout, past, e.backoff, operation, answer, CountOf(e.result.list) - 1)
  {
    RoundMade(log, layout, past, backoff, operation, answer, e);
    assert (log + [e])[..|log|] == log;
  }

  /** Exploring has come to its end, or was cut short. */
  lemma {:induction false} GapHeeded(log: seq<Step>, g: int, open: set<int>)
    requires Orderly(log, open) && 0 <= g < |log| && log[g].Made? && !log[g].probe && log[g].result.Fitting?
    requires Paced(log[..g], log[g].backoff) && !Worth(log, g)
    requires Gap(log, g) && !Cut(log) ==>
               forall c :: CountOf(Chosen(log[..g]).value) <= c < CountOf(log[g].result.list) ==> Covered(log, g, c)
    ensures Orderly(log, open - {g})
  {
    Closed(log, open, g);
  }

  lemma {:induction false} NothingPassed(log: seq<Step>, g: int, layout: seq<GpuLayers>, past: set<seq<GpuLayers>>,
                                         backoff: real, operation: Operation, answer: Response)
    requires Exploring(log, g, layout, past, backoff, operation, answer, CountOf(layout) - 1)
    ensures Steady(log, layout, past, backoff, operation, answer, {})
  {
    GapHeeded(log, g, {g});
    assert {g} - {g} == {};
  }

  // ---- a probe ----

  lemma {:induction false} GapStays(log: seq<Step>, g: int, layout: seq<GpuLayers>, next: int, e: Step)
    requires GapAt(log, g, layout, next) && e.probe
    ensures GapAt(log + [e], g, layout, next) && (log + [e])[g] == log[g]
  {
    SamePrefix(log, e, g);
    forall c | next < c < CountOf(log[g].result.list) ensures Covered(log + [e], g, c) { StillCovered(log, e, g, c); }
  }

  /** Cut short, an exploration owes nothing. */
  lemma {:induction false} CutInGap(log: seq<Step>, g: int, layout: seq<GpuLayers>, next: int)
    requires GapAt(log, g, layout, next) && Orderly(log, {g}) && Cut(log)
    ensures Orderly(log, {})
  {
    GapHeeded(log, g, {g});
    assert {g} - {g} == {};
  }

  /** A probe was made and is to be sent. */
  ghost predicate ToSend(log: seq<Step>, g: int, layout: seq<GpuLayers>, past: set<seq<GpuLayers>>, backoff: real,
                         operation: Operation, count: int, list: seq<GpuLayers>) {
    && GapAt(log, g, layout, count - 1) && Orderly(log, {g, |log| - 1}) && Knows(log, layout, past, backoff)
    && LastSent(log).Some? && LastSent(log).value.operation == operation
    && var n := |log| - 1; g < n && log[n].Made? && log[n].probe && log[n].asked == count >= 0
                           && log[n].result == Fitting(list) && InGap(log, n) && log[n].backoff == Level(log[..n])
  }

  /** A layout for so many layers was made. */
  lemma {:induction false} ProbeMade(log: seq<Step>, g: int, layout: seq<GpuLayers>, past: set<seq<GpuLayers>>,
                                     backoff: real, operation: Operation, answer: Response, e: Step)
    requires e.Made? && e.probe && e.backoff == backoff && e.asked >= 0
    requires Exploring(log, g, layout, past, backoff, operation, answer, e.asked)
    requires CountOf(layout) <= e.asked < CountOf(log[g].result.list)
    ensures match e.result
            case NoLayout => Orderly(log + [e], {})
            case Fitting(list) => ToSend(log + [e], g, layout, past, backoff, operation, e.asked, list)
  {
    var log', n := log + [e], |log|;
    Added(log, e);
    GapStays(log, g, layout, e.asked, e);
    assert InGap(log', n) && Covered(log', g, e.asked);
    StaysOrderly(log, e, {g});
    assert {g} + {n} == {g, n};
    if e.result.NoLayout? {
      Closed(log', {g, n}, n);
      assert {g, n} - {n} == {g};
      CutInGap(log', g, layout, e.asked);
    }
  }

  /** A probe was accepted and is to be checked. */
  ghost predicate ToCheck(log: seq<Step>, g: int, layout: seq<GpuLayers>, past: set<seq<GpuLayers>>, backoff: real,
                          operation: Operation, count: int, list: seq<GpuLayers>) {
    && GapAt(log, g, layout, count - 1) && Orderly(log, {g, |log| - 1}) && Knows(log, layout, past, backoff)
    && var n := |log| - 1;
       && g < n - 1 && log[n] == Sent(list, operation, true, Answer(true))
       && log[n - 1].Made? && log[n - 1].probe && log[n - 1].asked == count && log[n - 1].result == Fitting(list)
       && LastSent(log[..n]).Some? && LastSent(log[..n]).value.operation == operation
  }

  /** The entry before the last is answered for by the last one. */
  lemma {:induction false} SentNext(log: seq<Step>, g: int, e: Step)
    requires 0 <= g < |log| - 1 && Orderly(log, {g, |log| - 1}) && e.Sent? && e.probe
    requires var n := |log| - 1; log[n].Made? && log[n].probe && log[n].asked >= 0 && log[n].result == Fitting(e.layout)
                                 && InGap(log, n) && log[n].backoff == Level(log[..n])
    requires LastSent(log).Some? && LastSent(log).value.operation == e.operation
    ensures Orderly(log + [e], {g, |log|}) && (e.answer != Answer(true) ==> Orderly(log + [e], {g}))
  {
    var log', n := log + [e], |log| - 1;
    StaysOrderly(log, e, {g, n});
    StillInGap(log, e, n);
    SamePrefix(log, e, n);
    SamePrefix(log, e, n + 1);
    assert log'[n] == log[n] && log'[n + 1] == e && log[..n + 1] == log;
    Closed(log', {g, n} + {n + 1}, n);
    assert {g, n} + {n + 1} - {n} == {g, n + 1};
    if e.answer != Answer(true) {
      Closed(log', {g, n + 1}, n + 1);
      assert {g, n + 1} - {n + 1} == {g};
    }
  }

  /** The probe was sent. */
  lemma {:induction false} ProbeSent(log: seq<Step>, g: int, layout: seq<GpuLayers>, past: set<seq<GpuLayers>>,
                                     backoff: real, operation: Operation, count: int, list: seq<GpuLayers>,
                                     answer: Response)
    requires ToSend(log, g, layout, past, backoff, operation, count, list)
    ensures var log' := log + [Sent(list, operation, true, answer)];
            match answer
            case Broken => Orderly(log', {})
            case Answer(success) =>
              if success then ToCheck(log', g, layout, past, backoff, operation, count, list)
              else Exploring(log', g, layout, past, backoff, operation, answer, count - 1)
  {
    var e := Sent(list, operation, true, answer);
    var log' := log + [e];
    Added(log, e);
    GapStays(log, g, layout, count - 1, e);
    SentNext(log, g, e);
    assert log'[|log| - 1] == log[|log| - 1] && log'[..|log|] == log;
    if answer == Broken { CutInGap(log', g, layout, count - 1); }
  }

  lemma {:induction false} CheckedNext(log: seq<Step>, g: int, v: Step)
    requires 0 <= g < |log| - 2 && Orderly(log, {g, |log| - 1}) && v.Made? && v.probe && v.asked < 0
    requires v.backoff == Level(log)
    requires var n := |log| - 1; log[n].Sent? && log[n].probe && log[n].answer == Answer(true)
                                 && log[n - 1].Made? && log[n - 1].probe && log[n - 1].result == Fitting(log[n].layout)
                                 && LastSent(log[..n]).Some?
                                 && log[n].operation == LastSent(log[..n]).value.operation
    ensures Orderly(log + [v], {g})
  {
    var log', n := log + [v], |log| - 1;
    StaysOrderly(log, v, {g, n});
    SamePrefix(log, v, n);
    SamePrefix(log, v, n + 1);
    assert log'[n - 1] == log[n - 1] && log'[n] == log[n] && log'[n + 1] == v && log[..n + 1] == log;
    Closed(log', {g, n} + {n + 1}, n);
    Closed(log', {g, n} + {n + 1} - {n}, n + 1);
    assert {g, n} + {n + 1} - {n} - {n + 1} == {g};
  }

  /** Every number of layers is covered once a probe passes. */
  lemma {:induction false} PassedCovers(log: seq<Step>, g: int, layout: seq<GpuLayers>, count: int)
    requires GapAt(log, g, layout, count - 1) && Orderly(log, {g})
    requires var n := |log| - 3; g < n && log[n].Made? && log[n].asked == count && Passing(log, n + 1)
    ensures Orderly(log, {})
  {
    var n := |log| - 3;
    forall c | c < count ensures Covered(log, g, c) {
      assert log[n].Made? && ProbesOnly(log, g, n) && c < log[n].asked && Passing(log, n + 1);
    }
    GapHeeded(log, g, {g});
    assert {g} - {g} == {};
  }

  /** The accepted probe was checked against a layout without a fixed number. */
  lemma {:induction false} ProbeChecked(log: seq<Step>, g: int, layout: seq<GpuLayers>, past: set<seq<GpuLayers>>,
                                        backoff: real, operation: Operation, count: int, list: seq<GpuLayers>, v: Step)
    requires ToCheck(log, g, layout, past, backoff, operation, count, list)
    requires v.Made? && v.probe && v.backoff == backoff && v.asked < 0
    ensures var log' := log + [v];
            if v.result.NoLayout? then Orderly(log', {})
            else if CountOf(list) <= CountOf(v.result.list) then
              Expecting(log', list, {}, backoff, Following(operation))
            else Exploring(log', g, layout, past, backoff, operation, Answer(true), count - 1)
  {
    var log', n := log + [v], |log| - 1;
    Added(log, v);
    GapStays(log, g, layout, count - 1, v);
    CheckedNext(log, g, v);
    assert log'[n - 1] == log[n - 1] && log'[n] == log[n] && log'[n + 1] == v;
    if v.result.NoLayout? {
      CutInGap(log', g, layout, count - 1);
    } else if CountOf(list) <= CountOf(v.result.list) {
      assert Passing(log', n);
      PassedCovers(log', g, layout, count);
    }
  }

  /** What was accepted is settled on, and tried in the next operation. */
  lemma {:induction false} Settles(log: seq<Step>, layout: seq<GpuLayers>, past: set<seq<GpuLayers>>, backoff: real,
                                   operation: Operation)
    requires Steady(log, layout, past, backoff, operation, Answer(true), {})
    ensures Expecting(log, layout, past, backoff, Following(operation))
  {
    NothingDue(log);
  }

  lemma {:induction false} NothingDue(log: seq<Step>)
    requires Orderly(log, {}) && log != []
    ensures !Worth(log, |log| - 1)
  {
    assert Heeded(log, |log| - 1);
  }

  // ---- what an orderly record means ----

  /** What counts as tried was sent. */
  lemma {:induction false} PastWasSent(log: seq<Step>, key: seq<GpuLayers>) returns (k: nat)
    requires key in Past(log)
    ensures k < |log| && Trial(log[k]) && LayoutKey(log[k].layout) == key
  {
    var n := |log| - 1;
    if Trial(log[n]) && LayoutKey(log[n].layout) == key {
      k := n;
    } else {
      k := PastWasSent(log[..n], key);
    }
  }

  /** What counts as chosen was tried last, or is a probe that passed. */
  lemma {:induction false} ChosenWasSent(log: seq<Step>) returns (k: nat)
    requires Chosen(log).Some?
    ensures k < |log| && log[k].Sent? && log[k].layout == Chosen(log).value && (log[k].probe ==> Passing(log, k))
    ensures forall m :: k < m < |log| ==> !Trial(log[m])
  {
    var n := |log| - 1;
    if Trial(log[n]) {
      k := n;
    } else if Passing(log, n - 1) {
      k := n - 1;
    } else {
      k := ChosenWasSent(log[..n]);
    }
  }

  /** The search never leaves a layout untried that was worth it: one that was made and not tried next had
      been sent before, or is larger than the last one. */
  lemma {:induction false} NothingLeftUntried(log: seq<Step>, i: nat) returns (k: nat)
    requires Orderly(log, {}) && i < |log| && log[i].Made? && !log[i].probe && log[i].result.Fitting?
    requires i + 1 < |log| ==> !Trial(log[i + 1])
    ensures k < i && log[k].Sent?
    ensures (Trial(log[k]) && LayoutKey(log[k].layout) == LayoutKey(log[i].result.list))
            || (CountOf(log[i].result.list) > CountOf(log[k].layout)
                && forall m :: k < m < i ==> !Trial(log[m]))
  {
    assert Heeded(log, i) && !Worth(log, i);
    if LayoutKey(log[i].result.list) in Past(log[..i]) {
      k := PastWasSent(log[..i], LayoutKey(log[i].result.list));
    } else {
      k := ChosenWasSent(log[..i]);
    }
  }

  /** And it asks for every number of layers in a gap, from the top, until one passes. */
  lemma {:induction false} GapExplored(log: seq<Step>, i: nat, count: int)
    requires Orderly(log, {}) && !Cut(log) && i < |log| && Gap(log, i)
    requires CountOf(Chosen(log[..i]).value) <= count < CountOf(log[i].result.list)
    ensures Covered(log, i, count)
  {
    assert Heeded(log, i);
  }
}
