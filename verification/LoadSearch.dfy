/** The search for a layout that can be allocated: it ends for every sequence of layouts and of
    runner responses, whatever they are; and with the layouts that the server builds it ends within
    a number of tries that depends only on the numbers of devices and layers. */
module LoadSearch {
  import B = BestFit
  import Grid = GridIndex
  import Layout
  import opened GreedyFit
  import opened LoadRecord
  import opened ServerLayout
  import opened Wrappers

  /** A layout sent to the runner; a probe is sent while exploring numbers of layers in between. */
  datatype Request = Request(layout: seq<GpuLayers>, operation: Operation, probe: bool)

  datatype Stop = LayoutFailed | RunnerFailed | FixedRequestFailed | BackoffExhausted | CommitFailed

  /** Everything outside the search: the layouts it is given and the responses of the runner, one
      after the other, and the number of layers asked for, negative for as many as possible. Where
      memory is unified, creating a layout may switch offloading off. The requests sent and the
      backoff of the last layout are on record, and the log holds all that a load made and sent. */
  class Surroundings {
    const layouts: nat -> LayoutResult
    const switchesOff: nat -> bool
    const responses: nat -> Response
    var created: nat
    var asked: nat
    var numGPU: int
    var closed: bool
    ghost var requests: seq<Request>
    ghost var backoff: real
    ghost var log: seq<Step>

    constructor (layouts: nat -> LayoutResult, switchesOff: nat -> bool, responses: nat -> Response, numGPU: int)
      ensures this.layouts == layouts && this.switchesOff == switchesOff && this.responses == responses
      ensures Valid() && requests == [] && created == 0 && this.numGPU == numGPU && !closed
    {
      this.layouts, this.switchesOff, this.responses := layouts, switchesOff, responses;
      created, asked, this.numGPU, closed := 0, 0, numGPU, false;
      requests, backoff, log := [], 0.0, [];
    }

    /** Every request had its response. */
    ghost predicate Valid()
      reads this
    {
      asked == |requests|
    }

    method CreateLayout(ghost backoff: real, ghost probe: bool) returns (x: LayoutResult)
      modifies `created, `numGPU, `backoff, `log
      ensures created == old(created) + 1 && x == layouts(old(created)) && this.backoff == backoff
      ensures numGPU == if switchesOff(old(created)) then 0 else old(numGPU)
      ensures log == old(log) + [Made(x, old(numGPU), numGPU < 0, backoff, probe)]
    {
      ghost var asked := numGPU;
      x := layouts(created);
      numGPU := if switchesOff(created) then 0 else numGPU;
      created := created + 1;
      this.backoff, log := backoff, log + [Made(x, asked, numGPU < 0, backoff, probe)];
    }

    method InitModel(list: seq<GpuLayers>, ghost operation: Operation, ghost probe: bool) returns (x: Response)
      requires Valid()
      modifies `asked, `requests, `log
      ensures Valid() && requests == old(requests) + [Request(list, operation, probe)] && Last(x)
      ensures log == old(log) + [Sent(list, operation, probe, x)]
    {
      x := responses(asked);
      asked := asked + 1;
      requests := requests + [Request(list, operation, probe)];
      log := log + [Sent(list, operation, probe, x)];
    }

    /** Have the runner give up what it loaded. */
    method Close()
      modifies `closed
      ensures closed
    {
      closed := true;
    }

    /** The response to the last request. */
    ghost predicate Last(x: Response)
      reads this
    {
      requests != [] && x == responses(|requests| - 1)
    }

    /** The last request was for this operation. */
    ghost predicate During(operation: Operation)
      reads this
    {
      requests != [] && requests[|requests| - 1].operation == operation
    }

    /** The list is one of the layouts. */
    ghost predicate Gives(list: seq<GpuLayers>) {
      exists k :: layouts(k) == Fitting(list)
    }

    /** Every layout has its key in a finite universe, and at most `n` layers. */
    ghost predicate Universe(U: set<seq<GpuLayers>>, n: nat) {
      forall k :: layouts(k).Fitting? ==> LayoutKey(layouts(k).list) in U && |Flat(layouts(k).list)| <= n
    }

    /** What a reason to stop says about the last layout, the last response and the options. */
    ghost predicate Explains(stop: Stop)
      reads this
    {
      match stop
      case LayoutFailed => created > 0 && layouts(created - 1).NoLayout?
      case RunnerFailed => Last(Broken)
      case FixedRequestFailed => Last(Answer(false)) && numGPU >= 0
      case BackoffExhausted => Last(Answer(false)) && numGPU < 0 && backoff > 1.0
      case CommitFailed => Last(Answer(false)) && During(Commit)
    }
  }

  /** What was sent between two points of the search is at most `most` probes. */
  ghost predicate OnlyProbes(before: seq<Request>, after: seq<Request>, most: int) {
    before <= after && |after| - |before| <= most && forall k :: |before| <= k < |after| ==> after[k].probe
  }

  /** Backing off happens in steps of 0.1 up to 1.1. */
  function Backoff(steps: nat): real { steps as real * 0.1 }

  datatype Search = Search(layout: seq<GpuLayers>, past: set<seq<GpuLayers>>, steps: nat)

  /** A round of the search may start. */
  ghost predicate RoundDue(log: seq<Step>, q: Search, operation: Operation, answer: Response) {
    Steady(log, q.layout, q.past, Level(log), operation, answer, {}) && Paced(log, Backoff(q.steps))
  }

  /** The layout is to be tried next. */
  ghost predicate TryDue(log: seq<Step>, q: Search, operation: Operation) {
    Expecting(log, q.layout, q.past, Backoff(q.steps), operation)
  }

  /** The exploration that began with entry `g` goes on with `next` layers. */
  ghost predicate ProbeDue(log: seq<Step>, g: nat, q: Search, operation: Operation, answer: Response, next: int,
                           from: int) {
    && Exploring(log, g, q.layout, q.past, Backoff(q.steps), operation, answer, next)
    && CountOf(log[g].result.list) == from
  }

  /** The probe that was made is to be sent. */
  ghost predicate SendDue(log: seq<Step>, g: nat, q: Search, operation: Operation, count: int, list: seq<GpuLayers>,
                          from: int) {
    && ToSend(log, g, q.layout, q.past, Backoff(q.steps), operation, count, list)
    && CountOf(log[g].result.list) == from
  }

  /** The probe that was accepted is to be checked. */
  ghost predicate CheckDue(log: seq<Step>, g: nat, q: Search, operation: Operation, count: int, list: seq<GpuLayers>,
                           from: int) {
    && ToCheck(log, g, q.layout, q.past, Backoff(q.steps), operation, count, list)
    && CountOf(log[g].result.list) == from
  }

  /** What comes after a probe: the end, a layout to settle on, or the next number of layers. */
  ghost predicate ProbeDone(log: seq<Step>, g: nat, q: Search, operation: Operation, next: int, from: int,
                            found: Option<seq<GpuLayers>>, resp: Response, stop: Option<Stop>) {
    if stop.Some? then Orderly(log, {})
    else if found.Some? then TryDue(log, q.(layout := found.value, past := {}), Following(operation))
    else ProbeDue(log, g, q, operation, resp, next, from)
  }

  lemma {:induction false} MadeDue(log: seq<Step>, g: nat, q: Search, operation: Operation, answer: Response,
                                   from: int, e: Step)
    requires e.Made? && e.probe && e.backoff == Backoff(q.steps) && CountOf(q.layout) <= e.asked < from
    requires ProbeDue(log, g, q, operation, answer, e.asked, from)
    ensures match e.result
            case NoLayout => Orderly(log + [e], {})
            case Fitting(list) => SendDue(log + [e], g, q, operation, e.asked, list, from)
  {
    ProbeMade(log, g, q.layout, q.past, Backoff(q.steps), operation, answer, e);
    assert (log + [e])[g] == log[g];
  }

  lemma {:induction false} SentDue(log: seq<Step>, g: nat, q: Search, operation: Operation, count: int,
                                   list: seq<GpuLayers>, from: int, answer: Response)
    requires SendDue(log, g, q, operation, count, list, from)
    ensures var log' := log + [Sent(list, operation, true, answer)];
            match answer
            case Broken => Orderly(log', {})
            case Answer(success) => if success then CheckDue(log', g, q, operation, count, list, from)
                                    else ProbeDue(log', g, q, operation, answer, count - 1, from)
  {
    ProbeSent(log, g, q.layout, q.past, Backoff(q.steps), operation, count, list, answer);
    assert (log + [Sent(list, operation, true, answer)])[g] == log[g];
  }

  lemma {:induction false} CheckedDue(log: seq<Step>, g: nat, q: Search, operation: Operation, count: int,
                                      list: seq<GpuLayers>, from: int, v: Step)
    requires CheckDue(log, g, q, operation, count, list, from)
    requires v.Made? && v.probe && v.backoff == Backoff(q.steps) && v.asked < 0
    ensures match v.result
            case NoLayout => Orderly(log + [v], {})
            case Fitting(verify) =>
              if CountOf(list) <= CountOf(verify)
              then TryDue(log + [v], q.(layout := list, past := {}), Following(operation))
              else ProbeDue(log + [v], g, q, operation, Answer(true), count - 1, from)
  {
    ProbeChecked(log, g, q.layout, q.past, Backoff(q.steps), operation, count, list, v);
    assert (log + [v])[g] == log[g];
  }

  /** Check an accepted probe against a layout without a fixed number of layers. */
  method CheckProbe(s: Surroundings, ghost operation: Operation, ghost q: Search, ghost g: nat, ghost from: int,
                    ghost count: int, list: seq<GpuLayers>)
    returns (found: Option<seq<GpuLayers>>, stop: Option<Stop>)
    requires s.numGPU < 0 && CheckDue(s.log, g, q, operation, count, list, from)
    modifies s`created, s`numGPU, s`backoff, s`log
    ensures s.backoff == Backoff(q.steps) && (found.Some? ==> found.value == list)
    ensures stop.Some? ==> found.None? && stop.value == LayoutFailed && s.created > 0
                           && s.layouts(s.created - 1).NoLayout?
    ensures ProbeDone(s.log, g, q, operation, count - 1, from, found, Answer(true), stop)
  {
    ghost var log := s.log;
    var verify := s.CreateLayout(Backoff(q.steps), true);
    CheckedDue(log, g, q, operation, count, list, from, s.log[|log|]);
    if verify.NoLayout? {
      return None, Some(LayoutFailed);
    }
    var newSum := Sum(list);
    var verifySum := Sum(verify.list);
    return if newSum <= verifySum then Some(list) else None, None;
  }

  /** Send a probe, and check it when it was accepted. */
  method SendProbe(s: Surroundings, ghost operation: Operation, ghost q: Search, ghost g: nat, ghost from: int,
                   ghost count: int, list: seq<GpuLayers>)
    returns (found: Option<seq<GpuLayers>>, resp: Response, stop: Option<Stop>)
    requires s.Valid() && s.numGPU < 0 && s.backoff == Backoff(q.steps)
    requires SendDue(s.log, g, q, operation, count, list, from)
    modifies s`created, s`asked, s`numGPU, s`requests, s`backoff, s`log
    ensures s.Valid() && s.backoff == Backoff(q.steps)
    ensures s.requests == old(s.requests) + [Request(list, operation, true)]
    ensures stop.Some? ==> found.None? && s.Explains(stop.value)
    ensures stop.None? ==> s.Last(resp) && resp.Answer?
    ensures found.Some? ==> found.value == list && resp == Answer(true)
    ensures ProbeDone(s.log, g, q, operation, count - 1, from, found, resp, stop)
  {
    ghost var log := s.log;
    resp := s.InitModel(list, operation, true);
    SentDue(log, g, q, operation, count, list, from, resp);
    if resp.Broken? {
      return None, resp, Some(RunnerFailed);
    }
    found, stop := None, None;
    if resp.success {
      found, stop := CheckProbe(s, operation, q, g, from, count, list);
    }
  }

  /** Ask for exactly `count` layers: found when the runner accepts the layout and a layout without a
      fixed count does not fall short of it. */
  method ProbeCount(s: Surroundings, ghost operation: Operation, ghost q: Search, ghost g: nat, ghost from: int,
                    count: int, resp0: Response)
    returns (found: Option<seq<GpuLayers>>, resp: Response, stop: Option<Stop>)
    requires s.Valid() && ProbeDue(s.log, g, q, operation, resp0, count, from) && CountOf(q.layout) <= count < from
    modifies s`created, s`asked, s`numGPU, s`requests, s`backoff, s`log
    ensures s.Valid() && s.backoff == Backoff(q.steps) && OnlyProbes(old(s.requests), s.requests, 1)
    ensures stop.Some? ==> found.None? && s.Explains(stop.value)
    ensures stop.None? ==> s.Last(resp) && resp.Answer? && s.During(operation)
    ensures found.Some? ==> s.Gives(found.value) && resp == Answer(true)
                            && s.requests[|s.requests| - 1].layout == found.value
    ensures ProbeDone(s.log, g, q, operation, count - 1, from, found, resp, stop)
  {
    ghost var log := s.log;
    s.numGPU := count;
    var layout := s.CreateLayout(Backoff(q.steps), true);
    s.numGPU := -1;
    MadeDue(log, g, q, operation, resp0, from, s.log[|log|]);
    if layout.NoLayout? {
      return None, resp0, Some(LayoutFailed);
    }
    assert s.layouts(s.created - 1) == Fitting(layout.list);
    found, resp, stop := SendProbe(s, operation, q, g, from, count, layout.list);
  }

  lemma {:induction false} MoreProbes(a: seq<Request>, b: seq<Request>, c: seq<Request>, most: int, more: int)
    requires OnlyProbes(a, b, most) && OnlyProbes(b, c, more)
    ensures OnlyProbes(a, c, most + more)
  {
    forall k | |a| <= k < |c| ensures c[k].probe {
      if k < |b| { assert b[k].probe && c[k] == b[k]; }
    }
  }

  /** Try layer counts between that of a new layout and that of the last one, from the top. */
  method Explore(s: Surroundings, ghost operation: Operation, ghost q: Search, ghost g: nat, from: int, to: int,
                 resp0: Response)
    returns (found: Option<seq<GpuLayers>>, resp: Response, stop: Option<Stop>)
    requires s.Valid() && s.Last(resp0) && resp0.Answer? && s.backoff == Backoff(q.steps) && s.During(operation)
    requires ProbeDue(s.log, g, q, operation, resp0, from - 1, from) && to == CountOf(q.layout) < from
    modifies s`created, s`asked, s`numGPU, s`requests, s`backoff, s`log
    ensures s.Valid() && s.backoff == Backoff(q.steps) && OnlyProbes(old(s.requests), s.requests, Max(from - to, 0))
    ensures stop.Some? ==> found.None? && s.Explains(stop.value)
    ensures stop.None? ==> s.Last(resp) && resp.Answer? && s.During(operation)
    ensures found.Some? ==> s.Gives(found.value) && resp == Answer(true)
                            && s.requests[|s.requests| - 1].layout == found.value
    ensures ProbeDone(s.log, g, q, operation, to - 1, from, found, resp, stop)
  {
    found, resp, stop := None, resp0, None;
    var i := from - 1;
    while i >= to
      invariant s.Valid() && s.Last(resp) && resp.Answer? && s.backoff == Backoff(q.steps) && s.During(operation)
      invariant found.None? && stop.None? && OnlyProbes(old(s.requests), s.requests, from - 1 - i)
      invariant to - 1 <= i < from && ProbeDue(s.log, g, q, operation, resp, i, from)
    {
      ghost var before := s.requests;
      found, resp, stop := ProbeCount(s, operation, q, g, from, i, resp);
      MoreProbes(old(s.requests), before, s.requests, from - 1 - i, 1);
      if found.Some? || stop.Some? {
        return;
      }
      i := i - 1;
    }
  }

  /** Layouts not tried yet. */
  ghost function Untried(U: set<seq<GpuLayers>>, tried: set<seq<GpuLayers>>): nat { |U - tried| }

  lemma {:induction false} OneFewer(U: set<seq<GpuLayers>>, tried: set<seq<GpuLayers>>, k: seq<GpuLayers>)
    requires k in U && k !in tried
    ensures Untried(U, tried + {k}) + 1 == Untried(U, tried) && |tried + {k}| == |tried| + 1
  {
    assert U - (tried + {k}) == (U - tried) - {k};
    CardWithout(U - tried, k);
  }

  ghost predicate SearchOk(s: Surroundings, q: Search, U: set<seq<GpuLayers>>) {
    s.Gives(q.layout) && LayoutKey(q.layout) in U && q.past <= U && q.steps <= 11
  }

  datatype Next = Retry(q: Search) | Advance(q: Search) | Fail(stop: Stop)

  /** How often numbers of layers in between may have been explored on the way. */
  function Explorations(q: Search, next: Next): nat {
    match next
    case Retry(q') => if q.steps <= q'.steps then q'.steps - q.steps else 0
    case Advance(q') => if q.steps <= q'.steps then q'.steps - q.steps + 1 else 0
    case Fail(_) => if q.steps <= 12 then 12 - q.steps else 0
  }

  /** `k` times `n`, for counting requests. */
  function Budget(k: nat, n: nat): nat { if k == 0 then 0 else Budget(k - 1, n) + n }

  lemma {:induction false} BudgetSum(a: nat, b: nat, n: nat)
    ensures Budget(a + b, n) == Budget(a, n) + Budget(b, n)
  {
    if b > 0 { BudgetSum(a, b - 1, n); }
  }

  lemma {:induction false} BudgetIs(k: nat, n: nat)
    ensures Budget(k, n) == k * n
  {
    if k > 0 { BudgetIs(k - 1, n); }
  }

  /** The runner accepted the last request, which was for this layout, unless it was a probe. */
  ghost predicate Settled(s: Surroundings, operation: Operation, q: Search)
    reads s
  {
    && s.Last(Answer(true)) && s.During(operation)
    && (s.requests[|s.requests| - 1].layout == q.layout || s.requests[|s.requests| - 1].probe)
  }

  /** One more exploration, and all that may follow. */
  lemma {:induction false} Upwards(q0: Search, q: Search, n: nat)
    requires q0.steps <= q.steps <= 11
    ensures Budget(q.steps - q0.steps, n) + n == Budget(q.steps + 1 - q0.steps, n) <= Budget(12 - q0.steps, n)
  {
    BudgetSum(q.steps + 1 - q0.steps, 11 - q.steps, n);
  }

  /** What is to be done after a round or an operation. */
  ghost predicate OnRecord(log: seq<Step>, operation: Operation, next: Next) {
    match next
    case Retry(q) => TryDue(log, q, operation)
    case Advance(q) => TryDue(log, q, Following(operation))
    case Fail(_) => Orderly(log, {})
  }

  /** The outcome of a round: another layout to try, a layout to settle on, or none of these. */
  ghost predicate Decided(s: Surroundings, operation: Operation, q: Search, U: set<seq<GpuLayers>>, next: Next)
    reads s
  {
    match next
    case Retry(q') => q'.past == q.past && q'.steps == q.steps && LayoutKey(q'.layout) !in q.past && SearchOk(s, q', U)
                      && |Flat(q'.layout)| <= |Flat(q.layout)|
    case Advance(q') => Settled(s, operation, q') && q'.steps == q.steps && SearchOk(s, q', U)
                        && ((q'.past == q.past && q'.layout == q.layout) || q'.past == {})
    case Fail(stop) => s.Explains(stop)
  }

  /** After a round that found nothing, the next one backs off further. */
  lemma {:induction false} BacksOff(log: seq<Step>, q: Search, operation: Operation, answer: Response)
    requires Steady(log, q.layout, q.past, Backoff(q.steps), operation, answer, {}) && answer == Answer(false)
    requires log != [] && !Trial(log[|log| - 1])
    ensures RoundDue(log, q.(steps := q.steps + 1), operation, answer)
  {
    assert Backoff(q.steps + 1) == Backoff(q.steps) + 0.1;
  }

  /** Nothing else to try: settle, or give up, or back off. */
  method Conclude(s: Surroundings, ghost operation: Operation, q: Search, resp: Response, ghost U: set<seq<GpuLayers>>)
    returns (next: Option<Next>)
    requires SearchOk(s, q, U) && s.Last(resp) && resp.Answer? && s.backoff == Backoff(q.steps)
    requires resp.success ==> Settled(s, operation, q)
    requires Steady(s.log, q.layout, q.past, Backoff(q.steps), operation, resp, {}) && s.log != []
        && !Trial(s.log[|s.log| - 1])
    ensures if next.Some? then !next.value.Retry? && Decided(s, operation, q, U, next.value)
                 && OnRecord(s.log, operation, next.value)
            else q.steps < 11 && resp == Answer(false) && RoundDue(s.log, q.(steps := q.steps + 1), operation, resp)
  {
    if resp.success {
      Settles(s.log, q.layout, q.past, Backoff(q.steps), operation);
      return Some(Advance(q));
    }
    if s.numGPU >= 0 {
      return Some(Fail(FixedRequestFailed));
    }
    if Backoff(q.steps) > 1.0 {
      return Some(Fail(BackoffExhausted));
    }
    BacksOff(s.log, q, operation, resp);
    return None;
  }

  /** What comes after the gap before a new layout was explored. */
  ghost predicate Explored(log: seq<Step>, q: Search, operation: Operation, found: Option<seq<GpuLayers>>,
                           resp: Response, stop: Option<Stop>) {
    if stop.Some? then Orderly(log, {})
    else if found.Some? then TryDue(log, q.(layout := found.value, past := {}), Following(operation))
    else Steady(log, q.layout, q.past, Backoff(q.steps), operation, resp, {}) && log != []
         && !Trial(log[|log| - 1])
  }

  lemma {:induction false} AllExplored(log: seq<Step>, g: nat, q: Search, operation: Operation, from: int,
                                       found: Option<seq<GpuLayers>>, resp: Response, stop: Option<Stop>)
    requires ProbeDone(log, g, q, operation, CountOf(q.layout) - 1, from, found, resp, stop)
    ensures Explored(log, q, operation, found, resp, stop)
  {
    if stop.None? && found.None? {
      NothingPassed(log, g, q.layout, q.past, Backoff(q.steps), operation, resp);
    }
  }

  /** The gap before a layout that was just made is explored, if there is one. */
  method ExploreGap(s: Surroundings, ghost operation: Operation, ghost q: Search, newSum: int, lastSum: int,
                    resp0: Response, ghost log: seq<Step>, ghost e: Step)
    returns (found: Option<seq<GpuLayers>>, resp: Response, stop: Option<Stop>)
    requires s.Valid() && s.Last(resp0) && resp0.Answer? && s.backoff == Backoff(q.steps) && s.During(operation)
    requires s.log == log + [e] && RoundDue(log, q, operation, resp0)
    requires e.Made? && !e.probe && e.result.Fitting? && e.backoff == Backoff(q.steps) && e.free == (s.numGPU < 0)
    requires newSum == CountOf(e.result.list) && lastSum == CountOf(q.layout)
        && (LayoutKey(e.result.list) in q.past || newSum > lastSum)
    modifies s`created, s`asked, s`numGPU, s`requests, s`backoff, s`log
    ensures s.Valid() && s.backoff == Backoff(q.steps) && OnlyProbes(old(s.requests), s.requests, Max(newSum, 0))
    ensures stop.Some? ==> found.None? && s.Explains(stop.value)
    ensures stop.None? ==> s.Last(resp) && resp.Answer? && s.During(operation)
    ensures found.Some? ==> s.Gives(found.value) && resp == Answer(true)
                            && s.requests[|s.requests| - 1].layout == found.value
    ensures Explored(s.log, q, operation, found, resp, stop)
  {
    if s.numGPU < 0 && newSum > lastSum + 1 {
      RoundGap(log, q.layout, q.past, Level(log), operation, resp0, e);
      found, resp, stop := Explore(s, operation, q, |log|, newSum, lastSum, resp0);
      AllExplored(s.log, |log|, q, operation, newSum, found, resp, stop);
    } else {
      RoundIdle(log, q.layout, q.past, Level(log), operation, resp0, e);
      found, resp, stop := None, resp0, None;
    }
  }

  /** One round of looking for another layout; nothing is decided when the search has to back off. */
  method Round(s: Surroundings, ghost operation: Operation, q: Search, resp0: Response,
               ghost U: set<seq<GpuLayers>>, ghost n: nat)
    returns (next: Option<Next>, resp: Response)
    requires s.Universe(U, n) && SearchOk(s, q, U) && s.Valid() && s.Last(resp0) && resp0.Answer?
    requires s.During(operation) && (resp0.success ==> Settled(s, operation, q))
    requires RoundDue(s.log, q, operation, resp0)
    modifies s`created, s`asked, s`numGPU, s`requests, s`backoff, s`log
    ensures s.Valid() && OnlyProbes(old(s.requests), s.requests, if next.Some? && next.value.Retry? then 0 else n)
    ensures if next.Some? then Decided(s, operation, q, U, next.value) && OnRecord(s.log, operation, next.value)
            else q.steps < 11 && s.Last(resp) && resp == Answer(false) && s.During(operation)
                 && RoundDue(s.log, q.(steps := q.steps + 1), operation, resp)
  {
    ghost var log := s.log;
    var created := s.CreateLayout(Backoff(q.steps), false);
    ghost var e := s.log[|log|];
    if created.NoLayout? {
      RoundMade(log, q.layout, q.past, Level(log), operation, resp0, e);
      return Some(Fail(LayoutFailed)), resp0;
    }
    assert s.layouts(s.created - 1) == Fitting(created.list);
    var newSum := Sum(created.list);
    var lastSum := Sum(q.layout);
    if LayoutKey(created.list) !in q.past && newSum <= lastSum {
      RoundWorth(log, q.layout, q.past, Level(log), operation, resp0, e);
      return Some(Retry(q.(layout := created.list))), resp0;
    }
    var found, stop;
    found, resp, stop := ExploreGap(s, operation, q, newSum, lastSum, resp0, log, e);
    if stop.Some? {
      return Some(Fail(stop.value)), resp;
    }
    if found.Some? {
      return Some(Advance(q.(layout := found.value, past := {}))), resp;
    }
    next := Conclude(s, operation, q, resp, U);
  }

  /** After a response: find another layout to try, or settle, or give up. What is settled on is the
      layout that the runner accepted last, unless that was a probe. */
  method AfterResponse(s: Surroundings, ghost operation: Operation, q0: Search, resp0: Response,
                       ghost U: set<seq<GpuLayers>>, ghost n: nat)
    returns (next: Next)
    requires s.Universe(U, n) && SearchOk(s, q0, U) && s.Valid() && s.Last(resp0) && resp0.Answer?
    requires s.During(operation) && (resp0.success ==> Settled(s, operation, q0))
    requires RoundDue(s.log, q0, operation, resp0)
    modifies s`created, s`asked, s`numGPU, s`requests, s`backoff, s`log
    ensures s.Valid() && OnlyProbes(old(s.requests), s.requests, Budget(Explorations(q0, next), n))
    ensures !next.Fail? ==> q0.steps <= next.q.steps
    ensures Decided(s, operation, if next.Fail? then q0 else q0.(steps := next.q.steps), U, next)
    ensures OnRecord(s.log, operation, next)
  {
    var q, resp := q0, resp0;
    while true
      invariant q == q0.(steps := q.steps) && q0.steps <= q.steps && SearchOk(s, q, U) && s.Valid()
      invariant s.Last(resp) && resp.Answer? && s.During(operation)
      invariant resp.success ==> Settled(s, operation, q)
      invariant RoundDue(s.log, q, operation, resp)
      invariant OnlyProbes(old(s.requests), s.requests, Budget(q.steps - q0.steps, n))
      decreases 11 - q.steps
    {
      ghost var before := s.requests;
      var found;
      found, resp := Round(s, operation, q, resp, U, n);
      MoreProbes(old(s.requests), before, s.requests, Budget(q.steps - q0.steps, n),
                 if found.Some? && found.value.Retry? then 0 else n);
      Upwards(q0, q, n);
      if found.Some? {
        return found.value;
      }
      q := q.(steps := q.steps + 1);
    }
  }

  /** No layout is sent twice from `from` on, except as a probe. */
  ghost predicate NeverTwice(rs: seq<Request>, from: nat) {
    forall i, j :: from <= i < j < |rs| && !rs[i].probe && !rs[j].probe ==>
      LayoutKey(rs[i].layout) != LayoutKey(rs[j].layout)
  }

  /** The keys of what was sent from `from` on, probes aside, are among `tried`. */
  ghost predicate Tried(rs: seq<Request>, from: nat, tried: set<seq<GpuLayers>>) {
    forall i :: from <= i < |rs| && !rs[i].probe ==> LayoutKey(rs[i].layout) in tried
  }

  /** What an operation sent so far: each layout of `tried` once, and at most `most` probes. */
  ghost predicate SentSoFar(start: seq<Request>, rs: seq<Request>, tried: set<seq<GpuLayers>>, most: int) {
    && start <= rs && |rs| - |start| <= |tried| + most
    && NeverTwice(rs, |start|) && Tried(rs, |start|, tried)
  }

  lemma {:induction false} OneMoreTried(start: seq<Request>, before: seq<Request>, r: Request, after: seq<Request>,
                                        tried: set<seq<GpuLayers>>, most: int, more: int)
    requires SentSoFar(start, before, tried, most)
    requires !r.probe && LayoutKey(r.layout) !in tried && OnlyProbes(before + [r], after, more)
    ensures SentSoFar(start, after, tried + {LayoutKey(r.layout)}, most + more)
  {
    assert |tried + {LayoutKey(r.layout)}| == |tried| + 1;
    assert forall i :: 0 <= i < |before| ==> after[i] == before[i];
    assert after[|before|] == r;
  }

  /** One try: send the layout, and see what to do next. */
  method Try(s: Surroundings, ghost operation: Operation, q: Search, ghost U: set<seq<GpuLayers>>, ghost n: nat)
    returns (next: Next)
    requires s.Universe(U, n) && SearchOk(s, q, U) && s.Valid() && TryDue(s.log, q, operation)
    modifies s`created, s`asked, s`numGPU, s`requests, s`backoff, s`log
    ensures s.Valid()
    ensures OnlyProbes(old(s.requests) + [Request(q.layout, operation, false)], s.requests,
                       Budget(Explorations(q, next), n))
    ensures next.Fail? ==> s.Explains(next.stop)
    ensures !next.Fail? ==> SearchOk(s, next.q, U) && q.steps <= next.q.steps
    ensures next.Retry? ==> next.q.past == q.past + {LayoutKey(q.layout)} && LayoutKey(next.q.layout) !in next.q.past
                            && |Flat(next.q.layout)| <= |Flat(q.layout)|
    ensures next.Advance? ==> Settled(s, operation, next.q)
    ensures OnRecord(s.log, operation, next)
  {
    ghost var log := s.log;
    var resp := s.InitModel(q.layout, operation, false);
    TrialMade(log, q.layout, q.past, Backoff(q.steps), operation, resp);
    if resp.Broken? {
      return Fail(RunnerFailed);
    }
    next := AfterResponse(s, operation, q.(past := q.past + {LayoutKey(q.layout)}), resp, U, n);
  }

  /** What the tries and explorations so far may have sent. */
  lemma {:induction false} Together(q0: Search, q: Search, next: Next, n: nat)
    requires q0.steps <= q.steps <= 11 && (!next.Fail? ==> q.steps <= next.q.steps)
    ensures Budget(q.steps - q0.steps, n) + Budget(Explorations(q, next), n) == Budget(Explorations(q0, next), n)
  {
    BudgetSum(q.steps - q0.steps, Explorations(q, next), n);
  }

  lemma {:induction false} TryCounted(start: seq<Request>, before: seq<Request>, r: Request, after: seq<Request>,
                                      q0: Search, q: Search, next: Next, tried: set<seq<GpuLayers>>,
                                      U: set<seq<GpuLayers>>, n: nat)
    requires q0.steps <= q.steps <= 11 && (!next.Fail? ==> q.steps <= next.q.steps)
    requires SentSoFar(start, before, tried, Budget(q.steps - q0.steps, n)) && tried <= U
    requires !r.probe && LayoutKey(r.layout) in U - tried
    requires OnlyProbes(before + [r], after, Budget(Explorations(q, next), n))
    ensures var tried' := tried + {LayoutKey(r.layout)};
            && SentSoFar(start, after, tried', Budget(Explorations(q0, next), n))
            && (next.Retry? ==> SentSoFar(start, after, tried', Budget(next.q.steps - q0.steps, n)))
            && Untried(U, tried') < Untried(U, tried) && |tried'| <= |U|
  {
    OneMoreTried(start, before, r, after, tried, Budget(q.steps - q0.steps, n), Budget(Explorations(q, next), n));
    OneFewer(U, tried, LayoutKey(r.layout));
    Together(q0, q, next, n);
    SubsetCard(tried + {LayoutKey(r.layout)}, U);
  }

  /** The same, with what the operation has sent since it started. */
  method TryNext(s: Surroundings, ghost operation: Operation, q: Search, ghost U: set<seq<GpuLayers>>, ghost n: nat,
                 ghost q0: Search, ghost start: seq<Request>, ghost tried: set<seq<GpuLayers>>)
    returns (next: Next)
    requires s.Universe(U, n) && SearchOk(s, q, U) && s.Valid() && TryDue(s.log, q, operation) && q0.steps <= q.steps
    requires SentSoFar(start, s.requests, tried, Budget(q.steps - q0.steps, n))
    requires tried <= U && LayoutKey(q.layout) !in tried
    modifies s`created, s`asked, s`numGPU, s`requests, s`backoff, s`log
    ensures s.Valid() && OnRecord(s.log, operation, next)
    ensures next.Fail? ==> s.Explains(next.stop)
    ensures !next.Fail? ==> SearchOk(s, next.q, U) && q.steps <= next.q.steps
    ensures next.Retry? ==> next.q.past == q.past + {LayoutKey(q.layout)} && LayoutKey(next.q.layout) !in next.q.past
    ensures next.Advance? ==> Settled(s, operation, next.q)
    ensures var tried' := tried + {LayoutKey(q.layout)};
            && SentSoFar(start, s.requests, tried', Budget(Explorations(q0, next), n))
            && (next.Retry? ==> SentSoFar(start, s.requests, tried', Budget(next.q.steps - q0.steps, n)))
            && Untried(U, tried') < Untried(U, tried) && |tried'| <= |U|
  {
    ghost var before := s.requests;
    next := Try(s, operation, q, U, n);
    TryCounted(start, before, Request(q.layout, operation, false), s.requests, q0, q, next, tried, U, n);
  }

  /** One operation: retry with new layouts until one is settled on. No layout is tried twice. */
  method Operate(s: Surroundings, ghost operation: Operation, q0: Search, ghost U: set<seq<GpuLayers>>, ghost n: nat)
    returns (next: Next)
    requires s.Universe(U, n) && SearchOk(s, q0, U) && s.Valid() && TryDue(s.log, q0, operation)
    modifies s`created, s`asked, s`numGPU, s`requests, s`backoff, s`log
    ensures s.Valid() && !next.Retry? && old(s.requests) <= s.requests && NeverTwice(s.requests, |old(s.requests)|)
    ensures if next.Fail? then Orderly(s.log, {}) else TryDue(s.log, next.q, Following(operation))
    ensures |s.requests| - |old(s.requests)| <= |U| + Budget(Explorations(q0, next), n)
    ensures next.Fail? ==> s.Explains(next.stop)
    ensures next.Advance? ==> SearchOk(s, next.q, U) && q0.steps <= next.q.steps && Settled(s, operation, next.q)
  {
    var q := q0;
    ghost var start, tried: set<seq<GpuLayers>> := s.requests, {};
    while true
      invariant SearchOk(s, q, U) && s.Valid() && q0.steps <= q.steps && tried <= q.past && tried <= U
      invariant (tried == {} || LayoutKey(q.layout) !in q.past) && TryDue(s.log, q, operation)
      invariant SentSoFar(start, s.requests, tried, Budget(q.steps - q0.steps, n))
      decreases Untried(U, tried)
    {
      next := TryNext(s, operation, q, U, n, q0, start, tried);
      tried := tried + {LayoutKey(q.layout)};
      if !next.Retry? {
        return;
      }
      q := next.q;
    }
  }

  lemma {:induction false} Whole(operations: nat, explorations: nat, u: nat, n: nat)
    requires operations <= 2 && explorations <= 13
    ensures Budget(operations, u) <= 2 * u && Budget(explorations, n) <= 13 * n
  {
    BudgetSum(operations, 2 - operations, u);
    BudgetSum(explorations, 13 - explorations, n);
    BudgetIs(2, u);
    BudgetIs(13, n);
  }

  lemma {:induction false} OperationCounted(operation: nat, q: Search, next: Next, u: nat, n: nat)
    requires operation < 2 && q.steps <= 11 && !next.Retry? && (next.Advance? ==> q.steps <= next.q.steps <= 11)
    ensures var sent := Budget(operation, u) + Budget(q.steps + operation, n) + u + Budget(Explorations(q, next), n);
            if next.Fail? then sent <= 2 * u + 13 * n
            else sent == Budget(operation + 1, u) + Budget(next.q.steps + operation + 1, n)
  {
    BudgetSum(q.steps + operation, Explorations(q, next), n);
    Whole(operation + 1, if next.Fail? then operation + 12 else 0, u, n);
  }

  /** The operations before the commit. */
  method Prepare(s: Surroundings, q0: Search, ghost U: set<seq<GpuLayers>>, ghost n: nat) returns (next: Next)
    requires s.Universe(U, n) && SearchOk(s, q0, U) && q0.steps == 0 && s.Valid() && TryDue(s.log, q0, Fit)
    modifies s`created, s`asked, s`numGPU, s`requests, s`backoff, s`log
    ensures s.Valid() && !next.Retry? && old(s.requests) <= s.requests
    ensures |s.requests| - |old(s.requests)| <= 2 * |U| + 13 * n
    ensures next.Fail? ==> s.Explains(next.stop)
    ensures next.Advance? ==> s.Gives(next.q.layout) && Settled(s, Alloc, next.q)
    ensures if next.Fail? then Orderly(s.log, {}) else TryDue(s.log, next.q, Commit)
  {
    var q := q0;
    next := Advance(q);
    for operation := 0 to 2
      invariant SearchOk(s, q, U) && s.Valid() && old(s.requests) <= s.requests && next == Advance(q)
      invariant |s.requests| - |old(s.requests)| <= Budget(operation, |U|) + Budget(q.steps + operation, n)
      invariant operation > 0 ==> Settled(s, if operation == 1 then Fit else Alloc, q)
      invariant TryDue(s.log, q, if operation == 0 then Fit else if operation == 1 then Alloc else Commit)
    {
      next := Operate(s, if operation == 0 then Fit else Alloc, q, U, n);
      OperationCounted(operation, q, next, |U|, n);
      if next.Fail? {
        return;
      }
      q := next.q;
    }
    Whole(2, q.steps + 2, |U|, n);
  }

  /** The runner accepted to commit the layout, right after accepting to allocate it, or a probe. */
  ghost predicate Committed(s: Surroundings, list: seq<GpuLayers>)
    reads s
  {
    var last := |s.requests| - 1;
    && last > 0 && s.Last(Answer(true)) && s.requests[last] == Request(list, Commit, false)
    && s.responses(last - 1) == Answer(true) && s.requests[last - 1].operation == Alloc
    && (s.requests[last - 1].layout == list || s.requests[last - 1].probe)
  }

  /** The first layout is worth trying, if there is one. */
  lemma {:induction false} FirstMade(log: seq<Step>)
    requires |log| == 1 && log[0].Made? && !log[0].probe && log[0].backoff == 0.0
    ensures match log[0].result
            case NoLayout => Orderly(log, {})
            case Fitting(list) => TryDue(log, Search(list, {}, 0), Fit)
  {
    assert log == [] + [log[0]] && log[..0] == [];
    Added([], log[0]);
    assert Backoff(0) == 0.0;
  }

  /** The commit of the layout that was settled on. */
  method CommitLayout(s: Surroundings, q: Search) returns (r: Result<seq<GpuLayers>, Stop>)
    requires s.Valid() && TryDue(s.log, q, Commit) && Settled(s, Alloc, q)
    modifies s`asked, s`requests, s`log
    ensures s.Valid() && old(s.requests) <= s.requests && |s.requests| == |old(s.requests)| + 1
    ensures r.Err? ==> s.Explains(r.error)
    ensures r.Ok? ==> r.value == q.layout && Committed(s, r.value)
    ensures Orderly(s.log, {}) && Chosen(s.log) == Some(q.layout)
  {
    ghost var log := s.log;
    var resp := s.InitModel(q.layout, Commit, false);
    TrialMade(log, q.layout, q.past, Backoff(q.steps), Commit, resp);
    if resp.Broken? {
      return Err(RunnerFailed);
    }
    return if resp.success then Ok(q.layout) else Err(CommitFailed);
  }

  /** The search without the clean-up: the first layout, the operations before the commit, and the
      commit. */
  method FindLayout(s: Surroundings, ghost U: set<seq<GpuLayers>>, ghost n: nat)
    returns (r: Result<seq<GpuLayers>, Stop>)
    requires s.Universe(U, n) && s.Valid()
    modifies s`created, s`asked, s`numGPU, s`requests, s`backoff, s`log
    ensures s.Valid() && old(s.requests) <= s.requests
    ensures |s.requests| - |old(s.requests)| <= 2 * |U| + 13 * n + 1
    ensures r.Err? ==> s.Explains(r.error)
    ensures r.Ok? ==> s.Gives(r.value) && Committed(s, r.value)
    ensures Orderly(s.log, {}) && (r.Ok? ==> Chosen(s.log) == Some(r.value))
  {
    s.log := [];
    var created := s.CreateLayout(0.0, false);
    FirstMade(s.log);
    if created.NoLayout? {
      return Err(LayoutFailed);
    }
    assert s.layouts(s.created - 1) == Fitting(created.list);
    var next := Prepare(s, Search(created.list, {}, 0), U, n);
    if next.Fail? {
      return Err(next.stop);
    }
    r := CommitLayout(s, next.q);
  }

  /** The whole search; when it fails, the runner has to give up what it loaded. */
  method Load(s: Surroundings, ghost U: set<seq<GpuLayers>>, ghost n: nat) returns (r: Result<seq<GpuLayers>, Stop>)
    requires s.Universe(U, n) && s.Valid() && !s.closed
    modifies s
    ensures s.Valid() && old(s.requests) <= s.requests && (s.closed <==> r.Err?)
    ensures |s.requests| - |old(s.requests)| <= 2 * |U| + 13 * n + 1
    ensures r.Err? ==> s.Explains(r.error)
    ensures r.Ok? ==> s.Gives(r.value) && Committed(s, r.value)
    ensures Orderly(s.log, {}) && (r.Ok? ==> Chosen(s.log) == Some(r.value))
  {
    r := FindLayout(s, U, n);
    if r.Err? {
      s.Close();
    }
  }

  // ---- the layouts that there can be ----

  /** Consecutive layers below `n`, spread over some of the devices, each at most once. */
  ghost predicate Possible(list: seq<GpuLayers>, ids: set<DeviceID>, lo: nat, hi: nat, n: nat) {
    && lo <= hi <= n && Flat(list) == Range(lo, hi)
    && (forall k :: 0 <= k < |list| ==> list[k].dev in ids)
    && (forall i, j :: 0 <= i < j < |list| ==> list[i].dev != list[j].dev)
  }

  /** A device with a block of consecutive layers below `n`. */
  ghost function Blocks(ids: set<DeviceID>, n: nat): set<GpuLayers> {
    set d, lo, hi | d in ids && 0 <= lo <= n && lo <= hi <= n :: GpuLayers(d, Range(lo, hi))
  }

  /** One sequence longer by one element of `a` for every sequence of `b`. */
  ghost function Extended(a: set<GpuLayers>, b: set<seq<GpuLayers>>): set<seq<GpuLayers>> {
    set x, s | x in a && s in b :: [x] + s
  }

  /** The sequences of at most `k` elements. */
  ghost function Sequences(a: set<GpuLayers>, k: nat): set<seq<GpuLayers>> {
    if k == 0 then {[]} else {[]} + Extended(a, Sequences(a, k - 1))
  }

  lemma {:induction false} FirstBlock(list: seq<GpuLayers>, lo: nat, hi: nat)
    requires list != [] && lo <= hi && Flat(list) == Range(lo, hi)
    ensures var mid := lo + |list[0].layers|;
            mid <= hi && list[0].layers == Range(lo, mid) && Flat(list[1..]) == Range(mid, hi)
  {
    var mid := lo + |list[0].layers|;
    assert Flat(list) == list[0].layers + Flat(list[1..]);
    assert list[0].layers == Flat(list)[..mid - lo] == Range(lo, mid);
    assert Flat(list[1..]) == Flat(list)[mid - lo..] == Range(mid, hi);
  }

  lemma {:induction false} RestPossible(list: seq<GpuLayers>, ids: set<DeviceID>, lo: nat, hi: nat, n: nat)
    requires list != [] && Possible(list, ids, lo, hi, n)
    ensures var mid := lo + |list[0].layers|;
            && Possible(list[1..], ids - {list[0].dev}, mid, hi, n)
            && list[0] in Blocks(ids, n) && |ids - {list[0].dev}| == |ids| - 1
  {
    FirstBlock(list, lo, hi);
    CardWithout(ids, list[0].dev);
    assert list[0] == GpuLayers(list[0].dev, Range(lo, lo + |list[0].layers|));
  }

  lemma {:induction false} KeyAmong(list: seq<GpuLayers>, ids: set<DeviceID>, lo: nat, hi: nat, n: nat)
    requires Possible(list, ids, lo, hi, n)
    ensures LayoutKey(list) in Sequences(Blocks(ids, n), |ids|)
    decreases |list|
  {
    if list == [] {
      EmptyAmong(Blocks(ids, n), |ids|);
    } else {
      var fewer := ids - {list[0].dev};
      RestPossible(list, ids, lo, hi, n);
      KeyAmong(list[1..], fewer, lo + |list[0].layers|, hi, n);
      MoreSequences(Blocks(fewer, n), Blocks(ids, n), |ids| - 1);
      KeyPrepended(list, Blocks(ids, n), |ids| - 1);
    }
  }

  lemma {:induction false} EmptyAmong(a: set<GpuLayers>, k: nat)
    ensures [] in Sequences(a, k)
  {
  }

  lemma {:induction false} KeyPrepended(list: seq<GpuLayers>, a: set<GpuLayers>, k: nat)
    requires list != [] && list[0] in a && LayoutKey(list[1..]) in Sequences(a, k)
    ensures LayoutKey(list) in Sequences(a, k + 1)
  {
    var key := LayoutKey(list[1..]);
    Longer(a, k);
    Prepended(a, k, list[0], key);
    assert [] + key == key;
  }

  lemma {:induction false} Prepended(a: set<GpuLayers>, k: nat, x: GpuLayers, s: seq<GpuLayers>)
    requires x in a && s in Sequences(a, k)
    ensures [x] + s in Sequences(a, k + 1)
  {
  }

  lemma {:induction false} MoreSequences(a: set<GpuLayers>, b: set<GpuLayers>, k: nat)
    requires a <= b
    ensures Sequences(a, k) <= Sequences(b, k)
  {
    if k > 0 { MoreSequences(a, b, k - 1); }
  }

  lemma {:induction false} Longer(a: set<GpuLayers>, k: nat)
    ensures Sequences(a, k) <= Sequences(a, k + 1)
  {
    if k > 0 { Longer(a, k - 1); }
  }

  // ---- how many there can be ----

  lemma {:induction false} ImageCard<A, B>(xs: set<A>, f: A -> B, ys: set<B>)
    requires forall y :: y in ys ==> exists x :: x in xs && f(x) == y
    ensures |ys| <= |xs|
  {
    if ys != {} {
      var y :| y in ys;
      var x :| x in xs && f(x) == y;
      forall z | z in ys - {y} ensures exists x' :: x' in xs - {x} && f(x') == z {
        var x' :| x' in xs && f(x') == z;
        assert x' in xs - {x};
      }
      ImageCard(xs - {x}, f, ys - {y});
    }
  }

  lemma {:induction false} ExtendedSplit(a: set<GpuLayers>, x: GpuLayers, b: set<seq<GpuLayers>>)
    requires x in a
    ensures Extended(a, b) <= Extended(a - {x}, b) + Extended({x}, b)
  {
    forall y | y in Extended(a, b) ensures y in Extended(a - {x}, b) + Extended({x}, b) {
      var z, s :| z in a && s in b && y == [z] + s;
      assert z in (if z == x then {x} else a - {x});
    }
  }

  /** The sequences of `b` with `x` in front. */
  lemma {:induction false} FrontCard(x: GpuLayers, b: set<seq<GpuLayers>>)
    ensures |Extended({x}, b)| <= |b|
  {
    ImageCard(b, (s: seq<GpuLayers>) => [x] + s, Extended({x}, b));
  }

  lemma {:induction false} ExtendedCard(a: set<GpuLayers>, b: set<seq<GpuLayers>>)
    ensures |Extended(a, b)| <= |a| * |b|
  {
    if a == {} {
      assert Extended(a, b) == {};
    } else {
      var x :| x in a;
      ExtendedCard(a - {x}, b);
      FrontCard(x, b);
      ExtendedSplit(a, x, b);
      SubsetCard(Extended(a, b), Extended(a - {x}, b) + Extended({x}, b));
      SumCard(Extended(a - {x}, b), Extended({x}, b));
      CardWithout(a, x);
      OneTimesMore(|a|, |b|);
    }
  }

  lemma {:induction false} SumCard<T>(a: set<T>, b: set<T>)
    ensures |a + b| <= |a| + |b|
  {
    assert a + b == a + (b - a);
    SubsetCard(b - a, b);
  }

  function SequenceBound(blocks: nat, k: nat): nat {
    if k == 0 then 1 else 1 + blocks * SequenceBound(blocks, k - 1)
  }

  lemma {:induction false} SequencesCard(a: set<GpuLayers>, k: nat, blocks: nat)
    requires |a| <= blocks
    ensures |Sequences(a, k)| <= SequenceBound(blocks, k)
  {
    if k > 0 {
      SequencesCard(a, k - 1, blocks);
      NextCard(a, Sequences(a, k - 1), k, blocks);
    }
  }

  lemma {:induction false} NextCard(a: set<GpuLayers>, shorter: set<seq<GpuLayers>>, k: nat, blocks: nat)
    requires 0 < k && |a| <= blocks && |shorter| <= SequenceBound(blocks, k - 1)
    ensures |{[]} + Extended(a, shorter)| <= SequenceBound(blocks, k)
  {
    var longer := Extended(a, shorter);
    ExtendedCard(a, shorter);
    SumCard({[]}, longer);
    Longest(|a|, blocks, |shorter|, |longer|, k);
  }

  lemma {:induction false} Longest(a: nat, blocks: nat, shorter: nat, longer: nat, k: nat)
    requires 0 < k && a <= blocks && shorter <= SequenceBound(blocks, k - 1) && longer <= a * shorter
    ensures 1 + longer <= SequenceBound(blocks, k)
  {
    Products(a, blocks, shorter, SequenceBound(blocks, k - 1));
  }

  lemma {:induction false} Products(a: nat, b: nat, c: nat, d: nat)
    requires a <= b && c <= d
    ensures a * c <= b * d
  {
    assert b * d == a * c + (b - a) * d + a * (d - c);
  }

  /** The numbers below `n`. */
  function Numbers(n: nat): (r: set<int>)
    ensures |r| == n && forall i :: i in r <==> 0 <= i < n
  {
    if n == 0 then {} else Numbers(n - 1) + {n - 1}
  }

  /** A block by the number of its coordinates. */
  function BlockAt(d: DeviceID, n: nat, c: int): GpuLayers {
    var lo, hi := c / (n + 1), c % (n + 1);
    GpuLayers(d, if lo <= hi then Range(lo, hi) else [])
  }

  lemma {:induction false} CoordinatesOf(n: nat, lo: nat, hi: nat)
    requires lo <= hi <= n
    ensures var c := Grid.At(lo, n + 1, hi); 0 <= c < (n + 1) * (n + 1) && c / (n + 1) == lo && c % (n + 1) == hi
  {
    var c := Grid.At(lo, n + 1, hi);
    Grid.AtInRange(lo, n + 1, n + 1, hi);
    Grid.AtSplit(c, n + 1, n + 1);
    Grid.AtUnique(lo, hi, c / (n + 1), c % (n + 1), n + 1);
  }

  lemma {:induction false} DeviceBlocksCard(d: DeviceID, n: nat)
    ensures |Blocks({d}, n)| <= (n + 1) * (n + 1)
  {
    var cs := Numbers((n + 1) * (n + 1));
    forall y | y in Blocks({d}, n) ensures exists c :: c in cs && BlockAt(d, n, c) == y {
      var lo, hi :| 0 <= lo <= n && lo <= hi <= n && y == GpuLayers(d, Range(lo, hi));
      CoordinatesOf(n, lo, hi);
      assert Grid.At(lo, n + 1, hi) in cs;
    }
    ImageCard(cs, (c: int) => BlockAt(d, n, c), Blocks({d}, n));
  }

  lemma {:induction false} BlocksSplit(ids: set<DeviceID>, d: DeviceID, n: nat)
    requires d in ids
    ensures Blocks(ids, n) == Blocks(ids - {d}, n) + Blocks({d}, n)
  {
    forall y | y in Blocks(ids, n) ensures y in Blocks(ids - {d}, n) + Blocks({d}, n) {
      var e, lo, hi :| e in ids && 0 <= lo <= n && lo <= hi <= n && y == GpuLayers(e, Range(lo, hi));
      assert e in (if e == d then {d} else ids - {d});
    }
  }

  lemma {:induction false} BlocksCard(ids: set<DeviceID>, n: nat, each: nat)
    requires each == (n + 1) * (n + 1)
    ensures |Blocks(ids, n)| <= |ids| * each
  {
    if ids == {} {
      assert Blocks(ids, n) == {};
    } else {
      var d :| d in ids;
      BlocksCard(ids - {d}, n, each);
      DeviceBlocksCard(d, n);
      BlocksSplit(ids, d, n);
      SumCard(Blocks(ids - {d}, n), Blocks({d}, n));
      CardWithout(ids, d);
      OneTimesMore(|ids|, each);
    }
  }

  lemma {:induction false} OneTimesMore(k: nat, each: nat)
    requires k > 0
    ensures k * each == (k - 1) * each + each
  {
  }

  /** A bound on the number of layouts of `n` layers on `devices` devices. */
  function LayoutBound(devices: nat, n: nat): nat { SequenceBound(devices * ((n + 1) * (n + 1)), devices) }

  /** There is a finite universe for all layouts of `n` layers on these devices. */
  lemma {:induction false} UniverseExists(ids: set<DeviceID>, n: nat) returns (U: set<seq<GpuLayers>>)
    ensures forall list, lo: nat, hi: nat :: Possible(list, ids, lo, hi, n) ==> LayoutKey(list) in U
    ensures |U| <= LayoutBound(|ids|, n)
  {
    U := Sequences(Blocks(ids, n), |ids|);
    BlocksCard(ids, n, (n + 1) * (n + 1));
    SequencesCard(Blocks(ids, n), |ids|, |ids| * ((n + 1) * (n + 1)));
    forall list, lo: nat, hi: nat | Possible(list, ids, lo, hi, n) ensures LayoutKey(list) in U {
      KeyAmong(list, ids, lo, hi, n);
    }
  }

  function IdsOf(gpus: seq<Device>): set<DeviceID> { set d | d in gpus :: d.id }

  lemma {:induction false} IdsCard(gpus: seq<Device>)
    ensures |IdsOf(gpus)| <= |gpus|
  {
    if gpus == [] {
      assert IdsOf(gpus) == {};
    } else {
      IdsCard(gpus[1..]);
      assert gpus == [gpus[0]] + gpus[1..];
      assert IdsOf(gpus) == IdsOf(gpus[1..]) + {gpus[0].id};
    }
  }

  // ---- every layout is on the server's devices ----

  lemma {:induction false} RoundOnDevices(list: seq<GpuLayers>, layers: LayerSizes, gpus: seq<Device>, requested: int,
                                          req: int, requireFull: bool, lastUsed: nat, spread: bool)
    requires lastUsed < |gpus|
    requires Layout.Round(list, layers, Layout.Ranked(gpus, requested, spread), req, requireFull, lastUsed, spread)
    ensures B.OnDevices(list, gpus)
  {
    var ranked := Layout.Ranked(gpus, requested, spread);
    var n := Layout.DeviceCount(layers, ranked, req, requireFull, lastUsed, spread);
    var most := B.Most(req, Layout.MayForce(ranked, n, requireFull));
    forall k | 0 <= k < |list| ensures B.Named(list[k].dev, gpus) {
      assert B.Within(layers, ranked[..n], most, list[k]);
      var d :| d in ranked[..n] && d.id == list[k].dev;
      var i :| 0 <= i < n && ranked[..n][i] == d;
      assert gpus[i] in gpus && gpus[i].id == d.id;
    }
  }

  lemma {:induction false} AssignedOnDevices(list: seq<GpuLayers>, layers: LayerSizes, gpus: seq<Device>,
                                             requireFull: bool, requested: int, lastUsed: nat, spread: bool)
    requires lastUsed < |gpus| && Layout.Assigned(list, layers, gpus, requireFull, requested, lastUsed, spread)
    ensures B.OnDevices(list, gpus)
  {
    var ranked, req := Layout.Ranked(gpus, requested, spread), Min(|layers|, requested);
    if Layout.RoundCount(layers, ranked, req, requireFull, lastUsed, spread) == |layers| {
      RoundOnDevices(list, layers, gpus, requested, req, requireFull, lastUsed, spread);
    } else {
      RoundOnDevices(list, layers[..|layers| - 1], gpus, requested, Min(|layers| - 1, req), requireFull, lastUsed,
                     spread);
    }
  }

  lemma {:induction false} RemainingOf(list: seq<GpuLayers>, gpus: seq<Device>, gl: seq<Device>, m: BackendMemory,
                                       backoff: real, overhead: nat, k: nat)
    requires 0.0 <= backoff && k < |list| && B.OnDevices(list, Remaining(gl, m, backoff, overhead))
    requires forall d :: d in gl ==> d in gpus
    ensures list[k].dev in IdsOf(gpus)
  {
    var avail := Remaining(gl, m, backoff, overhead);
    assert B.Named(list[k].dev, avail);
    var d :| d in avail && d.id == list[k].dev;
    var i :| 0 <= i < |avail| && avail[i] == d;
    assert gl[i] in gl && gl[i].id == d.id;
  }

  lemma {:induction false} BuiltOnDevices(list: seq<GpuLayers>, layers: LayerSizes, gpus: seq<Device>, m: BackendMemory,
                                          o: Options, backoff: real, g: nat)
    requires SameLayers(m) && B.DistinctIds(gpus) && 0.0 <= backoff && FromSome(list, layers, gpus, m, o, backoff, g)
    ensures forall k :: 0 <= k < |list| ==> list[k].dev in IdsOf(gpus)
  {
    if list != [] {
      var gl := B.LibraryGroups(gpus)[g];
      LibraryGroup(gpus, g);
      AssignedOnDevices(list, layers, Remaining(gl, m, backoff, o.overhead), o.requireFull, o.numGPU,
                        LastUsed(gl, m, |gl|), o.spread);
      forall k | 0 <= k < |list| ensures list[k].dev in IdsOf(gpus) {
        RemainingOf(list, gpus, gl, m, backoff, o.overhead, k);
      }
    }
  }

  /** A layout that the server builds for `n` layers from some report of the runner. */
  ghost predicate Built(list: seq<GpuLayers>, gpus: seq<Device>, n: nat) {
    exists layers, m, o, backoff, g ::
      |layers| == n && SameLayers(m) && 0.0 <= backoff && FromSome(list, layers, gpus, m, o, backoff, g)
  }

  /** Whatever the report, the layout is a block of consecutive layers on the server's devices. */
  lemma {:induction false} BuiltIsPossible(list: seq<GpuLayers>, gpus: seq<Device>, n: nat) returns (lo: nat, hi: nat)
    requires B.DistinctIds(gpus) && Built(list, gpus, n)
    ensures Possible(list, IdsOf(gpus), lo, hi, n)
  {
    var layers, m, o, backoff, g :|
      |layers| == n && SameLayers(m) && 0.0 <= backoff && FromSome(list, layers, gpus, m, o, backoff, g);
    NeverOversubscribed(list, layers, gpus, m, o, backoff, g);
    BuiltOnDevices(list, layers, gpus, m, o, backoff, g);
    lo, hi :| lo <= hi <= |layers| && Flat(list) == Range(lo, hi);
  }

  // ---- the search ends ----

  /** The layouts given to the search are those of the server, for these devices and `n` layers. */
  ghost predicate ServesLayouts(s: Surroundings, gpus: seq<Device>, n: nat) {
    forall k :: s.layouts(k).Fitting? ==> Built(s.layouts(k).list, gpus, n)
  }

  lemma {:induction false} ServerUniverse(s: Surroundings, gpus: seq<Device>, n: nat) returns (U: set<seq<GpuLayers>>)
    requires B.DistinctIds(gpus) && ServesLayouts(s, gpus, n)
    ensures s.Universe(U, n) && |U| <= LayoutBound(|IdsOf(gpus)|, n)
  {
    U := UniverseExists(IdsOf(gpus), n);
    forall k | s.layouts(k).Fitting?
      ensures LayoutKey(s.layouts(k).list) in U && |Flat(s.layouts(k).list)| <= n
    {
      var lo, hi := BuiltIsPossible(s.layouts(k).list, gpus, n);
    }
  }

  /** With layouts of the server the search ends, whatever the runner reports and answers, and the
      number of requests it sends, exploration included, is bounded by the numbers of devices and
      layers. A layout it returns is one that the server built, and the runner accepted to commit it;
      when it returns none, it says why, and the runner gives up what it loaded. */
  method LoadServer(s: Surroundings, gpus: seq<Device>, n: nat) returns (r: Result<seq<GpuLayers>, Stop>)
    requires B.DistinctIds(gpus) && ServesLayouts(s, gpus, n) && s.Valid() && !s.closed
    modifies s
    ensures s.Valid() && old(s.requests) <= s.requests && (s.closed <==> r.Err?)
    ensures |s.requests| - |old(s.requests)| <= 2 * LayoutBound(|IdsOf(gpus)|, n) + 13 * n + 1
    ensures |IdsOf(gpus)| <= |gpus|
    ensures r.Err? ==> s.Explains(r.error)
    ensures r.Ok? ==> Built(r.value, gpus, n) && Committed(s, r.value)
    ensures Orderly(s.log, {}) && (r.Ok? ==> Chosen(s.log) == Some(r.value))
  {
    ghost var U := ServerUniverse(s, gpus, n);
    IdsCard(gpus);
    r := Load(s, U, n);
  }
}
