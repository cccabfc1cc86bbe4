/** apps/web/hooks/useMyBidPolling.ts and apps/web/hooks/useTradePolling.ts: one polling chain that pauses
    while the tab is hidden and measures only visible time. The two hooks share their lifecycle; the bid
    poller has a cap on visible time, the trade poller starts from the age of its seed and has none. */
module Polling {
  import opened Wrappers

  datatype Kind = BidPoller | TradePoller

  const MAX_FAILURES: nat := 5
  const BID_POLL_CAP_MS: int := 60_000
  const UNHIDE_DEBOUNCE_MS: int := 3_000

  datatype ItemStatus = Waiting | Settled | Failed

  datatype Phase = Idle | Polling | SettledPhase | FailedPhase | Timeout | ErrorPhase

  datatype Poller = Poller(
    kind: Kind,
    item: Option<ItemStatus>,
    phase: Phase,
    timer: bool,
    inFlight: bool,
    failures: nat,
    cancelled: bool,
    stopped: bool,
    lastFetchAt: int,
    activeStart: Option<int>,
    activeAccum: int,
    // the surroundings: the tab, the clock, the replies to come
    hidden: bool,
    now: int,
    pendingReads: nat,
    // the history: reads made, visible time since mount or refresh
    readsMade: nat,
    visibleTime: int
  )

  datatype Step =
    | Tick(ms: nat)
    | TimerFires
    | ReadResolves(answer: Reply<Option<ItemStatus>>)
    | Hide
    | Show
    | Refresh
    | Unmount

  function InitialPhase(seed: Option<ItemStatus>): Phase {
    match seed
    case None => Idle
    case Some(Settled) => SettledPhase
    case Some(Failed) => FailedPhase
    case Some(Waiting) => Polling
  }

  // ---- Steps ----

  function SeedAge(kind: Kind, seed: Option<ItemStatus>, age: nat): int {
    if kind == TradePoller && seed == Some(Waiting) then age else 0
  }

  function Mounted(kind: Kind, seed: Option<ItemStatus>, age: nat, hidden: bool, now: int): (p: Poller) {
    var banked := SeedAge(kind, seed, age);
    Poller(kind, seed, InitialPhase(seed), seed == Some(Waiting) && !hidden, false, 0, false, false, now,
           if hidden then None else Some(now), banked, hidden, now, 0, 0, banked)
  }

  function Elapsed(p: Poller): int {
    p.activeAccum + (if p.activeStart.Some? then p.now - p.activeStart.value else 0)
  }

  function Schedule(p: Poller): (p': Poller) {
    if p.stopped || p.cancelled || p.hidden then p else p.(timer := true)
  }

  function Poll(p: Poller): (p': Poller) {
    if p.inFlight || p.stopped || p.cancelled then p
    else p.(inFlight := true, pendingReads := p.pendingReads + 1, readsMade := p.readsMade + 1)
  }

  function Stop(p: Poller, phase: Phase): (p': Poller) {
    p.(stopped := true, phase := phase)
  }

  function OnFailure(p: Poller, code: string): (p': Poller) {
    if code == "SESSION_EXPIRED" then Stop(p, ErrorPhase)
    else
      var n := p.(failures := p.failures + 1);
      if n.failures >= MAX_FAILURES then Stop(n, ErrorPhase) else Schedule(n)
  }

  function PollOn(p: Poller): (p': Poller) {
    if p.kind == BidPoller && Elapsed(p) >= BID_POLL_CAP_MS then Stop(p, Timeout) else Schedule(p.(phase := Polling))
  }

  function OnFound(p: Poller, found: Option<ItemStatus>): (p': Poller) {
    var n := p.(failures := 0, item := if found.None? && p.kind == TradePoller then p.item else found);
    match found
    case Some(Settled) => Stop(n, SettledPhase)
    case Some(Failed) => Stop(n, FailedPhase)
    case _ => PollOn(n)
  }

  function OnReadResolves(p: Poller, answer: Reply<Option<ItemStatus>>): (p': Poller)
    requires p.pendingReads > 0
  {
    var n := p.(pendingReads := p.pendingReads - 1, inFlight := false);
    if p.cancelled then n
    else match answer
      case Failure(code) => OnFailure(n.(lastFetchAt := p.now), code)
      case Success(found) => OnFound(n.(lastFetchAt := p.now), found)
  }

  function OnHide(p: Poller): (p': Poller) {
    var n := p.(hidden := true);
    if p.cancelled then n
    else n.(activeAccum := Elapsed(p), activeStart := None, timer := false)
  }

  function OnShow(p: Poller): (p': Poller) {
    var n := p.(hidden := false);
    if p.cancelled || p.stopped then n
    else
      var m := n.(activeStart := Some(p.now));
      if m.inFlight || m.now - m.lastFetchAt < UNHIDE_DEBOUNCE_MS then Schedule(m) else Poll(m)
  }

  function OnRefresh(p: Poller): (p': Poller) {
    if p.cancelled || p.inFlight then p
    else Poll(p.(timer := false, failures := 0, stopped := false, activeAccum := 0,
                 activeStart := if p.hidden then None else Some(p.now), phase := Polling,
                 visibleTime := 0))
  }

  predicate Enabled(p: Poller, step: Step) {
    match step
    case TimerFires => p.timer
    case ReadResolves(_) => p.pendingReads > 0
    case Hide => !p.hidden
    case Show => p.hidden
    case _ => true
  }

  function Next(p: Poller, step: Step): (p': Poller)
    requires Enabled(p, step)
  {
    match step
    case Tick(ms) => p.(now := p.now + ms, visibleTime := p.visibleTime + (if p.hidden then 0 else ms))
    case TimerFires => Poll(p.(timer := false))
    case ReadResolves(answer) => OnReadResolves(p, answer)
    case Hide => OnHide(p)
    case Show => OnShow(p)
    case Refresh => OnRefresh(p)
    case Unmount => p.(cancelled := true, timer := false)
  }

  ghost predicate Reaches(start: Poller, steps: seq<Step>, p: Poller)
    decreases |steps|
  {
    if steps == [] then p == start
    else
      var last := steps[|steps| - 1];
      exists before ::
        Reaches(start, steps[..|steps| - 1], before) && Enabled(before, last) && p == Next(before, last)
  }

  // ---- The invariant ----

  /** Polling has been set going: by a waiting seed, an un-hide or a refresh. */
  predicate Going(seed: Option<ItemStatus>, steps: seq<Step>) {
    seed == Some(Waiting) || Show in steps || Refresh in steps
  }

  ghost predicate Inv(p: Poller, going: bool) {
    && p.pendingReads == (if p.inFlight then 1 else 0)
    && (p.timer ==> !p.hidden && !p.cancelled && going)
    && (going && !p.stopped && !p.cancelled && !p.hidden ==> p.timer || p.inFlight)
    && (!going ==> !p.inFlight && p.readsMade == 0 && !p.stopped)
    && (p.stopped ==> !p.inFlight)
    && (p.phase == Timeout ==> p.stopped && p.kind == BidPoller)
    && (!p.stopped && !p.cancelled ==>
          && (p.activeStart.None? <==> p.hidden)
          && Elapsed(p) == p.visibleTime)
  }

  lemma {:induction false} ReadKeeps(p: Poller, going: bool, answer: Reply<Option<ItemStatus>>)
    requires Inv(p, going) && p.pendingReads > 0
    ensures Inv(OnReadResolves(p, answer), going)
  {
  }

  lemma {:induction false} VisibilityKeeps(p: Poller, going: bool)
    requires Inv(p, going)
    ensures !p.hidden ==> Inv(OnHide(p), going)
    ensures p.hidden ==> Inv(OnShow(p), true)
  {
  }

  lemma {:induction false} StepKeepsInv(p: Poller, going: bool, step: Step)
    requires Inv(p, going) && Enabled(p, step)
    ensures Inv(Next(p, step), going || step == Show || step == Refresh) && Next(p, step).kind == p.kind
  {
    match step
    case ReadResolves(answer) => ReadKeeps(p, going, answer);
    case Hide => VisibilityKeeps(p, going);
    case Show => VisibilityKeeps(p, going);
    case _ =>
  }

  // The same, step by step.
  predicate GoingAfter(waiting: bool, steps: seq<Step>) {
    if steps == [] then waiting
    else
      var last := steps[|steps| - 1];
      GoingAfter(waiting, steps[..|steps| - 1]) || last == Show || last == Refresh
  }

  lemma {:induction false} GoingIsSteps(seed: Option<ItemStatus>, steps: seq<Step>)
    ensures GoingAfter(seed == Some(Waiting), steps) <==> Going(seed, steps)
  {
    if steps != [] {
      var last, front := steps[|steps| - 1], steps[..|steps| - 1];
      GoingIsSteps(seed, front);
      assert forall step :: step in steps <==> step in front || step == last;
    }
  }

  lemma {:induction false} EveryRun(start: Poller, waiting: bool, steps: seq<Step>, p: Poller)
    requires Inv(start, waiting) && Reaches(start, steps, p)
    ensures Inv(p, GoingAfter(waiting, steps)) && p.kind == start.kind
    decreases |steps|
  {
    if steps != [] {
      var last, front := steps[|steps| - 1], steps[..|steps| - 1];
      var before :| Reaches(start, front, before) && Enabled(before, last) && p == Next(before, last);
      EveryRun(start, waiting, front, before);
      StepKeepsInv(before, GoingAfter(waiting, front), last);
    }
  }

  // Every run of a mounted poller.
  lemma {:induction false} EveryMountedRun(kind: Kind, seed: Option<ItemStatus>, age: nat, hidden: bool, now: int,
                                           steps: seq<Step>, p: Poller)
    requires Reaches(Mounted(kind, seed, age, hidden, now), steps, p)
    ensures Inv(p, Going(seed, steps)) && p.kind == kind
  {
    EveryRun(Mounted(kind, seed, age, hidden, now), seed == Some(Waiting), steps, p);
    GoingIsSteps(seed, steps);
  }

  // ---- What holds in every run ----

  /** One chain: never two reads at once, never a timer while hidden. A visible, unstopped, mounted poller has a timer
      or a read in flight if and only if its seed was waiting or it was un-hidden or refreshed; one that was not never
      reads. */
  lemma {:induction false} OneChain(kind: Kind, seed: Option<ItemStatus>, age: nat, hidden: bool, now: int,
                                    steps: seq<Step>, p: Poller)
    requires Reaches(Mounted(kind, seed, age, hidden, now), steps, p)
    ensures p.pendingReads <= 1 && (p.inFlight <==> p.pendingReads == 1)
    ensures p.timer ==> !p.hidden && !p.cancelled
    ensures !p.hidden && !p.stopped && !p.cancelled ==>
              (p.timer || p.inFlight <==> seed == Some(Waiting) || Show in steps || Refresh in steps)
    ensures seed != Some(Waiting) && Show !in steps && Refresh !in steps ==> p.readsMade == 0
  {
    EveryMountedRun(kind, seed, age, hidden, now, steps, p);
  }

  /** So a null or terminal seed, which arms nothing at mount, polls all the same after a hide and an un-hide. */
  lemma {:induction false} UnhidePollsAnySeed(kind: Kind, seed: Option<ItemStatus>, age: nat, now: int)
    returns (steps: seq<Step>, p: Poller)
    requires seed != Some(Waiting)
    ensures steps == [Hide, Tick(5000), Show]
    ensures !Mounted(kind, seed, age, false, now).timer
    ensures Reaches(Mounted(kind, seed, age, false, now), steps, p) && p.readsMade == 1 && p.inFlight
  {
    var start := Mounted(kind, seed, age, false, now);
    var hidden := OnHide(start);
    var later := Next(hidden, Tick(5000));
    p := OnShow(later);
    Extend(start, [], start, Hide, hidden);
    Extend(start, [] + [Hide], hidden, Tick(5000), later);
    Extend(start, [] + [Hide] + [Tick(5000)], later, Show, p);
    steps := [] + [Hide] + [Tick(5000)] + [Show];
  }

  lemma {:induction false} Extend(start: Poller, steps: seq<Step>, p: Poller, step: Step, p': Poller)
    requires Reaches(start, steps, p) && Enabled(p, step) && p' == Next(p, step)
    ensures Reaches(start, steps + [step], p')
  {
    var longer := steps + [step];
    assert longer[..|longer| - 1] == steps && longer[|longer| - 1] == step;
    assert Reaches(start, longer[..|longer| - 1], p);
  }

  /** After a stop nothing but a refresh makes a read or ends the stop. */
  lemma {:induction false} StopsUntilRefresh(kind: Kind, seed: Option<ItemStatus>, age: nat, hidden: bool, now: int,
                                             steps: seq<Step>, p: Poller, step: Step)
    requires Reaches(Mounted(kind, seed, age, hidden, now), steps, p)
    requires p.stopped && step != Refresh && Enabled(p, step)
    ensures Next(p, step).stopped && Next(p, step).readsMade == p.readsMade && Next(p, step).pendingReads == 0
  {
    EveryMountedRun(kind, seed, age, hidden, now, steps, p);
    StoppedStays(p, Going(seed, steps), step);
  }

  lemma {:induction false} StoppedStays(p: Poller, going: bool, step: Step)
    requires Inv(p, going) && p.stopped && step != Refresh && Enabled(p, step)
    ensures Next(p, step).stopped && Next(p, step).readsMade == p.readsMade && Next(p, step).pendingReads == 0
  {
  }

  lemma {:induction false} ReadTimesOut(p: Poller, going: bool, answer: Reply<Option<ItemStatus>>)
    requires Inv(p, going) && p.pendingReads > 0 && !p.cancelled
    ensures OnReadResolves(p, answer).phase == Timeout <==>
              && p.kind == BidPoller
              && answer.Success? && answer.value != Some(Settled) && answer.value != Some(Failed)
              && p.visibleTime >= BID_POLL_CAP_MS
  {
  }

  /** This answer ends the polling of a mounted poller until a refresh. */
  predicate Stops(p: Poller, answer: Reply<Option<ItemStatus>>) {
    match answer
    case Failure(code) => code == "SESSION_EXPIRED" || p.failures + 1 >= MAX_FAILURES
    case Success(found) =>
      found == Some(Settled) || found == Some(Failed) || (p.kind == BidPoller && p.visibleTime >= BID_POLL_CAP_MS)
  }

  /** What an answer tells a mounted poller: the last known item survives a failure, and the trade poller's an absent
      one too; failures are counted in a row; a terminal item is shown as such; only a bid times out, by the time its tab
      was visible. */
  predicate AnswerTells(p: Poller, answer: Reply<Option<ItemStatus>>, n: Poller) {
    match answer
    case Failure(code) =>
      && n.item == p.item
      && n.phase == (if Stops(p, answer) then ErrorPhase else p.phase)
      && n.failures == (if code == "SESSION_EXPIRED" then p.failures else p.failures + 1)
    case Success(found) =>
      && n.failures == 0
      && (found.Some? || p.kind == BidPoller ==> n.item == found)
      && (found.None? && p.kind == TradePoller ==> n.item == p.item)
      && (n.phase == SettledPhase <==> found == Some(Settled))
      && (n.phase == FailedPhase <==> found == Some(Failed))
      && (n.phase == Timeout <==> Stops(p, answer) && found != Some(Settled) && found != Some(Failed))
      && (n.phase == Phase.Polling <==> !Stops(p, answer))
  }

  lemma {:induction false} ReadTells(p: Poller, going: bool, answer: Reply<Option<ItemStatus>>)
    requires Inv(p, going) && p.pendingReads > 0 && !p.cancelled
    ensures AnswerTells(p, answer, OnReadResolves(p, answer))
    ensures OnReadResolves(p, answer).lastFetchAt == p.now
  {
  }

  lemma {:induction false} ReadStops(p: Poller, going: bool, answer: Reply<Option<ItemStatus>>)
    requires Inv(p, going) && p.pendingReads > 0
    ensures !p.cancelled ==> (OnReadResolves(p, answer).stopped <==> Stops(p, answer))
  {
  }

  /** While not stopped, banked plus current segment is exactly the visible time since mount (plus the age of
      a waiting trade) or since the last refresh; so a bid poller times out exactly on a successful,
      non-terminal read at a visible time of at least the cap, and a trade poller never does. */
  lemma {:induction false} TimeoutIsVisibleTime(kind: Kind, seed: Option<ItemStatus>, age: nat, hidden: bool, now: int,
                                                steps: seq<Step>, p: Poller, answer: Reply<Option<ItemStatus>>)
    requires Reaches(Mounted(kind, seed, age, hidden, now), steps, p)
    ensures !p.stopped && !p.cancelled ==> Elapsed(p) == p.visibleTime
    ensures p.pendingReads > 0 && !p.cancelled ==>
              (OnReadResolves(p, answer).phase == Timeout <==>
                && kind == BidPoller
                && answer.Success? && answer.value != Some(Settled) && answer.value != Some(Failed)
                && p.visibleTime >= BID_POLL_CAP_MS)
    ensures kind == TradePoller ==> p.phase != Timeout
  {
    EveryMountedRun(kind, seed, age, hidden, now, steps, p);
    if p.pendingReads > 0 && !p.cancelled {
      ReadTimesOut(p, Going(seed, steps), answer);
    }
  }
}
