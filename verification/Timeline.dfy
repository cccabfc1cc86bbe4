/** apps/web/components/artwork/ArtworkTimeline.tsx: the pager behind the artwork timeline. A reducer that
    React commits later than it is dispatched to, a lock that gates loads and toggles, and a server with
    cursors. What is shown must be a plain walk along the cursors, whatever the interleaving. */
module Timeline {
  import opened Wrappers

  const EMPTY_FOLLOW_CAP: nat := 3

  datatype TailStatus = Idle | Loading | Error

  datatype State = State(
    events: seq<string>,
    cursor: Option<string>,
    expand: bool,
    additionalEventsCount: nat,
    droppedCount: nat,
    tailStatus: TailStatus,
    emptyFollowStreak: nat
  )

  datatype Page = Page(events: seq<string>, next: Option<string>, additional: nat, dropped: nat)

  datatype Action =
    | AppendStart
    | AppendOk(events: seq<string>, next: Option<string>, addDropped: nat)
    | AppendErr
    | ReplaceStart
    | ReplaceOk(expand: bool, page: Page)
    | ReplaceErr

  function InitState(initial: Reply<Page>): (s: State) {
    match initial
    case Success(p) => State(p.events, p.next, false, p.additional, p.dropped, Idle, 0)
    case Failure(_) => State([], None, false, 0, 0, Error, 0)
  }

  function Reduce(s: State, a: Action): (s': State) {
    match a
    case AppendStart => s.(tailStatus := Loading)
    case AppendOk(events, next, addDropped) =>
      var streak := if events == [] && next.Some? then s.emptyFollowStreak + 1 else 0;
      s.(events := s.events + events,
         cursor := if streak >= EMPTY_FOLLOW_CAP then None else next,
         droppedCount := s.droppedCount + addDropped,
         tailStatus := Idle,
         emptyFollowStreak := streak)
    case AppendErr => s.(tailStatus := Error)
    case ReplaceStart => s.(tailStatus := Loading)
    case ReplaceOk(expand, p) => State(p.events, p.next, expand, p.additional, p.dropped, Idle, 0)
    case ReplaceErr => s.(tailStatus := Error)
  }

  function ReduceAll(s: State, actions: seq<Action>): (s': State)
    decreases |actions|
  {
    if actions == [] then s else ReduceAll(Reduce(s, actions[0]), actions[1..])
  }

  // ---- The reference: a plain walk ----

  /** A snapshot server: the page for a mode and a cursor (None for the first page). */
  type Server = (bool, Option<string>) -> Page

  /** The first pages of a mode, one after another along the cursors; it stays put after the last page. */
  function Walk(server: Server, expand: bool, k: nat): (pages: seq<Page>)
    ensures |pages| <= k
    ensures k > 0 ==> |pages| > 0
  {
    if k == 0 then []
    else if k == 1 then [server(expand, None)]
    else
      var before := Walk(server, expand, k - 1);
      var next := before[|before| - 1].next;
      if next.None? then before else before + [server(expand, next)]
  }

  function Events(pages: seq<Page>): (events: seq<string>) {
    if pages == [] then [] else Events(pages[..|pages| - 1]) + pages[|pages| - 1].events
  }

  function Dropped(pages: seq<Page>): (n: nat) {
    if pages == [] then 0 else Dropped(pages[..|pages| - 1]) + pages[|pages| - 1].dropped
  }

  predicate EmptyFollow(p: Page) {
    p.events == [] && p.next.Some?
  }

  /** How many pages at the end are follow-ups that were empty although they named a next cursor. */
  function EmptyTail(pages: seq<Page>): (n: nat)
    ensures n < |pages| || n == |pages| == 0
  {
    if |pages| <= 1 || !EmptyFollow(pages[|pages| - 1]) then 0
    else EmptyTail(pages[..|pages| - 1]) + 1
  }

  /** The state shows exactly the first k pages of its mode; k == 0 is the failed first load. */
  ghost predicate Shows(server: Server, s: State, k: nat) {
    var pages := Walk(server, s.expand, k);
    && |pages| == k
    && s.events == Events(pages)
    && s.droppedCount == Dropped(pages)
    && s.emptyFollowStreak == EmptyTail(pages)
    && s.cursor == (if k == 0 || EmptyTail(pages) >= EMPTY_FOLLOW_CAP then None else pages[k - 1].next)
    && s.additionalEventsCount == (if k == 0 then 0 else pages[0].additional)
  }

  // ---- The component ----

  datatype Request = Append(expand: bool, cursor: string) | Replace(expand: bool)

  datatype Component = Component(
    shown: State,             // the committed state, which every handler's closure reads
    queue: seq<Action>,       // dispatched, not yet committed
    lock: bool,
    requests: seq<Request>,   // sent, not yet answered
    alive: bool
  )

  datatype Step =
    | LoadMore
    | ReplaceFromFirstPage(targetExpand: bool)
    | Answer(i: nat, ok: bool) // an outstanding request resolves, with its page or with an error
    | Commit(n: nat)          // React commits the first n dispatched actions and runs the effects
    | Unmount

  function Initial(initial: Reply<Page>): Component {
    Component(InitState(initial), [], false, [], true)
  }

  function OnLoadMore(c: Component): (c': Component) {
    if c.lock || c.shown.cursor.None? then c
    else c.(lock := true, queue := c.queue + [AppendStart],
            requests := c.requests + [Append(c.shown.expand, c.shown.cursor.value)])
  }

  function OnReplace(c: Component, targetExpand: bool): (c': Component) {
    if c.lock then c
    else c.(lock := true, queue := c.queue + [ReplaceStart], requests := c.requests + [Replace(targetExpand)])
  }

  function Resolved(server: Server, r: Request, ok: bool): (a: Action) {
    match r
    case Append(expand, cursor) =>
      if !ok then AppendErr
      else var p := server(expand, Some(cursor)); AppendOk(p.events, p.next, p.dropped)
    case Replace(expand) => if !ok then ReplaceErr else ReplaceOk(expand, server(expand, None))
  }

  function OnAnswer(server: Server, c: Component, i: nat, ok: bool): (c': Component)
    requires i < |c.requests|
  {
    var n := c.(requests := c.requests[..i] + c.requests[i + 1..]);
    if !c.alive then n else n.(queue := c.queue + [Resolved(server, c.requests[i], ok)])
  }

  // An OK action always builds a new events array, even when it is equal to the old one.
  predicate NewEvents(actions: seq<Action>) {
    exists i :: 0 <= i < |actions| && (actions[i].AppendOk? || actions[i].ReplaceOk?)
  }

  // The release effect runs when the tail status or the events array changed in this commit.
  function OnCommit(c: Component, n: nat): (c': Component)
    requires n <= |c.queue|
  {
    var next := ReduceAll(c.shown, c.queue[..n]);
    var effectRuns := next.tailStatus != c.shown.tailStatus || NewEvents(c.queue[..n]);
    c.(shown := next, queue := c.queue[n..], lock := c.lock && !(effectRuns && next.tailStatus != Loading))
  }

  predicate Enabled(c: Component, step: Step) {
    match step
    case Answer(i, _) => i < |c.requests|
    case Commit(n) => n <= |c.queue|
    case _ => true
  }

  function Next(server: Server, c: Component, step: Step): (c': Component)
    requires Enabled(c, step)
  {
    match step
    case LoadMore => OnLoadMore(c)
    case ReplaceFromFirstPage(target) => OnReplace(c, target)
    case Answer(i, ok) => OnAnswer(server, c, i, ok)
    case Commit(n) => OnCommit(c, n)
    case Unmount => c.(alive := false)
  }

  /** c is reached from the server-rendered first page by these steps. With `startsCommitFirst`, every START
      is committed before its answer arrives; `failedFirst` says the first page failed to load. */
  ghost predicate Reaches(server: Server, failedFirst: bool, steps: seq<Step>, c: Component, startsCommitFirst: bool)
    decreases |steps|
  {
    if steps == [] then
      c == Initial(if failedFirst then Failure("") else Success(server(false, None)))
    else
      var last := steps[|steps| - 1];
      exists before ::
        && Reaches(server, failedFirst, steps[..|steps| - 1], before, startsCommitFirst)
        && Enabled(before, last)
        && (startsCommitFirst && last.Answer? ==> before.queue == [])
        && c == Next(server, before, last)
  }

  // ---- The invariant ----

  predicate IsResult(a: Action) {
    !a.AppendStart? && !a.ReplaceStart?
  }

  /** A dispatched page answers exactly what the committed state would ask for now. */
  ghost predicate FitsShown(server: Server, s: State, a: Action) {
    match a
    case AppendOk(events, next, addDropped) =>
      s.cursor.Some? && var p := server(s.expand, s.cursor); p.events == events && p.next == next && p.dropped == addDropped
    case ReplaceOk(expand, p) => p == server(expand, None)
    case _ => true
  }

  ghost predicate RequestFits(s: State, r: Request) {
    r.Append? ==> r.expand == s.expand && s.cursor == Some(r.cursor)
  }

  ghost predicate IsWalk(server: Server, s: State) {
    exists k :: Shows(server, s, k)
  }

  /** One thing is on its way at a time, in order, and it was asked for by the state still shown. */
  ghost predicate InOrder(server: Server, c: Component) {
    && |c.requests| <= 1 && |c.queue| <= 2
    && (!c.lock ==> c.requests == [] && c.queue == [])
    && (forall i :: 0 <= i < |c.queue| ==> FitsShown(server, c.shown, c.queue[i]))
    && (forall i :: 0 <= i < |c.queue| ==> (IsResult(c.queue[i]) ==> i == |c.queue| - 1 && c.requests == []))
    && (|c.queue| == 2 ==> IsResult(c.queue[1]))
    && (|c.requests| == 1 ==> RequestFits(c.shown, c.requests[0]))
    && (|c.requests| == 1 && c.queue == [] ==> c.shown.tailStatus == Loading)
    && (|c.queue| == 1 && IsResult(c.queue[0]) ==> c.shown.tailStatus == Loading)
  }

  ghost predicate Inv(server: Server, c: Component) {
    IsWalk(server, c.shown) && InOrder(server, c)
  }

  /** With STARTs committed first, the lock is held only while something is on its way. */
  ghost predicate LockLive(c: Component) {
    && (c.alive && c.lock ==> c.requests != [] || (c.queue != [] && IsResult(c.queue[0])))
    && |c.queue| <= 1
  }

  // ---- The reducer walks ----

  lemma {:induction false} OneMorePage(server: Server, s: State, k: nat)
    requires Shows(server, s, k) && s.cursor.Some?
    ensures var p := server(s.expand, s.cursor);
            Shows(server, Reduce(s, AppendOk(p.events, p.next, p.dropped)), k + 1)
  {
    var pages := Walk(server, s.expand, k);
    var p := server(s.expand, s.cursor);
    assert Walk(server, s.expand, k + 1) == pages + [p];
    assert (pages + [p])[..k] == pages;
  }

  lemma {:induction false} FirstPage(server: Server, s: State, expand: bool)
    ensures Shows(server, Reduce(s, ReplaceOk(expand, server(expand, None))), 1)
  {
    var p := server(expand, None);
    assert Walk(server, expand, 1) == [p] && [p][..0] == [];
  }

  lemma {:induction false} ReduceShows(server: Server, s: State, a: Action)
    requires IsWalk(server, s) && FitsShown(server, s, a)
    ensures IsWalk(server, Reduce(s, a))
  {
    var k :| Shows(server, s, k);
    match a
    case AppendOk(_, _, _) => OneMorePage(server, s, k);
    case ReplaceOk(expand, _) => FirstPage(server, s, expand);
    case _ => assert Shows(server, Reduce(s, a), k);
  }

  lemma {:induction false} InitialShows(server: Server, failedFirst: bool)
    ensures Inv(server, Initial(if failedFirst then Failure("") else Success(server(false, None))))
    ensures var s := InitState(if failedFirst then Failure("") else Success(server(false, None)));
            && Shows(server, s, if failedFirst then 0 else 1) && !s.expand
            && s.tailStatus == if failedFirst then Error else Idle
  {
    var s := InitState(if failedFirst then Failure("") else Success(server(false, None)));
    if failedFirst {
      assert Shows(server, s, 0);
    } else {
      FirstPage(server, s, false);
      assert s == Reduce(s, ReplaceOk(false, server(false, None)));
    }
  }

  lemma {:induction false} ReduceFew(s: State, a: Action, b: Action)
    ensures ReduceAll(s, []) == s
    ensures ReduceAll(s, [a]) == Reduce(s, a)
    ensures ReduceAll(s, [a, b]) == Reduce(Reduce(s, a), b)
  {
    assert [a][1..] == [] && [a, b][1..] == [b] && [b][1..] == [];
    assert ReduceAll(Reduce(s, a), [b]) == ReduceAll(Reduce(Reduce(s, a), b), []);
  }

  // A commit of the whole queue leaves nothing queued.
  lemma {:induction false} EmptyKeeps(server: Server, c: Component, shown: State, lock: bool)
    requires InOrder(server, c) && |c.queue| > 0
    requires IsResult(c.queue[|c.queue| - 1]) || (lock && shown == c.shown.(tailStatus := Loading))
    ensures InOrder(server, c.(shown := shown, queue := [], lock := lock))
  {
  }

  lemma {:induction false} CommitOne(server: Server, c: Component)
    requires Inv(server, c) && |c.queue| >= 1
    ensures Inv(server, OnCommit(c, 1))
  {
    var a := c.queue[0];
    ReduceFew(c.shown, a, a);
    ReduceShows(server, c.shown, a);
    assert c.queue[..1] == [a];
    assert !IsResult(a) ==> !NewEvents([a]);
    if |c.queue| == 1 {
      assert c.queue[1..] == [];
      EmptyKeeps(server, c, Reduce(c.shown, a), OnCommit(c, 1).lock);
    } else {
      assert c.queue[1..] == [c.queue[1]];
      assert !IsResult(a) && FitsShown(server, c.shown, c.queue[1]);
    }
  }

  lemma {:induction false} CommitTwo(server: Server, c: Component)
    requires Inv(server, c) && |c.queue| == 2
    ensures Inv(server, OnCommit(c, 2))
  {
    var a, b := c.queue[0], c.queue[1];
    ReduceFew(c.shown, a, b);
    assert FitsShown(server, c.shown, b) && !IsResult(a) && IsResult(b);
    ReduceShows(server, c.shown, a);
    ReduceShows(server, Reduce(c.shown, a), b);
    assert c.queue[..2] == [a, b] && c.queue[2..] == [];
    EmptyKeeps(server, c, Reduce(Reduce(c.shown, a), b), OnCommit(c, 2).lock);
  }

  lemma {:induction false} CommitKeeps(server: Server, c: Component, n: nat)
    requires Inv(server, c) && n <= |c.queue|
    ensures Inv(server, OnCommit(c, n))
  {
    if n == 0 {
      assert c.queue[..0] == [] && c.queue[0..] == c.queue;
    } else if n == 1 {
      CommitOne(server, c);
    } else {
      CommitTwo(server, c);
    }
  }

  lemma {:induction false} LoadMoreKeeps(server: Server, c: Component)
    requires InOrder(server, c)
    ensures InOrder(server, OnLoadMore(c))
  {
  }

  lemma {:induction false} ReplaceKeeps(server: Server, c: Component, targetExpand: bool)
    requires InOrder(server, c)
    ensures InOrder(server, OnReplace(c, targetExpand))
  {
  }

  lemma {:induction false} AnswerKeeps(server: Server, c: Component, i: nat, ok: bool)
    requires InOrder(server, c) && i < |c.requests|
    ensures InOrder(server, OnAnswer(server, c, i, ok))
    ensures OnAnswer(server, c, i, ok).requests == []
    ensures c.alive ==> FitsShown(server, c.shown, Resolved(server, c.requests[i], ok))
  {
    assert FitsShown(server, c.shown, Resolved(server, c.requests[0], ok));
  }

  lemma {:induction false} StepKeepsInv(server: Server, c: Component, step: Step)
    requires Inv(server, c) && Enabled(c, step)
    ensures Inv(server, Next(server, c, step))
  {
    match step
    case LoadMore => LoadMoreKeeps(server, c);
    case ReplaceFromFirstPage(target) => ReplaceKeeps(server, c, target);
    case Answer(i, ok) => AnswerKeeps(server, c, i, ok);
    case Commit(n) => CommitKeeps(server, c, n);
    case Unmount =>
  }

  lemma {:induction false} StepKeepsLive(server: Server, c: Component, step: Step)
    requires Inv(server, c) && LockLive(c) && Enabled(c, step)
    requires step.Answer? ==> c.queue == []
    ensures LockLive(Next(server, c, step))
  {
    if step.Commit? {
      if step.n == 0 {
        assert c.queue[..0] == [] && c.queue[0..] == c.queue;
      } else {
        ReleaseIsExact(server, c);
      }
    }
  }

  // ---- What holds in every run ----

  lemma {:induction false} EveryRun(server: Server, failedFirst: bool, steps: seq<Step>, c: Component,
                                    startsCommitFirst: bool)
    requires Reaches(server, failedFirst, steps, c, startsCommitFirst)
    ensures Inv(server, c)
    ensures startsCommitFirst ==> LockLive(c)
    decreases |steps|
  {
    if steps == [] {
      InitialShows(server, failedFirst);
    } else {
      var last := steps[|steps| - 1];
      var before :|
        && Reaches(server, failedFirst, steps[..|steps| - 1], before, startsCommitFirst)
        && Enabled(before, last)
        && (startsCommitFirst && last.Answer? ==> before.queue == [])
        && c == Next(server, before, last);
      EveryRun(server, failedFirst, steps[..|steps| - 1], before, startsCommitFirst);
      StepKeepsInv(server, before, last);
      if startsCommitFirst {
        StepKeepsLive(server, before, last);
      }
    }
  }

  /** Committing an answer frees the lock, except when it is an error that is committed together with its own
      START while the tail already shows an error: then nothing the effect watches has changed. */
  lemma {:induction false} ReleaseIsExact(server: Server, c: Component)
    requires Inv(server, c) && c.queue != []
    ensures var last := c.queue[|c.queue| - 1];
            OnCommit(c, |c.queue|).lock <==>
              c.lock && (!IsResult(last) || (|c.queue| == 2 && (last.AppendErr? || last.ReplaceErr?)
                                             && c.shown.tailStatus == Error))
  {
    var q := c.queue;
    assert q[..|q|] == q;
    var last := q[|q| - 1];
    if |q| == 1 {
      ReduceFew(c.shown, q[0], q[0]);
      assert q == [q[0]];
    } else {
      ReduceFew(c.shown, q[0], q[1]);
      assert q == [q[0], q[1]] && !IsResult(q[0]);
    }
  }

  // ---- What an answer brings ----

  /** The action an answer is turned into: the page that was asked for, if it came, or the error of that request. */
  ghost predicate IsAnswer(server: Server, r: Request, ok: bool, a: Action) {
    && (a.AppendOk? <==> ok && r.Append?)
    && (a.AppendErr? <==> !ok && r.Append?)
    && (a.ReplaceOk? <==> ok && r.Replace?)
    && (a.ReplaceErr? <==> !ok && r.Replace?)
    && (a.AppendOk? ==>
          var p := server(r.expand, Some(r.cursor)); a.events == p.events && a.next == p.next && a.addDropped == p.dropped)
    && (a.ReplaceOk? ==> a.expand == r.expand && a.page == server(r.expand, None))
  }

  /** An answer to a mounted component is dispatched after what was there before; it is the page or the error. */
  lemma {:induction false} AnswerMeans(server: Server, c: Component, i: nat, ok: bool)
    requires Inv(server, c) && i < |c.requests|
    ensures var n := OnAnswer(server, c, i, ok);
            && n.requests == []
            && (!c.alive ==> n.queue == c.queue)
            && (c.alive ==>
                  && n.queue != [] && n.queue[..|n.queue| - 1] == c.queue
                  && IsAnswer(server, c.requests[i], ok, n.queue[|n.queue| - 1])
                  && FitsShown(server, c.shown, n.queue[|n.queue| - 1]))
  {
    AnswerKeeps(server, c, i, ok);
    AnswerIsPage(server, c.requests[i], ok);
    var n := OnAnswer(server, c, i, ok);
    assert c.alive ==> n.queue[..|n.queue| - 1] == c.queue;
  }

  lemma {:induction false} AnswerIsPage(server: Server, r: Request, ok: bool)
    ensures IsAnswer(server, r, ok, Resolved(server, r, ok))
  {
  }

  /** What committing an action makes of a walk of k pages: one page more in the same mode, the first page of the mode
      asked for, or the same walk with the tail loading or in error. */
  ghost predicate Tells(server: Server, s: State, k: nat, a: Action, s': State) {
    match a
    case AppendOk(_, _, _) => Shows(server, s', k + 1) && s'.expand == s.expand && s'.tailStatus == Idle
    case ReplaceOk(expand, _) => Shows(server, s', 1) && s'.expand == expand && s'.tailStatus == Idle
    case AppendStart => s' == s.(tailStatus := Loading)
    case ReplaceStart => s' == s.(tailStatus := Loading)
    case AppendErr => s' == s.(tailStatus := Error)
    case ReplaceErr => s' == s.(tailStatus := Error)
  }

  lemma {:induction false} ReduceTells(server: Server, s: State, k: nat, a: Action)
    requires Shows(server, s, k) && FitsShown(server, s, a)
    ensures Tells(server, s, k, a, Reduce(s, a))
  {
    match a
    case AppendOk(_, _, _) => OneMorePage(server, s, k);
    case ReplaceOk(expand, _) => FirstPage(server, s, expand);
    case _ =>
  }

  /** A commit of everything dispatched shows what its last action brings, however the actions were batched. */
  lemma {:induction false} CommitTells(server: Server, c: Component, k: nat)
    requires Inv(server, c) && c.queue != [] && Shows(server, c.shown, k)
    ensures Tells(server, c.shown, k, c.queue[|c.queue| - 1], OnCommit(c, |c.queue|).shown)
  {
    var q := c.queue;
    assert q[..|q|] == q;
    if |q| == 1 {
      assert q == [q[0]];
      ReduceFew(c.shown, q[0], q[0]);
      ReduceTells(server, c.shown, k, q[0]);
    } else {
      assert q == [q[0], q[1]] && !IsResult(q[0]);
      ReduceFew(c.shown, q[0], q[1]);
      assert FitsShown(server, c.shown, q[1]);
      TailTells(server, c.shown, k, q[0], q[1]);
    }
  }

  // A start committed together with its answer.
  lemma {:induction false} TailTells(server: Server, s: State, k: nat, start: Action, last: Action)
    requires Shows(server, s, k) && FitsShown(server, s, last) && !IsResult(start) && IsResult(last)
    ensures Tells(server, s, k, last, Reduce(Reduce(s, start), last))
  {
    var loading := Reduce(s, start);
    assert Shows(server, loading, k);
    ReduceTells(server, loading, k, last);
  }

  /** The progress of the pager: from a walk of k pages with more to come and nothing on its way, loading more brings
      the next page of the same mode, or leaves the walk as it is with the tail in error; the lock is free again, but for
      an error answered over an error with the start not yet committed (see LockCanStick). */
  lemma {:induction false} LoadMoreBringsNextPage(server: Server, c: Component, k: nat, ok: bool, startFirst: bool)
    returns (done: Component)
    requires Inv(server, c) && c.alive && !c.lock && c.shown.cursor.Some? && Shows(server, c.shown, k)
    ensures var sent := OnLoadMore(c);
            var out := if startFirst then OnCommit(sent, 1) else sent;
            done == OnCommit(OnAnswer(server, out, 0, ok), |out.queue| + 1)
    ensures done.requests == [] && done.queue == [] && done.shown.expand == c.shown.expand
    ensures ok ==> Shows(server, done.shown, k + 1) && done.shown.tailStatus == Idle && !done.lock
    ensures !ok ==> done.shown == c.shown.(tailStatus := Error)
    ensures done.lock ==> !ok && !startFirst && c.shown.tailStatus == Error
  {
    LoadMoreKeeps(server, c);
    var sent := OnLoadMore(c);
    done := AnsweredAndCommitted(server, sent, k, ok, startFirst);
  }

  /** A replace brings the first page of the mode asked for, or leaves everything but the tail as it is. */
  lemma {:induction false} ReplaceBringsFirstPage(server: Server, c: Component, k: nat, target: bool, ok: bool,
                                                  startFirst: bool)
    returns (done: Component)
    requires Inv(server, c) && c.alive && !c.lock && Shows(server, c.shown, k)
    ensures var sent := OnReplace(c, target);
            var out := if startFirst then OnCommit(sent, 1) else sent;
            done == OnCommit(OnAnswer(server, out, 0, ok), |out.queue| + 1)
    ensures done.requests == [] && done.queue == []
    ensures ok ==> Shows(server, done.shown, 1) && done.shown.expand == target && done.shown.tailStatus == Idle && !done.lock
    ensures !ok ==> done.shown == c.shown.(tailStatus := Error)
    ensures done.lock ==> !ok && !startFirst && c.shown.tailStatus == Error
  {
    ReplaceKeeps(server, c, target);
    var sent := OnReplace(c, target);
    done := AnsweredAndCommitted(server, sent, k, ok, startFirst);
  }

  // A request with its start dispatched: the start may be committed first, then the answer comes and is committed.
  lemma {:induction false} AnsweredAndCommitted(server: Server, sent: Component, k: nat, ok: bool, startFirst: bool)
    returns (done: Component)
    requires Inv(server, sent) && sent.alive && |sent.requests| == 1 && |sent.queue| == 1 && !IsResult(sent.queue[0])
    requires Shows(server, sent.shown, k)
    ensures var out := if startFirst then OnCommit(sent, 1) else sent;
            done == OnCommit(OnAnswer(server, out, 0, ok), |out.queue| + 1)
    ensures done.requests == [] && done.queue == []
    ensures Tells(server, sent.shown, k, Resolved(server, sent.requests[0], ok), done.shown)
    ensures done.lock ==> !ok && !startFirst && sent.shown.tailStatus == Error
  {
    var out := if startFirst then OnCommit(sent, 1) else sent;
    if startFirst {
      StartCommitted(server, sent, k);
    }
    AnswerCommitted(server, out, k, ok);
    done := OnCommit(OnAnswer(server, out, 0, ok), |out.queue| + 1);
  }

  lemma {:induction false} StartCommitted(server: Server, sent: Component, k: nat)
    requires Inv(server, sent) && |sent.queue| == 1 && !IsResult(sent.queue[0]) && Shows(server, sent.shown, k)
    ensures var out := OnCommit(sent, 1);
            && Inv(server, out) && out.queue == [] && out.requests == sent.requests && out.alive == sent.alive
            && out.shown == sent.shown.(tailStatus := Loading) && Shows(server, out.shown, k)
  {
    CommitKeeps(server, sent, 1);
    CommitTells(server, sent, k);
  }

  lemma {:induction false} AnswerCommitted(server: Server, out: Component, k: nat, ok: bool)
    requires Inv(server, out) && out.alive && |out.requests| == 1 && |out.queue| <= 1 && Shows(server, out.shown, k)
    ensures var done := OnCommit(OnAnswer(server, out, 0, ok), |out.queue| + 1);
            && done.requests == [] && done.queue == []
            && Tells(server, out.shown, k, Resolved(server, out.requests[0], ok), done.shown)
            && (done.lock ==> !ok && |out.queue| == 1 && out.shown.tailStatus == Error)
  {
    AnswerKeeps(server, out, 0, ok);
    AnswerIsPage(server, out.requests[0], ok);
    var answered := OnAnswer(server, out, 0, ok);
    CommitTells(server, answered, k);
    ReleaseIsExact(server, answered);
  }

  /** Whatever the interleaving, the list shown is a plain cursor walk of its mode; at most one request is
      out, it was built from the cursor and mode that are still committed, and while the lock is free nothing
      is on its way. */
  lemma {:induction false} ShownIsAWalk(server: Server, failedFirst: bool, steps: seq<Step>, c: Component,
                                        startsCommitFirst: bool)
    returns (k: nat)
    requires Reaches(server, failedFirst, steps, c, startsCommitFirst)
    ensures Shows(server, c.shown, k)
    ensures |c.requests| <= 1
    ensures c.requests != [] && c.requests[0].Append? ==>
              c.requests[0].expand == c.shown.expand && c.shown.cursor == Some(c.requests[0].cursor)
    ensures !c.lock ==> c.requests == [] && c.queue == []
  {
    EveryRun(server, failedFirst, steps, c, startsCommitFirst);
    k :| Shows(server, c.shown, k);
  }

  /** When every START is committed before its answer, a mounted timeline holds its lock exactly while a
      request is out or an answer waits to be committed. */
  lemma {:induction false} LockNeverSticks(server: Server, failedFirst: bool, steps: seq<Step>, c: Component)
    requires Reaches(server, failedFirst, steps, c, true) && c.alive
    ensures c.lock <==> c.requests != [] || c.queue != []
  {
    EveryRun(server, failedFirst, steps, c, true);
  }

  /** Without that the lock can stick: a failed first page is retried, the retry fails at once, and START and
      error are committed together. From there no step frees it. */
  lemma {:induction false} LockCanStick(server: Server) returns (steps: seq<Step>, c: Component)
    ensures Reaches(server, true, steps, c, false)
    ensures c.alive && c.lock && c.requests == [] && c.queue == []
    ensures forall step :: Enabled(c, step) ==> Next(server, c, step).lock
  {
    var c0 := Initial(Failure(""));
    var c1 := OnReplace(c0, false);
    var c2 := OnAnswer(server, c1, 0, false);
    c := OnCommit(c2, 2);
    Extend(server, true, [], c0, ReplaceFromFirstPage(false), c1);
    Extend(server, true, [] + [ReplaceFromFirstPage(false)], c1, Answer(0, false), c2);
    Extend(server, true, [] + [ReplaceFromFirstPage(false)] + [Answer(0, false)], c2, Commit(2), c);
    steps := [] + [ReplaceFromFirstPage(false)] + [Answer(0, false)] + [Commit(2)];
    EveryRun(server, true, [] + [ReplaceFromFirstPage(false)] + [Answer(0, false)], c2, false);
    assert |c2.queue| == 2 && c2.queue[1] == ReplaceErr && c2.queue[2..] == [];
    ReleaseIsExact(server, c2);
    StuckStays(server, c);
  }

  lemma {:induction false} Extend(server: Server, failedFirst: bool, steps: seq<Step>, c: Component, step: Step, c': Component)
    requires Reaches(server, failedFirst, steps, c, false) && Enabled(c, step) && c' == Next(server, c, step)
    ensures Reaches(server, failedFirst, steps + [step], c', false)
  {
    var longer := steps + [step];
    assert longer[..|longer| - 1] == steps && longer[|longer| - 1] == step;
    assert Reaches(server, failedFirst, longer[..|longer| - 1], c, false);
  }

  // A lock held with nothing on its way is never let go.
  lemma {:induction false} StuckStays(server: Server, c: Component)
    requires c.lock && c.requests == [] && c.queue == []
    ensures forall step :: Enabled(c, step) ==> Next(server, c, step).lock
  {
    assert c.queue[..0] == [];
    assert ReduceAll(c.shown, []) == c.shown;
  }
}
