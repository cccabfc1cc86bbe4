/** apps/web/hooks/useAvatarUpload.ts: pick, request a target, upload, commit, poll the derivation, activate.
    Every attempt is a generation; work of a superseded generation cannot be stopped, only ignored. `pending`
    holds every reply still to come, of any generation, and they arrive in any order. */
module Avatar {
  import opened Wrappers

  const MAX_ATTEMPTS: nat := 20
  const MAX_FAILURES: nat := 4

  datatype Code = SESSION_EXPIRED | UPLOAD_FAILED | OtherCode(name: string)

  datatype Phase = RequestPhase | UploadPhase | CommitPhase | ActivatePhase

  datatype ImageStatus = Waiting | Ready | Failed

  datatype Ui =
    | Idle
    | Requesting
    | Uploading
    | Committing
    | Processing(attempts: nat)
    | Activating
    | Active
    | Removing
    | TimedOut(attempts: nat)
    | DerivationFailed
    | Error(phase: Phase, code: Code)

  datatype Continuation =
    | PreflightC(gen: nat)
    | RequestC(gen: nat, key: nat)
    | UploadC(gen: nat, id: nat, key: nat)
    | CommitC(gen: nat, id: nat, key: nat)
    | StatusC(gen: nat, id: nat)
    | ActivateC(gen: nat, id: nat, fromPoll: bool)
    | RemoveC(gen: nat)

  datatype Resolution =
    | Preflighted(preview: Option<string>)
    | Requested(target: Answer<nat, Code>)
    | Uploaded(ok: bool)
    | StatusIs(status: Answer<ImageStatus, Code>)
    | AvatarSet(image: Answer<string, Code>)

  datatype Event =
    | NewAttempt(gen: nat, key: nat)
    | TargetGranted(gen: nat, id: nat)
    | Armed(gen: nat)          // the poll starts with fresh counters
    | StatusRead(gen: nat, id: nat)
    | Polled(gen: nat, status: Answer<ImageStatus, Code>)
    | CallSetAvatar(gen: nat, id: nat)
    | SessionExpired(gen: nat)

  datatype Machine = Machine(
    ui: Ui,
    gen: nat,
    key: nat,
    imageId: Option<nat>,
    attempts: nat,
    failures: nat,
    inFlight: bool,
    cancelled: bool,
    timer: Option<nat>,        // the generation an armed timer will poll for
    preview: Option<string>,
    active: Option<string>,
    pending: seq<Continuation>,
    log: seq<Event>,
    readCount: nat             // status reads since the poll was last armed with fresh counters
  )

  datatype Step =
    | SelectFile(schemaOk: bool)
    | RemoveAvatar
    | Retry
    | TimerFires
    | Unmount
    | Resolve(i: nat, answer: Resolution)

  function Initial(image: Option<string>): Machine {
    Machine(Idle, 0, 0, None, 0, 0, false, false, None, None, image, [], [], 0)
  }

  // ---- Steps ----

  function ResetAttempt(m: Machine): (m': Machine) {
    m.(gen := m.gen + 1, key := m.key + 1, inFlight := false, timer := None,
       log := m.log + [NewAttempt(m.gen + 1, m.key + 1)])
  }

  function Await(m: Machine, c: Continuation): (m': Machine) {
    m.(pending := m.pending + [c])
  }

  function Arm(m: Machine, gen: nat): (m': Machine) {
    if m.cancelled || m.gen != gen then m else m.(timer := Some(gen))
  }

  function Rearm(m: Machine): (m': Machine) {
    Arm(m.(attempts := 0, failures := 0, readCount := 0, ui := Processing(0), timer := None,
           log := m.log + [Armed(m.gen)]), m.gen)
  }

  function Activate(m: Machine, id: nat, fromPoll: bool): (m': Machine) {
    Await(m.(ui := Activating, inFlight := m.inFlight || fromPoll, log := m.log + [CallSetAvatar(m.gen, id)]),
          ActivateC(m.gen, id, fromPoll))
  }

  function OnSelectFile(m: Machine, schemaOk: bool): (m': Machine) {
    var n := ResetAttempt(m);
    if schemaOk then Await(n, PreflightC(n.gen)) else n.(ui := Error(UploadPhase, UPLOAD_FAILED))
  }

  function OnRemove(m: Machine): (m': Machine) {
    var n := ResetAttempt(m);
    Await(n.(preview := None, ui := Removing), RemoveC(n.gen))
  }

  function OnRetry(m: Machine): (m': Machine) {
    match m.ui
    case TimedOut(_) => if m.imageId.None? then m else Rearm(m)
    case Error(_, _) => ResetAttempt(m).(preview := None, ui := Idle)
    case DerivationFailed => ResetAttempt(m).(preview := None, ui := Idle)
    case _ => m
  }

  function OnTimer(m: Machine): (m': Machine)
    requires m.timer.Some?
  {
    var gen, n := m.timer.value, m.(timer := None);
    if n.inFlight || n.cancelled || n.gen != gen || n.imageId.None? then n
    else Await(n.(inFlight := true, readCount := n.readCount + 1, log := n.log + [StatusRead(gen, n.imageId.value)]),
               StatusC(gen, n.imageId.value))
  }

  predicate HoldsLatch(c: Continuation) {
    c.StatusC? || (c.ActivateC? && c.fromPoll)
  }

  /** A reply leaves the pending set; a poll of the current generation lets go of the latch. */
  function Take(m: Machine, i: nat): (m': Machine)
    requires i < |m.pending|
  {
    var c := m.pending[i];
    m.(pending := m.pending[..i] + m.pending[i + 1..],
       inFlight := m.inFlight && !(HoldsLatch(c) && c.gen == m.gen))
  }

  predicate Stale(m: Machine, c: Continuation) {
    m.cancelled || c.gen != m.gen
  }

  function Fail(m: Machine, phase: Phase, code: Code): (m': Machine) {
    if code == SESSION_EXPIRED then m.(log := m.log + [SessionExpired(m.gen)])
    else m.(ui := Error(phase, code))
  }

  function OnPolled(m: Machine, id: nat, status: Answer<ImageStatus, Code>): (m': Machine) {
    match status
    case Failure(code) =>
      if code == SESSION_EXPIRED then m.(log := m.log + [SessionExpired(m.gen)])
      else
        var n := m.(failures := m.failures + 1);
        if n.failures >= MAX_FAILURES then n.(ui := TimedOut(n.attempts)) else Arm(n, n.gen)
    case Success(Ready) => Activate(m.(failures := 0), id, true)
    case Success(Failed) => m.(failures := 0, preview := None, ui := DerivationFailed)
    case Success(Waiting) =>
      var n := m.(failures := 0, attempts := m.attempts + 1);
      if n.attempts >= MAX_ATTEMPTS then n.(ui := TimedOut(n.attempts))
      else Arm(n.(ui := Processing(n.attempts)), n.gen)
  }

  function OnCommitted(m: Machine, id: nat, status: Answer<ImageStatus, Code>): (m': Machine) {
    match status
    case Failure(code) => Fail(m, CommitPhase, code)
    case Success(Ready) => Activate(m, id, false)
    case Success(Failed) => m.(preview := None, ui := DerivationFailed)
    case Success(Waiting) => Rearm(m)
  }

  predicate Fits(c: Continuation, answer: Resolution) {
    match answer
    case Preflighted(_) => c.PreflightC?
    case Requested(_) => c.RequestC?
    case Uploaded(_) => c.UploadC?
    case StatusIs(_) => c.CommitC? || c.StatusC?
    case AvatarSet(_) => c.ActivateC? || c.RemoveC?
  }

  function OnResolve(m: Machine, i: nat, answer: Resolution): (m': Machine)
    requires i < |m.pending| && Fits(m.pending[i], answer)
  {
    var c, n := m.pending[i], Take(m, i);
    if Stale(m, c) then n
    else match answer
      case Preflighted(None) => n.(ui := Error(UploadPhase, UPLOAD_FAILED))
      case Preflighted(Some(url)) => Await(n.(preview := Some(url), ui := Requesting), RequestC(c.gen, n.key))
      case Requested(Failure(code)) => Fail(n, RequestPhase, code)
      case Requested(Success(id)) =>
        Await(n.(imageId := Some(id), ui := Uploading, log := n.log + [TargetGranted(c.gen, id)]),
              UploadC(c.gen, id, c.key))
      case Uploaded(ok) =>
        if ok then Await(n.(ui := Committing), CommitC(c.gen, c.id, c.key))
        else n.(ui := Error(UploadPhase, UPLOAD_FAILED))
      case StatusIs(status) =>
        if c.CommitC? then OnCommitted(n, c.id, status)
        else OnPolled(n.(log := n.log + [Polled(c.gen, status)]), c.id, status)
      case AvatarSet(Failure(code)) => Fail(n, ActivatePhase, code)
      case AvatarSet(Success(image)) =>
        if c.ActivateC? then n.(active := Some(image), preview := None, ui := Active)
        else n.(active := None, ui := Idle)
  }

  predicate Enabled(m: Machine, step: Step) {
    match step
    case TimerFires => m.timer.Some?
    case Resolve(i, answer) => i < |m.pending| && Fits(m.pending[i], answer)
    case _ => true
  }

  function Next(m: Machine, step: Step): (m': Machine)
    requires Enabled(m, step)
  {
    match step
    case SelectFile(schemaOk) => OnSelectFile(m, schemaOk)
    case RemoveAvatar => OnRemove(m)
    case Retry => OnRetry(m)
    case TimerFires => OnTimer(m)
    case Unmount => m.(cancelled := true, timer := None)
    case Resolve(i, answer) => OnResolve(m, i, answer)
  }

  /** The one retry the hook does not survive: "Check again" on a timed-out picture while a newer pick is
      still in its pre-flight check. */
  ghost predicate RetryIsSafe(m: Machine) {
    m.ui.TimedOut? && !m.cancelled ==> forall k :: Current(m.pending, m.gen, k) ==> !m.pending[k].PreflightC?
  }

  ghost predicate Reaches(image: Option<string>, steps: seq<Step>, m: Machine)
    decreases |steps|
  {
    if steps == [] then m == Initial(image)
    else
      var last := steps[|steps| - 1];
      exists before ::
        && Reaches(image, steps[..|steps| - 1], before)
        && Enabled(before, last)
        && (last == Retry ==> RetryIsSafe(before))
        && m == Next(before, last)
  }

  // ---- The invariant ----

  /** An avatar is only set for a target granted to the newest attempt. */
  ghost predicate Follows(log: seq<Event>, e: Event) {
    match e
    case NewAttempt(gen, key) => forall p :: p in log && p.NewAttempt? ==> p.gen < gen && p.key < key
    case CallSetAvatar(gen, id) =>
      && TargetGranted(gen, id) in log
      && forall p :: p in log && p.NewAttempt? ==> p.gen <= gen
    case _ => true
  }

  ghost predicate LogOk(log: seq<Event>) {
    log == [] || (LogOk(log[..|log| - 1]) && Follows(log[..|log| - 1], log[|log| - 1]))
  }

  /** The image the refs name is the one the current generation asked for. */
  ghost predicate OwnsImage(m: Machine) {
    m.imageId.Some? && TargetGranted(m.gen, m.imageId.value) in m.log
  }

  ghost predicate CurrentOk(m: Machine, c: Continuation) {
    match c
    case PreflightC(_) => !m.inFlight && forall p :: p in m.log && p.TargetGranted? ==> p.gen < m.gen
    case RequestC(_, _) => m.ui == Requesting && !m.inFlight
    case UploadC(_, id, _) => m.ui == Uploading && OwnsImage(m) && m.imageId == Some(id) && !m.inFlight
    case CommitC(_, id, _) => m.ui == Committing && OwnsImage(m) && m.imageId == Some(id) && !m.inFlight
    case StatusC(_, id) =>
      && m.ui.Processing? && OwnsImage(m) && m.imageId == Some(id) && m.inFlight
      && m.attempts < MAX_ATTEMPTS && m.failures < MAX_FAILURES
      && m.readCount <= MAX_FAILURES * m.attempts + m.failures + 1
    case ActivateC(_, _, fromPoll) => m.ui == Activating && m.inFlight == fromPoll
    case RemoveC(_) => m.ui == Removing && !m.inFlight
  }

  ghost predicate Current(pending: seq<Continuation>, gen: nat, k: int) {
    0 <= k < |pending| && pending[k].gen == gen
  }

  ghost predicate Inv(m: Machine) {
    && (forall k :: 0 <= k < |m.pending| ==> m.pending[k].gen <= m.gen)
    && (forall j, k :: Current(m.pending, m.gen, j) && Current(m.pending, m.gen, k) ==> j == k)
    && (forall k :: Current(m.pending, m.gen, k) ==> CurrentOk(m, m.pending[k]))
    && (m.inFlight ==> exists k :: Current(m.pending, m.gen, k) && HoldsLatch(m.pending[k]))
    && (m.timer.Some? ==>
          && m.timer.value == m.gen && !m.cancelled && m.ui.Processing? && OwnsImage(m)
          && (forall k :: !Current(m.pending, m.gen, k))
          && m.attempts < MAX_ATTEMPTS && m.failures < MAX_FAILURES
          && m.readCount <= MAX_FAILURES * m.attempts + m.failures)
    && (m.ui.TimedOut? ==> m.imageId.Some?)
    && (m.ui.TimedOut? && !m.cancelled ==>
          || (exists k :: Current(m.pending, m.gen, k) && m.pending[k].PreflightC?)
          || (OwnsImage(m) && forall k :: !Current(m.pending, m.gen, k)))
    && (m.ui.Processing? && m.timer.None? && !m.cancelled ==>
          || SessionExpired(m.gen) in m.log
          || exists k :: Current(m.pending, m.gen, k) && (m.pending[k].StatusC? || m.pending[k].PreflightC?))
    && m.readCount <= MAX_FAILURES * MAX_ATTEMPTS
    && LogOk(m.log)
    && (forall p :: p in m.log && p.NewAttempt? ==> p.gen <= m.gen && p.key <= m.key)
    && (forall p :: p in m.log && p.TargetGranted? ==> p.gen <= m.gen)
  }

  // ---- Every step keeps the invariant ----

  lemma {:induction false} Append(log: seq<Event>, e: Event)
    requires LogOk(log) && Follows(log, e)
    ensures LogOk(log + [e])
  {
    assert (log + [e])[..|log|] == log;
  }

  lemma {:induction false} ResetAttemptKeeps(m: Machine)
    requires Inv(m)
    ensures LogOk(ResetAttempt(m).log)
    ensures forall k :: !Current(ResetAttempt(m).pending, ResetAttempt(m).gen, k)
  {
    Append(m.log, NewAttempt(m.gen + 1, m.key + 1));
  }

  lemma {:induction false} SelectFileKeeps(m: Machine, schemaOk: bool)
    requires Inv(m)
    ensures Inv(OnSelectFile(m, schemaOk))
  {
    ResetAttemptKeeps(m);
    if schemaOk {
      assert Current(OnSelectFile(m, schemaOk).pending, OnSelectFile(m, schemaOk).gen, |m.pending|);
    }
  }

  lemma {:induction false} RemoveKeeps(m: Machine)
    requires Inv(m)
    ensures Inv(OnRemove(m))
  {
    ResetAttemptKeeps(m);
  }

  // Checking a timed-out picture again.
  lemma {:induction false} TimedOutRetryKeeps(m: Machine)
    requires Inv(m) && m.ui.TimedOut?
    ensures Inv(Rearm(m)) <==> RetryIsSafe(m)
  {
    if m.cancelled {
      Append(m.log, Armed(m.gen));
    } else if RetryIsSafe(m) {
      assert Quiet(m) && OwnsImage(m);
      RearmKeeps(m);
    } else {
      var k :| Current(m.pending, m.gen, k) && m.pending[k].PreflightC?;
      assert Current(Rearm(m).pending, Rearm(m).gen, k);
    }
  }

  /** `RetryIsSafe` is exact: without it the retry arms a poll beside the running pre-flight. */
  lemma {:induction false} RetryKeeps(m: Machine)
    requires Inv(m)
    ensures Inv(OnRetry(m)) <==> RetryIsSafe(m)
  {
    if m.ui.TimedOut? {
      TimedOutRetryKeeps(m);
    } else {
      ResetAttemptKeeps(m);
    }
  }

  // With nothing current pending, one more continuation of this generation is the only current one.
  lemma {:induction false} AwaitOnly(m: Machine, c: Continuation)
    requires c.gen == m.gen && forall k :: !Current(m.pending, m.gen, k)
    ensures forall k :: Current(Await(m, c).pending, Await(m, c).gen, k) <==> k == |m.pending|
  {
    var n := Await(m, c);
    forall k ensures Current(n.pending, n.gen, k) <==> k == |m.pending| {
      assert Current(n.pending, n.gen, k) && k < |m.pending| ==> Current(m.pending, m.gen, k);
    }
  }

  // Where a position of the shorter pending list was before reply i was taken, and back.
  function Before(i: nat, k: int): int {
    if k < i then k else k + 1
  }

  function After(i: nat, k: int): int {
    if k < i then k else k - 1
  }

  lemma {:induction false} Shift(m: Machine, i: nat, k: int)
    requires i < |m.pending|
    ensures Current(Take(m, i).pending, m.gen, k) ==>
              Current(m.pending, m.gen, Before(i, k)) && Take(m, i).pending[k] == m.pending[Before(i, k)]
    ensures Current(m.pending, m.gen, k) && k != i ==>
              Current(Take(m, i).pending, m.gen, After(i, k)) && Take(m, i).pending[After(i, k)] == m.pending[k]
  {
  }

  lemma {:induction false} TakeCurrent(m: Machine, i: nat)
    requires Inv(m) && i < |m.pending| && m.pending[i].gen == m.gen
    ensures !Take(m, i).inFlight && forall k :: !Current(Take(m, i).pending, m.gen, k)
  {
    assert Current(m.pending, m.gen, i);
    forall k ensures !Current(Take(m, i).pending, m.gen, k) {
      Shift(m, i, k);
    }
  }

  lemma {:induction false} TimerKeeps(m: Machine)
    requires Inv(m) && m.timer.Some?
    ensures Inv(OnTimer(m))
  {
    var e := StatusRead(m.gen, m.imageId.value);
    Append(m.log, e);
    AwaitOnly(m.(timer := None, inFlight := true, readCount := m.readCount + 1, log := m.log + [e]),
              StatusC(m.gen, m.imageId.value));
    assert Current(OnTimer(m).pending, OnTimer(m).gen, |m.pending|);
  }

  lemma {:induction false} SupersededKeeps(m: Machine, i: nat)
    requires Inv(m) && i < |m.pending| && m.pending[i].gen != m.gen
    ensures Inv(Take(m, i))
  {
    var n := Take(m, i);
    forall j, k | Current(n.pending, n.gen, j) && Current(n.pending, n.gen, k) ensures j == k {
      Shift(m, i, j);
      Shift(m, i, k);
    }
    forall k | Current(n.pending, n.gen, k) ensures CurrentOk(n, n.pending[k]) {
      Shift(m, i, k);
    }
    forall k | Current(m.pending, m.gen, k) ensures Current(n.pending, n.gen, After(i, k)) {
      Shift(m, i, k);
    }
    if k :| Current(m.pending, m.gen, k) {
      Shift(m, i, k);
    } else {
      forall k ensures !Current(n.pending, n.gen, k) {
        Shift(m, i, k);
      }
    }
  }

  lemma {:induction false} StaleKeeps(m: Machine, i: nat)
    requires Inv(m) && i < |m.pending| && Stale(m, m.pending[i])
    ensures Inv(Take(m, i))
  {
    if m.pending[i].gen == m.gen {
      TakeCurrent(m, i);
    } else {
      SupersededKeeps(m, i);
    }
  }

  /** What a machine offers once the current reply has been taken out of it. */
  ghost predicate Quiet(m: Machine) {
    && (forall k :: 0 <= k < |m.pending| ==> m.pending[k].gen <= m.gen)
    && (forall k :: !Current(m.pending, m.gen, k))
    && !m.inFlight && m.timer.None? && !m.cancelled
    && m.readCount <= MAX_FAILURES * MAX_ATTEMPTS
    && LogOk(m.log)
    && (forall p :: p in m.log && p.NewAttempt? ==> p.gen <= m.gen && p.key <= m.key)
    && (forall p :: p in m.log && p.TargetGranted? ==> p.gen <= m.gen)
  }

  lemma {:induction false} TakenIsQuiet(m: Machine, i: nat)
    requires Inv(m) && i < |m.pending| && !Stale(m, m.pending[i])
    ensures Quiet(Take(m, i))
    ensures CurrentOk(m, m.pending[i])
  {
    TakeCurrent(m, i);
    assert Current(m.pending, m.gen, i);
  }

  lemma {:induction false} RestKeeps(m: Machine)
    requires Quiet(m) && !m.ui.TimedOut? && !m.ui.Processing?
    ensures Inv(m)
  {
  }

  lemma {:induction false} AwaitKeeps(m: Machine, c: Continuation)
    requires Quiet(m) && c.gen == m.gen && CurrentOk(m, c) && !m.ui.TimedOut?
    requires m.ui.Processing? ==> c.StatusC? || c.PreflightC?
    ensures !c.StatusC? && !HoldsLatch(c) ==> Inv(Await(m, c))
  {
    AwaitOnly(m, c);
    if !HoldsLatch(c) {
      assert Current(Await(m, c).pending, Await(m, c).gen, |m.pending|);
    }
  }

  lemma {:induction false} ActivateKeeps(m: Machine, id: nat, fromPoll: bool)
    requires Quiet(m) && TargetGranted(m.gen, id) in m.log
    ensures Inv(Activate(m, id, fromPoll))
  {
    var e := CallSetAvatar(m.gen, id);
    Append(m.log, e);
    var n := m.(ui := Activating, inFlight := m.inFlight || fromPoll, log := m.log + [e]);
    AwaitOnly(n, ActivateC(m.gen, id, fromPoll));
    assert Current(Activate(m, id, fromPoll).pending, Activate(m, id, fromPoll).gen, |m.pending|);
  }

  lemma {:induction false} FailKeeps(m: Machine, phase: Phase, code: Code)
    requires Quiet(m) && !m.ui.TimedOut?
    ensures Inv(Fail(m, phase, code))
  {
    Append(m.log, SessionExpired(m.gen));
  }

  lemma {:induction false} RearmKeeps(m: Machine)
    requires Quiet(m) && OwnsImage(m)
    ensures Inv(Rearm(m))
  {
    Append(m.log, Armed(m.gen));
  }

  lemma {:induction false} PolledKeeps(m: Machine, id: nat, status: Answer<ImageStatus, Code>)
    requires Quiet(m) && OwnsImage(m) && m.imageId == Some(id) && m.ui.Processing?
    requires m.attempts < MAX_ATTEMPTS && m.failures < MAX_FAILURES
    requires m.readCount <= MAX_FAILURES * m.attempts + m.failures + 1
    ensures Inv(OnPolled(m, id, status))
  {
    match status
    case Failure(code) => PollFailedKeeps(m, id, code);
    case Success(Ready) => ActivateKeeps(m.(failures := 0), id, true);
    case Success(Failed) => RestKeeps(OnPolled(m, id, status));
    case Success(Waiting) =>
  }

  lemma {:induction false} PollFailedKeeps(m: Machine, id: nat, code: Code)
    requires Quiet(m) && OwnsImage(m) && m.imageId == Some(id) && m.ui.Processing?
    requires m.attempts < MAX_ATTEMPTS && m.failures < MAX_FAILURES
    requires m.readCount <= MAX_FAILURES * m.attempts + m.failures + 1
    ensures Inv(OnPolled(m, id, Failure(code)))
  {
    Append(m.log, SessionExpired(m.gen));
  }

  lemma {:induction false} ResolveKeeps(m: Machine, i: nat, answer: Resolution)
    requires Inv(m) && i < |m.pending| && Fits(m.pending[i], answer)
    ensures Inv(OnResolve(m, i, answer))
  {
    var c, n := m.pending[i], Take(m, i);
    if Stale(m, c) {
      StaleKeeps(m, i);
      return;
    }
    TakenIsQuiet(m, i);
    match answer
    case Preflighted(_) => EarlyKeeps(m, n, i, answer);
    case Requested(_) => EarlyKeeps(m, n, i, answer);
    case Uploaded(_) => EarlyKeeps(m, n, i, answer);
    case StatusIs(status) =>
      if c.CommitC? {
        CommittedKeeps(n, c.id, status);
      } else {
        Append(n.log, Polled(c.gen, status));
        PolledKeeps(n.(log := n.log + [Polled(c.gen, status)]), c.id, status);
      }
    case AvatarSet(Failure(code)) => FailKeeps(n, ActivatePhase, code);
    case AvatarSet(Success(image)) => RestKeeps(OnResolve(m, i, answer));
  }

  // The replies of the upload, from the pre-flight check to the stored file.
  lemma {:induction false} EarlyKeeps(m: Machine, n: Machine, i: nat, answer: Resolution)
    requires i < |m.pending| && Fits(m.pending[i], answer) && !Stale(m, m.pending[i]) && n == Take(m, i)
    requires Quiet(n) && CurrentOk(m, m.pending[i])
    requires answer.Preflighted? || answer.Requested? || answer.Uploaded?
    ensures Inv(OnResolve(m, i, answer))
  {
    var c := m.pending[i];
    match answer
    case Preflighted(None) => RestKeeps(OnResolve(m, i, answer));
    case Preflighted(Some(url)) => AwaitKeeps(n.(preview := Some(url), ui := Requesting), RequestC(c.gen, n.key));
    case Requested(Failure(code)) => FailKeeps(n, RequestPhase, code);
    case Requested(Success(id)) =>
      Append(n.log, TargetGranted(c.gen, id));
      AwaitKeeps(n.(imageId := Some(id), ui := Uploading, log := n.log + [TargetGranted(c.gen, id)]),
                 UploadC(c.gen, id, c.key));
    case Uploaded(ok) =>
      if ok {
        AwaitKeeps(n.(ui := Committing), CommitC(c.gen, c.id, c.key));
      } else {
        RestKeeps(OnResolve(m, i, answer));
      }
  }

  lemma {:induction false} CommittedKeeps(m: Machine, id: nat, status: Answer<ImageStatus, Code>)
    requires Quiet(m) && OwnsImage(m) && m.imageId == Some(id) && m.ui == Committing
    ensures Inv(OnCommitted(m, id, status))
  {
    match status
    case Failure(code) => FailKeeps(m, CommitPhase, code);
    case Success(Ready) => ActivateKeeps(m, id, false);
    case Success(Failed) => RestKeeps(OnCommitted(m, id, status));
    case Success(Waiting) => RearmKeeps(m);
  }

  lemma {:induction false} StepKeepsInv(m: Machine, step: Step)
    requires Inv(m) && Enabled(m, step)
    requires step == Retry ==> RetryIsSafe(m)
    ensures Inv(Next(m, step))
  {
    match step
    case SelectFile(schemaOk) => SelectFileKeeps(m, schemaOk);
    case RemoveAvatar => RemoveKeeps(m);
    case Retry => RetryKeeps(m);
    case TimerFires => TimerKeeps(m);
    case Unmount =>
    case Resolve(i, answer) => ResolveKeeps(m, i, answer);
  }

  lemma {:induction false} EveryRun(image: Option<string>, steps: seq<Step>, m: Machine)
    requires Reaches(image, steps, m)
    ensures Inv(m)
    decreases |steps|
  {
    if steps != [] {
      var last := steps[|steps| - 1];
      var before :|
        && Reaches(image, steps[..|steps| - 1], before)
        && Enabled(before, last)
        && (last == Retry ==> RetryIsSafe(before))
        && m == Next(before, last);
      EveryRun(image, steps[..|steps| - 1], before);
      StepKeepsInv(before, last);
    }
  }

  // ---- What holds in every run ----

  lemma {:induction false} LogOkAt(log: seq<Event>, i: nat)
    requires LogOk(log) && i < |log|
    ensures Follows(log[..i], log[i])
  {
    var front := log[..|log| - 1];
    if i < |front| {
      LogOkAt(front, i);
      assert front[..i] == log[..i];
    }
  }

  /** An avatar is only ever set to the image that the newest attempt at that moment was granted. */
  lemma {:induction false} AvatarOnlyForNewest(image: Option<string>, steps: seq<Step>, m: Machine, i: nat) returns (j: nat)
    requires Reaches(image, steps, m) && i < |m.log| && m.log[i].CallSetAvatar?
    ensures j < i && m.log[j] == TargetGranted(m.log[i].gen, m.log[i].id)
    ensures forall k :: 0 <= k < i && m.log[k].NewAttempt? ==> m.log[k].gen <= m.log[i].gen
  {
    EveryRun(image, steps, m);
    LogOkAt(m.log, i);
    assert forall k :: 0 <= k < i ==> m.log[k] in m.log[..i];
    j :| 0 <= j < i && m.log[..i][j] == TargetGranted(m.log[i].gen, m.log[i].id);
  }

  /** The poll loop cannot wedge: the latch is held exactly while a poll of this generation runs, an armed
      timer belongs to this generation and its firing does read, and whoever shows `Processing` has a timer,
      a poll or a pre-flight under way, unless a session expiry was reported. One arming makes at most
      MAX_ATTEMPTS x MAX_FAILURES reads. */
  lemma {:induction false} NeverWedges(image: Option<string>, steps: seq<Step>, m: Machine)
    requires Reaches(image, steps, m)
    ensures m.inFlight <==> exists k :: Current(m.pending, m.gen, k) && HoldsLatch(m.pending[k])
    ensures m.timer.Some? ==>
              m.timer.value == m.gen && OnTimer(m).inFlight && OnTimer(m).readCount == m.readCount + 1
    ensures m.ui.Processing? && !m.cancelled ==>
              || m.timer == Some(m.gen)
              || SessionExpired(m.gen) in m.log
              || exists k :: Current(m.pending, m.gen, k) && (m.pending[k].StatusC? || m.pending[k].PreflightC?)
    ensures m.readCount <= MAX_ATTEMPTS * MAX_FAILURES
  {
    EveryRun(image, steps, m);
  }

  // ---- Superseded work ----

  /** m' is reached from m by these steps, whatever they are. */
  ghost predicate Runs(m: Machine, steps: seq<Step>, m': Machine)
    decreases |steps|
  {
    if steps == [] then m' == m
    else
      var last := steps[|steps| - 1];
      exists before ::
        Runs(m, steps[..|steps| - 1], before) && Enabled(before, last) && m' == Next(before, last)
  }

  lemma {:induction false} StepKeepsOrder(m: Machine, step: Step)
    requires Enabled(m, step)
    ensures Next(m, step).gen >= m.gen && (m.cancelled ==> Next(m, step).cancelled)
  {
  }

  lemma {:induction false} GenerationsOnlyGrow(m: Machine, steps: seq<Step>, m': Machine)
    requires Runs(m, steps, m')
    ensures m'.gen >= m.gen && (m.cancelled ==> m'.cancelled)
    decreases |steps|
  {
    if steps != [] {
      var last, front := steps[|steps| - 1], steps[..|steps| - 1];
      var before :| Runs(m, front, before) && Enabled(before, last) && m' == Next(before, last);
      GenerationsOnlyGrow(m, front, before);
      StepKeepsOrder(before, last);
    }
  }

  // A stale reply only leaves the pending set, and after unmounting the latch.
  lemma {:induction false} StaleReply(m: Machine, i: nat, answer: Resolution)
    requires i < |m.pending| && Fits(m.pending[i], answer) && Stale(m, m.pending[i])
    ensures OnResolve(m, i, answer).(pending := m.pending, inFlight := m.inFlight) == m
    ensures m.pending[i].gen != m.gen ==> OnResolve(m, i, answer).inFlight == m.inFlight
  {
  }

  /** Once superseded, or unmounted, always: after any further steps, the reply of a generation older than m's, or any
      reply to an unmounted hook, changes no state, preview or active image and calls nothing. */
  lemma {:induction false} SupersededIsInert(m: Machine, steps: seq<Step>, m': Machine, i: nat, answer: Resolution)
    requires Runs(m, steps, m') && i < |m'.pending| && Fits(m'.pending[i], answer)
    requires m'.pending[i].gen < m.gen || m.cancelled
    ensures var n := OnResolve(m', i, answer);
            n.ui == m'.ui && n.preview == m'.preview && n.active == m'.active && n.log == m'.log && n.timer == m'.timer
    ensures m'.pending[i].gen < m.gen ==> OnResolve(m', i, answer).inFlight == m'.inFlight
  {
    GenerationsOnlyGrow(m, steps, m');
    StaleReply(m', i, answer);
  }

  // ---- What a caller may count on ----

  /** A reply may set the avatar only to the image granted to the newest attempt, and only when that image is ready;
      it changes the active image only when the backend has taken it; a stale reply changes nothing but the pending
      set and the latch. */
  ghost predicate ReplyAllows(m: Machine, c: Continuation, answer: Resolution, n: Machine) {
    && n.gen == m.gen && n.key == m.key
    && (Stale(m, c) ==> n.(pending := m.pending, inFlight := m.inFlight) == m)
    && m.log <= n.log && |n.log| <= |m.log| + 2
    && (forall k :: |m.log| <= k < |n.log| && n.log[k].CallSetAvatar? ==>
          && n.log[k].gen == m.gen && TargetGranted(m.gen, n.log[k].id) in m.log
          && answer == StatusIs(Success(Ready)))
    && (n.active != m.active ==> !Stale(m, c) && answer.AvatarSet? && answer.image.Success?)
  }

  lemma {:induction false} ReplyMeans(m: Machine, i: nat, answer: Resolution)
    requires Inv(m) && i < |m.pending| && Fits(m.pending[i], answer)
    ensures ReplyAllows(m, m.pending[i], answer, OnResolve(m, i, answer))
  {
    if Stale(m, m.pending[i]) {
      StaleReply(m, i, answer);
    } else {
      TakenIsQuiet(m, i);
      if answer.StatusIs? {
        StatusAllows(m, i, answer);
      }
    }
  }

  lemma {:induction false} StatusAllows(m: Machine, i: nat, answer: Resolution)
    requires i < |m.pending| && answer.StatusIs? && Fits(m.pending[i], answer) && !Stale(m, m.pending[i])
    requires TargetGranted(m.gen, m.pending[i].id) in m.log
    ensures ReplyAllows(m, m.pending[i], answer, OnResolve(m, i, answer))
  {
    if m.pending[i].StatusC? {
      PollAllows(m, i, answer);
    }
  }

  lemma {:induction false} PollAllows(m: Machine, i: nat, answer: Resolution)
    requires i < |m.pending| && answer.StatusIs? && m.pending[i].StatusC? && !Stale(m, m.pending[i])
    requires TargetGranted(m.gen, m.pending[i].id) in m.log
    ensures ReplyAllows(m, m.pending[i], answer, OnResolve(m, i, answer))
  {
  }

  /** After reply i exactly these calls are out besides those that were. */
  predicate Awaits(m: Machine, i: nat, n: Machine, more: seq<Continuation>)
    requires i < |m.pending|
  {
    n.pending == if more == [] then m.pending[..i] + m.pending[i + 1..] else m.pending[..i] + m.pending[i + 1..] + more
  }

  /** A failed call ends the attempt where it was, or, with the session expired, reports just that. */
  predicate FailureBrings(m: Machine, i: nat, phase: Phase, code: Code, n: Machine)
    requires i < |m.pending|
  {
    && Awaits(m, i, n, []) && n.preview == m.preview && n.active == m.active
    && (code == SESSION_EXPIRED ==> n.ui == m.ui && n.log == m.log + [SessionExpired(m.gen)])
    && (code != SESSION_EXPIRED ==> n.ui == Error(phase, code) && n.log == m.log)
  }

  /** What a current reply of the upload brings: the next call of the pipeline, or its failure. */
  predicate UploadBrings(m: Machine, i: nat, answer: Resolution, n: Machine)
    requires i < |m.pending| && Fits(m.pending[i], answer)
  {
    match answer
    case Preflighted(Some(url)) =>
      n.preview == Some(url) && n.ui == Requesting && Awaits(m, i, n, [RequestC(m.gen, m.key)]) && n.log == m.log
    case Preflighted(None) => FailureBrings(m, i, UploadPhase, UPLOAD_FAILED, n)
    case Requested(Success(id)) =>
      && n.imageId == Some(id) && n.ui == Uploading && n.log == m.log + [TargetGranted(m.gen, id)]
      && Awaits(m, i, n, [UploadC(m.gen, id, m.pending[i].key)]) && n.preview == m.preview
    case Requested(Failure(code)) => FailureBrings(m, i, RequestPhase, code, n)
    case Uploaded(ok) =>
      if ok then
        && n.ui == Committing && n.log == m.log && n.preview == m.preview
        && Awaits(m, i, n, [CommitC(m.gen, m.pending[i].id, m.pending[i].key)])
      else FailureBrings(m, i, UploadPhase, UPLOAD_FAILED, n)
    case _ => true
  }

  lemma {:induction false} UploadReplyMeans(m: Machine, i: nat, answer: Resolution)
    requires i < |m.pending| && Fits(m.pending[i], answer) && !Stale(m, m.pending[i])
    ensures UploadBrings(m, i, answer, OnResolve(m, i, answer))
  {
  }

  /** What a current answer to the commit brings: an image ready at once is activated, one still processing is polled
      from fresh counters, a failed one ends the attempt. */
  predicate CommitBrings(m: Machine, i: nat, status: Answer<ImageStatus, Code>, n: Machine)
    requires i < |m.pending| && m.pending[i].CommitC?
  {
    match status
    case Success(Ready) =>
      && n.ui == Activating && n.log == m.log + [CallSetAvatar(m.gen, m.pending[i].id)]
      && Awaits(m, i, n, [ActivateC(m.gen, m.pending[i].id, false)]) && n.timer == m.timer
    case Success(Failed) => n.ui == DerivationFailed && n.preview == None && Awaits(m, i, n, []) && n.log == m.log
    case Success(Waiting) =>
      && n.ui == Processing(0) && n.timer == Some(m.gen) && Awaits(m, i, n, [])
      && n.attempts == 0 && n.failures == 0 && n.readCount == 0 && n.log == m.log + [Armed(m.gen)]
    case Failure(code) => FailureBrings(m, i, CommitPhase, code, n)
  }

  lemma {:induction false} CommitReplyMeans(m: Machine, i: nat, status: Answer<ImageStatus, Code>)
    requires i < |m.pending| && m.pending[i].CommitC? && !Stale(m, m.pending[i])
    ensures CommitBrings(m, i, status, OnResolve(m, i, StatusIs(status)))
  {
  }

  /** This answer is the last the poll waits for: the twentieth tick, or the fourth failure in a row. */
  predicate LastStraw(m: Machine, status: Answer<ImageStatus, Code>) {
    || (status == Success(Waiting) && m.attempts + 1 >= MAX_ATTEMPTS)
    || (status.Failure? && status.code != SESSION_EXPIRED && m.failures + 1 >= MAX_FAILURES)
  }

  /** What a current answer to a poll brings: it times out exactly on the last straw, and goes on exactly when it can. */
  predicate PollBrings(m: Machine, i: nat, status: Answer<ImageStatus, Code>, n: Machine)
    requires i < |m.pending| && m.pending[i].StatusC?
  {
    var log := m.log + [Polled(m.gen, status)];
    && (n.ui.TimedOut? <==> LastStraw(m, status))
    && (n.ui.TimedOut? ==> n.ui == TimedOut(n.attempts) && n.timer == None && n.preview == m.preview)
    && (status != Success(Ready) ==> Awaits(m, i, n, []) && !n.inFlight)
    && match status
       case Success(Waiting) =>
         && n.attempts == m.attempts + 1 && n.failures == 0 && n.log == log
         && (!LastStraw(m, status) ==> n.timer == Some(m.gen) && n.ui == Processing(m.attempts + 1))
       case Success(Ready) =>
         && n.ui == Activating && n.inFlight && n.log == log + [CallSetAvatar(m.gen, m.pending[i].id)]
         && Awaits(m, i, n, [ActivateC(m.gen, m.pending[i].id, true)])
       case Success(Failed) => n.ui == DerivationFailed && n.preview == None && n.timer == None && n.log == log
       case Failure(code) =>
         if code == SESSION_EXPIRED then n.ui == m.ui && n.timer == None && n.log == log + [SessionExpired(m.gen)]
         else
           && n.failures == m.failures + 1 && n.attempts == m.attempts && n.log == log
           && (!LastStraw(m, status) ==> n.timer == Some(m.gen) && n.ui == m.ui)
  }

  lemma {:induction false} PollReplyMeans(m: Machine, i: nat, status: Answer<ImageStatus, Code>)
    requires Inv(m) && i < |m.pending| && m.pending[i].StatusC? && !Stale(m, m.pending[i])
    ensures PollBrings(m, i, status, OnResolve(m, i, StatusIs(status)))
  {
    TakenIsQuiet(m, i);
  }

  // ---- A timeout is earned ----

  /** The waiting answers since the poll was last armed. */
  function Waits(log: seq<Event>): (n: nat) {
    if log == [] then 0
    else
      var front := log[..|log| - 1];
      match log[|log| - 1]
      case Armed(_) => 0
      case Polled(_, Success(Waiting)) => Waits(front) + 1
      case _ => Waits(front)
  }

  /** The failures at the end of the answers since then: an answer of any kind, or a new arming, starts over. */
  function FailsInARow(log: seq<Event>): (n: nat) {
    if log == [] then 0
    else
      var front := log[..|log| - 1];
      match log[|log| - 1]
      case Armed(_) => 0
      case Polled(_, Success(_)) => 0
      case Polled(_, Failure(code)) => if code == SESSION_EXPIRED then FailsInARow(front) else FailsInARow(front) + 1
      case _ => FailsInARow(front)
  }

  /** The counters count just that, and a timeout was reached by one of them. */
  ghost predicate Counted(m: Machine) {
    && m.attempts == Waits(m.log) && m.failures == FailsInARow(m.log)
    && (m.ui.TimedOut? ==> m.attempts >= MAX_ATTEMPTS || m.failures >= MAX_FAILURES)
  }

  // One more event, and what it does to the counts.
  lemma {:induction false} OneMore(log: seq<Event>, e: Event)
    ensures Waits(log + [e]) == (match e
                                 case Armed(_) => 0
                                 case Polled(_, Success(Waiting)) => Waits(log) + 1
                                 case _ => Waits(log))
    ensures FailsInARow(log + [e]) == (match e
                                       case Armed(_) => 0
                                       case Polled(_, Success(_)) => 0
                                       case Polled(_, Failure(code)) =>
                                         if code == SESSION_EXPIRED then FailsInARow(log) else FailsInARow(log) + 1
                                       case _ => FailsInARow(log))
  {
    assert (log + [e])[..|log|] == log;
  }

  lemma {:induction false} PollCounts(m: Machine, i: nat, status: Answer<ImageStatus, Code>)
    requires Counted(m) && i < |m.pending| && m.pending[i].StatusC? && !Stale(m, m.pending[i])
    ensures Counted(OnResolve(m, i, StatusIs(status)))
  {
    var log := m.log + [Polled(m.gen, status)];
    OneMore(m.log, Polled(m.gen, status));
    match status
    case Failure(code) =>
      if code == SESSION_EXPIRED {
        OneMore(log, SessionExpired(m.gen));
      }
    case Success(Ready) => OneMore(log, CallSetAvatar(m.gen, m.pending[i].id));
    case Success(_) =>
  }

  lemma {:induction false} CommitCounts(m: Machine, i: nat, status: Answer<ImageStatus, Code>)
    requires Counted(m) && i < |m.pending| && m.pending[i].CommitC? && !Stale(m, m.pending[i])
    ensures Counted(OnResolve(m, i, StatusIs(status)))
  {
    match status
    case Failure(_) => OneMore(m.log, SessionExpired(m.gen));
    case Success(Ready) => OneMore(m.log, CallSetAvatar(m.gen, m.pending[i].id));
    case Success(Waiting) => OneMore(m.log, Armed(m.gen));
    case Success(Failed) =>
  }

  lemma {:induction false} ReplyCounts(m: Machine, i: nat, answer: Resolution)
    requires Counted(m) && i < |m.pending| && Fits(m.pending[i], answer)
    ensures Counted(OnResolve(m, i, answer))
  {
    if !Stale(m, m.pending[i]) {
      match answer
      case StatusIs(status) =>
        if m.pending[i].StatusC? {
          PollCounts(m, i, status);
        } else {
          CommitCounts(m, i, status);
        }
      case Requested(Success(id)) => OneMore(m.log, TargetGranted(m.gen, id));
      case _ => OneMore(m.log, SessionExpired(m.gen));
    }
  }

  lemma {:induction false} StepCounts(m: Machine, step: Step)
    requires Counted(m) && Enabled(m, step)
    ensures Counted(Next(m, step))
  {
    match step
    case Resolve(i, answer) => ReplyCounts(m, i, answer);
    case TimerFires =>
      if m.imageId.Some? {
        OneMore(m.log, StatusRead(m.timer.value, m.imageId.value));
      }
    case Unmount =>
    case _ =>
      OneMore(m.log, NewAttempt(m.gen + 1, m.key + 1));
      OneMore(m.log, Armed(m.gen));
  }

  lemma {:induction false} EveryRunCounts(image: Option<string>, steps: seq<Step>, m: Machine)
    requires Reaches(image, steps, m)
    ensures Counted(m)
    decreases |steps|
  {
    if steps != [] {
      var last := steps[|steps| - 1];
      var before :|
        && Reaches(image, steps[..|steps| - 1], before)
        && Enabled(before, last)
        && (last == Retry ==> RetryIsSafe(before))
        && m == Next(before, last);
      EveryRunCounts(image, steps[..|steps| - 1], before);
      StepCounts(before, last);
    }
  }

  /** The poll never gives up early: whenever a picture shows as timed out, MAX_ATTEMPTS answers since the poll was last
      armed said that it is still waiting, or the last MAX_FAILURES of them failed. */
  lemma {:induction false} TimeoutIsEarned(image: Option<string>, steps: seq<Step>, m: Machine)
    requires Reaches(image, steps, m) && m.ui.TimedOut?
    ensures Waits(m.log) >= MAX_ATTEMPTS || FailsInARow(m.log) >= MAX_FAILURES
  {
    EveryRunCounts(image, steps, m);
  }

  /** What the answer to an activation or a removal brings. */
  predicate AvatarBrings(m: Machine, i: nat, image: Answer<string, Code>, n: Machine)
    requires i < |m.pending| && (m.pending[i].ActivateC? || m.pending[i].RemoveC?)
  {
    match image
    case Success(url) =>
      && Awaits(m, i, n, []) && n.log == m.log
      && if m.pending[i].ActivateC? then n.active == Some(url) && n.preview == None && n.ui == Active
         else n.active == None && n.ui == Idle && n.preview == m.preview
    case Failure(code) => FailureBrings(m, i, ActivatePhase, code, n)
  }

  lemma {:induction false} AvatarReplyMeans(m: Machine, i: nat, image: Answer<string, Code>)
    requires i < |m.pending| && (m.pending[i].ActivateC? || m.pending[i].RemoveC?) && !Stale(m, m.pending[i])
    ensures AvatarBrings(m, i, image, OnResolve(m, i, AvatarSet(image)))
  {
  }

  /** A new attempt supersedes every reply still to come, lets go of the latch and the timer, and has a key of its
      own. */
  ghost predicate StartsOver(m: Machine, n: Machine) {
    && n.gen == m.gen + 1 && !n.inFlight && n.timer == None
    && (forall k :: 0 <= k < |m.pending| ==> m.pending[k].gen < n.gen)
    && n.log == m.log + [NewAttempt(n.gen, n.key)]
    && (forall p :: p in m.log && p.NewAttempt? ==> p.key < n.key)
  }

  /** The same attempt, image and calls, polled again with fresh counters. */
  ghost predicate PollsAnew(m: Machine, n: Machine) {
    && n.gen == m.gen && n.key == m.key && n.imageId == m.imageId && n.preview == m.preview && n.pending == m.pending
    && n.log == m.log + [Armed(m.gen)]
    && n.ui == Processing(0) && n.attempts == 0 && n.failures == 0 && n.readCount == 0
    && n.timer == if m.cancelled then None else Some(m.gen)
  }

  lemma {:induction false} ResetMeans(m: Machine)
    requires Inv(m)
    ensures StartsOver(m, ResetAttempt(m))
  {
  }

  lemma {:induction false} AttemptMeans(m: Machine, schemaOk: bool)
    requires Inv(m)
    ensures Inv(OnSelectFile(m, schemaOk)) && StartsOver(m, OnSelectFile(m, schemaOk))
    ensures var n := OnSelectFile(m, schemaOk);
            if schemaOk then n.pending == m.pending + [PreflightC(n.gen)] && n.ui == m.ui
            else n.pending == m.pending && n.ui == Error(UploadPhase, UPLOAD_FAILED)
    ensures Inv(OnRemove(m)) && StartsOver(m, OnRemove(m))
    ensures OnRemove(m).pending == m.pending + [RemoveC(OnRemove(m).gen)] && OnRemove(m).ui == Removing
  {
    SelectFileKeeps(m, schemaOk);
    RemoveKeeps(m);
  }

  lemma {:induction false} RetryMeans(m: Machine)
    requires Inv(m)
    ensures Inv(OnRetry(m)) <==> RetryIsSafe(m)
    ensures m.ui.TimedOut? ==> PollsAnew(m, OnRetry(m))
    ensures m.ui.Error? || m.ui.DerivationFailed? ==> StartsOver(m, OnRetry(m)) && OnRetry(m).pending == m.pending
    ensures m.ui.Error? || m.ui.DerivationFailed? ==> OnRetry(m).ui == Idle && OnRetry(m).preview == None
    ensures !m.ui.TimedOut? && !m.ui.Error? && !m.ui.DerivationFailed? ==> OnRetry(m) == m
  {
    RetryKeeps(m);
    ResetMeans(m);
  }

  lemma {:induction false} TimerMeans(m: Machine)
    requires Inv(m) && m.timer.Some?
    ensures Inv(OnTimer(m)) && OnTimer(m).inFlight && OnTimer(m).timer == None
    ensures OwnsImage(m) && OnTimer(m).log == m.log + [StatusRead(m.gen, m.imageId.value)]
    ensures OnTimer(m).pending == m.pending + [StatusC(m.gen, m.imageId.value)] && OnTimer(m).ui == m.ui
  {
    TimerKeeps(m);
  }

  // ---- What an unsafe retry breaks ----

  /** Every unsafe retry breaks AvatarOnlyForNewest: it polls, under the new generation, a picture that generation
      never asked for, and once that picture is ready makes it the avatar. */
  lemma {:induction false} UnsafeRetryActivatesOldImage(image: Option<string>, steps: seq<Step>, m: Machine)
    requires Reaches(image, steps, m) && !RetryIsSafe(m)
    ensures OnRetry(m).timer == Some(m.gen) && m.imageId.Some?
    ensures var polling := OnTimer(OnRetry(m));
            && polling.log == m.log + [Armed(m.gen), StatusRead(m.gen, m.imageId.value)]
            && polling.pending == m.pending + [StatusC(m.gen, m.imageId.value)]
            && var activated := OnResolve(polling, |m.pending|, StatusIs(Success(Ready)));
               && activated.log == polling.log + [Polled(m.gen, Success(Ready)), CallSetAvatar(m.gen, m.imageId.value)]
               && TargetGranted(m.gen, m.imageId.value) !in activated.log
  {
    EveryRun(image, steps, m);
    UnsafeRetryPolls(m);
    ReadyActivates(OnTimer(OnRetry(m)), m.imageId.value);
  }

  lemma {:induction false} UnsafeRetryPolls(m: Machine)
    requires Inv(m) && !RetryIsSafe(m)
    ensures OnRetry(m).timer == Some(m.gen) && m.imageId.Some? && TargetGranted(m.gen, m.imageId.value) !in m.log
    ensures var polling := OnTimer(OnRetry(m));
            && !polling.cancelled && polling.gen == m.gen
            && polling.log == m.log + [Armed(m.gen), StatusRead(m.gen, m.imageId.value)]
            && polling.pending == m.pending + [StatusC(m.gen, m.imageId.value)]
  {
    var k :| Current(m.pending, m.gen, k) && m.pending[k].PreflightC?;
    assert CurrentOk(m, m.pending[k]);
  }

  lemma {:induction false} ReadyActivates(m: Machine, id: nat)
    requires |m.pending| > 0 && m.pending[|m.pending| - 1] == StatusC(m.gen, id) && !m.cancelled
    ensures OnResolve(m, |m.pending| - 1, StatusIs(Success(Ready))).log
              == m.log + [Polled(m.gen, Success(Ready)), CallSetAvatar(m.gen, id)]
  {
    assert m.log + [Polled(m.gen, Success(Ready))] + [CallSetAvatar(m.gen, id)]
             == m.log + [Polled(m.gen, Success(Ready)), CallSetAvatar(m.gen, id)];
  }

  lemma {:induction false} Extend(image: Option<string>, steps: seq<Step>, m: Machine, step: Step, m': Machine)
    requires Reaches(image, steps, m) && Enabled(m, step) && m' == Next(m, step)
    requires step != Retry
    ensures Reaches(image, steps + [step], m')
  {
    var longer := steps + [step];
    assert longer[..|longer| - 1] == steps && longer[|longer| - 1] == step;
    assert Reaches(image, longer[..|longer| - 1], m);
  }

  // An attempt whose picture is waiting for its poll, after `f` failed polls.
  predicate WaitsForPoll(m: Machine, id: nat, f: nat) {
    && m.ui.Processing? && m.pending == [] && !m.inFlight && !m.cancelled
    && m.timer == Some(m.gen) && m.imageId == Some(id) && m.failures == f
  }

  lemma {:induction false} Pick(image: Option<string>, steps: seq<Step>, m: Machine)
    returns (steps': seq<Step>, m': Machine)
    requires Reaches(image, steps, m) && m.pending == [] && !m.cancelled
    ensures Reaches(image, steps', m') && m' == OnSelectFile(m, true)
    ensures m'.pending == [PreflightC(m'.gen)] && !m'.inFlight && !m'.cancelled
  {
    m' := OnSelectFile(m, true);
    Extend(image, steps, m, SelectFile(true), m');
    steps' := steps + [SelectFile(true)];
  }

  lemma {:induction false} PickAndCommit(image: Option<string>, id: nat) returns (steps: seq<Step>, m: Machine)
    ensures Reaches(image, steps, m) && WaitsForPoll(m, id, 0)
  {
    steps, m := Pick(image, [], Initial(image));
    steps, m := RequestTarget(image, steps, m, id);
    steps, m := UploadAndCommit(image, steps, m, id);
  }

  lemma {:induction false} RequestTarget(image: Option<string>, steps: seq<Step>, m: Machine, id: nat)
    returns (steps': seq<Step>, m': Machine)
    requires Reaches(image, steps, m) && !m.cancelled && !m.inFlight && m.pending == [PreflightC(m.gen)]
    ensures Reaches(image, steps', m') && !m'.cancelled && !m'.inFlight && m'.imageId == Some(id)
    ensures |m'.pending| == 1 && m'.pending[0].UploadC? && m'.pending[0].gen == m'.gen
  {
    var passed, granted := Resolve(0, Preflighted(Some(""))), Resolve(0, Requested(Success(id)));
    var m1 := OnResolve(m, 0, Preflighted(Some("")));
    Extend(image, steps, m, passed, m1);
    m' := OnResolve(m1, 0, Requested(Success(id)));
    Extend(image, steps + [passed], m1, granted, m');
    steps' := steps + [passed] + [granted];
  }

  lemma {:induction false} UploadAndCommit(image: Option<string>, steps: seq<Step>, m: Machine, id: nat)
    returns (steps': seq<Step>, m': Machine)
    requires Reaches(image, steps, m) && !m.cancelled && !m.inFlight && m.imageId == Some(id)
    requires |m.pending| == 1 && m.pending[0].UploadC? && m.pending[0].gen == m.gen
    ensures Reaches(image, steps', m') && WaitsForPoll(m', id, 0)
  {
    var m1 := OnResolve(m, 0, Uploaded(true));
    Extend(image, steps, m, Resolve(0, Uploaded(true)), m1);
    m' := OnResolve(m1, 0, StatusIs(Success(Waiting)));
    Extend(image, steps + [Resolve(0, Uploaded(true))], m1, Resolve(0, StatusIs(Success(Waiting))), m');
    steps' := steps + [Resolve(0, Uploaded(true))] + [Resolve(0, StatusIs(Success(Waiting)))];
  }

  // One failed poll: the timer is armed again, and at the limit the attempt times out.
  lemma {:induction false} PollFails(image: Option<string>, steps: seq<Step>, m: Machine, id: nat, f: nat)
    returns (steps': seq<Step>, m': Machine)
    requires Reaches(image, steps, m) && WaitsForPoll(m, id, f) && f < MAX_FAILURES
    ensures Reaches(image, steps', m')
    ensures f + 1 < MAX_FAILURES ==> WaitsForPoll(m', id, f + 1)
    ensures f + 1 >= MAX_FAILURES ==>
              m'.ui.TimedOut? && m'.pending == [] && !m'.cancelled && m'.imageId == Some(id)
  {
    var lost := Resolve(0, StatusIs(Failure(OtherCode(""))));
    var m1 := OnTimer(m);
    Extend(image, steps, m, TimerFires, m1);
    m' := OnResolve(m1, 0, StatusIs(Failure(OtherCode(""))));
    Extend(image, steps + [TimerFires], m1, lost, m');
    steps' := steps + [TimerFires] + [lost];
  }

  lemma {:induction false} PollsFail(image: Option<string>, steps: seq<Step>, m: Machine, id: nat, f: nat)
    returns (steps': seq<Step>, m': Machine)
    requires Reaches(image, steps, m) && WaitsForPoll(m, id, f) && f < MAX_FAILURES
    ensures Reaches(image, steps', m')
    ensures m'.ui.TimedOut? && m'.pending == [] && !m'.cancelled && m'.imageId == Some(id)
    decreases MAX_FAILURES - f
  {
    steps', m' := PollFails(image, steps, m, id, f);
    if f + 1 < MAX_FAILURES {
      steps', m' := PollsFail(image, steps', m', id, f + 1);
    }
  }

  /** Such a retry is within reach: a picture whose polls all fail, and a second pick still in its pre-flight. */
  lemma {:induction false} UnsafeRetryIsReachable(image: Option<string>, id: nat) returns (steps: seq<Step>, m: Machine)
    ensures Reaches(image, steps, m) && !RetryIsSafe(m) && m.imageId == Some(id)
  {
    var timedOut: Machine;
    steps, m := PickAndCommit(image, id);
    steps, timedOut := PollsFail(image, steps, m, id, 0);
    steps, m := Pick(image, steps, timedOut);
    assert Current(m.pending, m.gen, 0) && m.pending[0].PreflightC?;
  }
}
