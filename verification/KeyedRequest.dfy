/** apps/web/hooks/useSubmitQuote.ts and apps/web/hooks/useCreateRfq.ts: one POST under an idempotency key,
    retried by hand. The two hooks are the same machine (their reset and makeAnother coincide). Requests that
    a reset has orphaned stay in `pending` and may answer at any time. */
module KeyedRequest {
  import opened Wrappers

  datatype Code = IDEMPOTENCY_KEY_MISMATCH | OtherCode(name: string)

  datatype Ui = Idle | Submitting | Created(id: string) | Error(code: Code)

  datatype Call = Call(epoch: nat, key: nat, body: string)

  datatype Machine = Machine(
    ui: Ui,
    key: Option<nat>,
    body: Option<string>,
    busy: bool,
    alive: bool,
    epoch: nat,
    minted: nat,
    pending: seq<Call>,
    log: seq<Call>
  )

  datatype Step =
    | Submit(input: string)
    | Retry
    | StartOver
    | Unmount
    | Resolve(i: nat, reply: Answer<string, Code>)  // a thrown action arrives as SERVER_ERROR

  const INITIAL := Machine(Idle, None, None, false, true, 0, 0, [], [])

  function Start(m: Machine, freshKey: bool, input: string): (m': Machine) {
    if m.busy then m
    else
      var mint := freshKey || m.key.None?;
      var key := if mint then m.minted else m.key.value;
      var call := Call(m.epoch + 1, key, input);
      m.(busy := true, epoch := m.epoch + 1, body := Some(input), key := Some(key),
         minted := if mint then m.minted + 1 else m.minted, ui := Submitting,
         pending := m.pending + [call], log := m.log + [call])
  }

  function OnRetry(m: Machine): (m': Machine) {
    if !m.ui.Error? || m.body.None? then m else Start(m, m.ui.code == IDEMPOTENCY_KEY_MISMATCH, m.body.value)
  }

  function OnStartOver(m: Machine): (m': Machine) {
    m.(epoch := m.epoch + 1, key := None, body := None, busy := false, ui := Idle)
  }

  function OnResolve(m: Machine, i: nat, reply: Answer<string, Code>): (m': Machine)
    requires i < |m.pending|
  {
    var n := m.(pending := m.pending[..i] + m.pending[i + 1..]);
    if !m.alive || m.pending[i].epoch != m.epoch then n
    else n.(busy := false, ui := if reply.Success? then Created(reply.value) else Error(reply.code))
  }

  predicate Enabled(m: Machine, step: Step) {
    step.Resolve? ==> step.i < |m.pending|
  }

  function Next(m: Machine, step: Step): (m': Machine)
    requires Enabled(m, step)
  {
    match step
    case Submit(input) => Start(m, true, input)
    case Retry => OnRetry(m)
    case StartOver => OnStartOver(m)
    case Unmount => m.(alive := false)
    case Resolve(i, reply) => OnResolve(m, i, reply)
  }

  ghost predicate Reaches(steps: seq<Step>, m: Machine)
    decreases |steps|
  {
    if steps == [] then m == INITIAL
    else
      var last := steps[|steps| - 1];
      exists before :: Reaches(steps[..|steps| - 1], before) && Enabled(before, last) && m == Next(before, last)
  }

  /** The frozen body goes with the frozen key; requests out are ordered by epoch, so only the newest can be
      current. */
  ghost predicate Inv(m: Machine) {
    && (m.key.Some? ==> m.body.Some? && m.key.value < m.minted)
    && (forall i :: 0 <= i < |m.log| ==> m.log[i].key < m.minted)
    && (forall i :: 0 <= i < |m.log| && m.key == Some(m.log[i].key) ==> m.body == Some(m.log[i].body))
    && (forall i, j :: 0 <= i < |m.log| && 0 <= j < |m.log| && m.log[i].key == m.log[j].key ==>
          m.log[i].body == m.log[j].body)
    && (forall i :: 0 <= i < |m.pending| ==> m.pending[i].epoch <= m.epoch)
    && (forall i, j :: 0 <= i < j < |m.pending| ==> m.pending[i].epoch < m.pending[j].epoch)
    && (m.alive ==> (m.busy <==> exists i :: 0 <= i < |m.pending| && m.pending[i].epoch == m.epoch))
  }

  lemma {:induction false} StartKeeps(m: Machine, freshKey: bool, input: string)
    requires Inv(m) && (freshKey || m.body == Some(input))
    ensures Inv(Start(m, freshKey, input))
  {
    if !m.busy {
      var n := Start(m, freshKey, input);
      assert n.pending[|m.pending|].epoch == n.epoch;
    }
  }

  lemma {:induction false} ResolveKeeps(m: Machine, i: nat, reply: Answer<string, Code>)
    requires Inv(m) && i < |m.pending|
    ensures Inv(OnResolve(m, i, reply))
  {
    var n := OnResolve(m, i, reply);
    assert forall k :: 0 <= k < |n.pending| ==> n.pending[k] == m.pending[if k < i then k else k + 1];
    if m.alive && m.busy && m.pending[i].epoch != m.epoch {
      var k :| 0 <= k < |m.pending| && m.pending[k].epoch == m.epoch;
      assert n.pending[if k < i then k else k - 1] == m.pending[k];
    }
  }

  lemma {:induction false} StepKeepsInv(m: Machine, step: Step)
    requires Inv(m) && Enabled(m, step)
    ensures Inv(Next(m, step))
  {
    match step
    case Submit(input) => StartKeeps(m, true, input);
    case Retry =>
      if m.ui.Error? && m.body.Some? {
        StartKeeps(m, m.ui.code == IDEMPOTENCY_KEY_MISMATCH, m.body.value);
      }
    case Resolve(i, reply) => ResolveKeeps(m, i, reply);
    case _ =>
  }

  lemma {:induction false} EveryRun(steps: seq<Step>, m: Machine)
    requires Reaches(steps, m)
    ensures Inv(m)
    decreases |steps|
  {
    if steps != [] {
      var last, front := steps[|steps| - 1], steps[..|steps| - 1];
      var before :| Reaches(front, before) && Enabled(before, last) && m == Next(before, last);
      EveryRun(front, before);
      StepKeepsInv(before, last);
    }
  }

  /** In every run, all requests under one key carry one body; while mounted the latch is held exactly while
      a request of the current epoch is out; a superseded reply changes nothing but its own absence. */
  lemma {:induction false} OneBodyPerKey(steps: seq<Step>, m: Machine, i: nat, j: nat)
    requires Reaches(steps, m)
    ensures i < |m.log| && j < |m.log| && m.log[i].key == m.log[j].key ==> m.log[i].body == m.log[j].body
    ensures m.alive ==> (m.busy <==> exists k :: 0 <= k < |m.pending| && m.pending[k].epoch == m.epoch)
    ensures forall reply :: i < |m.pending| && m.pending[i].epoch != m.epoch ==>
              OnResolve(m, i, reply).(pending := m.pending) == m
  {
    EveryRun(steps, m);
  }

  // ---- What a caller may count on ----

  /** One request goes out for this body, which is frozen for a retry, of an epoch newer than any other; whatever was
      sent before under its key carried the same body. */
  ghost predicate Sends(m: Machine, n: Machine, input: string) {
    && n.busy && n.epoch > m.epoch && n.key.Some?
    && n.ui == Submitting && n.body == Some(input)
    && n.pending == m.pending + [Call(n.epoch, n.key.value, input)]
    && n.log == m.log + [Call(n.epoch, n.key.value, input)]
    && (forall i :: 0 <= i < |m.pending| ==> m.pending[i].epoch < n.epoch)
    && (forall i :: 0 <= i < |m.log| && m.log[i].key == n.key.value ==> m.log[i].body == input)
  }

  lemma {:induction false} StartMeans(m: Machine, freshKey: bool, input: string)
    requires Inv(m) && !m.busy && (freshKey || m.body == Some(input))
    ensures Sends(m, Start(m, freshKey, input), input)
    ensures freshKey ==> forall i :: 0 <= i < |m.log| ==> m.log[i].key != Start(m, freshKey, input).key.value
    ensures !freshKey && m.key.Some? ==> Start(m, freshKey, input).key == m.key
  {
  }

  // ---- The hook ----

  class RequestHook {
    var ui: Ui
    var key: Option<nat>
    var body: Option<string>
    var busy: bool
    var alive: bool
    var epoch: nat
    var minted: nat
    ghost var pending: seq<Call>
    ghost var log: seq<Call>

    ghost function View(): Machine
      reads this
    {
      Machine(ui, key, body, busy, alive, epoch, minted, pending, log)
    }

    ghost predicate Valid()
      reads this
    {
      Inv(View())
    }

    constructor ()
      ensures Valid() && View() == INITIAL
    {
      ui, key, body, busy, alive, epoch, minted := Idle, None, None, false, true, 0, 0;
      pending, log := [], [];
    }

    method StartAttempt(freshKey: bool, input: string)
      modifies this
      ensures View() == Start(old(View()), freshKey, input)
    {
      if busy {
        return;
      }
      busy := true;
      epoch := epoch + 1;
      body := Some(input);
      if freshKey || key.None? {
        key := Some(minted);
        minted := minted + 1;
      }
      ui := Submitting;
      pending := pending + [Call(epoch, key.value, input)];
      log := log + [Call(epoch, key.value, input)];
    }

    /** A busy hook is left alone; otherwise the body goes out under a key no request has used. */
    method Submit(input: string)
      requires Valid()
      modifies this
      ensures Valid() && View() == Start(old(View()), true, input)
      ensures old(busy) ==> View() == old(View())
      ensures !old(busy) ==> Sends(old(View()), View(), input)
      ensures !old(busy) ==> forall i :: 0 <= i < |old(log)| ==> old(log)[i].key != key.value
    {
      StartKeeps(View(), true, input);
      if !busy {
        StartMeans(View(), true, input);
      }
      StartAttempt(true, input);
    }

    /** From an error with a frozen body, the same body goes out again: under the same key, except after a mismatch,
        when no request has used the key. Otherwise nothing happens. */
    method Retry()
      requires Valid()
      modifies this
      ensures Valid() && View() == OnRetry(old(View()))
      ensures old(busy || !ui.Error? || body.None?) ==> View() == old(View())
      ensures old(!busy && ui.Error? && body.Some?) ==> Sends(old(View()), View(), old(body.value))
      ensures old(!busy && ui.Error? && body.Some? && key.Some? && ui.code != IDEMPOTENCY_KEY_MISMATCH) ==> key == old(key)
      ensures old(!busy && ui.Error? && body.Some? && ui.code == IDEMPOTENCY_KEY_MISMATCH) ==>
                forall i :: 0 <= i < |old(log)| ==> old(log)[i].key != key.value
    {
      if !ui.Error? || body.None? {
        return;
      }
      StartKeeps(View(), ui.code == IDEMPOTENCY_KEY_MISMATCH, body.value);
      if !busy {
        StartMeans(View(), ui.code == IDEMPOTENCY_KEY_MISMATCH, body.value);
      }
      StartAttempt(ui.code == IDEMPOTENCY_KEY_MISMATCH, body.value);
    }

    /** reset and makeAnother: sends nothing, frees the latch and supersedes every reply still to come. */
    method StartOver()
      requires Valid()
      modifies this
      ensures Valid() && View() == OnStartOver(old(View()))
      ensures log == old(log) && pending == old(pending) && !busy && ui == Idle && key == None && body == None
      ensures forall i :: 0 <= i < |pending| ==> pending[i].epoch < epoch
    {
      epoch := epoch + 1;
      key := None;
      body := None;
      busy := false;
      ui := Idle;
    }

    /** A reply of the current epoch to a mounted hook is shown and frees the latch; any other changes nothing. */
    method ResolveAction(ghost i: nat, forEpoch: nat, reply: Answer<string, Code>)
      requires Valid()
      requires i < |pending| && pending[i].epoch == forEpoch
      modifies this`pending, this`ui, this`busy
      ensures Valid() && View() == OnResolve(old(View()), i, reply)
      ensures alive && forEpoch == epoch ==>
                !busy && ui == if reply.Success? then Created(reply.value) else Error(reply.code)
      ensures !alive || forEpoch != epoch ==> ui == old(ui) && busy == old(busy)
      ensures pending == old(pending[..i] + pending[i + 1..])
    {
      ResolveKeeps(View(), i, reply);
      pending := pending[..i] + pending[i + 1..];
      if alive && forEpoch == epoch {
        ui := if reply.Success? then Created(reply.value) else Error(reply.code);
      }
      if alive && forEpoch == epoch {
        busy := false;
      }
    }

    method Unmount()
      requires Valid()
      modifies this`alive
      ensures Valid() && View() == old(View()).(alive := false)
    {
      alive := false;
    }
  }
}
