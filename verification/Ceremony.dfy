/** The two-gesture money ceremony of apps/web/hooks/useAcceptFlow.ts and apps/web/hooks/useBidFlow.ts:
    prepare, passkey, submit, and one read to reconcile a submit whose outcome was lost. The two hooks are
    one machine; where they differ the tables below take the `Flow` as an argument.

    A step is what runs between two awaits. The replies that are still to come are `pending`, and they may
    arrive in any order, interleaved with any user call and with unmounting. */
module Ceremony {
  import opened Wrappers
  import opened SubmitCodes

  // The frozen quote of the accept flow, or the input of the bid flow.
  datatype Terms = Terms(id: string, price: nat, count: nat)

  datatype Prepared = Prepared(entry: string, challenge: string, gross: nat)

  datatype RetryKind = Reprepare | Resign | NoRetry

  datatype Ui =
    | Idle
    | Preparing
    | ReadyToSign(data: Prepared)
    | Signing
    | Submitting
    | HandedOff(id: string, terms: Option<Terms>)
    | Reconciling
    | Recheck
    | StaleQuote
    | NotWhitelisted
    | Insufficient
    | SessionExpired
    | Error(code: Code, retry: RetryKind)

  datatype Route = Reconcile | DropKey(ui: Ui) | Show(ui: Ui)

  datatype Assertion = Signed | Dismissed | Broken

  datatype Continuation =
    | PrepareC(subject: string, terms: Terms, key: nat)
    | PasskeyC(data: Prepared, subject: string, terms: Terms, key: nat)
    | SubmitC(subject: string, terms: Terms, key: nat)
    | ReadC(subject: string)

  /** Backend traffic: every call, every answer with whether the hook was mounted when it came, and the user's wish
      to reconcile. */
  datatype Event =
    | CallPrepare(subject: string, terms: Terms, key: nat)
    | PrepareAnswered(subject: string, terms: Terms, key: nat, prepared: Answer<Prepared, Code>, mounted: bool)
    | CallSubmit(subject: string, terms: Terms, key: nat, entry: string)
    | SubmitAnswered(subject: string, key: nat, submitted: Answer<string, Code>, mounted: bool)
    | AskedToReconcile(subject: string)
    | CallRead(subject: string)

  datatype Machine = Machine(
    ui: Ui,
    busy: bool,
    cancelled: bool,
    key: Option<nat>,
    data: Option<Prepared>,
    subject: Option<string>,
    terms: Option<Terms>,
    minted: nat,
    pending: seq<Continuation>,
    log: seq<Event>
  )

  datatype Step =
    | Begin(subject: string, terms: Terms)
    | Sign
    | Retry
    | ReconcileByHand
    | Reset
    | Mount
    | Unmount
    | PrepareReply(i: nat, prepared: Answer<Prepared, Code>)
    | PasskeyReply(i: nat, assertion: Assertion)
    | SubmitReply(i: nat, submitted: Answer<string, Code>)
    | ReadReply(i: nat, read: Answer<Option<string>, Code>)

  const INITIAL := Machine(Idle, false, false, None, None, None, None, 0, [], [])

  // ---- Tables ----

  function SubmitRoute(flow: Flow, code: Code): (route: Route) {
    match flow
    case Accept => (
      match code
      case NETWORK_ERROR | IDEMPOTENCY_KEY_IN_FLIGHT | TRADE_ALREADY_IN_FLIGHT | SERVER_ERROR => Reconcile
      case IDEMPOTENCY_KEY_MISMATCH | ACCEPT_CHALLENGE_EXPIRED => DropKey(Error(code, Reprepare))
      case ACCEPT_QUOTE_NOT_ACCEPTABLE | ACCEPT_QUOTE_NOT_AUTHORIZED | ACCEPT_RFQ_NOT_OPEN => Show(StaleQuote)
      case ACCEPT_NOT_WHITELISTED => Show(NotWhitelisted)
      case ACCEPT_INSUFFICIENT_USDC => Show(Insufficient)
      case SESSION_EXPIRED => Show(SessionExpired)
      case ACCEPT_NOT_RFQ_BUYER => Show(Error(code, NoRetry))
      case _ => Show(Error(code, Reprepare)))
    case Bid => (
      match code
      case NETWORK_ERROR | IDEMPOTENCY_KEY_IN_FLIGHT => Reconcile
      case IDEMPOTENCY_KEY_MISMATCH | BID_CHALLENGE_EXPIRED => DropKey(Error(code, Reprepare))
      case OFFERING_WINDOW_CLOSED | OFFERING_NOT_OPEN => Show(Error(code, NoRetry))
      case SESSION_EXPIRED => Show(SessionExpired)
      case _ => Show(Error(code, Reprepare)))
  }

  function PrepareRetry(flow: Flow, code: Code): (kind: RetryKind) {
    match code
    case RATE_LIMITED | NETWORK_ERROR | SERVER_ERROR => Reprepare
    case ACCEPT_SETTLEMENT_UNAVAILABLE => if flow == Accept then Reprepare else NoRetry
    case BID_BELOW_LOW_PRICE | BID_ABOVE_HIGH_PRICE | BID_COUNT_EXCEEDS_FLOAT =>
      if flow == Bid then Reprepare else NoRetry
    case _ => NoRetry
  }

  function PrepareRoute(flow: Flow, code: Code): (route: Route) {
    match flow
    case Accept => (
      match code
      case SESSION_EXPIRED => Show(SessionExpired)
      case ACCEPT_INSUFFICIENT_USDC => Show(Insufficient)
      case ACCEPT_NOT_WHITELISTED => Show(NotWhitelisted)
      case ACCEPT_QUOTE_NOT_ACCEPTABLE | ACCEPT_QUOTE_NOT_AUTHORIZED | ACCEPT_RFQ_NOT_OPEN => Show(StaleQuote)
      case TRADE_ALREADY_IN_FLIGHT => Reconcile
      case _ => Show(Error(code, PrepareRetry(flow, code))))
    case Bid => (
      match code
      case SESSION_EXPIRED => Show(SessionExpired)
      case BID_INSUFFICIENT_BALANCE => Show(Insufficient)
      case _ => Show(Error(code, PrepareRetry(flow, code))))
  }

  function GateFailure(flow: Flow): Ui {
    match flow
    case Accept => StaleQuote
    case Bid => Error(SERVER_ERROR, Reprepare)
  }

  function Gross(terms: Terms): nat {
    terms.price * terms.count
  }

  // ---- Steps ----

  predicate Falsy(s: Option<string>) {
    s.None? || s.value == ""
  }

  function Settle(m: Machine, i: nat, answered: seq<Event>): (m': Machine)
    requires i < |m.pending|
  {
    m.(pending := m.pending[..i] + m.pending[i + 1..], busy := false, log := m.log + answered)
  }

  // Ask once whether the trade exists; the latch stays held for the reply.
  function AskOnce(m: Machine, subject: string): (m': Machine) {
    m.(ui := Reconciling, busy := true, pending := m.pending + [ReadC(subject)], log := m.log + [CallRead(subject)])
  }

  function Follow(m: Machine, route: Route, subject: string): (m': Machine) {
    match route
    case Reconcile => AskOnce(m, subject)
    case DropKey(ui) => m.(ui := ui, key := None)
    case Show(ui) => m.(ui := ui)
  }

  function OnBegin(m: Machine, subject: string, terms: Terms): (m': Machine) {
    if m.busy then m
    else m.(busy := true, subject := Some(subject), terms := Some(terms),
            key := Some(m.minted), minted := m.minted + 1, ui := Preparing,
            pending := m.pending + [PrepareC(subject, terms, m.minted)],
            log := m.log + [CallPrepare(subject, terms, m.minted)])
  }

  function OnPrepareReply(flow: Flow, m: Machine, i: nat, reply: Answer<Prepared, Code>): (m': Machine)
    requires i < |m.pending| && m.pending[i].PrepareC?
  {
    var c := m.pending[i];
    var n := Settle(m, i, [PrepareAnswered(c.subject, c.terms, c.key, reply, !m.cancelled)]);
    if m.cancelled then n
    else match reply
      case Failure(code) => Follow(n, PrepareRoute(flow, code), c.subject)
      case Success(data) =>
        if Gross(c.terms) != data.gross then n.(key := None, ui := GateFailure(flow))
        else n.(data := Some(data), ui := ReadyToSign(data))
  }

  function OnSign(m: Machine): (m': Machine) {
    if m.busy || !m.ui.ReadyToSign? then m
    else if Falsy(m.subject) || m.terms.None? || m.key.None? then m.(ui := Error(SERVER_ERROR, Reprepare))
    else m.(busy := true, ui := Signing,
            pending := m.pending + [PasskeyC(m.ui.data, m.subject.value, m.terms.value, m.key.value)])
  }

  function OnPasskeyReply(m: Machine, i: nat, assertion: Assertion): (m': Machine)
    requires i < |m.pending| && m.pending[i].PasskeyC?
  {
    var c, n := m.pending[i], Settle(m, i, []);
    if m.cancelled then n
    else match assertion
      case Dismissed => n.(ui := ReadyToSign(c.data))
      case Broken => n.(ui := Error(PASSKEY_FAILED, Resign))
      case Signed => n.(busy := true, ui := Submitting,
                        pending := n.pending + [SubmitC(c.subject, c.terms, c.key)],
                        log := n.log + [CallSubmit(c.subject, c.terms, c.key, c.data.entry)])
  }

  function OnSubmitReply(flow: Flow, m: Machine, i: nat, reply: Answer<string, Code>): (m': Machine)
    requires i < |m.pending| && m.pending[i].SubmitC?
  {
    var c := m.pending[i];
    var n := Settle(m, i, [SubmitAnswered(c.subject, c.key, reply, !m.cancelled)]);
    if m.cancelled then n
    else match reply
      case Success(id) => n.(ui := HandedOff(id, if flow == Accept then Some(c.terms) else None))
      case Failure(code) => Follow(n, SubmitRoute(flow, code), c.subject)
  }

  function OnReadReply(m: Machine, i: nat, reply: Answer<Option<string>, Code>): (m': Machine)
    requires i < |m.pending| && m.pending[i].ReadC?
  {
    var n := Settle(m, i, []);
    if m.cancelled then n
    else match reply
      case Success(Some(id)) => n.(ui := HandedOff(id, None))
      case Success(None) => n.(ui := Recheck)
      case Failure(code) => n.(ui := if code == SESSION_EXPIRED then SessionExpired else Recheck)
  }

  function OnReconcile(m: Machine): (m': Machine) {
    if m.busy || m.ui != Recheck || Falsy(m.subject) then m
    else AskOnce(m.(log := m.log + [AskedToReconcile(m.subject.value)]), m.subject.value)
  }

  function OnRetry(m: Machine): (m': Machine) {
    match m.ui
    case Error(_, Reprepare) => m.(key := None, ui := Idle)
    case Error(_, Resign) => m.(ui := if m.data.Some? then ReadyToSign(m.data.value) else Idle)
    case Insufficient => m.(key := None, ui := Idle)
    case _ => m
  }

  function OnReset(m: Machine): (m': Machine) {
    m.(busy := false, key := None, data := None, ui := Idle)
  }

  /** Only the bid flow has a reset; a reply can only come for a call that is out. */
  predicate Enabled(flow: Flow, m: Machine, step: Step) {
    match step
    case Reset => flow == Bid
    case PrepareReply(i, _) => i < |m.pending| && m.pending[i].PrepareC?
    case PasskeyReply(i, _) => i < |m.pending| && m.pending[i].PasskeyC?
    case SubmitReply(i, _) => i < |m.pending| && m.pending[i].SubmitC?
    case ReadReply(i, _) => i < |m.pending| && m.pending[i].ReadC?
    case _ => true
  }

  function Next(flow: Flow, m: Machine, step: Step): (m': Machine)
    requires Enabled(flow, m, step)
  {
    match step
    case Begin(subject, terms) => OnBegin(m, subject, terms)
    case Sign => OnSign(m)
    case Retry => OnRetry(m)
    case ReconcileByHand => OnReconcile(m)
    case Reset => OnReset(m)
    case Mount => m.(cancelled := false)
    case Unmount => m.(cancelled := true)
    case PrepareReply(i, reply) => OnPrepareReply(flow, m, i, reply)
    case PasskeyReply(i, assertion) => OnPasskeyReply(m, i, assertion)
    case SubmitReply(i, reply) => OnSubmitReply(flow, m, i, reply)
    case ReadReply(i, reply) => OnReadReply(m, i, reply)
  }

  /** m is reached from a fresh hook by these steps. Unless `anyReset` holds, none of them is a reset during
      a pending call. The accept flow has no reset, so for it this is every run. */
  ghost predicate Reaches(flow: Flow, steps: seq<Step>, m: Machine, anyReset: bool := false)
    decreases |steps|
  {
    if steps == [] then m == INITIAL
    else
      var last := steps[|steps| - 1];
      exists before ::
        && Reaches(flow, steps[..|steps| - 1], before, anyReset)
        && Enabled(flow, before, last)
        && (last == Reset ==> anyReset || !before.busy)
        && m == Next(flow, before, last)
  }

  // ---- What the log of every run satisfies ----

  /** This submit's outcome was reported as open to a mounted hook: a trade may exist. */
  predicate LeftOpen(flow: Flow, e: Event) {
    e.SubmitAnswered? && e.mounted && e.submitted.Failure? && OutcomeOpen(flow, e.submitted.code)
  }

  /** After these events the hook reads whether a trade exists. Of the open outcomes of a submit the bid flow leaves
      out SERVER_ERROR. */
  predicate Asks(flow: Flow, e: Event) {
    || (LeftOpen(flow, e) && (flow == Accept || e.submitted.code != SERVER_ERROR))
    || (flow == Accept && e.PrepareAnswered? && e.mounted && e.prepared == Failure(TRADE_ALREADY_IN_FLIGHT))
    || e.AskedToReconcile?
  }

  ghost predicate Submitted(log: seq<Event>, key: nat) {
    exists e :: e in log && e.CallSubmit? && e.key == key
  }

  /** The prepare of these terms under this key succeeded, and the server's gross is price times count. */
  ghost predicate Gated(log: seq<Event>, subject: string, terms: Terms, key: nat, data: Prepared) {
    PrepareAnswered(subject, terms, key, Success(data), true) in log && data.gross == Gross(terms)
  }

  /** One more event after `log`: a prepare takes a key larger than any before; a submit echoes a gated
      prepare of the newest key, not submitted before; a read follows exactly an event that asks for it. */
  ghost predicate Follows(flow: Flow, log: seq<Event>, e: Event) {
    && (|log| > 0 && Asks(flow, log[|log| - 1]) <==> e.CallRead?)
    && match e
       case CallPrepare(_, _, key) => forall p :: p in log && p.CallPrepare? ==> p.key < key
       case PrepareAnswered(subject, terms, key, _, _) => CallPrepare(subject, terms, key) in log
       case CallSubmit(subject, terms, key, entry) =>
         && (exists data :: Gated(log, subject, terms, key, data) && data.entry == entry)
         && (forall p :: p in log && p.CallPrepare? ==> p.key <= key)
         && !Submitted(log, key)
       case CallRead(subject) => log[|log| - 1].subject == subject
       case _ => true
  }

  ghost predicate LogOk(flow: Flow, log: seq<Event>) {
    log == [] || (LogOk(flow, log[..|log| - 1]) && Follows(flow, log[..|log| - 1], log[|log| - 1]))
  }

  /** Nothing is left to ask: the log is sound and its last event does not call for a read. */
  ghost predicate Quiet(flow: Flow, log: seq<Event>) {
    LogOk(flow, log) && (|log| > 0 ==> !Asks(flow, log[|log| - 1]))
  }

  /** Every key in the log was minted here. */
  ghost predicate KeysBelow(log: seq<Event>, minted: nat) {
    forall p :: p in log && (p.CallPrepare? || p.CallSubmit?) ==> p.key < minted
  }

  /** The data is a gated prepare of the current subject, terms and key, and the key is unspent. */
  ghost predicate Backed(m: Machine, data: Prepared) {
    && m.key.Some? && m.subject.Some? && m.terms.Some? && m.data == Some(data)
    && Gated(m.log, m.subject.value, m.terms.value, m.key.value, data)
    && !Submitted(m.log, m.key.value)
  }

  ghost predicate PendingOk(m: Machine, c: Continuation) {
    match c
    case PrepareC(subject, terms, key) =>
      && m.ui == Preparing && m.subject == Some(subject) && m.terms == Some(terms) && m.key == Some(key)
      && CallPrepare(subject, terms, key) in m.log && !Submitted(m.log, key)
    case PasskeyC(data, subject, terms, key) =>
      && m.ui == Signing && m.subject == Some(subject) && m.terms == Some(terms) && m.key == Some(key)
      && Backed(m, data)
    case SubmitC(_, _, _) => m.ui == Submitting
    case ReadC(_) => m.ui == Reconciling
  }

  ghost predicate Inv(flow: Flow, m: Machine) {
    && |m.pending| == (if m.busy then 1 else 0)
    && (m.busy ==> PendingOk(m, m.pending[0]))
    && (m.ui.ReadyToSign? ==> !m.busy && Backed(m, m.ui.data))
    && (m.ui.Error? && m.ui.retry == Resign ==> m.data.Some? && Backed(m, m.data.value))
    && (m.key.Some? ==> m.key.value + 1 == m.minted)
    && KeysBelow(m.log, m.minted)
    && Quiet(flow, m.log)
  }

  // ---- Every step keeps the invariant ----

  /** A submit code calls for a read exactly when it leaves the outcome open, except SERVER_ERROR in the bid flow. */
  lemma {:induction false} ReadsExactlyOpen(flow: Flow, code: Code)
    ensures SubmitRoute(flow, code) == Reconcile <==> OutcomeOpen(flow, code) && (flow == Accept || code != SERVER_ERROR)
    ensures PrepareRoute(flow, code) == Reconcile <==> flow == Accept && code == TRADE_ALREADY_IN_FLIGHT
  {
  }

  lemma {:induction false} Append(flow: Flow, log: seq<Event>, e: Event)
    requires LogOk(flow, log) && Follows(flow, log, e)
    ensures LogOk(flow, log + [e])
  {
    assert (log + [e])[..|log|] == log;
  }

  // What a log loses nothing of when it grows.
  lemma {:induction false} Grows(log: seq<Event>, more: seq<Event>, minted: nat)
    requires KeysBelow(log, minted)
    requires forall e :: e in more ==> !e.CallPrepare? && !e.CallSubmit?
    ensures KeysBelow(log + more, minted)
    ensures forall key :: Submitted(log + more, key) <==> Submitted(log, key)
    ensures forall subject, terms, key, data ::
              Gated(log, subject, terms, key, data) ==> Gated(log + more, subject, terms, key, data)
  {
    forall key ensures Submitted(log + more, key) <==> Submitted(log, key) {
      if Submitted(log, key) {
        var e :| e in log && e.CallSubmit? && e.key == key;
        assert e in log + more;
      }
    }
  }

  // A machine after the answer to its only call, before it acts on it: at rest but for the read it may owe.
  ghost predicate Answered(flow: Flow, m: Machine, asks: bool) {
    && !m.busy && m.pending == []
    && (m.key.Some? ==> m.key.value + 1 == m.minted)
    && KeysBelow(m.log, m.minted)
    && LogOk(flow, m.log) && |m.log| > 0 && (Asks(flow, m.log[|m.log| - 1]) <==> asks)
  }

  lemma {:induction false} FollowKeeps(flow: Flow, m: Machine, route: Route, subject: string)
    requires Answered(flow, m, route == Reconcile) && m.log[|m.log| - 1].subject == subject
    requires !route.Reconcile? ==> !route.ui.ReadyToSign? && !(route.ui.Error? && route.ui.retry == Resign)
    ensures Inv(flow, Follow(m, route, subject))
  {
    if route == Reconcile {
      Append(flow, m.log, CallRead(subject));
      Grows(m.log, [CallRead(subject)], m.minted);
    }
  }

  lemma {:induction false} RoutesNeverArm(flow: Flow, code: Code)
    ensures var r := SubmitRoute(flow, code);
            !r.Reconcile? ==> !r.ui.ReadyToSign? && !(r.ui.Error? && r.ui.retry == Resign)
    ensures var r := PrepareRoute(flow, code);
            !r.Reconcile? ==> !r.ui.ReadyToSign? && !(r.ui.Error? && r.ui.retry == Resign)
  {
  }

  // A prepare under a newly minted key.
  lemma {:induction false} LogPrepare(flow: Flow, log: seq<Event>, e: Event)
    requires Quiet(flow, log) && e.CallPrepare? && KeysBelow(log, e.key)
    ensures Quiet(flow, log + [e]) && KeysBelow(log + [e], e.key + 1)
    ensures e in log + [e] && !Submitted(log + [e], e.key)
  {
    Append(flow, log, e);
    assert (log + [e])[|log|] == e;
  }

  // A submit of a gated prepare of the newest key, still unspent.
  lemma {:induction false} LogSubmit(flow: Flow, log: seq<Event>, e: Event, data: Prepared)
    requires Quiet(flow, log) && e.CallSubmit? && KeysBelow(log, e.key + 1)
    requires Gated(log, e.subject, e.terms, e.key, data) && data.entry == e.entry && !Submitted(log, e.key)
    ensures Quiet(flow, log + [e]) && KeysBelow(log + [e], e.key + 1)
  {
    Append(flow, log, e);
    assert (log + [e])[|log|] == e;
  }

  lemma {:induction false} BeginKeeps(flow: Flow, m: Machine, subject: string, terms: Terms)
    requires Inv(flow, m)
    ensures Inv(flow, OnBegin(m, subject, terms))
  {
    if !m.busy {
      LogPrepare(flow, m.log, CallPrepare(subject, terms, m.minted));
    }
  }

  lemma {:induction false} SignKeeps(flow: Flow, m: Machine)
    requires Inv(flow, m)
    ensures Inv(flow, OnSign(m))
  {
  }

  lemma {:induction false} RetryKeeps(flow: Flow, m: Machine)
    requires Inv(flow, m)
    ensures Inv(flow, OnRetry(m))
  {
  }

  /** A reset keeps the machine sound exactly when no reply is outstanding. */
  lemma {:induction false} ResetKeeps(flow: Flow, m: Machine)
    requires Inv(flow, m)
    ensures Inv(flow, OnReset(m)) <==> !m.busy
  {
  }

  lemma {:induction false} ReconcileKeeps(flow: Flow, m: Machine)
    requires Inv(flow, m)
    ensures Inv(flow, OnReconcile(m))
  {
    if !m.busy && m.ui == Recheck && !Falsy(m.subject) {
      var asked := AskedToReconcile(m.subject.value);
      Append(flow, m.log, asked);
      Grows(m.log, [asked], m.minted);
      FollowKeeps(flow, m.(log := m.log + [asked]), Reconcile, m.subject.value);
    }
  }

  // Taking the answer to the pending call out leaves a machine that has answered it.
  lemma {:induction false} SettleKeeps(flow: Flow, m: Machine, e: Event)
    requires Inv(flow, m) && |m.pending| == 1
    requires e.PrepareAnswered? || e.SubmitAnswered?
    requires e.PrepareAnswered? ==> CallPrepare(e.subject, e.terms, e.key) in m.log
    ensures Answered(flow, Settle(m, 0, [e]), Asks(flow, e))
    ensures Settle(m, 0, [e]).log[|m.log|] == e
  {
    Append(flow, m.log, e);
    Grows(m.log, [e], m.minted);
  }

  lemma {:induction false} PrepareReplyKeeps(flow: Flow, m: Machine, i: nat, reply: Answer<Prepared, Code>)
    requires Inv(flow, m) && i < |m.pending| && m.pending[i].PrepareC?
    ensures Inv(flow, OnPrepareReply(flow, m, i, reply))
  {
    var c := m.pending[i];
    var e := PrepareAnswered(c.subject, c.terms, c.key, reply, !m.cancelled);
    var n := Settle(m, i, [e]);
    SettleKeeps(flow, m, e);
    Grows(m.log, [e], m.minted);
    if !m.cancelled && reply.Failure? {
      ReadsExactlyOpen(flow, reply.code);
      RoutesNeverArm(flow, reply.code);
      FollowKeeps(flow, n, PrepareRoute(flow, reply.code), c.subject);
    } else if !m.cancelled && Gross(c.terms) == reply.value.gross {
      assert n.log[|m.log|] == e;
      assert Gated(n.log, c.subject, c.terms, c.key, reply.value);
    }
  }

  lemma {:induction false} PasskeyReplyKeeps(flow: Flow, m: Machine, i: nat, assertion: Assertion)
    requires Inv(flow, m) && i < |m.pending| && m.pending[i].PasskeyC?
    ensures Inv(flow, OnPasskeyReply(m, i, assertion))
  {
    assert m.log + [] == m.log;
    if !m.cancelled && assertion == Signed {
      SubmitKeeps(flow, m, m.pending[i]);
    }
  }

  lemma {:induction false} SubmitKeeps(flow: Flow, m: Machine, c: Continuation)
    requires Inv(flow, m) && m.pending == [c] && c.PasskeyC?
    ensures Inv(flow, m.(ui := Submitting, pending := [SubmitC(c.subject, c.terms, c.key)],
                         log := m.log + [CallSubmit(c.subject, c.terms, c.key, c.data.entry)]))
  {
    LogSubmit(flow, m.log, CallSubmit(c.subject, c.terms, c.key, c.data.entry), c.data);
  }

  lemma {:induction false} SubmitReplyKeeps(flow: Flow, m: Machine, i: nat, reply: Answer<string, Code>)
    requires Inv(flow, m) && i < |m.pending| && m.pending[i].SubmitC?
    ensures Inv(flow, OnSubmitReply(flow, m, i, reply))
  {
    var c := m.pending[i];
    var e := SubmitAnswered(c.subject, c.key, reply, !m.cancelled);
    SettleKeeps(flow, m, e);
    if !m.cancelled && reply.Failure? {
      ReadsExactlyOpen(flow, reply.code);
      RoutesNeverArm(flow, reply.code);
      FollowKeeps(flow, Settle(m, i, [e]), SubmitRoute(flow, reply.code), c.subject);
    }
  }

  lemma {:induction false} ReadReplyKeeps(flow: Flow, m: Machine, i: nat, reply: Answer<Option<string>, Code>)
    requires Inv(flow, m) && i < |m.pending| && m.pending[i].ReadC?
    ensures Inv(flow, OnReadReply(m, i, reply))
  {
    assert m.log + [] == m.log;
  }

  lemma {:induction false} StepKeepsInv(flow: Flow, m: Machine, step: Step)
    requires Inv(flow, m) && Enabled(flow, m, step)
    requires step == Reset ==> !m.busy
    ensures Inv(flow, Next(flow, m, step))
  {
    match step
    case Begin(subject, terms) => BeginKeeps(flow, m, subject, terms);
    case Sign => SignKeeps(flow, m);
    case Retry => RetryKeeps(flow, m);
    case ReconcileByHand => ReconcileKeeps(flow, m);
    case Reset => ResetKeeps(flow, m);
    case Mount =>
    case Unmount =>
    case PrepareReply(i, reply) => PrepareReplyKeeps(flow, m, i, reply);
    case PasskeyReply(i, assertion) => PasskeyReplyKeeps(flow, m, i, assertion);
    case SubmitReply(i, reply) => SubmitReplyKeeps(flow, m, i, reply);
    case ReadReply(i, reply) => ReadReplyKeeps(flow, m, i, reply);
  }

  lemma {:induction false} EveryRun(flow: Flow, steps: seq<Step>, m: Machine)
    requires Reaches(flow, steps, m)
    ensures Inv(flow, m)
    decreases |steps|
  {
    if steps != [] {
      var last := steps[|steps| - 1];
      var before :|
        && Reaches(flow, steps[..|steps| - 1], before)
        && Enabled(flow, before, last)
        && (last == Reset ==> !before.busy)
        && m == Next(flow, before, last);
      EveryRun(flow, steps[..|steps| - 1], before);
      StepKeepsInv(flow, before, last);
    }
  }

  // ---- What holds in every run ----

  lemma {:induction false} LogOkAt(flow: Flow, log: seq<Event>, i: nat)
    requires LogOk(flow, log) && i < |log|
    ensures Follows(flow, log[..i], log[i])
  {
    var front := log[..|log| - 1];
    if i < |front| {
      LogOkAt(flow, front, i);
      assert front[..i] == log[..i];
    }
  }

  lemma {:induction false} IndexOf(log: seq<Event>, i: nat, e: Event) returns (j: nat)
    requires i <= |log| && e in log[..i]
    ensures j < i && log[j] == e
  {
    j :| 0 <= j < i && log[..i][j] == e;
  }

  // The gated prepare that the submit at i echoes.
  lemma {:induction false} PrepareAnswerOf(flow: Flow, log: seq<Event>, i: nat) returns (j: nat, data: Prepared)
    requires LogOk(flow, log) && i < |log| && log[i].CallSubmit?
    ensures j < i && data.entry == log[i].entry && data.gross == Gross(log[i].terms)
    ensures log[j] == PrepareAnswered(log[i].subject, log[i].terms, log[i].key, Success(data), true)
  {
    LogOkAt(flow, log, i);
    var s := log[i];
    data :| Gated(log[..i], s.subject, s.terms, s.key, data) && data.entry == s.entry;
    j := IndexOf(log, i, PrepareAnswered(s.subject, s.terms, s.key, Success(data), true));
  }

  /** Whatever was submitted was first prepared, for the same subject, terms and key, and the server's gross
      for it was price times count of the terms the user saw. */
  lemma {:induction false} SubmitEchoesGatedPrepare(flow: Flow, steps: seq<Step>, m: Machine, i: nat)
    returns (j: nat, data: Prepared)
    requires Reaches(flow, steps, m) && i < |m.log| && m.log[i].CallSubmit?
    ensures j < i && data.entry == m.log[i].entry
    ensures m.log[j] == PrepareAnswered(m.log[i].subject, m.log[i].terms, m.log[i].key, Success(data), true)
    ensures data.gross == m.log[i].terms.price * m.log[i].terms.count
  {
    EveryRun(flow, steps, m);
    j, data := PrepareAnswerOf(flow, m.log, i);
  }

  lemma {:induction false} PrepareOfSubmit(flow: Flow, log: seq<Event>, i: nat) returns (p: nat)
    requires LogOk(flow, log) && i < |log| && log[i].CallSubmit?
    ensures p < i && log[p].CallPrepare? && log[p].key == log[i].key
    ensures forall q :: 0 <= q < i && log[q].CallPrepare? ==> log[q].key <= log[i].key
    ensures forall q :: 0 <= q < i && log[q].CallSubmit? ==> log[q].key != log[i].key
  {
    LogOkAt(flow, log, i);
    assert forall q :: 0 <= q < i ==> log[q] in log[..i];
    var j, data := PrepareAnswerOf(flow, log, i);
    LogOkAt(flow, log, j);
    p := IndexOf(log, j, CallPrepare(log[i].subject, log[i].terms, log[i].key));
  }

  lemma {:induction false} FreshPrepare(flow: Flow, log: seq<Event>, i: nat, j: nat) returns (p: nat)
    requires LogOk(flow, log) && i < j < |log| && log[i].CallSubmit? && log[j].CallSubmit?
    ensures log[i].key < log[j].key
    ensures i < p < j && log[p].CallPrepare? && log[p].key == log[j].key
  {
    var q := PrepareOfSubmit(flow, log, i);
    p := PrepareOfSubmit(flow, log, j);
    assert log[q].key <= log[j].key;
  }

  /** A key is submitted at most once, and between two submits there is a new prepare, under the key of the
      second. */
  lemma {:induction false} SubmitsNeedFreshPrepare(flow: Flow, steps: seq<Step>, m: Machine, i: nat, j: nat) returns (p: nat)
    requires Reaches(flow, steps, m) && i < j < |m.log| && m.log[i].CallSubmit? && m.log[j].CallSubmit?
    ensures m.log[i].key < m.log[j].key
    ensures i < p < j && m.log[p].CallPrepare? && m.log[p].key == m.log[j].key
  {
    EveryRun(flow, steps, m);
    p := FreshPrepare(flow, m.log, i, j);
  }

  lemma {:induction false} ReadAfter(flow: Flow, log: seq<Event>, i: nat)
    requires Quiet(flow, log) && i < |log|
    ensures Asks(flow, log[i]) <==> i + 1 < |log| && log[i + 1].CallRead?
    ensures Asks(flow, log[i]) ==> log[i + 1] == CallRead(log[i].subject)
  {
    if i + 1 < |log| {
      LogOkAt(flow, log, i + 1);
      assert log[..i + 1][i] == log[i];
    }
  }

  /** In the accept flow every submit answered while mounted with an open outcome is followed at once, before any
      other backend call, by exactly one read for it. */
  lemma {:induction false} AcceptReadsEveryOpenOutcome(steps: seq<Step>, m: Machine, i: nat)
    requires Reaches(Accept, steps, m) && i < |m.log| && LeftOpen(Accept, m.log[i])
    ensures i + 1 < |m.log| && m.log[i + 1] == CallRead(m.log[i].subject)
    ensures i + 2 < |m.log| ==> !m.log[i + 2].CallRead?
  {
    EveryRun(Accept, steps, m);
    ReadAfter(Accept, m.log, i);
    ReadAfter(Accept, m.log, i + 1);
  }

  /** In the bid flow it is, if and only if the code is not SERVER_ERROR. */
  lemma {:induction false} BidReadsUnlessServerError(steps: seq<Step>, m: Machine, i: nat)
    requires Reaches(Bid, steps, m) && i < |m.log| && LeftOpen(Bid, m.log[i])
    ensures i + 1 < |m.log| && m.log[i + 1] == CallRead(m.log[i].subject) <==> m.log[i].submitted.code != SERVER_ERROR
  {
    EveryRun(Bid, steps, m);
    ReadAfter(Bid, m.log, i);
  }

  /** A read never comes for any other reason: an open submit, a prepare that met a trade in flight, or the user. */
  lemma {:induction false} NoOtherRead(flow: Flow, steps: seq<Step>, m: Machine, i: nat)
    requires Reaches(flow, steps, m) && i < |m.log| && m.log[i].CallRead?
    ensures i > 0 && m.log[i - 1].subject == m.log[i].subject
    ensures var why := m.log[i - 1];
            || LeftOpen(flow, why)
            || (flow == Accept && why.PrepareAnswered? && why.prepared == Failure(TRADE_ALREADY_IN_FLIGHT))
            || why.AskedToReconcile?
  {
    EveryRun(flow, steps, m);
    LogOkAt(flow, m.log, i);
    assert i > 0 ==> m.log[..i][i - 1] == m.log[i - 1];
  }

  /** The latch is held exactly while one reply is outstanding, and from `ReadyToSign` the guard against
      missing refs fires exactly when the caller began with an empty subject id. */
  lemma {:induction false} LatchAndGuard(flow: Flow, steps: seq<Step>, m: Machine)
    requires Reaches(flow, steps, m)
    ensures m.busy <==> |m.pending| == 1
    ensures !m.busy <==> m.pending == []
    ensures m.ui.ReadyToSign? ==> !m.busy && m.subject.Some?
    ensures m.ui.ReadyToSign? ==> (OnSign(m).ui == Signing <==> m.subject.value != "")
  {
    EveryRun(flow, steps, m);
  }

  // ---- What a failure shows ----

  /** The chosen quote can no longer be accepted: pick another. */
  predicate QuoteGone(flow: Flow, code: Code) {
    && flow == Accept
    && (code == ACCEPT_QUOTE_NOT_ACCEPTABLE || code == ACCEPT_QUOTE_NOT_AUTHORIZED || code == ACCEPT_RFQ_NOT_OPEN)
  }

  /** The key, or the challenge signed under it, is spent: a retry must take a new one. */
  predicate KeySpent(flow: Flow, code: Code) {
    || code == IDEMPOTENCY_KEY_MISMATCH
    || code == if flow == Accept then ACCEPT_CHALLENGE_EXPIRED else BID_CHALLENGE_EXPIRED
  }

  /** No retry of this submit can succeed: not the buyer's request, or the bidding is over. */
  predicate SubmitHopeless(flow: Flow, code: Code) {
    if flow == Accept then code == ACCEPT_NOT_RFQ_BUYER
    else code == OFFERING_WINDOW_CLOSED || code == OFFERING_NOT_OPEN
  }

  /** A prepare that may succeed later, or with another bid. */
  predicate PrepareHopeful(flow: Flow, code: Code) {
    || code == RATE_LIMITED || code == NETWORK_ERROR || code == SERVER_ERROR
    || (flow == Accept && code == ACCEPT_SETTLEMENT_UNAVAILABLE)
    || (flow == Bid && (code == BID_BELOW_LOW_PRICE || code == BID_ABOVE_HIGH_PRICE || code == BID_COUNT_EXCEEDS_FLOAT))
  }

  predicate TooPoor(flow: Flow, code: Code, submitting: bool) {
    if flow == Accept then code == ACCEPT_INSUFFICIENT_USDC else code == BID_INSUFFICIENT_BALANCE && !submitting
  }

  /** The surface of a failed call that is not reconciled: the one its code stands for, or an error that offers a new
      prepare when there is hope. */
  predicate FailureShows(flow: Flow, code: Code, submitting: bool, ui: Ui) {
    && (ui == StaleQuote <==> QuoteGone(flow, code))
    && (ui == NotWhitelisted <==> flow == Accept && code == ACCEPT_NOT_WHITELISTED)
    && (ui == Insufficient <==> TooPoor(flow, code, submitting))
    && (ui == SessionExpired <==> code == SESSION_EXPIRED)
    && (ui == StaleQuote || ui == NotWhitelisted || ui == Insufficient || ui == SessionExpired || ui.Error?)
    && (ui.Error? ==>
          && ui.code == code
          && ui.retry == if (if submitting then !SubmitHopeless(flow, code) else PrepareHopeful(flow, code))
                         then Reprepare else NoRetry)
  }

  lemma {:induction false} AcceptSubmitMeans(code: Code)
    ensures var r := SubmitRoute(Accept, code);
            && (!r.Reconcile? ==> FailureShows(Accept, code, true, r.ui))
            && (r.DropKey? <==> KeySpent(Accept, code))
  {
  }

  lemma {:induction false} BidSubmitMeans(code: Code)
    ensures var r := SubmitRoute(Bid, code);
            && (!r.Reconcile? ==> FailureShows(Bid, code, true, r.ui))
            && (r.DropKey? <==> KeySpent(Bid, code))
  {
  }

  lemma {:induction false} SubmitRouteMeans(flow: Flow, code: Code)
    ensures var r := SubmitRoute(flow, code);
            && (!r.Reconcile? ==> FailureShows(flow, code, true, r.ui))
            && (r.DropKey? <==> KeySpent(flow, code))
  {
    match flow
    case Accept => AcceptSubmitMeans(code);
    case Bid => BidSubmitMeans(code);
  }

  lemma {:induction false} PrepareRetryMeans(flow: Flow, code: Code)
    ensures PrepareRetry(flow, code) == if PrepareHopeful(flow, code) then Reprepare else NoRetry
  {
  }

  lemma {:induction false} AcceptPrepareMeans(code: Code)
    ensures var r := PrepareRoute(Accept, code); !r.Reconcile? ==> r.Show? && FailureShows(Accept, code, false, r.ui)
  {
    PrepareRetryMeans(Accept, code);
  }

  lemma {:induction false} BidPrepareMeans(code: Code)
    ensures var r := PrepareRoute(Bid, code); !r.Reconcile? ==> r.Show? && FailureShows(Bid, code, false, r.ui)
  {
    PrepareRetryMeans(Bid, code);
  }

  lemma {:induction false} PrepareRouteMeans(flow: Flow, code: Code)
    ensures var r := PrepareRoute(flow, code); !r.Reconcile? ==> r.Show? && FailureShows(flow, code, false, r.ui)
  {
    match flow
    case Accept => AcceptPrepareMeans(code);
    case Bid => BidPrepareMeans(code);
  }

  // ---- After a success ----

  /** m' is reached from m by these steps. */
  ghost predicate Runs(flow: Flow, m: Machine, steps: seq<Step>, m': Machine)
    decreases |steps|
  {
    if steps == [] then m' == m
    else
      var last := steps[|steps| - 1];
      exists before ::
        Runs(flow, m, steps[..|steps| - 1], before) && Enabled(flow, before, last) && m' == Next(flow, before, last)
  }

  /** At rest on the surface of a trade, or after a reset of it. */
  predicate AtRestAfter(m: Machine, id: string) {
    !m.busy && m.pending == [] && (m.ui == Idle || (m.ui.HandedOff? && m.ui.id == id))
  }

  lemma {:induction false} RestIsKept(flow: Flow, m: Machine, id: string, step: Step)
    requires AtRestAfter(m, id) && Enabled(flow, m, step) && !step.Begin?
    ensures AtRestAfter(Next(flow, m, step), id) && Next(flow, m, step).log == m.log
  {
  }

  lemma {:induction false} RestIsSilent(flow: Flow, m: Machine, id: string, steps: seq<Step>, m': Machine)
    requires AtRestAfter(m, id) && Runs(flow, m, steps, m')
    requires forall k :: 0 <= k < |steps| ==> !steps[k].Begin?
    ensures AtRestAfter(m', id) && m'.log == m.log
    decreases |steps|
  {
    if steps != [] {
      var last, front := steps[|steps| - 1], steps[..|steps| - 1];
      var before :| Runs(flow, m, front, before) && Enabled(flow, before, last) && m' == Next(flow, before, last);
      RestIsSilent(flow, m, id, front, before);
      RestIsKept(flow, before, id, last);
    }
  }

  /** From any run with a submit out: its success, answered to a mounted hook, hands the trade off, and whatever the
      user then does short of beginning anew, nothing is prepared, submitted or read again. */
  lemma {:induction false} SuccessEndsTheCeremony(flow: Flow, steps: seq<Step>, m: Machine, id: string, after: seq<Step>,
                                                  m': Machine)
    requires Reaches(flow, steps, m) && |m.pending| == 1 && m.pending[0].SubmitC? && !m.cancelled
    requires Runs(flow, OnSubmitReply(flow, m, 0, Success(id)), after, m')
    requires forall k :: 0 <= k < |after| ==> !after[k].Begin?
    ensures var done := OnSubmitReply(flow, m, 0, Success(id));
            && done.ui.HandedOff? && done.ui.id == id && done.key == m.key
            && (flow == Accept ==> done.ui.terms == Some(m.pending[0].terms))
            && m'.log == done.log
            && done.log == m.log + [SubmitAnswered(m.pending[0].subject, m.pending[0].key, Success(id), true)]
    ensures m'.ui == Idle || (m'.ui.HandedOff? && m'.ui.id == id)
  {
    EveryRun(flow, steps, m);
    RestIsSilent(flow, OnSubmitReply(flow, m, 0, Success(id)), id, after, m');
  }

  // ---- Runs ----

  lemma {:induction false} Extend(flow: Flow, steps: seq<Step>, m: Machine, step: Step, m': Machine, anyReset: bool)
    requires Reaches(flow, steps, m, anyReset) && Enabled(flow, m, step) && m' == Next(flow, m, step)
    requires step == Reset ==> anyReset || !m.busy
    ensures Reaches(flow, steps + [step], m', anyReset)
  {
    assert (steps + [step])[..|steps|] == steps;
  }

  // From rest: begin, and a prepare that passes the gate.
  lemma {:induction false} Arm(flow: Flow, steps: seq<Step>, m: Machine, subject: string, terms: Terms, data: Prepared)
    returns (steps': seq<Step>, m': Machine)
    requires Reaches(flow, steps, m) && !m.busy && !m.cancelled && m.pending == []
    requires data.gross == Gross(terms)
    ensures Reaches(flow, steps', m')
    ensures m' == Machine(ReadyToSign(data), false, false, Some(m.minted), Some(data), Some(subject), Some(terms),
                          m.minted + 1, [],
                          m.log + [CallPrepare(subject, terms, m.minted),
                                   PrepareAnswered(subject, terms, m.minted, Success(data), true)])
  {
    var m1 := OnBegin(m, subject, terms);
    Extend(flow, steps, m, Begin(subject, terms), m1, false);
    m' := OnPrepareReply(flow, m1, 0, Success(data));
    Extend(flow, steps + [Begin(subject, terms)], m1, PrepareReply(0, Success(data)), m', false);
    steps' := steps + [Begin(subject, terms)] + [PrepareReply(0, Success(data))];
  }

  // From an armed machine: sign, signed.
  lemma {:induction false} SignAndSubmit(flow: Flow, steps: seq<Step>, m: Machine) returns (steps': seq<Step>, m': Machine)
    requires Reaches(flow, steps, m) && !m.busy && !m.cancelled && m.pending == [] && m.ui.ReadyToSign?
    requires !Falsy(m.subject) && m.terms.Some? && m.key.Some?
    ensures Reaches(flow, steps', m') && m'.busy && !m'.cancelled && m'.minted == m.minted
    ensures m'.pending == [SubmitC(m.subject.value, m.terms.value, m.key.value)]
    ensures m'.log == m.log + [CallSubmit(m.subject.value, m.terms.value, m.key.value, m.ui.data.entry)]
  {
    var m1 := OnSign(m);
    Extend(flow, steps, m, Sign, m1, false);
    m' := OnPasskeyReply(m1, 0, Signed);
    Extend(flow, steps + [Sign], m1, PasskeyReply(0, Signed), m', false);
    steps' := steps + [Sign] + [PasskeyReply(0, Signed)];
  }

  lemma {:induction false} PlaceAndSign(flow: Flow, steps: seq<Step>, m: Machine, subject: string, terms: Terms, data: Prepared)
    returns (steps': seq<Step>, m': Machine)
    requires Reaches(flow, steps, m) && !m.busy && !m.cancelled && m.pending == []
    requires subject != "" && data.gross == Gross(terms)
    ensures Reaches(flow, steps', m') && m'.busy && !m'.cancelled && m'.minted == m.minted + 1
    ensures m'.pending == [SubmitC(subject, terms, m.minted)]
    ensures m'.log == m.log + [CallPrepare(subject, terms, m.minted),
                               PrepareAnswered(subject, terms, m.minted, Success(data), true),
                               CallSubmit(subject, terms, m.minted, data.entry)]
  {
    var armed: Machine;
    steps', armed := Arm(flow, steps, m, subject, terms, data);
    steps', m' := SignAndSubmit(flow, steps', armed);
  }

  // A submit answered with SERVER_ERROR in the bid flow, and the retry it offers.
  lemma {:induction false} BidRetries(steps: seq<Step>, m: Machine) returns (steps': seq<Step>, m': Machine)
    requires Reaches(Bid, steps, m) && |m.pending| == 1 && m.pending[0].SubmitC? && !m.cancelled
    ensures Reaches(Bid, steps', m') && !m'.busy && !m'.cancelled && m'.pending == [] && m'.minted == m.minted
    ensures m'.log == m.log + [SubmitAnswered(m.pending[0].subject, m.pending[0].key, Failure(SERVER_ERROR), true)]
  {
    assert SubmitRoute(Bid, SERVER_ERROR) == Show(Error(SERVER_ERROR, Reprepare));
    var lost := SubmitReply(0, Failure(SERVER_ERROR));
    var m1 := OnSubmitReply(Bid, m, 0, Failure(SERVER_ERROR));
    assert m1.pending == [] && m1.ui == Error(SERVER_ERROR, Reprepare);
    Extend(Bid, steps, m, lost, m1, false);
    steps', m' := Retries(Bid, steps + [lost], m1);
  }

  lemma {:induction false} Retries(flow: Flow, steps: seq<Step>, m: Machine) returns (steps': seq<Step>, m': Machine)
    requires Reaches(flow, steps, m)
    ensures Reaches(flow, steps', m') && m' == OnRetry(m)
  {
    m' := OnRetry(m);
    Extend(flow, steps, m, Retry, m', false);
    steps' := steps + [Retry];
  }

  /** What the bid flow risks: from every run with a submit out, an unreadable acceptance, reported as SERVER_ERROR,
      lets the user retry and submit again under a fresh key with no read in between. */
  lemma {:induction false} BidResubmitsUnread(steps: seq<Step>, m: Machine, subject: string, terms: Terms, data: Prepared)
    returns (steps': seq<Step>, m': Machine)
    requires Reaches(Bid, steps, m) && |m.pending| == 1 && m.pending[0].SubmitC? && !m.cancelled
    requires subject != "" && data.gross == Gross(terms)
    ensures SubmitResult(Bid, Accepted(None)) == Failure(SERVER_ERROR) && OutcomeOpen(Bid, SERVER_ERROR)
    ensures Reaches(Bid, steps', m')
    ensures m'.log == m.log + [SubmitAnswered(m.pending[0].subject, m.pending[0].key, Failure(SERVER_ERROR), true),
                               CallPrepare(subject, terms, m.minted),
                               PrepareAnswered(subject, terms, m.minted, Success(data), true),
                               CallSubmit(subject, terms, m.minted, data.entry)]
  {
    var idle: Machine;
    steps', idle := BidRetries(steps, m);
    steps', m' := PlaceAndSign(Bid, steps', idle, subject, terms, data);
  }

  // The first submit of a fresh bid hook.
  lemma {:induction false} BidSubmits(subject: string, terms: Terms, data: Prepared) returns (steps: seq<Step>, m: Machine)
    requires subject != "" && data.gross == Gross(terms)
    ensures Reaches(Bid, steps, m) && !m.cancelled && m.minted == 1 && m.pending == [SubmitC(subject, terms, 0)]
    ensures |m.log| == 3 && m.log[2] == CallSubmit(subject, terms, 0, data.entry)
    ensures !m.log[0].CallRead? && !m.log[1].CallRead?
  {
    steps, m := PlaceAndSign(Bid, [], INITIAL, subject, terms, data);
  }

  /** Such runs, from a fresh hook, whatever the two bids are: two submits under two keys, and never a read. */
  lemma {:induction false} BidSubmitsTwice(subject: string, first: Terms, data: Prepared, second: Terms, data': Prepared)
    returns (steps: seq<Step>, m: Machine, before: seq<Event>)
    requires subject != "" && data.gross == Gross(first) && data'.gross == Gross(second)
    ensures Reaches(Bid, steps, m)
    ensures |before| == 3 && before[2] == CallSubmit(subject, first, 0, data.entry)
    ensures !before[0].CallRead? && !before[1].CallRead?
    ensures m.log == before + [SubmitAnswered(subject, 0, Failure(SERVER_ERROR), true),
                               CallPrepare(subject, second, 1),
                               PrepareAnswered(subject, second, 1, Success(data'), true),
                               CallSubmit(subject, second, 1, data'.entry)]
  {
    var placed: Machine;
    steps, placed := BidSubmits(subject, first, data);
    before := placed.log;
    steps, m := BidResubmitsUnread(steps, placed, subject, second, data');
  }

  // ---- What a bid reset during a pending call breaks ----

  const FIRST := Terms("", 1, 1)
  const SECOND := Terms("", 2, 1)
  const FIRST_DATA := Prepared("first entry", "", 1)

  lemma {:induction false} ResetThenPlaceAgain() returns (steps: seq<Step>, m: Machine)
    ensures Reaches(Bid, steps, m, true)
    ensures m == Machine(Preparing, true, false, Some(1), None, Some("offering"), Some(SECOND), 2,
                         [PrepareC("offering", FIRST, 0), PrepareC("offering", SECOND, 1)],
                         [CallPrepare("offering", FIRST, 0), CallPrepare("offering", SECOND, 1)])
  {
    var m1 := OnBegin(INITIAL, "offering", FIRST);
    Extend(Bid, [], INITIAL, Begin("offering", FIRST), m1, true);
    steps := [] + [Begin("offering", FIRST)];
    var m2 := OnReset(m1);
    Extend(Bid, steps, m1, Reset, m2, true);
    steps := steps + [Reset];
    m := OnBegin(m2, "offering", SECOND);
    Extend(Bid, steps, m2, Begin("offering", SECOND), m, true);
    steps := steps + [Begin("offering", SECOND)];
  }

  /** A bid placed, reset before its prepare answers, and placed again: the first answer arms the second key,
      and the submit carries an entry that was never prepared under its key. */
  lemma {:induction false} BidResetMixesKeys() returns (steps: seq<Step>, m: Machine)
    ensures Reaches(Bid, steps, m, true)
    ensures m.log == [CallPrepare("offering", FIRST, 0), CallPrepare("offering", SECOND, 1),
                      PrepareAnswered("offering", FIRST, 0, Success(FIRST_DATA), true),
                      CallSubmit("offering", SECOND, 1, "first entry")]
  {
    var m3, m4, m5;
    steps, m3 := ResetThenPlaceAgain();
    m4 := OnPrepareReply(Bid, m3, 0, Success(FIRST_DATA));
    Extend(Bid, steps, m3, PrepareReply(0, Success(FIRST_DATA)), m4, true);
    steps := steps + [PrepareReply(0, Success(FIRST_DATA))];
    m5 := OnSign(m4);
    Extend(Bid, steps, m4, Sign, m5, true);
    steps := steps + [Sign];
    m := OnPasskeyReply(m5, 1, Signed);
    Extend(Bid, steps, m5, PasskeyReply(1, Signed), m, true);
    steps := steps + [PasskeyReply(1, Signed)];
  }
}
