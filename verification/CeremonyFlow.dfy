/** The hooks useAcceptFlow and useBidFlow as objects over their refs. Every method is one step of the machine in
    Ceremony and keeps its invariant, so what is proved there of every run holds of every object, whatever calls
    and replies it meets; the replies it waits for and the traffic it causes are ghost. */
module CeremonyFlow {
  import opened Wrappers
  import opened SubmitCodes
  import opened Ceremony

  /** What the answer to a prepare brings: the passkey exactly when the amounts agree, else a fresh start; a read of the
      trade in flight, or the surface the code stands for. It never submits, and an unmounted hook only lets go of the
      latch. */
  ghost predicate PrepareBrings(flow: Flow, m: Machine, c: Continuation, reply: Answer<Prepared, Code>, n: Machine)
    requires c.PrepareC?
  {
    var answered := m.log + [PrepareAnswered(c.subject, c.terms, c.key, reply, !m.cancelled)];
    if m.cancelled then
      n.ui == m.ui && n.key == m.key && !n.busy && n.log == answered
    else
      match reply
      case Success(prepared) =>
        && !n.busy && n.log == answered
        && if prepared.gross == Gross(c.terms)
           then n.ui == ReadyToSign(prepared) && n.data == Some(prepared) && n.key == m.key
           else n.ui == (if flow == Accept then StaleQuote else Error(SERVER_ERROR, Reprepare)) && n.key == None
      case Failure(code) =>
        && n.key == m.key
        && if flow == Accept && code == TRADE_ALREADY_IN_FLIGHT
           then n.busy && n.pending == [ReadC(c.subject)] && n.ui == Reconciling && n.log == answered + [CallRead(c.subject)]
           else !n.busy && n.log == answered && FailureShows(flow, code, false, n.ui)
  }

  // What the answer to a prepare means to the caller.
  lemma {:induction false} PrepareReplyMeans(flow: Flow, m: Machine, i: nat, reply: Answer<Prepared, Code>)
    requires Inv(flow, m) && i < |m.pending| && m.pending[i].PrepareC?
    ensures Inv(flow, OnPrepareReply(flow, m, i, reply))
    ensures PrepareBrings(flow, m, m.pending[i], reply, OnPrepareReply(flow, m, i, reply))
  {
    PrepareReplyKeeps(flow, m, i, reply);
    if reply.Failure? {
      PrepareRouteMeans(flow, reply.code);
      ReadsExactlyOpen(flow, reply.code);
    }
  }

  /** What the answer to a submit brings: a success hands the trade off and keeps the key; an open outcome is read at once,
      with the key kept, in the bid flow unless the code is SERVER_ERROR; any other failure sends nothing, shows what its
      code stands for and drops a spent key. An unmounted hook only lets go of the latch. */
  ghost predicate SubmitBrings(flow: Flow, m: Machine, c: Continuation, reply: Answer<string, Code>, n: Machine)
    requires c.SubmitC?
  {
    var answered := m.log + [SubmitAnswered(c.subject, c.key, reply, !m.cancelled)];
    if m.cancelled then
      n.ui == m.ui && n.key == m.key && !n.busy && n.log == answered
    else
      match reply
      case Success(id) =>
        && n.ui == HandedOff(id, if flow == Accept then Some(c.terms) else None)
        && n.key == m.key && !n.busy && n.log == answered
      case Failure(code) =>
        if OutcomeOpen(flow, code) && (flow == Accept || code != SERVER_ERROR) then
          && n.ui == Reconciling && n.key == m.key && n.busy
          && n.pending == [ReadC(c.subject)] && n.log == answered + [CallRead(c.subject)]
        else
          && FailureShows(flow, code, true, n.ui)
          && n.key == (if KeySpent(flow, code) then None else m.key) && !n.busy && n.log == answered
  }

  lemma {:induction false} SubmitReplyMeans(flow: Flow, m: Machine, i: nat, reply: Answer<string, Code>)
    requires Inv(flow, m) && i < |m.pending| && m.pending[i].SubmitC?
    ensures Inv(flow, OnSubmitReply(flow, m, i, reply))
    ensures SubmitBrings(flow, m, m.pending[i], reply, OnSubmitReply(flow, m, i, reply))
  {
    SubmitReplyKeeps(flow, m, i, reply);
    if reply.Failure? {
      SubmitRouteMeans(flow, reply.code);
      ReadsExactlyOpen(flow, reply.code);
    }
  }

  // What a passkey reply means to the caller.
  lemma {:induction false} PasskeyReplyMeans(flow: Flow, m: Machine, i: nat, assertion: Assertion)
    requires Inv(flow, m) && i < |m.pending| && m.pending[i].PasskeyC?
    ensures var n, c := OnPasskeyReply(m, i, assertion), m.pending[i];
            && Inv(flow, n)
            && n.log == (if assertion == Signed && !m.cancelled
                         then m.log + [CallSubmit(c.subject, c.terms, c.key, c.data.entry)] else m.log)
            && Gated(m.log, c.subject, c.terms, c.key, c.data) && !Submitted(m.log, c.key)
            && (assertion == Dismissed && !m.cancelled ==> n.ui == ReadyToSign(c.data))
            && (assertion == Broken && !m.cancelled ==> n.ui == Error(PASSKEY_FAILED, Resign))
            && (if assertion == Signed && !m.cancelled
                then n.ui == Submitting && n.pending == [SubmitC(c.subject, c.terms, c.key)] else n.pending == [])
            && n.key == m.key && n.data == m.data
  {
    PasskeyReplyKeeps(flow, m, i, assertion);
    assert m.log + [] == m.log;
  }

  class CeremonyHook {
    const flow: Flow
    var ui: Ui
    var busy: bool
    var cancelled: bool
    var key: Option<nat>
    var data: Option<Prepared>
    var subject: Option<string>
    var terms: Option<Terms>
    var minted: nat
    ghost var pending: seq<Continuation>
    ghost var log: seq<Event>

    ghost function View(): Machine
      reads this
    {
      Machine(ui, busy, cancelled, key, data, subject, terms, minted, pending, log)
    }

    ghost predicate Valid()
      reads this
    {
      Inv(flow, View())
    }

    constructor (flow: Flow)
      ensures Valid() && this.flow == flow && View() == INITIAL
    {
      this.flow := flow;
      ui, busy, cancelled, key, data := Idle, false, false, None, None;
      subject, terms, minted := None, None, 0;
      pending, log := [], [];
    }

    method MintKey() returns (newKey: nat)
      modifies this`minted
      ensures newKey == old(minted) && minted == old(minted) + 1
    {
      newKey := minted;
      minted := minted + 1;
    }

    /** acceptQuote and placeBid. A busy hook is left alone; otherwise one prepare goes out, under a key that no
        earlier call used. */
    method Begin(subject: string, terms: Terms)
      requires Valid()
      modifies this
      ensures Valid() && View() == OnBegin(old(View()), subject, terms)
      ensures old(busy) ==> View() == old(View())
      ensures !old(busy) ==> key.Some? && log == old(log) + [CallPrepare(subject, terms, key.value)]
      ensures !old(busy) ==> busy && ui == Preparing && this.subject == Some(subject) && this.terms == Some(terms)
      ensures !old(busy) ==> KeysBelow(old(log), key.value) && pending == [PrepareC(subject, terms, key.value)]
    {
      BeginKeeps(flow, View(), subject, terms);
      if busy {
        return;
      }
      SendPrepare(subject, terms);
    }

    method SendPrepare(subject: string, terms: Terms)
      requires !busy
      modifies this
      ensures View() == OnBegin(old(View()), subject, terms)
    {
      busy := true;
      this.subject := Some(subject);
      this.terms := Some(terms);
      var newKey := MintKey();
      key := Some(newKey);
      ui := Preparing;
      pending := pending + [PrepareC(subject, terms, newKey)];
      log := log + [CallPrepare(subject, terms, newKey)];
    }

    ghost method Resume(i: nat, answered: seq<Event>)
      requires i < |pending|
      modifies this`pending, this`log
      ensures pending == old(pending[..i] + pending[i + 1..]) && log == old(log) + answered
    {
      pending := pending[..i] + pending[i + 1..];
      log := log + answered;
    }

    method ReconcileOnce(subject: string)
      modifies this
      ensures View() == AskOnce(old(View()), subject)
    {
      ui := Reconciling;
      busy := true;
      pending := pending + [ReadC(subject)];
      log := log + [CallRead(subject)];
    }

    method ApplyRoute(route: Route, subject: string)
      modifies this
      ensures View() == Follow(old(View()), route, subject)
    {
      match route
      case Reconcile => ReconcileOnce(subject);
      case DropKey(next) =>
        key := None;
        ui := next;
      case Show(next) =>
        ui := next;
    }

    /** It never submits. Mounted, a successful prepare arms the passkey exactly when the server's gross is price times
        count; otherwise PrepareBrings says what is shown. */
    method ResolvePrepare(ghost i: nat, subject: string, terms: Terms, ghost sentKey: nat,
                          reply: Answer<Prepared, Code>)
      requires Valid()
      requires i < |pending| && pending[i] == PrepareC(subject, terms, sentKey)
      modifies this
      ensures Valid() && View() == OnPrepareReply(flow, old(View()), i, reply)
      ensures PrepareBrings(flow, old(View()), PrepareC(subject, terms, sentKey), reply, View())
      ensures ui.ReadyToSign? ==> Backed(View(), ui.data)
    {
      PrepareReplyMeans(flow, View(), i, reply);
      TakePrepared(i, subject, terms, sentKey, reply);
    }

    method TakePrepared(ghost i: nat, subject: string, terms: Terms, ghost sentKey: nat, reply: Answer<Prepared, Code>)
      requires i < |pending| && pending[i] == PrepareC(subject, terms, sentKey)
      modifies this
      ensures View() == OnPrepareReply(flow, old(View()), i, reply)
    {
      Resume(i, [PrepareAnswered(subject, terms, sentKey, reply, !cancelled)]);
      busy := false;
      if cancelled {
        return;
      }
      match reply
      case Failure(code) => ApplyRoute(PrepareRoute(flow, code), subject);
      case Success(prepared) => PassGate(terms, prepared);
    }

    // The amount gate: never arm a passkey for an amount the user did not see.
    method PassGate(terms: Terms, prepared: Prepared)
      modifies this
      ensures View() == if Gross(terms) == prepared.gross
                        then old(View()).(data := Some(prepared), ui := ReadyToSign(prepared))
                        else old(View()).(key := None, ui := GateFailure(flow))
    {
      if Gross(terms) != prepared.gross {
        key := None;
        ui := GateFailure(flow);
        return;
      }
      data := Some(prepared);
      ui := ReadyToSign(prepared);
    }

    /** Sends nothing; from an armed hook the passkey prompt opens unless the subject id is empty. */
    method Sign()
      requires Valid()
      modifies this
      ensures Valid() && View() == OnSign(old(View())) && log == old(log)
      ensures old(ui.ReadyToSign?) ==>
                && (busy <==> old(subject) != Some(""))
                && (busy ==> pending == [PasskeyC(old(ui.data), subject.value, terms.value, key.value)])
      ensures old(ui.ReadyToSign?) ==> ui == if busy then Signing else Error(SERVER_ERROR, Reprepare)
      ensures !old(ui.ReadyToSign?) ==> View() == old(View())
    {
      SignKeeps(flow, View());
      if busy || !ui.ReadyToSign? {
        return;
      }
      if Falsy(subject) || terms.None? || key.None? {
        ui := Error(SERVER_ERROR, Reprepare);
        return;
      }
      busy := true;
      pending := pending + [PasskeyC(ui.data, subject.value, terms.value, key.value)];
      ui := Signing;
    }

    /** The only place that submits: once, on a signed assertion while mounted, the entry of a gated prepare of the
        same subject, terms and key, under a key never submitted before. A dismissal leaves the hook armed. */
    method ResolvePasskey(ghost i: nat, signedData: Prepared, subject: string, terms: Terms, key: nat,
                          assertion: Assertion)
      requires Valid()
      requires i < |pending| && pending[i] == PasskeyC(signedData, subject, terms, key)
      modifies this
      ensures Valid() && View() == OnPasskeyReply(old(View()), i, assertion)
      ensures log == if assertion == Signed && !cancelled
                     then old(log) + [CallSubmit(subject, terms, key, signedData.entry)] else old(log)
      ensures Gated(old(log), subject, terms, key, signedData) && !Submitted(old(log), key)
      ensures assertion == Dismissed && !cancelled ==> ui == ReadyToSign(signedData)
      ensures assertion == Broken && !cancelled ==> ui == Error(PASSKEY_FAILED, Resign)
      ensures if assertion == Signed && !cancelled
              then busy && ui == Submitting && pending == [SubmitC(subject, terms, key)] else !busy && pending == []
    {
      PasskeyReplyMeans(flow, View(), i, assertion);
      TakeAssertion(i, signedData, subject, terms, key, assertion);
    }

    method TakeAssertion(ghost i: nat, signedData: Prepared, subject: string, terms: Terms, key: nat, assertion: Assertion)
      requires i < |pending| && pending[i] == PasskeyC(signedData, subject, terms, key)
      modifies this
      ensures View() == OnPasskeyReply(old(View()), i, assertion)
    {
      Resume(i, []);
      busy := false;
      if cancelled {
        return;
      }
      match assertion
      case Dismissed => ui := ReadyToSign(signedData);
      case Broken => ui := Error(PASSKEY_FAILED, Resign);
      case Signed => SendSubmit(subject, terms, key, signedData.entry);
    }

    method SendSubmit(subject: string, terms: Terms, key: nat, entry: string)
      modifies this
      ensures View() == old(View()).(busy := true, ui := Submitting, pending := old(pending) + [SubmitC(subject, terms, key)],
                                     log := old(log) + [CallSubmit(subject, terms, key, entry)])
    {
      busy := true;
      ui := Submitting;
      pending := pending + [SubmitC(subject, terms, key)];
      log := log + [CallSubmit(subject, terms, key, entry)];
    }

    /** Mounted, a success hands the trade off; an open outcome is followed at once by one read, in the bid flow unless
        the code is SERVER_ERROR; any other failure sends nothing and shows what its code stands for. */
    method ResolveSubmit(ghost i: nat, subject: string, terms: Terms, ghost sentKey: nat, reply: Answer<string, Code>)
      requires Valid()
      requires i < |pending| && pending[i] == SubmitC(subject, terms, sentKey)
      modifies this
      ensures Valid() && View() == OnSubmitReply(flow, old(View()), i, reply)
      ensures SubmitBrings(flow, old(View()), SubmitC(subject, terms, sentKey), reply, View())
    {
      SubmitReplyMeans(flow, View(), i, reply);
      TakeSubmitted(i, subject, terms, sentKey, reply);
    }

    method TakeSubmitted(ghost i: nat, subject: string, terms: Terms, ghost sentKey: nat, reply: Answer<string, Code>)
      requires i < |pending| && pending[i] == SubmitC(subject, terms, sentKey)
      modifies this
      ensures View() == OnSubmitReply(flow, old(View()), i, reply)
    {
      Resume(i, [SubmitAnswered(subject, sentKey, reply, !cancelled)]);
      busy := false;
      if cancelled {
        return;
      }
      match reply
      case Success(id) => ui := HandedOff(id, if flow == Accept then Some(terms) else None);
      case Failure(code) => ApplyRoute(SubmitRoute(flow, code), subject);
    }

    /** The read is the last word of the ceremony: it frees the latch, sends nothing, and hands off exactly when it
        found a trade. */
    method ResolveRead(ghost i: nat, reply: Answer<Option<string>, Code>)
      requires Valid()
      requires i < |pending| && pending[i].ReadC?
      modifies this
      ensures Valid() && View() == OnReadReply(old(View()), i, reply)
      ensures log == old(log) && key == old(key) && !busy
      ensures !cancelled ==> (ui.HandedOff? <==> reply.Success? && reply.value.Some?)
      ensures !cancelled && ui.HandedOff? ==> ui == HandedOff(reply.value.value, None)
      ensures cancelled ==> ui == old(ui)
      ensures !cancelled && !ui.HandedOff? ==> ui == if reply == Failure(SESSION_EXPIRED) then SessionExpired else Recheck
    {
      ReadReplyKeeps(flow, View(), i, reply);
      assert log + [] == log;
      Resume(i, []);
      busy := false;
      if cancelled {
        return;
      }
      if reply.Success? && reply.value.Some? {
        ui := HandedOff(reply.value.value, None);
        return;
      }
      if reply.Failure? && reply.code == SESSION_EXPIRED {
        ui := SessionExpired;
        return;
      }
      ui := Recheck;
    }

    /** One more read, exactly from an idle `Recheck` with a subject; the key is kept. */
    method ReconcileByHand()
      requires Valid()
      modifies this
      ensures Valid() && View() == OnReconcile(old(View()))
      ensures key == old(key)
      ensures log == if old(ui == Recheck && !busy && !Falsy(subject))
                     then old(log) + [AskedToReconcile(subject.value), CallRead(subject.value)] else old(log)
      ensures if old(ui == Recheck && !busy && !Falsy(subject))
              then ui == Reconciling && busy && pending == [ReadC(subject.value)] else View() == old(View())
    {
      ReconcileKeeps(flow, View());
      if busy || ui != Recheck || Falsy(subject) {
        return;
      }
      log := log + [AskedToReconcile(subject.value)];
      ReconcileOnce(subject.value);
    }

    /** Sends nothing. A retry drops the key where a new prepare is offered, so that the next submit needs one; arms the
        hook again, with data that is still backed and unspent, where the passkey failed; and does nothing elsewhere. */
    method Retry()
      requires Valid()
      modifies this
      ensures Valid() && View() == OnRetry(old(View()))
      ensures log == old(log) && busy == old(busy)
      ensures match old(ui) {
                case Error(_, Reprepare) => ui == Idle && key == None
                case Insufficient => ui == Idle && key == None
                case Error(_, Resign) =>
                  data.Some? && ui == ReadyToSign(data.value) && Backed(View(), data.value) && key == old(key)
                case _ => View() == old(View())
              }
      ensures data == old(data) && subject == old(subject) && terms == old(terms)
    {
      RetryKeeps(flow, View());
      if ui.Error? {
        if ui.retry == Reprepare {
          key := None;
          ui := Idle;
        } else if ui.retry == Resign {
          ui := if data.Some? then ReadyToSign(data.value) else Idle;
        }
        return;
      }
      if ui == Insufficient {
        key := None;
        ui := Idle;
      }
    }

    /** useBidFlow only. Sound exactly when no reply is outstanding: see Ceremony.BidResetMixesKeys. */
    method Reset()
      requires Valid()
      modifies this
      ensures Valid() <==> !old(busy)
      ensures View() == OnReset(old(View())) && log == old(log) && pending == old(pending)
      ensures ui == Idle && key == None && data == None && !busy
    {
      ResetKeeps(flow, View());
      busy := false;
      key := None;
      data := None;
      ui := Idle;
    }

    method SetMounted(mounted: bool)
      requires Valid()
      modifies this`cancelled
      ensures Valid() && View() == old(View()).(cancelled := !mounted)
    {
      cancelled := !mounted;
    }
  }
}
