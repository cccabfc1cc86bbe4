/** apps/web/hooks/useWalletTrustline.ts: gate, precheck, and the sign loop that rebuilds on a stale sequence
    at most twice. Wallet, network and account answer by havoc, and while the hook awaits it may be reset or
    unmounted. */
module WalletTrustline {
  import opened Wrappers

  const MAX_REBUILDS: nat := 2
  const MAX_POLL_ATTEMPTS: nat := 10

  datatype Asset = Asset(code: string, issuer: string)

  datatype Account =
    | Funded(sequence: string, trusted: bool, shortfall: nat)
    | Unfunded
    | HorizonUnavailable

  datatype Outcome =
    | Confirmed(hash: string)
    | Rebuild
    | LowReserve
    | AccountMismatch
    | Pending(hash: string)
    | Failed(code: string)

  datatype PollOutcome = PollConfirmed | PollPending | PollFailed

  /** One read of a submitted transaction. */
  datatype Poll = Poll(hash: string, outcome: PollOutcome)

  /** What the wallet and the transaction builder answered. */
  datatype Gesture = KeyShown(key: Reply<string>) | Built(ok: bool) | Signature(xdr: Reply<string>)

  /** Why a sign call ended. */
  datatype SignEnd =
    | Unmounted
    | NotSubmitted
    | Exhausted
    | NoAccount
    | Concluded

  datatype Recovery = RetrySign | Recheck | Terminal

  datatype Ui =
    | Idle
    | Gating
    | BlockedGate(code: string)
    | Prechecking
    | BlockedUnfunded
    | BlockedLowReserve(shortfall: nat)
    | ReadyToSign(asset: Asset)
    | Signing
    | Submitting
    | Polling(hash: string, attempt: nat)
    | Success(transaction: Option<string>)
    | Error(code: string, recovery: Recovery)

  function RecoveryFor(code: string): (r: Recovery) {
    match code
    case "USER_CANCELLED" => RetrySign
    case "POPUP_BLOCKED" => RetrySign
    case "WALLET_NOT_INSTALLED" => RetrySign
    case "SUBMIT_FAILED" => RetrySign
    case "ISSUER_MISMATCH" => Terminal
    case "REBUILD_EXHAUSTED" => Terminal
    case _ => Recheck
  }

  function FromWalletError(code: string): (r: string) {
    match code
    case "EXTENSION_NOT_FOUND" => "WALLET_NOT_INSTALLED"
    case "POPUP_BLOCKED" => code
    case "USER_CANCELLED" => code
    case "NETWORK_MISMATCH" => code
    case _ => "SUBMIT_FAILED"
  }

  /** One submit: the sequence and asset of the transaction, how many account reads preceded it, its outcome, and
      whether the network has applied it or still may. */
  datatype Submission = Submission(sequence: string, asset: Asset, readsBefore: nat, outcome: Outcome, applied: bool)

  /** The submits of one sign call, given the account reads: at most three; all but the last came back `rebuild` and
      were not applied; each but the first uses the sequence of an account read made after the outcome before it. */
  ghost predicate SignTrace(subs: seq<Submission>, reads_: seq<Account>, firstSequence: string, asset: Asset) {
    && |subs| <= MAX_REBUILDS + 1
    && (forall i :: 0 <= i < |subs| - 1 ==> subs[i].outcome == Rebuild && !subs[i].applied)
    && (forall i :: 0 <= i < |subs| && subs[i].applied ==> subs[i].outcome.Confirmed? || subs[i].outcome.Pending?)
    && (forall i :: 0 <= i < |subs| ==> subs[i].asset == asset && subs[i].readsBefore <= |reads_|)
    && (|subs| > 0 ==> subs[0].sequence == firstSequence)
    && (forall i :: 0 < i < |subs| ==>
          && subs[i - 1].readsBefore < subs[i].readsBefore
          && var latest := reads_[subs[i].readsBefore - 1];
             latest.Funded? && latest.sequence == subs[i].sequence)
  }

  /** A success that names a transaction needs a submit of this call that came back with that transaction: confirmed, or
      pending and then confirmed by a poll. */
  predicate ClaimBacked(hash: string, last: Outcome, polls: seq<Poll>) {
    || last == Confirmed(hash)
    || (last == Pending(hash) && polls != [] && polls[|polls| - 1] == Poll(hash, PollConfirmed))
  }

  /** At most ten reads of one transaction, each after the first because the one before was pending. */
  predicate PollsOf(hash: string, polls: seq<Poll>) {
    && 1 <= |polls| <= MAX_POLL_ATTEMPTS
    && (forall i :: 0 <= i < |polls| ==> polls[i].hash == hash)
    && (forall i :: 0 <= i < |polls| - 1 ==> polls[i].outcome == PollPending)
  }

  /** What the last read shows. */
  predicate PollShown(hash: string, polls: seq<Poll>, ui: Ui)
    requires polls != []
  {
    match polls[|polls| - 1].outcome
    case PollConfirmed => ui == Ui.Success(Some(hash))
    case PollFailed => ui == Error("SUBMIT_FAILED", RetrySign)
    case PollPending => |polls| == MAX_POLL_ATTEMPTS && ui == Error("CONFIRMATION_PENDING", Recheck)
  }

  /** The surface of a signature that was not given. */
  predicate RefusalShown(code: string, asset: Asset, ui: Ui) {
    if code == "USER_CANCELLED" then ui == ReadyToSign(asset)
    else ui == Error(FromWalletError(code), RecoveryFor(FromWalletError(code)))
  }

  // Nothing submitted yet and the stored sequence, or every submit so far came back `rebuild` and the account
  // was read again since, with this sequence.
  ghost predicate CanTryAgain(subs: seq<Submission>, reads_: seq<Account>, first: string, sequence: string) {
    if |subs| == 0 then sequence == first
    else
      && subs[|subs| - 1].outcome == Rebuild
      && subs[|subs| - 1].readsBefore < |reads_|
      && reads_[|reads_| - 1].Funded?
      && reads_[|reads_| - 1].sequence == sequence
  }

  /** A trace whose submits so far all came back `rebuild` is extended by a submit on the sequence of the latest
      account read, made after the last of them. */
  lemma {:induction false} TraceExtends(subs: seq<Submission>, reads_: seq<Account>, first: string, asset: Asset,
                                        next: Submission)
    requires SignTrace(subs, reads_, first, asset) && |subs| <= MAX_REBUILDS
    requires CanTryAgain(subs, reads_, first, next.sequence)
    requires next.asset == asset && next.readsBefore == |reads_|
    requires next.applied ==> next.outcome.Confirmed? || next.outcome.Pending?
    ensures SignTrace(subs + [next], reads_, first, asset)
  {
    var more := subs + [next];
    assert forall i :: 0 <= i < |subs| ==> more[i] == subs[i];
  }

  lemma {:induction false} TraceOutlivesReads(subs: seq<Submission>, before: seq<Account>, after: seq<Account>,
                                             first: string, asset: Asset)
    requires SignTrace(subs, before, first, asset) && before <= after
    ensures SignTrace(subs, after, first, asset)
  {
    forall i | 0 < i < |subs|
      ensures 0 < subs[i].readsBefore <= |before|
      ensures before[subs[i].readsBefore - 1] == after[subs[i].readsBefore - 1]
    {
      assert subs[i - 1].readsBefore < subs[i].readsBefore;
    }
  }

  class TrustlineHook {
    const address: string
    const platform: Asset
    const issuerConfigured: bool
    var asset: Asset
    var ui: Ui
    var busy: bool
    var cancelled: bool
    var provider: bool
    var providerId: Option<string>
    var sequence: Option<string>
    var anchor: Option<Asset>
    ghost var built: seq<Asset>
    ghost var accountReads: seq<Account>
    ghost var submissions: seq<Submission>
    ghost var polls: seq<Poll>
    ghost var gestures: seq<Gesture>

    /** Only the platform asset is ever an anchor, and only it was ever built into a transaction. */
    ghost predicate Valid()
      reads this
    {
      && (anchor.Some? ==> anchor.value == platform)
      && (forall i :: 0 <= i < |built| ==> built[i] == platform)
    }

    constructor (address: string, asset: Asset, platform: Asset, issuerConfigured: bool)
      ensures Valid() && built == [] && submissions == [] && accountReads == [] && polls == [] && gestures == []
      ensures ui == Idle && !busy && !provider && anchor == None && sequence == None
    {
      this.address, this.asset, this.platform, this.issuerConfigured := address, asset, platform, issuerConfigured;
      ui, busy, cancelled := Idle, false, false;
      provider, providerId, sequence, anchor := false, None, None, None;
      built, accountReads, submissions, polls, gestures := [], [], [], [], [];
    }

    method Reset()
      modifies this`ui, this`busy, this`cancelled, this`provider, this`providerId, this`sequence, this`anchor
      ensures ui == Idle && !busy && !cancelled && !provider
      ensures providerId == None && sequence == None && anchor == None
    {
      busy := false;
      cancelled := false;
      provider, providerId, sequence, anchor := false, None, None, None;
      ui := Idle;
    }

    method Await()
      requires Valid()
      modifies this`ui, this`busy, this`cancelled, this`provider, this`providerId, this`sequence, this`anchor
      ensures Valid()
      ensures ui == old(ui) || ui == Idle
    {
      if * {
        Reset();
      }
      if * {
        cancelled := true;
      }
    }

    method ToError(code: string)
      modifies this`ui
      ensures ui == Error(code, RecoveryFor(code))
    {
      ui := Error(code, RecoveryFor(code));
    }

    /** The asset to trust is the configured one, or nothing. */
    method PinnedAsset() returns (pinned: Option<Asset>)
      modifies this`ui
      ensures pinned.Some? <==> issuerConfigured && asset == platform
      ensures pinned.Some? ==> pinned.value == platform && ui == old(ui)
      ensures pinned.None? ==> ui == BlockedGate(if issuerConfigured then "ISSUER_MISMATCH" else "ISSUER_UNCONFIGURED")
    {
      if !issuerConfigured {
        ui := BlockedGate("ISSUER_UNCONFIGURED");
        return None;
      }
      if asset.issuer != platform.issuer || asset.code != platform.code {
        ui := BlockedGate("ISSUER_MISMATCH");
        return None;
      }
      return Some(Asset(platform.code, platform.issuer));
    }

    method LoadAccountState() returns (account: Account)
      requires Valid()
      modifies this`ui, this`busy, this`cancelled, this`provider, this`providerId, this`sequence, this`anchor
      modifies this`accountReads
      ensures Valid()
      ensures accountReads == old(accountReads) + [account]
      ensures ui == old(ui) || ui == Idle
    {
      account := *;
      accountReads := accountReads + [account];
      Await();
    }

    /** The surface an account calls for; ready to sign with the sequence of that account. */
    ghost predicate Shows(account: Account)
      reads this`ui, this`sequence, this`anchor
    {
      match account
      case Unfunded => ui == BlockedUnfunded
      case HorizonUnavailable => ui == Error("HORIZON_UNAVAILABLE", Recheck)
      case Funded(s, trusted, shortfall) =>
        if trusted then ui == Ui.Success(None)
        else if shortfall > 0 then ui == BlockedLowReserve(shortfall)
        else ui == ReadyToSign(platform) && sequence == Some(s) && anchor == Some(platform)
    }

    method RunPrecheck(pinned: Asset)
      requires Valid() && pinned == platform
      modifies this`ui, this`busy, this`cancelled, this`provider, this`providerId, this`sequence, this`anchor
      modifies this`accountReads
      ensures Valid()
      ensures |accountReads| == |old(accountReads)| + 1 && old(accountReads) <= accountReads
      ensures ui.Success? ==> ui.transaction == None
      ensures !cancelled ==> Shows(accountReads[|old(accountReads)|])
    {
      ui := Prechecking;
      var account := LoadAccountState();
      if cancelled {
        return;
      }
      match account
      case Unfunded => ui := BlockedUnfunded;
      case HorizonUnavailable => ToError("HORIZON_UNAVAILABLE");
      case Funded(s, trusted, shortfall) =>
        if trusted {
          ui := Ui.Success(None);
        } else if shortfall > 0 {
          ui := BlockedLowReserve(shortfall);
        } else {
          sequence := Some(s);
          anchor := Some(pinned);
          ui := ReadyToSign(pinned);
        }
    }

    /** What the wallet's answer leads to, given the account reads made since: for the bound account one read decides, and
        for no other is the account read. */
    ghost predicate WalletShown(publicKey: Option<Reply<string>>, looked: seq<Account>)
      reads this`ui, this`sequence, this`anchor, this`cancelled
    {
      && (looked != [] ==> publicKey == Some(Reply.Success(address)))
      && (!cancelled && publicKey.Some? ==>
            match publicKey.value
            case Success(key) =>
              if key == address then |looked| == 1 && Shows(looked[0]) else ui == BlockedGate("ACCOUNT_MISMATCH")
            case Failure(code) =>
              ui == if code == "USER_CANCELLED" then Idle
                    else Error(FromWalletError(code), RecoveryFor(FromWalletError(code))))
    }

    /** `publicKey` is what the wallet answered, when it was asked. */
    method Start(id: string) returns (ghost publicKey: Option<Reply<string>>)
      requires Valid()
      modifies this
      ensures Valid()
      ensures submissions == old(submissions) && built == old(built) && polls == old(polls)
      ensures old(busy) ==> ui == old(ui) && accountReads == old(accountReads) && publicKey == None
      ensures gestures == if publicKey.Some? then old(gestures) + [KeyShown(publicKey.value)] else old(gestures)
      // Without the configured issuer, or with another asset, the wallet is never asked.
      ensures !old(busy) && !(issuerConfigured && old(asset) == platform) ==>
                && ui == BlockedGate(if issuerConfigured then "ISSUER_MISMATCH" else "ISSUER_UNCONFIGURED")
                && accountReads == old(accountReads) && provider == old(provider) && publicKey == None
      // With it, the wallet is asked, and its answer decides.
      ensures !old(busy) && issuerConfigured && old(asset) == platform && !cancelled ==> publicKey.Some?
      ensures old(accountReads) <= accountReads && WalletShown(publicKey, accountReads[|old(accountReads)|..])
    {
      publicKey := None;
      if busy {
        return;
      }
      busy := true;
      providerId := Some(id);
      ui := Gating;
      var pinned := PinnedAsset();
      if pinned.Some? {
        publicKey := Gate(pinned.value);
      }
      busy := false;
    }

    // Loads the wallet, asks for its account, and looks at the bound one.
    method Gate(pinned: Asset) returns (ghost publicKey: Option<Reply<string>>)
      requires Valid() && pinned == platform
      modifies this
      ensures Valid()
      ensures submissions == old(submissions) && built == old(built) && polls == old(polls)
      ensures gestures == if publicKey.Some? then old(gestures) + [KeyShown(publicKey.value)] else old(gestures)
      ensures !cancelled ==> publicKey.Some?
      ensures old(accountReads) <= accountReads && WalletShown(publicKey, accountReads[|old(accountReads)|..])
    {
      publicKey := None;
      Await();
      if cancelled {
        return;
      }
      provider := true;
      var answer: Reply<string> := *;
      publicKey := Some(answer);
      gestures := gestures + [KeyShown(answer)];
      Await();
      if cancelled {
        return;
      }
      match answer
      case Failure(code) =>
        if code == "USER_CANCELLED" {
          ui := Idle;
        } else {
          ToError(FromWalletError(code));
        }
      case Success(key) =>
        if key != address {
          ui := BlockedGate("ACCOUNT_MISMATCH");
        } else {
          RunPrecheck(pinned);
        }
    }

    /** At most MAX_POLL_ATTEMPTS reads; only a confirmed record is a success. */
    method RunPoll(hash: string) returns (ghost made: seq<Poll>)
      requires Valid()
      modifies this`ui, this`busy, this`cancelled, this`provider, this`providerId, this`sequence, this`anchor
      modifies this`polls
      ensures Valid()
      ensures polls == old(polls) + made && PollsOf(hash, made)
      ensures ui.Success? ==> ui.transaction == Some(hash) && made[|made| - 1].outcome == PollConfirmed
      ensures !cancelled ==> PollShown(hash, made, ui)
    {
      made := [];
      for attempt := 1 to MAX_POLL_ATTEMPTS + 1
        invariant Valid()
        invariant |made| == attempt - 1 && polls == old(polls) + made
        invariant forall i :: 0 <= i < |made| ==> made[i] == Poll(hash, PollPending)
      {
        ui := Polling(hash, attempt);
        var outcome: PollOutcome := *;
        made := made + [Poll(hash, outcome)];
        polls := polls + [Poll(hash, outcome)];
        Await();
        if cancelled {
          return;
        }
        if outcome == PollConfirmed {
          ui := Ui.Success(Some(hash));
          return;
        }
        if outcome == PollFailed {
          ToError("SUBMIT_FAILED");
          return;
        }
        Await();  // the poll interval
        if cancelled {
          return;
        }
      }
      ToError("CONFIRMATION_PENDING");
    }

    /** The network applies nothing it answers with a definite refusal. */
    method SubmitSigned(sequence': string, trusted: Asset) returns (outcome: Outcome, ghost applied: bool)
      requires Valid()
      modifies this
      ensures Valid()
      ensures submissions == old(submissions) + [Submission(sequence', trusted, |old(accountReads)|, outcome, applied)]
      ensures accountReads == old(accountReads) && built == old(built)
      ensures polls == old(polls) && gestures == old(gestures)
      ensures ui == old(ui) || ui == Idle
      ensures outcome.Confirmed? ==> applied
      ensures applied ==> outcome.Confirmed? || outcome.Pending?
    {
      outcome := *;
      applied := outcome.Confirmed?;
      if outcome.Pending? {
        applied := *;
      }
      submissions := submissions + [Submission(sequence', trusted, |accountReads|, outcome, applied)];
      Await();
    }

    /** What a submit outcome other than `rebuild` calls for, given the polls and the account reads made since: a pending
        transaction is polled to its end, a low reserve is looked at again. */
    ghost predicate OutcomeShown(outcome: Outcome, made: seq<Poll>, looked: seq<Account>)
      reads this`ui, this`sequence, this`anchor, this`cancelled
    {
      && (outcome.Pending? <==> made != []) && (outcome.Pending? ==> PollsOf(outcome.hash, made))
      && |looked| == (if outcome.LowReserve? then 1 else 0)
      && (!cancelled ==>
            match outcome
            case Confirmed(hash) => ui == Ui.Success(Some(hash))
            case Failed(code) => ui == Error(code, RecoveryFor(code))
            case AccountMismatch => ui == BlockedGate("ACCOUNT_MISMATCH")
            case LowReserve => Shows(looked[0])
            case Pending(hash) => PollShown(hash, made, ui)
            case Rebuild => true)
    }

    // What a submit outcome other than `rebuild` leads to.
    method Conclude(outcome: Outcome, trusted: Asset) returns (ghost made: seq<Poll>)
      requires Valid() && outcome != Rebuild && trusted == platform
      modifies this`ui, this`busy, this`cancelled, this`provider, this`providerId, this`sequence, this`anchor
      modifies this`accountReads, this`polls
      ensures Valid()
      ensures old(accountReads) <= accountReads && polls == old(polls) + made
      ensures OutcomeShown(outcome, made, accountReads[|old(accountReads)|..])
      ensures ui.Success? && ui.transaction.Some? ==> ClaimBacked(ui.transaction.value, outcome, made)
    {
      made := [];
      match outcome
      case Confirmed(hash) => ui := Ui.Success(Some(hash));
      case Failed(code) => ToError(code);
      case LowReserve => RunPrecheck(trusted);
      case AccountMismatch => ui := BlockedGate("ACCOUNT_MISMATCH");
      case Pending(hash) => made := RunPoll(hash);
    }

    /** An attempt that ended before its submit: the transaction could not be built, or the wallet did not sign it. */
    ghost predicate NotSubmittedShown(made: seq<Gesture>)
      reads this`ui
    {
      || (made == [Built(false)] && ui == Error("SUBMIT_FAILED", RetrySign))
      || (&& |made| == 2 && made[0] == Built(true) && made[1].Signature? && made[1].xdr.Failure?
          && RefusalShown(made[1].xdr.code, platform, ui))
    }

    // One attempt: build, sign, submit. None when it ended before or without a submit.
    method BuildSignSubmit(trusted: Asset, seq': string) returns (outcome: Option<Outcome>, ghost applied: bool)
      requires Valid() && trusted == platform
      modifies this
      ensures Valid()
      ensures accountReads == old(accountReads) && polls == old(polls)
      ensures old(gestures) < gestures
      // It ends without a submit only by an unmount, a failed build or a refused signature.
      ensures outcome.None? && !cancelled ==> NotSubmittedShown(gestures[|old(gestures)|..])
      ensures outcome.Some? ==>
                && |gestures| == |old(gestures)| + 2 && gestures[|old(gestures)|] == Built(true)
                && gestures[|old(gestures)| + 1].Signature? && gestures[|old(gestures)| + 1].xdr.Success?
      ensures outcome.Some? ==>
                submissions == old(submissions) + [Submission(seq', trusted, |old(accountReads)|, outcome.value, applied)]
      ensures outcome.None? ==> submissions == old(submissions) && !applied
      ensures applied ==> outcome.value.Confirmed? || outcome.value.Pending?
      ensures !ui.Success?
    {
      outcome, applied := None, false;
      var signed := BuildAndSign(trusted);
      if signed {
        ui := Submitting;
        var submitted: Outcome;
        submitted, applied := SubmitSigned(seq', trusted);
        outcome := Some(submitted);
      }
    }

    method BuildAndSign(trusted: Asset) returns (ok: bool)
      requires Valid() && trusted == platform
      modifies this`ui, this`busy, this`cancelled, this`provider, this`providerId, this`sequence, this`anchor
      modifies this`gestures, this`built
      ensures Valid()
      ensures old(gestures) < gestures && !ui.Success?
      ensures !ok && !cancelled ==> NotSubmittedShown(gestures[|old(gestures)|..])
      ensures ok ==>
                && |gestures| == |old(gestures)| + 2 && gestures[|old(gestures)|] == Built(true)
                && gestures[|old(gestures)| + 1].Signature? && gestures[|old(gestures)| + 1].xdr.Success?
    {
      ui := Signing;
      var buildOk: bool := *;
      gestures := gestures + [Built(buildOk)];
      Await();
      if !buildOk {
        ToError("SUBMIT_FAILED");
        return false;
      }
      built := built + [trusted];
      if cancelled {
        return false;
      }
      var signed: Reply<string> := *;
      gestures := gestures + [Signature(signed)];
      Await();
      if cancelled {
        return false;
      }
      if signed.Failure? {
        if signed.code == "USER_CANCELLED" {
          ui := ReadyToSign(trusted);
        } else {
          ToError(FromWalletError(signed.code));
        }
        return false;
      }
      return true;
    }

    /** What follows a `rebuild`, given the account reads made since: after two, the end; otherwise one fresh read, whose
        sequence is used next if the account is funded. */
    ghost predicate FreshRead(rebuilds: nat, looked: seq<Account>, next: Option<string>)
      reads this`ui, this`cancelled
    {
      if rebuilds >= MAX_REBUILDS then looked == [] && next == None && ui == Error("REBUILD_EXHAUSTED", Terminal)
      else
        && |looked| == 1
        && (next.Some? ==> looked[0].Funded? && next.value == looked[0].sequence)
        && (!cancelled ==>
              match looked[0]
              case Funded(_, _, _) => next.Some?
              case Unfunded => next == None && ui == Error("UNFUNDED", Recheck)
              case HorizonUnavailable => next == None && ui == Error("HORIZON_UNAVAILABLE", Recheck))
    }

    /** After a `rebuild`: the sequence of a fresh account read, or nothing and an explained end. */
    method FreshSequence(rebuilds: nat) returns (next: Option<string>)
      requires Valid()
      modifies this`ui, this`busy, this`cancelled, this`provider, this`providerId, this`sequence, this`anchor
      modifies this`accountReads
      ensures Valid()
      ensures old(accountReads) <= accountReads
      ensures ui.Success? ==> ui == old(ui)
      ensures FreshRead(rebuilds, accountReads[|old(accountReads)|..], next)
    {
      if rebuilds >= MAX_REBUILDS {
        ToError("REBUILD_EXHAUSTED");
        return None;
      }
      var refreshed := LoadAccountState();
      if cancelled {
        return None;
      }
      match refreshed
      case Unfunded =>
        ToError("UNFUNDED");
        return None;
      case HorizonUnavailable =>
        ToError("HORIZON_UNAVAILABLE");
        return None;
      case Funded(fresh', _, _) =>
        return Some(fresh');
    }

    /** What follows an attempt: the sequence to try again with, or None when the call is over. */
    method AfterAttempt(outcome: Option<Outcome>, trusted: Asset, rebuilds: nat)
      returns (next: Option<string>, ghost made: seq<Poll>)
      requires Valid() && trusted == platform && !ui.Success?
      modifies this`ui, this`busy, this`cancelled, this`provider, this`providerId, this`sequence, this`anchor
      modifies this`accountReads, this`polls
      ensures Valid()
      ensures old(accountReads) <= accountReads && polls == old(polls) + made
      ensures next.Some? ==> outcome == Some(Rebuild) && rebuilds < MAX_REBUILDS && made == []
      ensures outcome.None? || old(cancelled) ==>
                next == None && made == [] && accountReads == old(accountReads) && ui == old(ui) && cancelled == old(cancelled)
      ensures outcome == Some(Rebuild) && !old(cancelled) ==>
                made == [] && FreshRead(rebuilds, accountReads[|old(accountReads)|..], next)
      ensures outcome.Some? && outcome.value != Rebuild && !old(cancelled) ==>
                next == None && OutcomeShown(outcome.value, made, accountReads[|old(accountReads)|..])
      ensures ui.Success? && ui.transaction.Some? ==>
                outcome.Some? && ClaimBacked(ui.transaction.value, outcome.value, made)
    {
      next, made := None, [];
      if outcome.Some? && !cancelled {
        if outcome.value == Rebuild {
          next := FreshSequence(rebuilds);
        } else {
          made := Conclude(outcome.value, trusted);
        }
      }
    }

    /** What a sign call did since the submissions were `log` and the polls `polled`: its submits form a SignTrace, so only
        the last can have been applied, and a success that names a transaction names the last one's, confirmed by its
        submit or by a poll. */
    ghost predicate Signed(log: seq<Submission>, polled: seq<Poll>, first: string, was: Ui)
      reads this`submissions, this`polls, this`accountReads, this`ui
    {
      && log <= submissions && polled <= polls
      && SignTrace(submissions[|log|..], accountReads, first, platform)
      && (ui != was && ui.Success? && ui.transaction.Some? ==>
            && |submissions| > |log|
            && ClaimBacked(ui.transaction.value, submissions[|submissions| - 1].outcome, polls[|polled|..]))
    }

    /** Why the call ended, and what it shows: unmounted; no submit, with the reason; three rebuilds; no account to rebuild
        on; or what the last outcome calls for. */
    ghost predicate SignEnded(end: SignEnd, subs: seq<Submission>, polled: seq<Poll>)
      reads this`ui, this`sequence, this`anchor, this`cancelled, this`gestures, this`accountReads, this`polls
    {
      match end
      case Unmounted => cancelled
      case NotSubmitted =>
        || (gestures != [] && NotSubmittedShown(gestures[|gestures| - 1..]))
        || (|gestures| >= 2 && NotSubmittedShown(gestures[|gestures| - 2..]))
      case Exhausted =>
        |subs| == MAX_REBUILDS + 1 && subs[MAX_REBUILDS].outcome == Rebuild && ui == Error("REBUILD_EXHAUSTED", Terminal)
      case NoAccount =>
        && subs != [] && subs[|subs| - 1].outcome == Rebuild && accountReads != []
        && match accountReads[|accountReads| - 1] {
             case Unfunded => ui == Error("UNFUNDED", Recheck)
             case HorizonUnavailable => ui == Error("HORIZON_UNAVAILABLE", Recheck)
             case Funded(_, _, _) => false
           }
      case Concluded =>
        && subs != [] && subs[|subs| - 1].outcome != Rebuild && polled <= polls
        && subs[|subs| - 1].readsBefore <= |accountReads|
        && OutcomeShown(subs[|subs| - 1].outcome, polls[|polled|..], accountReads[subs[|subs| - 1].readsBefore..])
    }

    /** Past the precheck: provider, anchor and sequence are set. */
    predicate CanSign()
      reads this
    {
      provider && anchor.Some? && sequence.Some? && sequence.value != ""
    }

    /** Where a sign call stands: the submits `subs` since `log`, and either the sequence to try next or why it ended. */
    ghost predicate SignSoFar(log: seq<Submission>, polled: seq<Poll>, first: string, subs: seq<Submission>,
                              current: Option<string>, end: SignEnd)
      reads this`ui, this`sequence, this`anchor, this`cancelled, this`gestures, this`accountReads, this`polls, this`submissions
    {
      && submissions == log + subs && polled <= polls
      && SignTrace(subs, accountReads, first, platform)
      && match current
         case Some(next) => |subs| <= MAX_REBUILDS && polls == polled && CanTryAgain(subs, accountReads, first, next)
         case None =>
           && SignEnded(end, subs, polled)
           && (ui.Success? && ui.transaction.Some? ==>
                 |subs| > 0 && ClaimBacked(ui.transaction.value, subs[|subs| - 1].outcome, polls[|polled|..]))
    }

    /** Build, sign, submit, and rebuild on a stale sequence. */
    method Sign() returns (ghost end: SignEnd)
      requires Valid()
      modifies this
      ensures Valid()
      ensures old(accountReads) <= accountReads
      ensures old(busy || !CanSign()) ==>
                && submissions == old(submissions) && built == old(built) && ui == old(ui) && gestures == old(gestures)
                && accountReads == old(accountReads) && polls == old(polls) && busy == old(busy)
      ensures old(!busy && CanSign()) ==>
                && Signed(old(submissions), old(polls), old(sequence).value, old(ui))
                && SignEnded(end, submissions[|old(submissions)|..], old(polls))
                && old(gestures) < gestures
    {
      end := Unmounted;
      if busy || !CanSign() {
        return;
      }
      busy := true;
      ghost var subs: seq<Submission>;
      end, subs := SignLoop(anchor.value, sequence.value);
      assert submissions[|old(submissions)|..] == subs;
      busy := false;
    }

    // The loop of a sign call.
    method SignLoop(trusted: Asset, first: string) returns (ghost end: SignEnd, ghost subs: seq<Submission>)
      requires Valid() && trusted == platform
      modifies this
      ensures Valid() && old(accountReads) <= accountReads && old(gestures) < gestures
      ensures SignSoFar(old(submissions), old(polls), first, subs, None, end)
    {
      end, subs := Unmounted, [];
      ghost var log, polled := submissions, polls;
      var attempt := 0;
      assert log + subs == log;
      var current := Some(first);
      while current.Some?
        invariant Valid() && attempt <= MAX_REBUILDS + 1
        invariant old(accountReads) <= accountReads && old(gestures) <= gestures
        invariant current.Some? ==> attempt == |subs|
        invariant current.None? ==> old(gestures) < gestures
        invariant SignSoFar(log, polled, first, subs, current, end)
        decreases current.Some?, MAX_REBUILDS + 1 - attempt
      {
        end, current, subs := Attempt(trusted, current.value, attempt, first, log, polled, subs);
        attempt := attempt + 1;
      }
    }

    // The submit of an attempt, which extends the trace.
    method AttemptSubmit(trusted: Asset, seq': string, ghost first: string, ghost log: seq<Submission>,
                         ghost subs: seq<Submission>)
      returns (outcome: Option<Outcome>, ghost subs': seq<Submission>)
      requires Valid() && trusted == platform && submissions == log + subs && |subs| <= MAX_REBUILDS
      requires SignTrace(subs, accountReads, first, platform) && CanTryAgain(subs, accountReads, first, seq')
      modifies this
      ensures Valid() && !ui.Success?
      ensures accountReads == old(accountReads) && polls == old(polls) && old(gestures) < gestures
      ensures submissions == log + subs' && SignTrace(subs', accountReads, first, platform)
      ensures outcome.None? ==> subs' == subs && (!cancelled ==> NotSubmittedShown(gestures[|old(gestures)|..]))
      ensures outcome.Some? ==>
                && |subs'| == |subs| + 1 && subs'[|subs|].outcome == outcome.value
                && subs'[|subs|].readsBefore == |accountReads|
    {
      ghost var reads_ := accountReads;
      ghost var applied: bool;
      outcome, applied := BuildSignSubmit(trusted, seq');
      subs' := subs;
      if outcome.Some? {
        ghost var submitted := Submission(seq', trusted, |reads_|, outcome.value, applied);
        TraceExtends(subs, reads_, first, platform, submitted);
        subs' := subs + [submitted];
        assert log + subs + [submitted] == log + subs';
      }
    }

    // One attempt and what follows it: the next sequence, or how the call ended.
    method Attempt(trusted: Asset, seq': string, attempt: nat, ghost first: string, ghost log: seq<Submission>,
                   ghost polled: seq<Poll>, ghost subs: seq<Submission>)
      returns (ghost end: SignEnd, next: Option<string>, ghost subs': seq<Submission>)
      requires Valid() && trusted == platform && attempt == |subs|
      requires SignSoFar(log, polled, first, subs, Some(seq'), Unmounted)
      modifies this
      ensures Valid()
      ensures old(accountReads) <= accountReads && old(gestures) < gestures
      ensures next.Some? ==> |subs'| == attempt + 1
      ensures SignSoFar(log, polled, first, subs', next, end)
    {
      ghost var reads_, asked := accountReads, gestures;
      var outcome: Option<Outcome>;
      ghost var made: seq<Poll>;
      outcome, subs' := AttemptSubmit(trusted, seq', first, log, subs);
      ghost var unmounted := cancelled;
      next, made := AfterAttempt(outcome, trusted, attempt);
      end := if unmounted || cancelled then Unmounted
             else if outcome.None? then NotSubmitted
             else if outcome.value != Rebuild then Concluded
             else if attempt >= MAX_REBUILDS then Exhausted
             else NoAccount;
      TraceOutlivesReads(subs', reads_, accountReads, first, platform);
      assert polls[|polled|..] == made;
      if next.Some? {
        AttemptGoesOn(subs', first, reads_, attempt, next.value);
      } else {
        AttemptEnds(end, subs', polled, outcome, attempt, asked, reads_);
      }
    }

    lemma {:induction false} AttemptGoesOn(subs: seq<Submission>, first: string, before: seq<Account>, attempt: nat,
                                           next: string)
      requires before <= accountReads && attempt < MAX_REBUILDS
      requires |subs| == attempt + 1 && subs[attempt].outcome == Rebuild && subs[attempt].readsBefore == |before|
      requires FreshRead(attempt, accountReads[|before|..], Some(next))
      ensures CanTryAgain(subs, accountReads, first, next)
    {
      assert accountReads[|accountReads| - 1] == accountReads[|before|..][0];
    }

    lemma {:induction false} AttemptEnds(end: SignEnd, subs: seq<Submission>, polled: seq<Poll>, outcome: Option<Outcome>,
                                         attempt: nat, asked: seq<Gesture>, before: seq<Account>)
      requires polled <= polls && asked <= gestures && before <= accountReads
      requires end == (if cancelled then Unmounted else if outcome.None? then NotSubmitted
                       else if outcome.value != Rebuild then Concluded
                       else if attempt >= MAX_REBUILDS then Exhausted else NoAccount)
      requires outcome.None? && !cancelled ==> NotSubmittedShown(gestures[|asked|..])
      requires outcome.Some? ==>
                 && |subs| == attempt + 1 <= MAX_REBUILDS + 1
                 && subs[attempt].outcome == outcome.value && subs[attempt].readsBefore == |before|
      requires outcome.Some? && outcome.value != Rebuild && !cancelled ==>
                 OutcomeShown(outcome.value, polls[|polled|..], accountReads[|before|..])
      requires outcome == Some(Rebuild) && !cancelled ==> FreshRead(attempt, accountReads[|before|..], None)
      ensures SignEnded(end, subs, polled)
    {
      match end
      case NotSubmitted => LastGestures(asked);
      case NoAccount => assert accountReads[|accountReads| - 1] == accountReads[|before|..][0];
      case _ =>
    }

    lemma {:induction false} LastGestures(asked: seq<Gesture>)
      requires asked <= gestures && NotSubmittedShown(gestures[|asked|..])
      ensures || (gestures != [] && NotSubmittedShown(gestures[|gestures| - 1..]))
              || (|gestures| >= 2 && NotSubmittedShown(gestures[|gestures| - 2..]))
    {
      var made := gestures[|asked|..];
      assert made == gestures[|gestures| - |made|..];
    }

    /** Reads the account once and shows what it calls for; a busy hook, or one without a wallet, does nothing. */
    method RecheckFunding()
      requires Valid()
      modifies this
      ensures Valid() && submissions == old(submissions) && built == old(built) && polls == old(polls)
      ensures old(busy || !provider) ==> ui == old(ui) && accountReads == old(accountReads) && busy == old(busy)
      ensures old(!busy && provider) && !(issuerConfigured && old(asset) == platform) ==>
                && ui == BlockedGate(if issuerConfigured then "ISSUER_MISMATCH" else "ISSUER_UNCONFIGURED")
                && accountReads == old(accountReads)
      ensures old(!busy && provider) && issuerConfigured && old(asset) == platform ==>
                && |accountReads| == |old(accountReads)| + 1
                && (!cancelled ==> Shows(accountReads[|old(accountReads)|]))
    {
      if busy || !provider {
        return;
      }
      busy := true;
      var pinned := PinnedAsset();
      if pinned.Some? {
        RunPrecheck(pinned.value);
      }
      busy := false;
    }

    /** Signs again when past the precheck, else starts over with the last wallet, which submits nothing. */
    method Retry() returns (ghost end: SignEnd, ghost publicKey: Option<Reply<string>>)
      requires Valid()
      modifies this
      ensures Valid()
      ensures old(!busy && CanSign()) ==>
                && Signed(old(submissions), old(polls), old(sequence).value, old(ui))
                && SignEnded(end, submissions[|old(submissions)|..], old(polls))
      ensures !old(!busy && CanSign()) ==> submissions == old(submissions) && built == old(built) && polls == old(polls)
      ensures old(busy || (!CanSign() && (providerId.None? || providerId.value == ""))) ==>
                ui == old(ui) && accountReads == old(accountReads) && publicKey == None
      ensures old(!busy && !CanSign() && providerId.Some? && providerId.value != "") ==>
                && (if issuerConfigured && old(asset) == platform then !cancelled ==> publicKey.Some?
                    else ui == BlockedGate(if issuerConfigured then "ISSUER_MISMATCH" else "ISSUER_UNCONFIGURED"))
                && old(accountReads) <= accountReads && WalletShown(publicKey, accountReads[|old(accountReads)|..])
    {
      end, publicKey := Unmounted, None;
      if busy {
        return;
      }
      if CanSign() {
        end := Sign();
      } else if providerId.Some? && providerId.value != "" {
        publicKey := Start(providerId.value);
      }
    }
  }
}
