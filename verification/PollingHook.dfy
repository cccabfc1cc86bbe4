/** The hooks useMyBidPolling and useTradePolling as an object over their refs. Every public method is one step of
    the machine in Polling and keeps its invariant. `hidden` and `now` are the document and the clock. */
module PollingHook {
  import opened Wrappers
  import opened Polling

  class PollHook {
    const kind: Kind
    var item: Option<ItemStatus>
    var phase: Phase
    var timer: bool
    var inFlight: bool
    var failures: nat
    var cancelled: bool
    var stopped: bool
    var lastFetchAt: int
    var activeStart: Option<int>
    var activeAccum: int
    var hidden: bool
    var now: int
    ghost var pendingReads: nat
    ghost var readsMade: nat
    ghost var visibleTime: int
    ghost var going: bool  // a waiting seed, an un-hide or a refresh has set polling going

    ghost function View(): Poller
      reads this
    {
      Poller(kind, item, phase, timer, inFlight, failures, cancelled, stopped, lastFetchAt, activeStart,
             activeAccum, hidden, now, pendingReads, readsMade, visibleTime)
    }

    ghost predicate Valid()
      reads this
    {
      Inv(View(), going)
    }

    constructor (kind: Kind, seed: Option<ItemStatus>, age: nat, hidden: bool, now: int)
      ensures Valid() && View() == Mounted(kind, seed, age, hidden, now)
      ensures going <==> seed == Some(Waiting)
      ensures timer <==> seed == Some(Waiting) && !hidden
      ensures item == seed && !inFlight && !stopped
      ensures (phase == Phase.Polling <==> seed == Some(Waiting)) && (phase == Idle <==> seed == None)
      ensures (phase == SettledPhase <==> seed == Some(Settled)) && (phase == FailedPhase <==> seed == Some(Failed))
    {
      this.kind, item, phase := kind, seed, InitialPhase(seed);
      inFlight, failures, cancelled, stopped, lastFetchAt := false, 0, false, false, now;
      activeAccum := SeedAge(kind, seed, age);
      activeStart := if hidden then None else Some(now);
      this.hidden, this.now := hidden, now;
      timer := seed == Some(Waiting) && !hidden;
      pendingReads, readsMade, visibleTime, going := 0, 0, SeedAge(kind, seed, age), seed == Some(Waiting);
    }

    /** While not stopped, exactly the visible time since mount or refresh. */
    method ActiveElapsedMs() returns (elapsed: int)
      ensures elapsed == Elapsed(View())
      ensures Valid() && !stopped && !cancelled ==> elapsed == visibleTime
    {
      elapsed := activeAccum + (if activeStart.Some? then now - activeStart.value else 0);
    }

    method Schedule()
      modifies this`timer
      ensures View() == Polling.Schedule(old(View()))
    {
      if stopped || cancelled || hidden {
        return;
      }
      timer := true;
    }

    method Poll()
      modifies this`inFlight, this`pendingReads, this`readsMade
      ensures View() == Polling.Poll(old(View()))
    {
      if inFlight || stopped || cancelled {
        return;
      }
      inFlight := true;
      pendingReads := pendingReads + 1;
      readsMade := readsMade + 1;
    }

    /** A firing timer starts a read unless one is running or polling has stopped; never two at once. */
    method TimerFires()
      requires Valid() && timer
      modifies this`timer, this`inFlight, this`pendingReads, this`readsMade
      ensures Valid() && View() == Next(old(View()), Step.TimerFires)
      ensures readsMade == old(readsMade) + if old(inFlight || stopped) then 0 else 1
      ensures pendingReads <= 1 && (stopped || inFlight) && !timer
    {
      StepKeepsInv(View(), going, Step.TimerFires);
      timer := false;
      Poll();
    }

    method CountFailure(code: string)
      modifies this`stopped, this`phase, this`failures, this`timer
      ensures View() == OnFailure(old(View()), code)
    {
      if code == "SESSION_EXPIRED" {
        stopped := true;
        phase := ErrorPhase;
        return;
      }
      failures := failures + 1;
      if failures >= MAX_FAILURES {
        stopped := true;
        phase := ErrorPhase;
        return;
      }
      Schedule();
    }

    method PollOn()
      modifies this`stopped, this`phase, this`timer
      ensures View() == Polling.PollOn(old(View()))
    {
      var elapsed := ActiveElapsedMs();
      if kind == BidPoller && elapsed >= BID_POLL_CAP_MS {
        stopped := true;
        phase := Timeout;
        return;
      }
      phase := Phase.Polling;
      Schedule();
    }

    method Adopt(found: Option<ItemStatus>)
      modifies this`failures, this`item, this`stopped, this`phase, this`timer
      ensures View() == OnFound(old(View()), found)
    {
      failures := 0;
      if found.Some? || kind == BidPoller {
        item := found;
      }
      match found
      case Some(Settled) => stopped, phase := true, SettledPhase;
      case Some(Failed) => stopped, phase := true, FailedPhase;
      case _ => PollOn();
    }

    method TakeAnswer(answer: Reply<Option<ItemStatus>>)
      requires pendingReads > 0
      modifies this
      ensures View() == OnReadResolves(old(View()), answer) && going == old(going)
    {
      pendingReads := pendingReads - 1;
      inFlight := false;
      if cancelled {
        return;
      }
      lastFetchAt := now;
      match answer
      case Failure(code) => CountFailure(code);
      case Success(found) => Adopt(found);
    }

    /** An answer starts no read itself. Mounted, polling stops on a terminal item, an expired session, too many
        failures in a row, or, for a bid, a non-terminal answer at or past the cap of visible time; otherwise a visible
        tab has a timer again. AnswerTells says what is shown. */
    method ResolveRead(answer: Reply<Option<ItemStatus>>)
      requires Valid() && pendingReads > 0
      modifies this
      ensures Valid() && View() == OnReadResolves(old(View()), answer)
      ensures !inFlight && readsMade == old(readsMade)
      ensures !cancelled && !stopped && !hidden ==> timer
      ensures !cancelled ==> (stopped <==> Stops(old(View()), answer))
      ensures !cancelled ==> AnswerTells(old(View()), answer, View()) && lastFetchAt == now
      ensures cancelled ==> item == old(item) && phase == old(phase) && !timer
    {
      if !cancelled {
        ReadTells(View(), going, answer);
      }
      ReadKeeps(View(), going, answer);
      ReadStops(View(), going, answer);
      TakeAnswer(answer);
    }

    /** Hiding stops the timer and banks the visible segment; showing sets a mounted, unstopped poller going. */
    method OnVisibility(nowHidden: bool)
      requires Valid() && hidden != nowHidden
      modifies this
      ensures Valid() && View() == if nowHidden then OnHide(old(View())) else OnShow(old(View()))
      ensures going == (old(going) || !nowHidden)
      ensures hidden ==> !timer && readsMade == old(readsMade)
      ensures !hidden && !stopped && !cancelled ==> timer || inFlight
      ensures !stopped && !cancelled ==> Elapsed(View()) == old(Elapsed(View()))
      ensures phase == old(phase) && item == old(item) && stopped == old(stopped) && failures == old(failures)
      // An un-hide reads at once unless a read is running or has just ended.
      ensures !nowHidden && !stopped && !cancelled ==>
                readsMade == old(readsMade) + if old(inFlight) || now - lastFetchAt < UNHIDE_DEBOUNCE_MS then 0 else 1
      ensures stopped || cancelled ==> readsMade == old(readsMade)
    {
      VisibilityKeeps(View(), going);
      ChangeVisibility(nowHidden);
      going := going || !nowHidden;
    }

    method ChangeVisibility(nowHidden: bool)
      requires hidden != nowHidden
      modifies this
      ensures View() == if nowHidden then OnHide(old(View())) else OnShow(old(View()))
      ensures going == old(going)
    {
      hidden := nowHidden;
      if cancelled {
        return;
      }
      if hidden {
        if activeStart.Some? {
          activeAccum := activeAccum + (now - activeStart.value);
          activeStart := None;
        }
        timer := false;
        return;
      }
      if stopped {
        return;
      }
      activeStart := Some(now);
      if inFlight || now - lastFetchAt < UNHIDE_DEBOUNCE_MS {
        Schedule();
      } else {
        Poll();
      }
    }

    /** Mounted, there is a read in flight afterwards and polling is not stopped; the budget of visible time starts
        over unless a read was already running. */
    method Refresh()
      requires Valid()
      modifies this
      ensures Valid() && View() == OnRefresh(old(View()))
      ensures going
      ensures !cancelled ==> inFlight && !stopped
      ensures !cancelled ==> visibleTime == if old(inFlight) then old(visibleTime) else 0
      ensures !cancelled && !old(inFlight) ==>
                phase == Phase.Polling && failures == 0 && readsMade == old(readsMade) + 1 && item == old(item)
      ensures cancelled || old(inFlight) ==> View() == old(View())
    {
      StepKeepsInv(View(), going, Step.Refresh);
      Restart();
      going := true;
    }

    method Restart()
      modifies this
      ensures View() == OnRefresh(old(View()))
    {
      if cancelled || inFlight {
        return;
      }
      timer := false;
      failures := 0;
      stopped := false;
      activeAccum := 0;
      activeStart := if hidden then None else Some(now);
      phase := Phase.Polling;
      visibleTime := 0;
      assert View() == old(View()).(timer := false, failures := 0, stopped := false, activeAccum := 0,
                                    activeStart := activeStart, phase := phase, visibleTime := 0);
      Poll();
    }

    method Tick(ms: nat)
      requires Valid()
      modifies this`now, this`visibleTime
      ensures Valid() && View() == Next(old(View()), Step.Tick(ms))
    {
      now := now + ms;
      visibleTime := visibleTime + if hidden then 0 else ms;
    }

    method Unmount()
      requires Valid()
      modifies this`cancelled, this`timer
      ensures Valid() && View() == old(View()).(cancelled := true, timer := false)
    {
      cancelled := true;
      timer := false;
    }
  }
}
