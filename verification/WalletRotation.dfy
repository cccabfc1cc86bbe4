/** apps/web/hooks/useWalletRotation.ts: the non-atomic move of N items, signed in batches, submitted,
    polled to rest and rebuilt, round after round. */
module WalletRotation {
  import opened Wrappers
  import opened Settlement
  import opened RotationServer

  const BATCH_SIZE: nat := 4
  const STALL_THRESHOLD: nat := 6
  const POLL_CEILING_MS: int := 10 * 60_000
  const MAX_ROUNDS: nat := 12
  const MAX_NO_PROGRESS_ROUNDS: nat := 3

  datatype Phase = Signing | Submitting | Polling | Rebuilding

  datatype RotationState =
    | Loading
    | SelectingDestination
    | Reviewing(destination: string, offered: seq<RotationItem>, blocked: Option<string>)
    | Transferring(phase: Phase, destination: string, confirmedCount: nat, total: nat)
    | Paused(destination: string, confirmedCount: nat, total: nat)
    | Partial(destination: string, settled: seq<StatusItem>, confirmedCount: nat, total: nat)
    | SettlementUnknown(destination: string, confirmedCount: nat, total: nat)
    | Complete(destination: string, movedCount: nat)
    | Error(code: string)

  datatype PollResult =
    | Settled(items: seq<StatusItem>, confirmedCount: nat, total: nat)
    | Unknown(confirmedCount: nat, total: nat)

  datatype PollTurn =
    | Halt
    | StillMoving(confirmed: nat, answered: nat)
    | Rest(items: seq<StatusItem>)

  datatype RoundEnd = NextRound | NothingToSign | Ended

  datatype BatchOutcome = Sent | Cancelled | Errored

  // ---- chunk and enrichByItemId ----

  ghost function Flatten<T>(chunks: seq<seq<T>>): seq<T> {
    if |chunks| == 0 then [] else Flatten(chunks[..|chunks| - 1]) + chunks[|chunks| - 1]
  }

  lemma {:induction false} FlattenPrefix<T>(chunks: seq<seq<T>>, j: nat)
    requires j <= |chunks|
    ensures Flatten(chunks[..j]) <= Flatten(chunks)
  {
    if j == |chunks| {
      assert chunks[..j] == chunks;
    } else {
      var front := chunks[..|chunks| - 1];
      FlattenPrefix(front, j);
      assert front[..j] == chunks[..j];
    }
  }

  method Chunk<T>(items: seq<T>, size: nat) returns (out: seq<seq<T>>)
    requires size > 0
    ensures Flatten(out) == items
    ensures forall k :: 0 <= k < |out| ==> 0 < |out[k]| <= size
    ensures forall k :: 0 <= k < |out| - 1 ==> |out[k]| == size
  {
    out := [];
    var i := 0;
    assert items[..0] == [];
    while i < |items|
      invariant Flatten(out) == items[..if i < |items| then i else |items|]
      invariant i < |items| ==> forall k :: 0 <= k < |out| ==> |out[k]| == size
      invariant forall k :: 0 <= k < |out| ==> 0 < |out[k]| <= size
      invariant forall k :: 0 <= k < |out| - 1 ==> |out[k]| == size
    {
      var end := if i + size < |items| then i + size else |items|;
      ghost var was := out;
      out := out + [items[i..end]];
      assert out[..|out| - 1] == was;
      assert items[..i] + items[i..end] == items[..end];
      i := i + size;
    }
    assert items[..|items|] == items;
  }

  // A Map built from pairs keeps the last entry for a key.
  function LookUp(begin: seq<RotationItem>, itemId: string): (found: Option<RotationItem>) {
    if |begin| == 0 then None
    else if begin[|begin| - 1].itemId == itemId then Some(begin[|begin| - 1])
    else LookUp(begin[..|begin| - 1], itemId)
  }

  function EnrichByItemId(items: seq<StatusItem>, begin: seq<RotationItem>): (enriched: seq<StatusItem>)
    ensures |enriched| == |items|
    ensures forall i :: 0 <= i < |items| ==> enriched[i].status == items[i].status
    ensures forall i :: 0 <= i < |items| ==> enriched[i].itemId == items[i].itemId
    ensures forall i :: 0 <= i < |items| ==> enriched[i].errorCode == items[i].errorCode
  {
    seq(|items|, i requires 0 <= i < |items| =>
      match LookUp(begin, items[i].itemId)
      case None => items[i]
      case Some(b) => items[i].(displayName := b.displayName, decimals := Some(b.decimals)))
  }

  /** Display fields come only from the item with the same id, and enriching never changes the verdict. */
  lemma {:induction false} LookUpFindsById(begin: seq<RotationItem>, itemId: string)
    ensures LookUp(begin, itemId) == None <==> itemId !in Ids(begin)
    ensures LookUp(begin, itemId).Some? ==>
              LookUp(begin, itemId).value in begin && LookUp(begin, itemId).value.itemId == itemId
  {
    if |begin| > 0 {
      var front := begin[..|begin| - 1];
      LookUpFindsById(front, itemId);
      assert Ids(begin) == Ids(front) + [begin[|begin| - 1].itemId];
    }
  }

  lemma {:induction false} EnrichKeepsVerdict(items: seq<StatusItem>, begin: seq<RotationItem>)
    ensures CountConfirmed(EnrichByItemId(items, begin)) == CountConfirmed(items)
    ensures DeriveSettlementOutcome(EnrichByItemId(items, begin)) == DeriveSettlementOutcome(items)
  {
    var enriched := EnrichByItemId(items, begin);
    CountMonotone(items, enriched);
    forall i | 0 <= i < |items| ensures Undecided(enriched[i]) <==> Undecided(items[i]) {}
    OutcomeByCount(items);
    OutcomeByCount(enriched);
    CountExtremes(items);
    CountExtremes(enriched);
  }

  predicate BlocksReview(code: string) {
    code == "ROTATION_BLOCKED_BY_LOCKUP" || code == "RECIPIENT_NOT_WHITELISTED"
  }

  predicate CarriesCounts(s: RotationState) {
    s.Paused? || s.Partial? || s.SettlementUnknown?
  }

  // ---- What a published state may claim ----

  /** Money truth of a state against the true item statuses: counts never exceed what has really moved,
      never exceed their total, and a terminal claim is the whole truth. */
  ghost predicate Truthful(state: RotationState, items: seq<StatusItem>) {
    match state
    case Transferring(_, _, c, t) => c <= t && c <= CountConfirmed(items)
    case Paused(_, c, t) => 0 < c <= t && c <= CountConfirmed(items)
    case SettlementUnknown(_, c, t) => c <= t && c <= CountConfirmed(items)
    case Partial(_, _, c, t) =>
      0 < c < t && t == |items| && c == CountConfirmed(items) && NoneInFlight(items)
    case Complete(_, moved) => moved == |items| && CountConfirmed(items) == |items|
    case _ => true
  }

  /** `Error` means nothing has moved and nothing still can. */
  ghost predicate NothingMovedOrMoving(items: seq<StatusItem>) {
    CountConfirmed(items) == 0 && NoneInFlight(items)
  }

  lemma {:induction false} TruthPersists(state: RotationState, before: seq<StatusItem>, after: seq<StatusItem>)
    requires Advances(before, after, [])
    ensures Truthful(state, before) ==> Truthful(state, after)
    ensures OnlySettles(before, after)
  {
    CountMonotone(before, after);
    CountExtremes(before);
    CountExtremes(after);
  }

  /** What a stretch without a submit does to the true items: confirmations only arrive, and with nothing in
      flight nothing arrives. */
  ghost predicate OnlySettles(before: seq<StatusItem>, after: seq<StatusItem>) {
    && |before| == |after|
    && CountConfirmed(before) <= CountConfirmed(after)
    && (NoneInFlight(before) ==> NoneInFlight(after) && CountConfirmed(before) == CountConfirmed(after))
  }

  /** The reported items are the final word: nothing is in flight and the true count is the reported one. */
  ghost predicate AtRest(reported: seq<StatusItem>, items: seq<StatusItem>) {
    |reported| == |items| && NoneInFlight(items) && CountConfirmed(reported) == CountConfirmed(items)
  }

  lemma {:induction false} RestIsFinal(reported: seq<StatusItem>, items: seq<StatusItem>)
    requires Advances(reported, items, [])
    ensures DeriveSettlementOutcome(reported) != Inflight ==> AtRest(reported, items)
  {
    TruthPersists(Loading, reported, items);
    if DeriveSettlementOutcome(reported) != Inflight {
      OutcomeByCount(reported);
      assert forall k :: 0 <= k < |reported| ==> !Undecided(reported[k]);
    }
  }

  ghost predicate PollIsHonest(result: PollResult, items: seq<StatusItem>) {
    && result.confirmedCount <= result.total
    && result.confirmedCount <= CountConfirmed(items)
    && (result.Settled? ==>
          && DeriveSettlementOutcome(result.items) != Inflight && result.items != []
          && AtRest(result.items, items)
          && result.confirmedCount == CountConfirmed(result.items)
          && result.total == |result.items|)
  }

  lemma {:induction false} HonestyPersists(result: PollResult, before: seq<StatusItem>, after: seq<StatusItem>)
    requires PollIsHonest(result, before) && OnlySettles(before, after)
    ensures PollIsHonest(result, after)
  {
  }

  // ---- What the submissions of a drive add up to ----

  ghost function SentIds(subs: seq<Submission>): seq<string> {
    if |subs| == 0 then [] else SentIds(subs[..|subs| - 1]) + subs[|subs| - 1].ids
  }

  /** No item of the batch was confirmed or in flight when it arrived, none is in it twice. */
  ghost predicate Clean(s: Submission) {
    Unsent(s.ids, s.before)
  }

  ghost predicate AllClean(subs: seq<Submission>) {
    forall i :: 0 <= i < |subs| ==> Clean(subs[i])
  }

  ghost predicate AllAccepted(subs: seq<Submission>) {
    forall i :: 0 <= i < |subs| ==> subs[i].accepted
  }

  /** Every submit holds one batch, and after a refused or lost one nothing more is submitted. */
  ghost predicate RefusalEnds(subs: seq<Submission>) {
    && (forall i :: 0 <= i < |subs| ==> 0 < |subs[i].ids| <= BATCH_SIZE)
    && (forall i :: 0 <= i < |subs| - 1 ==> subs[i].accepted)
  }

  /** What a stretch of a drive may have submitted: nothing after a refusal, which is published as an unknown
      outcome, and, when it began ready, only items that were neither confirmed nor in flight. */
  ghost predicate SafeStretch(subs: seq<Submission>, ready: bool, cancelled: bool, state: RotationState) {
    && RefusalEnds(subs)
    && (ready ==> AllClean(subs))
    && (!cancelled && !AllAccepted(subs) ==> state.SettlementUnknown?)
  }

  /** A stretch that ended without a refusal, followed by another stretch. */
  lemma {:induction false} StretchesJoin(first: seq<Submission>, second: seq<Submission>, ready: bool, ready': bool,
                                         cancelled: bool, state: RotationState)
    requires AllAccepted(first) && RefusalEnds(first) && (ready ==> AllClean(first))
    requires SafeStretch(second, ready', cancelled, state) && (ready ==> ready')
    ensures SafeStretch(first + second, ready, cancelled, state)
    ensures AllAccepted(second) ==> AllAccepted(first + second)
  {
    assert forall i :: 0 <= i < |second| ==> (first + second)[|first| + i] == second[i];
  }

  /** The heart of no-double-move: what earlier batches of the round sent cannot touch a later batch. */
  lemma {:induction false} LaterBatchUnsent(start: seq<StatusItem>, now: seq<StatusItem>, arrival: seq<StatusItem>,
                         all: seq<string>, sent: seq<string>, ids: seq<string>)
    requires Unsent(all, start) && sent + ids <= all
    requires Advances(start, now, sent) && Advances(now, arrival, [])
    ensures Unsent(ids, arrival)
  {
    assert forall i :: 0 <= i < |sent| ==> all[i] == sent[i];
    assert forall i :: 0 <= i < |ids| ==> all[|sent| + i] == ids[i];
    assert forall id :: id in ids ==> id in all && id !in sent;
  }

  lemma {:induction false} IdsJoin(a: seq<RotationItem>, b: seq<RotationItem>)
    ensures Ids(a + b) == Ids(a) + Ids(b)
  {
  }

  // One more batch: the ids flattened so far grow by its ids and stay a prefix of all ids.
  lemma {:induction false} IdsOfBatches(batches: seq<seq<RotationItem>>, j: nat)
    requires j < |batches|
    ensures Ids(Flatten(batches[..j + 1])) == Ids(Flatten(batches[..j])) + Ids(batches[j])
    ensures Ids(Flatten(batches[..j + 1])) <= Ids(Flatten(batches))
  {
    assert batches[..j + 1][..j] == batches[..j];
    IdsJoin(Flatten(batches[..j]), batches[j]);
    FlattenPrefix(batches, j + 1);
    var front, all := Flatten(batches[..j + 1]), Flatten(batches);
    IdsJoin(front, all[|front|..]);
    assert front + all[|front|..] == all;
  }

  /** One more batch of a round: what has been sent is still a prefix of the begin set, and is clean. */
  lemma {:induction false} ExtendRound(batches: seq<seq<RotationItem>>, j: nat, start: seq<StatusItem>, now: seq<StatusItem>,
                                       subs: seq<Submission>, s: Submission)
    requires j < |batches| && 0 < |batches[j]| <= BATCH_SIZE
    requires SentIds(subs) == Ids(Flatten(batches[..j]))
    requires Advances(start, now, SentIds(subs)) && Advances(now, s.before, [])
    requires s.ids == Ids(batches[j])
    ensures SentIds(subs + [s]) == Ids(Flatten(batches[..j + 1]))
    ensures Unsent(Ids(Flatten(batches)), start) ==> Clean(s)
  {
    assert (subs + [s])[..|subs|] == subs;
    IdsOfBatches(batches, j);
    if Unsent(Ids(Flatten(batches)), start) {
      LaterBatchUnsent(start, now, s.before, Ids(Flatten(batches)), SentIds(subs), s.ids);
    }
  }

  // ---- What a cancel offers again ----

  /** Once anything has moved a cancel pauses; before that it goes back to the review. */
  ghost function CancelledState(offered: seq<RotationItem>, destination: string, confirmed: nat, total: nat)
    : (state: RotationState)
  {
    if confirmed > 0 then Paused(destination, confirmed, total) else Reviewing(destination, offered, None)
  }

  // The items of the examples below, with an id for each number.
  ghost function Name(n: nat): (id: string)
    ensures |id| == n
  {
    seq(n, _ => 'x')
  }

  ghost function Items(first: nat, end: nat): (items: seq<RotationItem>)
    requires first <= end
  {
    seq(end - first, i requires 0 <= i < end - first => RotationItem(Name(first + i), None, 7, 100))
  }

  // The first `split` of `n` items have one status and the rest another.
  ghost function Statuses(n: nat, split: nat, front: ItemStatus, rest: ItemStatus): (items: seq<StatusItem>) {
    seq(n, i requires 0 <= i < n => StatusItem(Name(i), if i < split then front else rest, None, None, None))
  }

  /** The review a cancel goes back to is not safe to sign. Whatever more than four items a begin set lists, with
      nothing in flight or confirmed: send the first batch and dismiss the passkey for the next. The review offers the
      whole set again, although its first item may be in flight by `now`, or confirmed by `later`, when again nothing
      is in flight. */
  lemma {:induction false} CancelledReviewReoffersSent(begin: seq<RotationItem>, start: seq<StatusItem>, k: nat,
                                                       destination: string)
    returns (now: seq<StatusItem>, later: seq<StatusItem>)
    requires |begin| > BATCH_SIZE && Unsent(Ids(begin), start)
    requires NoneInFlight(start) && CountConfirmed(start) == 0
    requires k < |start| && start[k].itemId == begin[0].itemId
    ensures Advances(start, now, Ids(begin[..BATCH_SIZE])) && Advances(now, later, [])
    ensures CancelledState(begin, destination, CountConfirmed(now), |now|) == Reviewing(destination, begin, None)
    ensures !Unsent(Ids(begin), now) && !Clean(Submission(Ids(begin[..BATCH_SIZE]), now, true))
    ensures NoneInFlight(later)
    ensures !Unsent(Ids(begin), later) && !Clean(Submission(Ids(begin[..BATCH_SIZE]), later, true))
  {
    now, later := start[k := start[k].(status := Submitted)], start[k := start[k].(status := Confirmed)];
    assert Ids(begin)[0] == Ids(begin[..BATCH_SIZE])[0] == start[k].itemId;
    CountMonotone(start, now);
    assert now[k].itemId == later[k].itemId == start[k].itemId;
  }

  /** Such a begin set: five pending items, each listed once. */
  lemma {:induction false} FiveItemsReoffered()
    returns (begin: seq<RotationItem>, start: seq<StatusItem>, now: seq<StatusItem>)
    ensures |begin| == 5 && ListsUnconfirmed(Ids(begin), start) && Unsent(Ids(begin), start)
    ensures Advances(start, now, Ids(begin[..4]))
    ensures CancelledState(begin, "w2", CountConfirmed(now), |now|) == Reviewing("w2", begin, None)
    ensures !Unsent(Ids(begin), now)
  {
    begin, start := Items(0, 5), Statuses(5, 5, Pending, Pending);
    CountExtremes(start);
    var ids := Ids(begin);
    assert forall i :: 0 <= i < 5 ==> start[i].itemId == ids[i] && |ids[i]| == i;
    assert forall i :: 0 <= i < 5 ==> start[i].itemId in ids;
    ghost var later;
    now, later := CancelledReviewReoffersSent(begin, start, 0, "w2");
  }

  // ---- How a round ends ----

  ghost predicate HasRetryable(items: seq<StatusItem>) {
    exists i :: 0 <= i < |items| && items[i].status != Confirmed && RetryableCode(items[i].errorCode)
  }

  /** Some item failed for a reason worth retrying, and the rounds are still making progress. */
  ghost predicate MustRebuild(items: seq<StatusItem>, noProgress: nat) {
    && DeriveSettlementOutcome(items) != SettlementOutcome.Complete
    && HasRetryable(items)
    && noProgress < MAX_NO_PROGRESS_ROUNDS
  }

  /** What is shown when a round ends without having moved everything: what has moved, or the error. */
  ghost function GivenUp(poll: PollResult, signed: seq<RotationItem>, destination: string, code: string)
    : (state: RotationState)
    requires poll.Settled?
  {
    if poll.confirmedCount > 0
    then RotationState.Partial(destination, EnrichByItemId(poll.items, signed), poll.confirmedCount, poll.total)
    else Error(code)
  }

  /** The terminal state a settled poll calls for: complete; given up when nothing is worth retrying; and when something
      is, only after the rebuild was refused, with the code of the refusal. */
  ghost predicate Concludes(poll: PollResult, signed: seq<RotationItem>, noProgress: nat,
                            offer: Option<Reply<seq<RotationItem>>>, destination: string, state: RotationState)
    requires poll.Settled?
  {
    if MustRebuild(poll.items, noProgress) then
      offer.Some? && offer.value.Failure? && state == GivenUp(poll, signed, destination, offer.value.code)
    else if DeriveSettlementOutcome(poll.items) == SettlementOutcome.Complete then
      state == RotationState.Complete(destination, poll.confirmedCount)
    else
      state == GivenUp(poll, signed, destination, "SERVER_ERROR")
  }

  /** Why the submits of a round stopped: the passkey was dismissed, and then the status was read; the passkey failed;
      or a submit was refused or lost. */
  datatype Stop = PasskeyDismissed(status: Reply<StatusData>) | PasskeyFailed | SubmitFailed

  /** How a poll went: how many questions had been asked before it, how many resets and readings of the clock there had
      been, what its status reads were answered, and its result. */
  datatype PollReport = PollReport(from: nat, resets: nat, started: nat, answers: seq<seq<StatusItem>>, result: PollResult)

  ghost predicate BeganAt(p: PollReport, from: nat, resets: nat, started: nat) {
    p.from == from && p.resets == resets && p.started == started
  }

  /** What one round did: the count shown when it began and the answers the passkey had given by then, the ledger it knew,
      the answer to the refresh if it asked for one, whether the wizard was reset meanwhile, the begin set it signed, the ids
      it submitted, whether all of the set was accepted or why it stopped, how its poll went, and the answer to the rebuild
      if it asked for one. */
  datatype RoundReport = RoundReport(
    shown: nat,
    taken: nat,
    ledger: Option<nat>,
    refresh: Option<Reply<seq<RotationItem>>>,
    wasReset: bool,
    signed: seq<RotationItem>,
    sent: seq<string>,
    completed: bool,
    stop: Option<Stop>,
    poll: Option<PollReport>,
    noProgress: nat,
    offer: Option<Reply<seq<RotationItem>>>,
    end: RoundEnd
  )

  /** A round that has done nothing yet. */
  ghost function FreshReport(shown: nat, taken: nat, ledger: Option<nat>, refresh: Option<Reply<seq<RotationItem>>>,
                             wasReset: bool)
    : (r: RoundReport)
  {
    RoundReport(shown, taken, ledger, refresh, wasReset, [], [], false, None, None, 0, None, Ended)
  }

  predicate SomeExpired(offered: seq<RotationItem>, ledger: nat) {
    exists i :: 0 <= i < |offered| && offered[i].expiresAtLedger <= ledger
  }

  /** What a round has to sign: the begin set it found, or the one it was given in its place. */
  ghost function ToSign(begin: Option<seq<RotationItem>>, refresh: Option<Reply<seq<RotationItem>>>)
    : (items: seq<RotationItem>)
  {
    match refresh
    case Some(Success(data)) => data
    case _ => if begin.Some? then begin.value else []
  }

  /** A round signs what it has to, and ends with nothing to sign only when there is nothing, or the wizard was reset
      before it could; and it asks for another begin set whenever a challenge is known to have expired. */
  ghost predicate SignsOffer(begin: Option<seq<RotationItem>>, r: RoundReport) {
    && (r.signed != [] ==>
          && r.signed == ToSign(begin, r.refresh)
          && (r.ledger.Some? && r.refresh.None? ==> !SomeExpired(r.signed, r.ledger.value)))
    && (r.end == NothingToSign ==> r.wasReset || ToSign(begin, r.refresh) == [])
  }

  /** The confirmed count of a round falls below the one shown before it exactly when its poll read no answer and that
      count was positive; it is then 0. */
  ghost predicate CountFollows(r: RoundReport) {
    r.poll.Some? ==>
      && (r.poll.value.result.confirmedCount < r.shown <==> r.poll.value.answers == [] && r.shown > 0)
      && (r.poll.value.answers == [] ==> r.poll.value.result == Unknown(0, r.shown + |r.signed|))
  }

  /** The count on show when round i of a drive begins. */
  ghost function ShownBefore(reports: seq<RoundReport>, i: nat, initial: nat): (shown: nat)
    requires i <= |reports|
  {
    if i == 0 then initial
    else if reports[i - 1].poll.Some? then reports[i - 1].poll.value.result.confirmedCount
    else reports[i - 1].shown
  }

  /** The rounds without progress when round i begins. */
  ghost function StalledBefore(reports: seq<RoundReport>, i: nat): (n: nat)
    requires i <= |reports|
  {
    if i > 0 && reports[i - 1].poll.Some? then reports[i - 1].noProgress else 0
  }

  /** The begin set that round i finds: the one the drive began with, or the last rebuild. */
  ghost function BeginBefore(reports: seq<RoundReport>, i: nat, begin: Option<seq<RotationItem>>)
    : (found: Option<seq<RotationItem>>)
    requires i <= |reports|
  {
    if i == 0 then begin
    else
      match reports[i - 1].offer
      case Some(Success(data)) => Some(data)
      case _ => None
  }

  /** Round i goes on from the one before: with its count, its rounds without progress and its begin set. */
  ghost predicate GoesOn(reports: seq<RoundReport>, i: nat, initial: nat, begin: Option<seq<RotationItem>>)
    requires i < |reports|
  {
    var r := reports[i];
    && r.shown == ShownBefore(reports, i, initial) && CountFollows(r)
    && (r.poll.Some? ==>
          r.noProgress == if r.poll.value.result.confirmedCount > r.shown then 0 else StalledBefore(reports, i) + 1)
    && SignsOffer(BeginBefore(reports, i, begin), r)
    && (r.end == NextRound ==> Rebuilt(r))
  }

  ghost predicate Chained(reports: seq<RoundReport>, initial: nat, begin: Option<seq<RotationItem>>) {
    forall i :: 0 <= i < |reports| ==> GoesOn(reports, i, initial, begin)
  }

  lemma {:induction false} ChainGrows(reports: seq<RoundReport>, initial: nat, begin: Option<seq<RotationItem>>, r: RoundReport)
    requires Chained(reports, initial, begin) && GoesOn(reports + [r], |reports|, initial, begin)
    ensures Chained(reports + [r], initial, begin)
  {
    forall i | 0 <= i < |reports| + 1 ensures GoesOn(reports + [r], i, initial, begin) {
      assert i < |reports| ==> GoesOn(reports, i, initial, begin);
    }
  }

  /** The grand total that the last settled poll reported. */
  ghost function TotalAfter(reports: seq<RoundReport>, initial: nat): (total: nat) {
    if reports == [] then initial
    else
      var last := reports[|reports| - 1];
      if last.poll.Some? then last.poll.value.result.total else TotalAfter(reports[..|reports| - 1], initial)
  }

  /** What a dismissed passkey shows, given the answer to the status read that follows it. */
  ghost function AfterDismissal(offered: seq<RotationItem>, destination: string, status: Reply<StatusData>, shown: nat)
    : (state: RotationState)
  {
    match status
    case Success(data) => CancelledState(offered, destination, CountConfirmed(data.items), |data.items|)
    case Failure(_) => CancelledState(offered, destination, shown, shown + |offered|)
  }

  ghost predicate StopShown(stop: Stop, signed: seq<RotationItem>, shown: nat, destination: string, state: RotationState) {
    match stop
    case PasskeyDismissed(status) => state == AfterDismissal(signed, destination, status, shown)
    case PasskeyFailed => state == SettlementUnknown(destination, shown, shown + |signed|)
    case SubmitFailed => state == SettlementUnknown(destination, shown, shown + |signed|)
  }

  /** The poll of this round left something worth retrying. */
  ghost predicate CallsForRebuild(r: RoundReport) {
    r.poll.Some? && r.poll.value.result.Settled? && MustRebuild(r.poll.value.result.items, r.noProgress)
  }

  /** This round goes on to another: it asked for an offer, because it had to, and got one. */
  ghost predicate Rebuilt(r: RoundReport) {
    r.completed && CallsForRebuild(r) && r.offer.Some? && r.offer.value.Success?
  }

  /** The end of a round follows from what it did. One that must rebuild asks for an offer, and goes on unless it is
      refused. */
  ghost predicate Explains(r: RoundReport, destination: string, cancelled: bool, state: RotationState) {
    && (r.offer.Some? ==> CallsForRebuild(r))
    && (!cancelled && CallsForRebuild(r) ==> r.offer.Some?)
    && match r.end
       case NothingToSign => r.signed == [] && !r.completed && r.poll.None?
       case NextRound => Rebuilt(r)
       case Ended =>
         || cancelled
         || (!r.completed && r.signed != [] && r.stop.Some? && StopShown(r.stop.value, r.signed, r.shown, destination, state))
         || (&& r.completed && r.signed != [] && r.poll.Some?
             && match r.poll.value.result
                case Unknown(c, t) => state == SettlementUnknown(destination, c, t)
                case Settled(_, _, _) => Concludes(r.poll.value.result, r.signed, r.noProgress, r.offer, destination, state))
  }

  /** A round submits a prefix of its begin set, once and in order, and all of it when it is completed. */
  ghost predicate SendsItsSet(r: RoundReport) {
    r.sent <= Ids(r.signed) && (r.completed ==> r.sent == Ids(r.signed))
  }

  /** What the rounds submitted, one after the other. */
  ghost function SentBy(reports: seq<RoundReport>): (ids: seq<string>) {
    if reports == [] then [] else SentBy(reports[..|reports| - 1]) + reports[|reports| - 1].sent
  }

  lemma {:induction false} SentIdsJoin(first: seq<Submission>, second: seq<Submission>)
    ensures SentIds(first + second) == SentIds(first) + SentIds(second)
  {
    if second == [] {
      assert first + second == first;
    } else {
      var front := second[..|second| - 1];
      SentIdsJoin(first, front);
      assert (first + second)[..|first + second| - 1] == first + front;
    }
  }

  /** What a drive has sent is what its rounds report. */
  lemma {:induction false} ReportsGrow(reports: seq<RoundReport>, r: RoundReport, first: seq<Submission>,
                                       second: seq<Submission>)
    requires SentBy(reports) == SentIds(first) && r.sent == SentIds(second)
    ensures SentBy(reports + [r]) == SentIds(first + second)
  {
    SentIdsJoin(first, second);
    assert (reports + [r])[..|reports|] == reports;
  }

  // The rounds so far, the last of which ended with `end`.
  ghost predicate RoundsSoFar(reports: seq<RoundReport>, end: RoundEnd) {
    && |reports| <= MAX_ROUNDS
    && (forall i :: 0 <= i < |reports| - 1 ==> reports[i].end == NextRound)
    && (if reports == [] then end == NextRound else reports[|reports| - 1].end == end)
  }

  /** The history of a drive: a safe stretch in which every round sent its begin set, or a prefix of it, once and in
      order, and nothing else was sent. */
  ghost predicate DriveHistory(subs: seq<Submission>, reports: seq<RoundReport>, ready: bool, end: RoundEnd,
                               cancelled: bool, state: RotationState)
  {
    && SafeStretch(subs, ready, cancelled, state)
    && RoundsSoFar(reports, end)
    && (forall i :: 0 <= i < |reports| ==> SendsItsSet(reports[i]))
    && SentBy(reports) == SentIds(subs)
    && (end != Ended ==> AllAccepted(subs))
  }

  lemma {:induction false} HistoryGrows(subs: seq<Submission>, reports: seq<RoundReport>, ready: bool, r: RoundReport,
                                        second: seq<Submission>, ready': bool, cancelled: bool, state: RotationState,
                                        cancelled': bool, state': RotationState)
    requires DriveHistory(subs, reports, ready, NextRound, cancelled, state) && |reports| < MAX_ROUNDS
    requires SafeStretch(second, ready', cancelled', state') && (ready ==> ready')
    requires SendsItsSet(r) && r.sent == SentIds(second)
    requires r.end != Ended ==> AllAccepted(second)
    ensures DriveHistory(subs + second, reports + [r], ready, r.end, cancelled', state')
  {
    StretchesJoin(subs, second, ready, ready', cancelled', state');
    ReportsGrow(reports, r, subs, second);
  }

  /** A drive runs round after round, each because the one before had to rebuild, up to the round limit. */
  ghost predicate RunsInRounds(reports: seq<RoundReport>) {
    && 0 < |reports| <= MAX_ROUNDS
    && (forall i :: 0 <= i < |reports| - 1 ==> reports[i].end == NextRound)
    && (reports[|reports| - 1].end == NextRound ==> |reports| == MAX_ROUNDS)
  }

  /** What a drive publishes at its end is what its last round calls for, or an unknown outcome once there is nothing
      left to sign or no round left. */
  ghost predicate DriveTold(reports: seq<RoundReport>, initial: nat, destination: string, cancelled: bool,
                            state: RotationState)
  {
    && RunsInRounds(reports)
    && var last := reports[|reports| - 1];
       if last.end == Ended then Explains(last, destination, cancelled, state)
       else state == SettlementUnknown(destination, ShownBefore(reports, |reports|, initial), TotalAfter(reports, initial))
  }

  // ---- The liveness rule of pollToRest ----

  datatype Progress = Progress(lastConfirmed: int, stalled: nat)

  const NO_PROGRESS_YET := Progress(-1, 0)

  function Observe(p: Progress, confirmed: nat): (next: Progress) {
    if confirmed > p.lastConfirmed then Progress(confirmed, 0) else p.(stalled := p.stalled + 1)
  }

  ghost predicate Live(p: Progress, n: nat) {
    p == NO_PROGRESS_YET || (0 <= p.lastConfirmed < n && p.stalled < STALL_THRESHOLD)
  }

  /** How many more status reads the stall rule can allow for at most n items. */
  ghost function ReadBudget(p: Progress, n: nat): int {
    if p == NO_PROGRESS_YET then 6 * n + 1 else 6 * (n - p.lastConfirmed) - p.stalled
  }

  /** An undecided answer leaves room for one more confirmation, so observing it always spends budget,
      whether or not the count rose. */
  lemma {:induction false} UndecidedSpendsBudget(p: Progress, confirmed: nat, n: nat)
    requires confirmed < n && Live(p, n)
    ensures var next := Observe(p, confirmed);
            && 0 <= ReadBudget(next, n) < ReadBudget(p, n)
            && (next.stalled < STALL_THRESHOLD ==> Live(next, n))
  {
  }

  lemma {:induction false} UndecidedLeavesRoom(items: seq<StatusItem>, n: nat)
    requires 1 <= n && |items| <= n
    requires DeriveSettlementOutcome(items) == Inflight
    ensures CountConfirmed(items) < n
  {
    CountExtremes(items);
  }

  /** Status reads made from answer k on, whatever the answers say, even with falling confirmed counts and
      with the wall-clock ceiling never reached. */
  function ReadsToRest(answers: nat -> Reply<seq<StatusItem>>, n: nat, k: nat, p: Progress): (readCount: nat)
    requires 1 <= n && forall j :: answers(j).Success? ==> |answers(j).value| <= n
    requires Live(p, n)
    ensures readCount <= ReadBudget(p, n)
    decreases ReadBudget(p, n)
  {
    match answers(k)
    case Failure(_) => 1
    case Success(items) =>
      if DeriveSettlementOutcome(items) != Inflight then 1
      else
        UndecidedLeavesRoom(items, n);
        UndecidedSpendsBudget(p, CountConfirmed(items), n);
        var next := Observe(p, CountConfirmed(items));
        if next.stalled >= STALL_THRESHOLD then 1 else 1 + ReadsToRest(answers, n, k + 1, next)
  }

  /** What the driver makes of one status answer, or of none. */
  ghost function TurnFor(answer: Option<seq<StatusItem>>): (turn: PollTurn) {
    match answer
    case None => Halt
    case Some(items) =>
      if DeriveSettlementOutcome(items) != Inflight then Rest(items) else StillMoving(CountConfirmed(items), |items|)
  }

  ghost function ProgressAfter(answers: seq<seq<StatusItem>>): (p: Progress) {
    if answers == [] then NO_PROGRESS_YET
    else Observe(ProgressAfter(answers[..|answers| - 1]), CountConfirmed(answers[|answers| - 1]))
  }

  /** None of these answers ends the polling: each leaves an item undecided, and none exhausts the stall rule. */
  ghost predicate KeepsGoing(answers: seq<seq<StatusItem>>) {
    answers == [] ||
    (&& KeepsGoing(answers[..|answers| - 1])
     && DeriveSettlementOutcome(answers[|answers| - 1]) == Inflight
     && ProgressAfter(answers).stalled < STALL_THRESHOLD)
  }

  /** A poll reads on while answers keep it going, and is settled exactly when the last answer is. */
  ghost predicate PollFollows(answers: seq<seq<StatusItem>>, result: PollResult) {
    && (answers != [] ==> KeepsGoing(answers[..|answers| - 1]))
    && (result.Settled? <==> answers != [] && DeriveSettlementOutcome(answers[|answers| - 1]) != Inflight)
    && (answers != [] ==> result.confirmedCount == CountConfirmed(answers[|answers| - 1]))
    && (result.Settled? ==> result.items == answers[|answers| - 1])
  }

  /** This question was a status read, answered with these items. */
  ghost predicate ReadAnswers(q: Asked, items: seq<StatusItem>) {
    q.StatusAsked? && q.status.Success? && q.status.value.items == items
  }

  /** By the last reading of the clock the ceiling of a poll begun at `startedAt` has passed. */
  ghost predicate TimeIsUp(readings: seq<int>, startedAt: int) {
    readings != [] && readings[|readings| - 1] - startedAt >= POLL_CEILING_MS
  }

  /** The clock was asked once more, and the ceiling of a poll begun at `startedAt` had not passed. */
  ghost predicate AskedInTime(before: seq<int>, readings: seq<int>, startedAt: int) {
    |readings| == |before| + 1 && readings[|before|] - startedAt < POLL_CEILING_MS
  }

  /** Of a poll that began with reading `started` of the clock: before each further read the clock was asked, and the
      ceiling had not passed. */
  ghost predicate WithinCeiling(readings: seq<int>, started: nat, readCount: nat, polling: bool) {
    && readCount <= |readings| - started && (polling ==> readCount == |readings| - started - 1)
    && forall k :: started <= k < |readings| - (if polling then 0 else 1) ==>
         readings[k] - readings[started] < POLL_CEILING_MS
  }

  lemma {:induction false} CeilingKept(before: seq<int>, readings: seq<int>, started: nat, readCount: nat, asked: bool,
                                       polling: bool)
    requires started < |before| && WithinCeiling(before, started, readCount, true)
    requires before <= readings && |readings| <= |before| + 1
    requires polling ==> asked && AskedInTime(before, readings, before[started])
    ensures WithinCeiling(readings, started, if asked then readCount + 1 else readCount, polling)
  {
    forall k | started <= k < |readings| - (if polling then 0 else 1)
      ensures readings[k] - readings[started] < POLL_CEILING_MS
    {
      assert k < |before| ==> readings[k] == before[k];
    }
  }

  /** What a poll reports is what it met, given all questions asked by now, whether it was aborted and the readings of the
      clock: its answers are those of the status reads since it began, and it gave up without a final one only for a
      reason. */
  ghost predicate PollMetBy(p: PollReport, asked: seq<Asked>, aborted: bool, readings: seq<int>) {
    && p.from + |p.answers| <= |asked| && p.started < |readings|
    && (forall i :: 0 <= i < |p.answers| ==> ReadAnswers(asked[p.from + i], p.answers[i]))
    && PollFollows(p.answers, p.result)
    && (p.result.Unknown? ==>
          || aborted || TimeIsUp(readings, readings[p.started]) || ProgressAfter(p.answers).stalled >= STALL_THRESHOLD
          || (&& p.from < |asked| && asked[|asked| - 1].StatusAsked? && asked[|asked| - 1].status.Failure?))
  }

  lemma {:induction false} PollStaysMet(p: PollReport, asked: seq<Asked>, aborted: bool, readings: seq<int>,
                                        asked': seq<Asked>, aborted': bool)
    requires PollMetBy(p, asked, aborted, readings) && asked <= asked'
    requires p.result.Unknown? ==> asked' == asked && (aborted ==> aborted')
    ensures PollMetBy(p, asked', aborted', readings)
  {
    forall i | 0 <= i < |p.answers| ensures ReadAnswers(asked'[p.from + i], p.answers[i]) {
      assert ReadAnswers(asked[p.from + i], p.answers[i]);
    }
  }

  /** Without an answer a poll falls back to a count of 0; with one it never shows less than was shown before. */
  ghost predicate CountKept(answers: seq<seq<StatusItem>>, result: PollResult, shown: nat, fallbackTotal: nat) {
    && (answers == [] ==> result == Unknown(0, fallbackTotal))
    && (answers != [] ==> shown <= result.confirmedCount)
  }

  lemma {:induction false} AnotherAnswer(answers: seq<seq<StatusItem>>, items: seq<StatusItem>)
    requires KeepsGoing(answers) && DeriveSettlementOutcome(items) == Inflight
    ensures ProgressAfter(answers + [items]) == Observe(ProgressAfter(answers), CountConfirmed(items))
    ensures KeepsGoing(answers + [items]) <==> ProgressAfter(answers + [items]).stalled < STALL_THRESHOLD
  {
    assert (answers + [items])[..|answers|] == answers;
  }

  // Where a poll stands after some reads: what it would return, and whether it goes on.
  ghost predicate PollSoFar(answers: seq<seq<StatusItem>>, readCount: nat, p: Progress, n: nat, result: PollResult,
                            polling: bool)
  {
    && PollFollows(answers, result)
    && |answers| <= readCount <= |answers| + (if polling then 0 else 1)
    && (polling ==> Live(p, n) && result.Unknown? && KeepsGoing(answers) && p == ProgressAfter(answers))
    && 0 <= ReadBudget(p, n) && readCount + (if polling then ReadBudget(p, n) else 0) <= 6 * n + 1
  }

  function ResultOf(turn: PollTurn, known: PollResult, fallbackTotal: nat): (result: PollResult) {
    match turn
    case Halt => known
    case Rest(items) => Settled(items, CountConfirmed(items), |items|)
    case StillMoving(confirmed, answered) => Unknown(confirmed, if answered == 0 then fallbackTotal else answered)
  }

  /** One more turn, after which the poll goes on only if the answer keeps it going. */
  lemma {:induction false} PollStep(answers: seq<seq<StatusItem>>, readCount: nat, p: Progress, n: nat, known: PollResult,
                                    fallbackTotal: nat, answer: Option<seq<StatusItem>>, asked: bool, going: bool)
    requires PollSoFar(answers, readCount, p, n, known, true)
    requires answer.Some? ==> asked
    requires TurnFor(answer).StillMoving? ==> TurnFor(answer).confirmed < n
    requires going ==> TurnFor(answer).StillMoving? && Observe(p, TurnFor(answer).confirmed).stalled < STALL_THRESHOLD
    ensures var turn := TurnFor(answer);
            var p' := if turn.StillMoving? then Observe(p, turn.confirmed) else p;
            && PollSoFar(WithAnswer(answers, answer), if asked then readCount + 1 else readCount, p', n,
                         ResultOf(turn, known, fallbackTotal), going)
            && (going ==> ReadBudget(p', n) < ReadBudget(p, n))
  {
    if answer.Some? {
      assert (answers + [answer.value])[..|answers|] == answers;
    }
    if TurnFor(answer).StillMoving? {
      AnotherAnswer(answers, answer.value);
      UndecidedSpendsBudget(p, TurnFor(answer).confirmed, n);
    }
  }

  ghost function WithAnswer(answers: seq<seq<StatusItem>>, answer: Option<seq<StatusItem>>): seq<seq<StatusItem>> {
    if answer.Some? then answers + [answer.value] else answers
  }

  lemma {:induction false} CountStaysKept(answers: seq<seq<StatusItem>>, known: PollResult, shown: nat, fallbackTotal: nat,
                                          answer: Option<seq<StatusItem>>)
    requires CountKept(answers, known, shown, fallbackTotal)
    requires answer.Some? ==> shown <= CountConfirmed(answer.value)
    ensures CountKept(WithAnswer(answers, answer), ResultOf(TurnFor(answer), known, fallbackTotal), shown, fallbackTotal)
  {
  }

  /** The count on show can fall: with four of nine items confirmed the first status read of the next poll fails, and
      "0 of 9" is published. It is true, it is what the report calls for, and it is less than was shown. */
  lemma {:induction false} CountCanRestart()
    returns (items: seq<StatusItem>, shown: RotationState, poll: PollResult, report: RoundReport,
             published: RotationState)
    ensures |items| == 9 && shown == Transferring(Submitting, "w2", 4, 9) && Truthful(shown, items)
    ensures PollSoFar([], 0, NO_PROGRESS_YET, 9, Unknown(0, 9), true)
    ensures poll == ResultOf(TurnFor(None), Unknown(0, 9), 9) && PollSoFar([], 1, NO_PROGRESS_YET, 9, poll, false)
    ensures report.poll == Some(PollReport(0, 0, 0, [], poll)) && report.shown == 4 && CountFollows(report)
    ensures Explains(report, "w2", false, published)
    ensures published == SettlementUnknown("w2", 0, 9) && Truthful(published, items)
  {
    items := Statuses(9, 4, Confirmed, Submitted);
    CountExtremes(items[..4]);
    assert forall i :: 0 <= i < 4 ==> items[..4][i].status == Confirmed;
    CountOfPrefix(items, 4);
    shown := Transferring(Submitting, "w2", 4, 9);
    poll := ResultOf(TurnFor(None), Unknown(0, 9), 9);
    var signed := Items(4, 9);
    report := RoundReport(4, 0, None, None, false, signed, Ids(signed), true, None, Some(PollReport(0, 0, 0, [], poll)), 1,
                          None, Ended);
    published := SettlementUnknown("w2", 0, 9);
    PollStep([], 0, NO_PROGRESS_YET, 9, Unknown(0, 9), 9, None, true, false);
  }

  /** What a resume met: the answer to its status read, the answer to its initiate if it made one, the rounds of its drive,
      and whether nothing was in flight by the time of the answer. */
  datatype Resumed = Resumed(
    status: Reply<StatusData>,
    offer: Option<Reply<seq<RotationItem>>>,
    reports: seq<RoundReport>,
    quiet: bool
  )

  // ---- The hook ----

  class RotationHook {
    var state: RotationState
    var busy: bool
    var cancelled: bool
    var pollAborted: bool
    var begin: Option<seq<RotationItem>>
    const server: Server
    const passkey: Passkey
    const clock: Clock
    ghost var resets: nat      // how often the user has reset the wizard

    ghost predicate Valid()
      reads this`state, server`items
    {
      Truthful(state, server.items)
    }

    constructor (server: Server, passkey: Passkey, clock: Clock, hasActiveRotation: bool)
      ensures Valid() && this.server == server && this.passkey == passkey && this.clock == clock
      ensures !busy && !cancelled && begin == None
      ensures state == if hasActiveRotation then Loading else SelectingDestination
    {
      this.server, this.passkey, this.clock := server, passkey, clock;
      state := if hasActiveRotation then Loading else SelectingDestination;
      busy, cancelled, pollAborted, begin, resets := false, false, false, None, 0;
    }

    /** A poll that was not aborted before is aborted only by a reset or an unmount. */
    ghost predicate OnlyInterrupted(resetsThen: nat, abortedThen: bool)
      reads this`resets, this`pollAborted, this`cancelled
    {
      && resetsThen <= resets && (abortedThen ==> pollAborted)
      && (pollAborted && !abortedThen ==> cancelled || resets > resetsThen)
    }

    /** Everything that may happen while the hook awaits: items move on chain, the user resets the wizard,
        the component unmounts. */
    method Await()
      requires Valid()
      modifies this, server`items
      ensures Valid()
      ensures Advances(old(server.items), server.items, [])
      ensures OnlySettles(old(server.items), server.items)
      ensures state == old(state) || state == SelectingDestination
      ensures begin == old(begin) || begin == None
      ensures old(cancelled) ==> cancelled
      ensures OnlyInterrupted(old(resets), old(pollAborted))
      ensures resets == old(resets) ==> state == old(state) && begin == old(begin)
    {
      server.Settle();
      TruthPersists(state, old(server.items), server.items);
      if * {
        Reset();
      }
      if * {
        cancelled, pollAborted := true, true;
      }
    }

    method Reset()
      modifies this
      ensures Valid()
      ensures state == SelectingDestination && begin == None && !busy && pollAborted
      ensures cancelled == old(cancelled) && resets == old(resets) + 1
    {
      busy := false;
      pollAborted := true;
      begin := None;
      state := SelectingDestination;
      resets := resets + 1;
    }

    method RotateStatus() returns (reply: Reply<StatusData>)
      requires Valid()
      modifies this, server`items, server`asked
      ensures Valid()
      ensures server.asked == old(server.asked) + [StatusAsked(reply)]
      ensures Advances(old(server.items), server.items, [])
      ensures OnlySettles(old(server.items), server.items)
      ensures reply.Success? ==>
                && |reply.value.items| == |server.items|
                && CountConfirmed(old(server.items)) <= CountConfirmed(reply.value.items) <= CountConfirmed(server.items)
                && (DeriveSettlementOutcome(reply.value.items) != Inflight ==> AtRest(reply.value.items, server.items))
      ensures state == old(state) || state == SelectingDestination
      ensures old(cancelled) ==> cancelled
      ensures OnlyInterrupted(old(resets), old(pollAborted)) && (resets == old(resets) ==> state == old(state))
    {
      ghost var start := server.items;
      reply := server.Status();
      TruthPersists(state, start, server.items);
      ghost var answered := server.items;
      Await();
      TruthPersists(state, answered, server.items);
      if reply.Success? {
        RestIsFinal(reply.value.items, server.items);
      }
    }

    method RotateInitiate() returns (reply: Reply<seq<RotationItem>>)
      requires Valid()
      modifies this, server`items, server`asked
      ensures Valid()
      ensures server.asked == old(server.asked) + [InitiateAsked(reply)]
      ensures Advances(old(server.items), server.items, [])
      ensures OnlySettles(old(server.items), server.items)
      ensures reply.Success? && NoneInFlight(old(server.items)) ==> Unsent(Ids(reply.value), server.items)
      ensures state == old(state) || state == SelectingDestination
      ensures begin == old(begin) || begin == None
      ensures old(cancelled) ==> cancelled
      ensures old(resets) <= resets && (resets == old(resets) ==> begin == old(begin))
    {
      ghost var start := server.items;
      reply := server.Initiate();
      TruthPersists(state, start, server.items);
      ghost var answered := server.items;
      Await();
    }

    // Shows the progress an answer reports and says whether the answer is final.
    method Publish(answer: seq<StatusItem>, destination: string, fallbackTotal: nat) returns (turn: PollTurn)
      requires |answer| == |server.items| && CountConfirmed(answer) <= CountConfirmed(server.items)
      modifies this`state
      ensures Valid()
      ensures state == Transferring(Polling, destination, CountConfirmed(answer),
                                    if |answer| == 0 then fallbackTotal else |answer|)
      ensures turn == if DeriveSettlementOutcome(answer) != Inflight then Rest(answer)
                      else StillMoving(CountConfirmed(answer), |answer|)
      ensures turn.StillMoving? && |answer| > 0 ==> turn.confirmed < turn.answered
    {
      var known := if begin.Some? then begin.value else [];
      var items := EnrichByItemId(answer, known);
      EnrichKeepsVerdict(answer, known);
      state := Transferring(Polling, destination, CountConfirmed(items),
                            if |items| == 0 then fallbackTotal else |items|);
      if DeriveSettlementOutcome(items) != Inflight {
        return Rest(answer);
      }
      if |items| > 0 {
        UndecidedLeavesRoom(items, |items|);
      }
      return StillMoving(CountConfirmed(items), |items|);
    }

    ghost predicate LastAsked(q: Asked)
      reads server`asked
    {
      server.asked != [] && server.asked[|server.asked| - 1] == q
    }

    /** The last question of the poll that began when `asked` had been asked is a status read that failed. */
    ghost predicate ReadFailed(asked: seq<Asked>)
      reads server`asked
    {
      |asked| < |server.asked| && server.asked[|server.asked| - 1].StatusAsked?
      && server.asked[|server.asked| - 1].status.Failure?
    }

    // One turn of the poll loop, up to the published progress. It reads unless the poll was aborted.
    method PollOnce(destination: string, fallbackTotal: nat)
      returns (turn: PollTurn, ghost asked: bool, ghost answer: Option<seq<StatusItem>>)
      requires Valid()
      modifies this, server`items, server`asked
      ensures Valid()
      ensures OnlySettles(old(server.items), server.items)
      ensures state == old(state) || state == SelectingDestination || state.Transferring?
      ensures old(cancelled) ==> cancelled
      ensures OnlyInterrupted(old(resets), old(pollAborted))
      ensures turn == TurnFor(answer)
      ensures old(server.asked) <= server.asked
      ensures |server.asked| == |old(server.asked)| + if asked then 1 else 0
      ensures turn.Halt? ==> pollAborted || cancelled || ReadFailed(old(server.asked))
      ensures answer.Some? ==> asked && ReadAnswers(server.asked[|old(server.asked)|], answer.value)
      ensures answer.Some? ==> CountConfirmed(old(server.items)) <= CountConfirmed(answer.value)
      ensures !turn.Halt? ==>
                && state == Transferring(Polling, destination, CountConfirmed(answer.value),
                                         if |answer.value| == 0 then fallbackTotal else |answer.value|)
                && PollIsHonest(ResultOf(turn, Unknown(0, fallbackTotal), fallbackTotal), server.items)
      ensures turn.StillMoving? ==> turn.confirmed < if |server.items| == 0 then 1 else |server.items|
    {
      turn, asked, answer := Halt, false, None;
      if !pollAborted && !cancelled {
        Await();  // parked until the tab is visible
        if !pollAborted && !cancelled {
          asked := true;
          turn, answer := ReadOnce(destination, fallbackTotal);
        }
      }
    }

    // One status read and what it publishes; an answer to an aborted poll is discarded.
    method ReadOnce(destination: string, fallbackTotal: nat) returns (turn: PollTurn, ghost answer: Option<seq<StatusItem>>)
      requires Valid()
      modifies this, server`items, server`asked
      ensures Valid()
      ensures OnlySettles(old(server.items), server.items)
      ensures state == old(state) || state == SelectingDestination || state.Transferring?
      ensures old(cancelled) ==> cancelled
      ensures OnlyInterrupted(old(resets), old(pollAborted))
      ensures turn == TurnFor(answer)
      ensures old(server.asked) <= server.asked && |server.asked| == |old(server.asked)| + 1
      ensures turn.Halt? ==> pollAborted || cancelled || ReadFailed(old(server.asked))
      ensures answer.Some? ==> ReadAnswers(server.asked[|old(server.asked)|], answer.value)
      ensures answer.Some? ==> CountConfirmed(old(server.items)) <= CountConfirmed(answer.value)
      ensures !turn.Halt? ==>
                && state == Transferring(Polling, destination, CountConfirmed(answer.value),
                                         if |answer.value| == 0 then fallbackTotal else |answer.value|)
                && PollIsHonest(ResultOf(turn, Unknown(0, fallbackTotal), fallbackTotal), server.items)
      ensures turn.StillMoving? ==> turn.confirmed < if |server.items| == 0 then 1 else |server.items|
    {
      turn, answer := Halt, None;
      var status := RotateStatus();
      if !pollAborted && !cancelled && status.Success? {
        turn := Publish(status.value.items, destination, fallbackTotal);
        answer := Some(status.value.items);
      }
    }

    // One pass through the poll loop: read, apply the stall rule and the ceiling, wait.
    method PollPass(destination: string, fallbackTotal: nat, p: Progress, startedAt: int)
      returns (polling: bool, turn: PollTurn, ghost asked: bool, ghost answer: Option<seq<StatusItem>>)
      requires Valid()
      modifies this, server`items, server`asked, clock
      ensures Valid()
      ensures OnlySettles(old(server.items), server.items)
      ensures state == old(state) || state == SelectingDestination || state.Transferring?
      ensures old(cancelled) ==> cancelled
      ensures OnlyInterrupted(old(resets), old(pollAborted)) && old(clock.readings) <= clock.readings
      ensures |clock.readings| <= |old(clock.readings)| + 1
      ensures turn == TurnFor(answer) && (answer.Some? ==> asked)
      ensures answer.Some? ==> CountConfirmed(old(server.items)) <= CountConfirmed(answer.value)
      ensures !turn.Halt? ==> PollIsHonest(ResultOf(turn, Unknown(0, fallbackTotal), fallbackTotal), server.items)
      ensures turn.StillMoving? ==> turn.confirmed < if |server.items| == 0 then 1 else |server.items|
      ensures polling ==>
                && turn.StillMoving? && Observe(p, turn.confirmed).stalled < STALL_THRESHOLD
                && AskedInTime(old(clock.readings), clock.readings, startedAt)
      ensures old(server.asked) <= server.asked
      ensures |server.asked| == |old(server.asked)| + if asked then 1 else 0
      ensures answer.Some? ==> ReadAnswers(server.asked[|old(server.asked)|], answer.value)
      ensures turn.Halt? ==> pollAborted || cancelled || ReadFailed(old(server.asked))
      ensures turn.StillMoving? && !polling ==>
                || pollAborted || Observe(p, turn.confirmed).stalled >= STALL_THRESHOLD
                || TimeIsUp(clock.readings, startedAt)
    {
      turn, asked, answer := PollOnce(destination, fallbackTotal);
      polling := false;
      if turn.StillMoving? {
        polling := AwaitInterval(Observe(p, turn.confirmed).stalled, startedAt,
                                 ResultOf(turn, Unknown(0, fallbackTotal), fallbackTotal));
      }
    }

    // Waits for the poll interval, unless the stall rule or the ceiling ends the poll.
    method AwaitInterval(stalled: nat, startedAt: int, ghost known: PollResult) returns (polling: bool)
      requires Valid() && PollIsHonest(known, server.items)
      modifies this, server`items, clock
      ensures Valid() && PollIsHonest(known, server.items)
      ensures OnlySettles(old(server.items), server.items)
      ensures state == old(state) || state == SelectingDestination
      ensures old(cancelled) ==> cancelled
      ensures OnlyInterrupted(old(resets), old(pollAborted)) && old(clock.readings) <= clock.readings
      ensures |clock.readings| <= |old(clock.readings)| + 1
      ensures polling ==> stalled < STALL_THRESHOLD && AskedInTime(old(clock.readings), clock.readings, startedAt)
      ensures !polling ==>
                || pollAborted || stalled >= STALL_THRESHOLD
                || TimeIsUp(clock.readings, startedAt)
    {
      polling := stalled < STALL_THRESHOLD;
      if polling {
        var now := clock.Now();
        polling := now - startedAt < POLL_CEILING_MS;
      }
      if polling {
        ghost var start := server.items;
        Await();
        HonestyPersists(known, start, server.items);
        polling := !pollAborted;
      }
    }

    // The same pass, and what is known after it.
    method PollFurther(destination: string, fallbackTotal: nat, p: Progress, startedAt: int,
                       known: PollResult, ghost n: nat, ghost answers: seq<seq<StatusItem>>, ghost readCount: nat,
                       ghost shown: nat, ghost log: seq<Asked>, ghost resetsThen: nat)
      returns (polling: bool, p': Progress, result: PollResult, ghost answers': seq<seq<StatusItem>>,
               ghost readCount': nat)
      requires Valid() && PollIsHonest(known, server.items)
      requires n == (if |server.items| == 0 then 1 else |server.items|)
      requires PollSoFar(answers, readCount, p, n, known, true)
      requires shown <= CountConfirmed(server.items) && CountKept(answers, known, shown, fallbackTotal)
      requires ReadsSince(log, answers, readCount) && OnlyInterrupted(resetsThen, false)
      modifies this, server`items, server`asked, clock
      ensures Valid() && PollIsHonest(result, server.items)
      ensures OnlySettles(old(server.items), server.items)
      ensures state == old(state) || state == SelectingDestination || state.Transferring?
      ensures old(cancelled) ==> cancelled
      ensures OnlyInterrupted(resetsThen, false) && old(clock.readings) <= clock.readings
      ensures PollSoFar(answers', readCount', p', n, result, polling)
      ensures CountKept(answers', result, shown, fallbackTotal)
      ensures polling ==> ReadBudget(p', n) < ReadBudget(p, n)
      ensures ReadsSince(log, answers', readCount')
      ensures polling || result.Settled? || GaveUp(log, answers', resetsThen, startedAt)
      ensures |clock.readings| <= |old(clock.readings)| + 1
      ensures readCount <= readCount' <= readCount + 1
      ensures polling ==> readCount' == readCount + 1 && AskedInTime(old(clock.readings), clock.readings, startedAt)
    {
      ghost var start, soFar := server.items, server.asked;
      var turn: PollTurn;
      ghost var asked: bool, answer: Option<seq<StatusItem>>;
      polling, turn, asked, answer := PollPass(destination, fallbackTotal, p, startedAt);
      p' := if turn.StillMoving? then Observe(p, turn.confirmed) else p;
      result := ResultOf(turn, known, fallbackTotal);
      answers' := WithAnswer(answers, answer);
      readCount' := if asked then readCount + 1 else readCount;
      assert ReadsSince(log, answers', readCount') by {
        ReadsGrow(log, soFar, answers, readCount, asked, answer);
      }
      assert PollIsHonest(result, server.items) by {
        HonestyPersists(known, start, server.items);
      }
      PollStep(answers, readCount, p, n, known, fallbackTotal, answer, asked, polling);
      CountStaysKept(answers, known, shown, fallbackTotal, answer);
    }

    /** What a poll that began when `log` had been asked has asked since: status reads, of which those answered gave
        `answers`, in order; at most the last one was not answered, or its answer was discarded. */
    ghost predicate ReadsSince(log: seq<Asked>, answers: seq<seq<StatusItem>>, readCount: nat)
      reads server`asked
    {
      && |answers| <= readCount && |server.asked| == |log| + readCount && server.asked[..|log|] == log
      && forall i :: 0 <= i < |answers| ==> ReadAnswers(server.asked[|log| + i], answers[i])
    }

    lemma {:induction false} ReadsGrow(log: seq<Asked>, before: seq<Asked>, answers: seq<seq<StatusItem>>, readCount: nat,
                                       asked: bool, answer: Option<seq<StatusItem>>)
      requires |answers| == readCount && |before| == |log| + readCount && before[..|log|] == log
      requires forall i :: 0 <= i < |answers| ==> ReadAnswers(before[|log| + i], answers[i])
      requires |server.asked| == |before| + (if asked then 1 else 0) && server.asked[..|before|] == before
      requires answer.Some? ==> asked && ReadAnswers(server.asked[|before|], answer.value)
      ensures ReadsSince(log, WithAnswer(answers, answer), if asked then readCount + 1 else readCount)
    {
      assert server.asked[..|log|] == before[..|log|];
      forall i | 0 <= i < |answers| ensures ReadAnswers(server.asked[|log| + i], answers[i]) {
        assert ReadAnswers(before[|log| + i], answers[i]);
      }
    }

    /** Why a poll ends without a final answer: a reset or an unmount since it began, a read that failed, a stall or the
        wall-clock ceiling. */
    ghost predicate GaveUp(log: seq<Asked>, answers: seq<seq<StatusItem>>, resetsThen: nat, startedAt: int)
      reads this`resets, this`cancelled, server`asked, clock
    {
      || cancelled || resets > resetsThen || TimeIsUp(clock.readings, startedAt)
      || ReadFailed(log) || ProgressAfter(answers).stalled >= STALL_THRESHOLD
    }

    /** Polls until an answer is settled, a stall, the ceiling or an abort. */
    method PollToRest(destination: string, fallbackTotal: nat)
      returns (result: PollResult, ghost readCount: nat, ghost answers: seq<seq<StatusItem>>)
      requires Valid()
      modifies this, server`items, server`asked, clock
      ensures Valid()
      ensures OnlySettles(old(server.items), server.items)
      ensures state == old(state) || state == SelectingDestination || state.Transferring?
      ensures old(cancelled) ==> cancelled
      ensures old(resets) <= resets && old(clock.readings) <= clock.readings
      ensures PollIsHonest(result, server.items)
      ensures PollFollows(answers, result) && |answers| <= readCount <= |answers| + 1
      ensures CountKept(answers, result, CountConfirmed(old(server.items)), fallbackTotal)
      // What was on show falls exactly when nothing was read and something was on show.
      ensures old(state.Transferring?) ==>
                (result.confirmedCount < old(state.confirmedCount) <==> answers == [] && old(state.confirmedCount) > 0)
      ensures readCount <= 6 * (if |server.items| == 0 then 1 else |server.items|) + 1
      ensures ReadsSince(old(server.asked), answers, readCount)
      ensures |old(clock.readings)| < |clock.readings|
      ensures result.Unknown? ==>
                GaveUp(old(server.asked), answers, old(resets), clock.readings[|old(clock.readings)|])
      ensures WithinCeiling(clock.readings, |old(clock.readings)|, readCount, false)
    {
      pollAborted := false;
      var startedAt := clock.Now();
      var p := NO_PROGRESS_YET;
      result := Unknown(0, fallbackTotal);
      readCount, answers := 0, [];
      ghost var n := if |server.items| == 0 then 1 else |server.items|;
      var polling := true;
      while polling
        invariant Valid()
        invariant OnlySettles(old(server.items), server.items)
        invariant state == old(state) || state == SelectingDestination || state.Transferring?
        invariant old(cancelled) ==> cancelled
        invariant OnlyInterrupted(old(resets), false)
        invariant old(clock.readings) + [startedAt] <= clock.readings
        invariant WithinCeiling(clock.readings, |old(clock.readings)|, readCount, polling)
        invariant PollIsHonest(result, server.items)
        invariant PollSoFar(answers, readCount, p, n, result, polling)
        invariant CountKept(answers, result, CountConfirmed(old(server.items)), fallbackTotal)
        invariant ReadsSince(old(server.asked), answers, readCount)
        invariant !polling && result.Unknown? ==> GaveUp(old(server.asked), answers, old(resets), startedAt)
        decreases polling, ReadBudget(p, n)
      {
        ghost var before, readBefore := clock.readings, readCount;
        polling, p, result, answers, readCount :=
          PollFurther(destination, fallbackTotal, p, startedAt, result, n, answers, readCount,
                      CountConfirmed(old(server.items)), old(server.asked), old(resets));
        CeilingKept(before, clock.readings, |old(clock.readings)|, readBefore, readCount > readBefore, polling);
      }
    }

    method RotateSubmit(signed: seq<string>) returns (accepted: bool)
      requires Valid()
      modifies this, server`items, server`submissions
      ensures Valid()
      ensures Advances(old(server.items), server.items, signed)
      ensures CountConfirmed(old(server.items)) <= CountConfirmed(server.items)
      ensures state == old(state) || state == SelectingDestination
      ensures old(cancelled) ==> cancelled
      ensures |server.submissions| == |old(server.submissions)| + 1
      ensures server.submissions[..|old(server.submissions)|] == old(server.submissions)
      ensures var s := server.submissions[|old(server.submissions)|];
              s.ids == signed && s.accepted == accepted && Advances(old(server.items), s.before, [])
      // A submit can move items, so it may only be called while the state claims nothing final.
      requires state.Transferring?
    {
      ghost var start := server.items;
      accepted := server.Submit(signed);
      CountMonotone(start, server.items);
      ghost var answered := server.items;
      Await();
      CountMonotone(answered, server.items);
      AdvancesCompose(start, answered, server.items, signed, []);
      assert signed + [] == signed;
    }

    /** Since it had given `taken` answers the passkey was asked, and its last answer was a dismissal or an error. */
    ghost predicate PasskeySaid(outcome: BatchOutcome, taken: nat)
      reads passkey
    {
      |passkey.answers| > taken && passkey.answers[|passkey.answers| - 1] == if outcome == Cancelled then Dismissed else Broken
    }

    /** Since it had given `taken` answers the passkey has signed n times, and done nothing else. */
    ghost predicate PasskeySigned(taken: nat, n: nat)
      reads passkey
    {
      |passkey.answers| == taken + n && forall i :: taken <= i < taken + n ==> passkey.answers[i] == Assertion.Signed
    }

    // One passkey ceremony per item, serially, until one is dismissed or fails.
    method SignBatch(batch: seq<RotationItem>, destination: string, confirmedCount: nat, total: nat)
      returns (outcome: BatchOutcome, signed: seq<string>)
      requires Valid()
      requires confirmedCount <= total && confirmedCount <= CountConfirmed(server.items)
      modifies this, server`items, passkey
      ensures Valid()
      ensures confirmedCount <= CountConfirmed(server.items)
      ensures Advances(old(server.items), server.items, [])
      ensures state == old(state) || state == SelectingDestination || state.Transferring?
      ensures old(cancelled) ==> cancelled
      ensures |old(passkey.answers)| <= |passkey.answers|
      ensures outcome == Sent ==> signed == Ids(batch) && PasskeySigned(|old(passkey.answers)|, |batch|)
      ensures outcome != Sent && !cancelled ==> PasskeySaid(outcome, |old(passkey.answers)|)
    {
      signed := [];
      for i := 0 to |batch|
        invariant signed == Ids(batch)[..i]
        invariant Valid()
        invariant confirmedCount <= CountConfirmed(server.items)
        invariant Advances(old(server.items), server.items, [])
        invariant state == old(state) || state == SelectingDestination || state.Transferring?
        invariant old(cancelled) ==> cancelled
        invariant PasskeySigned(|old(passkey.answers)|, i)
      {
        if cancelled {
          return Cancelled, signed;
        }
        var assertion := SignItem(destination, confirmedCount, total);
        if assertion != Assertion.Signed {
          return if assertion == Dismissed then Cancelled else Errored, signed;
        }
        signed := signed + [batch[i].itemId];
      }
      return Sent, signed;
    }

    method SignItem(destination: string, confirmedCount: nat, total: nat) returns (assertion: Assertion)
      requires confirmedCount <= total && confirmedCount <= CountConfirmed(server.items)
      modifies this, server`items, passkey
      ensures Valid()
      ensures confirmedCount <= CountConfirmed(server.items)
      ensures Advances(old(server.items), server.items, [])
      ensures state.Transferring? || state == SelectingDestination
      ensures old(cancelled) ==> cancelled
      ensures passkey.answers == old(passkey.answers) + [assertion]
    {
      state := Transferring(Signing, destination, confirmedCount, total);
      Await();
      assertion := passkey.Assert();
    }

    // A batch is submitted exactly when every item of it is signed and the hook still mounted.
    method SignAndSubmitBatch(batch: seq<RotationItem>, destination: string, confirmedCount: nat, total: nat)
      returns (outcome: BatchOutcome)
      requires Valid()
      requires confirmedCount <= total && confirmedCount <= CountConfirmed(server.items)
      modifies this, server`items, server`submissions, passkey
      ensures Valid()
      ensures confirmedCount <= CountConfirmed(server.items)
      ensures state == old(state) || state == SelectingDestination || state.Transferring?
      ensures old(cancelled) ==> cancelled
      ensures |old(passkey.answers)| <= |passkey.answers|
      ensures server.submissions == old(server.submissions) ==>
                && outcome != Sent && Advances(old(server.items), server.items, [])
                && (!cancelled ==> PasskeySaid(outcome, |old(passkey.answers)|))
      ensures server.submissions != old(server.submissions) ==>
                && |server.submissions| == |old(server.submissions)| + 1
                && server.submissions[..|old(server.submissions)|] == old(server.submissions)
                && outcome != Cancelled && PasskeySigned(|old(passkey.answers)|, |batch|)
                && Advances(old(server.items), server.items, Ids(batch))
                && var s := server.submissions[|old(server.submissions)|];
                   && s.ids == Ids(batch)
                   && s.accepted == (outcome == Sent)
                   && Advances(old(server.items), s.before, [])
    {
      ghost var start := server.items;
      var signed: seq<string>;
      outcome, signed := SignBatch(batch, destination, confirmedCount, total);
      if outcome != Sent {
        return;
      }
      if cancelled {
        return Cancelled;
      }
      state := Transferring(Submitting, destination, confirmedCount, total);
      ghost var ready := server.items;
      var accepted := RotateSubmit(signed);
      AdvancesCompose(start, ready, server.items, [], signed);
      assert [] + signed == signed;
      return if accepted then Sent else Errored;
    }

    /** The begin set is safe to sign: see UnsentWhenNothingInFlight. */
    ghost predicate Ready()
      reads this`begin, server`items
    {
      NoneInFlight(server.items) && (begin.Some? ==> Unsent(Ids(begin.value), server.items))
    }

    // Rebuild the challenges before signing when the current ledger is known and one has expired.
    method RefreshExpired() returns (ghost ledger: Option<nat>, ghost refresh: Option<Reply<seq<RotationItem>>>)
      requires Valid()
      modifies this, server`items, server`asked
      ensures Valid()
      ensures OnlySettles(old(server.items), server.items)
      ensures old(Ready()) ==> Ready()
      ensures state == old(state) || state == SelectingDestination
      ensures old(cancelled) ==> cancelled
      ensures old(resets) <= resets
      ensures server.asked == old(server.asked) + [LedgerAsked(ledger)] +
                              (if refresh.Some? then [InitiateAsked(refresh.value)] else [])
      ensures !cancelled ==>
                && (refresh.Some? && refresh.value.Success? ==> begin == Some(refresh.value.value))
                && (refresh.None? || refresh.value.Failure? ==> begin == old(begin) || (begin == None && resets > old(resets)))
                && (refresh.None? && begin.Some? && ledger.Some? ==> !SomeExpired(begin.value, ledger.value))
      ensures refresh.Some? ==> ledger.Some? && old(begin).Some? && SomeExpired(old(begin).value, ledger.value)
    {
      refresh := None;
      var currentLedger := server.CurrentLedger();
      ledger := currentLedger;
      Await();
      if cancelled {
        return;
      }
      if currentLedger.Some? && begin.Some? && SomeExpired(begin.value, currentLedger.value) {
        ghost var answer := RefreshBegin();
        refresh := Some(answer);
      }
    }

    method RefreshBegin() returns (ghost answer: Reply<seq<RotationItem>>)
      requires Valid()
      modifies this, server`items, server`asked
      ensures Valid()
      ensures OnlySettles(old(server.items), server.items)
      ensures old(Ready()) ==> Ready()
      ensures state == old(state) || state == SelectingDestination
      ensures old(cancelled) ==> cancelled
      ensures old(resets) <= resets
      ensures server.asked == old(server.asked) + [InitiateAsked(answer)]
      ensures !cancelled && answer.Success? ==> begin == Some(answer.value)
      ensures !cancelled && answer.Failure? ==> begin == old(begin) || (begin == None && resets > old(resets))
    {
      var refreshed := RotateInitiate();
      answer := refreshed;
      if !cancelled && refreshed.Success? {
        begin := Some(refreshed.value);
      }
    }

    // The passkey was dismissed: report what has moved, or go back to the review.
    method StopAfterCancel(offered: seq<RotationItem>, destination: string, prevConfirmed: nat, roundTotal: nat)
      returns (ghost status: Reply<StatusData>)
      requires Valid()
      requires prevConfirmed <= CountConfirmed(server.items) && roundTotal == prevConfirmed + |offered|
      modifies this, server`items, server`asked
      ensures Valid()
      ensures Advances(old(server.items), server.items, [])
      ensures OnlySettles(old(server.items), server.items)
      ensures state == AfterDismissal(offered, destination, status, prevConfirmed)
      ensures server.asked == old(server.asked) + [StatusAsked(status)]
      ensures old(cancelled) ==> cancelled
    {
      var answer := RotateStatus();
      status := answer;
      var confirmed := if answer.Success? then CountConfirmed(answer.value.items) else prevConfirmed;
      var total := if answer.Success? then |answer.value.items| else roundTotal;
      if confirmed > 0 {
        state := Paused(destination, confirmed, total);
      } else {
        state := Reviewing(destination, offered, None);
      }
    }

    // A batch that was not sent and accepted ends the drive; a submit that failed may still have landed.
    method StopRound(outcome: BatchOutcome, offered: seq<RotationItem>, destination: string,
                     prevConfirmed: nat, roundTotal: nat)
      returns (ghost status: Option<Reply<StatusData>>)
      requires Valid()
      requires cancelled || outcome != Sent
      requires prevConfirmed <= CountConfirmed(server.items) && roundTotal == prevConfirmed + |offered|
      modifies this, server`items, server`asked
      ensures Valid()
      ensures prevConfirmed <= CountConfirmed(server.items)
      ensures state.Error? ==> state == old(state)
      ensures status.Some? <==> !old(cancelled) && outcome == Cancelled
      ensures server.asked == if status.Some? then old(server.asked) + [StatusAsked(status.value)] else old(server.asked)
      ensures old(cancelled) ==> state == old(state)
      ensures !old(cancelled) && outcome == Errored ==> state == SettlementUnknown(destination, prevConfirmed, roundTotal)
      ensures status.Some? ==> state == AfterDismissal(offered, destination, status.value, prevConfirmed)
      ensures Advances(old(server.items), server.items, [])
      ensures old(cancelled) ==> cancelled
    {
      status := None;
      if !cancelled && outcome == Cancelled {
        ghost var answer := StopAfterCancel(offered, destination, prevConfirmed, roundTotal);
        status := Some(answer);
      } else if !cancelled {
        state := SettlementUnknown(destination, prevConfirmed, roundTotal);
      }
    }

    /** Where a round stands that found `shown` items confirmed and `taken` passkey answers: what it has submitted so far
        is a clean prefix of its begin set, all accepted unless it has stopped. */
    ghost predicate RoundSoFar(batches: seq<seq<RotationItem>>, j: nat, destination: string, shown: nat, taken: nat,
                               start: seq<StatusItem>, subs: seq<Submission>, stop: Option<Stop>, completed: bool)
      reads this`state, this`cancelled, server`items, server`asked, passkey
      requires j <= |batches|
    {
      && RefusalEnds(subs) && taken <= |passkey.answers|
      && (Unsent(Ids(Flatten(batches)), start) ==> AllClean(subs))
      && SentIds(subs) <= Ids(Flatten(batches))
      && (completed ==>
            && SentIds(subs) == Ids(Flatten(batches[..j]))
            && Advances(start, server.items, SentIds(subs))
            && AllAccepted(subs) && stop == None)
      && (!completed ==> RoundStopped(Flatten(batches), destination, shown, taken, start, subs, stop))
    }

    /** A round cut short without an unmount: by the passkey, dismissed or failed, after which nothing more was submitted,
        or by a refused or lost submit. A review it went back to offers the whole begin set again. */
    ghost predicate RoundStopped(offered: seq<RotationItem>, destination: string, shown: nat, taken: nat,
                                 start: seq<StatusItem>, subs: seq<Submission>, stop: Option<Stop>)
      reads this`state, this`cancelled, server`items, server`asked, passkey
    {
      !cancelled ==>
        && stop.Some? && StopShown(stop.value, offered, shown, destination, state)
        && (stop.value == SubmitFailed <==> !AllAccepted(subs))
        && (stop.value == PasskeyFailed ==> PasskeySaid(Errored, taken))
        && (stop.value.PasskeyDismissed? ==>
              && PasskeySaid(Cancelled, taken)
              && LastAsked(StatusAsked(stop.value.status))
              && Advances(start, server.items, SentIds(subs)))
    }

    // Signs and submits one batch; what the round has submitted stays a clean prefix of its begin set.
    method SendBatch(batches: seq<seq<RotationItem>>, j: nat, destination: string, prevConfirmed: nat,
                     roundTotal: nat, ghost taken: nat, ghost start: seq<StatusItem>, ghost subs: seq<Submission>)
      returns (outcome: BatchOutcome, ghost subs': seq<Submission>)
      requires Valid()
      requires j < |batches| && 0 < |batches[j]| <= BATCH_SIZE
      requires prevConfirmed <= roundTotal && prevConfirmed <= CountConfirmed(server.items)
      requires RoundSoFar(batches, j, destination, prevConfirmed, taken, start, subs, None, true)
      modifies this, server`items, server`submissions, passkey
      ensures Valid()
      ensures prevConfirmed <= CountConfirmed(server.items)
      ensures subs <= subs' && server.submissions == old(server.submissions) + subs'[|subs|..]
      ensures RefusalEnds(subs') && (Unsent(Ids(Flatten(batches)), start) ==> AllClean(subs'))
      ensures SentIds(subs') <= Ids(Flatten(batches)) && taken <= |passkey.answers|
      ensures outcome == Sent ==> RoundSoFar(batches, j + 1, destination, prevConfirmed, taken, start, subs', None, true)
      ensures outcome == Cancelled ==> AllAccepted(subs') && Advances(start, server.items, SentIds(subs'))
      ensures outcome != Sent && AllAccepted(subs') && !cancelled ==> PasskeySaid(outcome, taken)
      ensures state.Error? ==> state == old(state)
      ensures old(cancelled) ==> cancelled
    {
      subs' := subs;
      ghost var now, log := server.items, server.submissions;
      outcome := SignAndSubmitBatch(batches[j], destination, prevConfirmed, roundTotal);
      if server.submissions != log {
        ghost var s := server.submissions[|log|];
        IdsOfBatches(batches, j);
        ExtendRound(batches, j, start, now, subs, s);
        AdvancesCompose(start, now, server.items, SentIds(subs), s.ids);
        subs' := subs + [s];
        assert subs'[|subs|] == s;
      } else {
        AdvancesCompose(start, now, server.items, SentIds(subs), []);
        assert SentIds(subs) + [] == SentIds(subs);
      }
    }

    // One batch of a round, and the stop when it was not sent and accepted.
    method SubmitBatch(batches: seq<seq<RotationItem>>, j: nat, offered: seq<RotationItem>, destination: string,
                       prevConfirmed: nat, roundTotal: nat, ghost taken: nat, ghost start: seq<StatusItem>,
                       ghost subs: seq<Submission>)
      returns (completed: bool, ghost subs': seq<Submission>, ghost stop: Option<Stop>)
      requires Valid() && offered == Flatten(batches) && roundTotal == prevConfirmed + |offered|
      requires j < |batches| && 0 < |batches[j]| <= BATCH_SIZE
      requires prevConfirmed <= CountConfirmed(server.items)
      requires RoundSoFar(batches, j, destination, prevConfirmed, taken, start, subs, None, true)
      modifies this, server, passkey
      ensures Valid()
      ensures prevConfirmed <= CountConfirmed(server.items)
      ensures old(server.asked) <= server.asked
      ensures subs <= subs' && server.submissions == old(server.submissions) + subs'[|subs|..]
      ensures RoundSoFar(batches, j + 1, destination, prevConfirmed, taken, start, subs', stop, completed)
      ensures state.Error? ==> state == old(state)
      ensures old(cancelled) ==> cancelled
    {
      subs', stop := subs, None;
      completed := !cancelled;
      if completed {
        var outcome: BatchOutcome;
        outcome, subs' := SendBatch(batches, j, destination, prevConfirmed, roundTotal, taken, start, subs);
        completed := !cancelled && outcome == Sent;
        if !completed {
          ghost var now, unmounted := server.items, cancelled;
          ghost var status := StopRound(outcome, offered, destination, prevConfirmed, roundTotal);
          stop := if status.Some? then Some(PasskeyDismissed(status.value))
                  else if AllAccepted(subs') then Some(PasskeyFailed) else Some(SubmitFailed);
          if status.Some? {
            AdvancesCompose(start, now, server.items, SentIds(subs'), []);
            assert SentIds(subs') + [] == SentIds(subs');
          }
          assert RoundStopped(offered, destination, prevConfirmed, taken, start, subs', stop);
        }
      }
    }

    /** What a round has submitted: its begin set once, in order and accepted, or a prefix of that. A review it went
        back to offers that set again, which is still safe to sign exactly when nothing of what was sent has landed. */
    ghost predicate RoundSent(items: seq<RotationItem>, destination: string, shown: nat, taken: nat,
                              start: seq<StatusItem>, subs: seq<Submission>, stop: Option<Stop>, completed: bool)
      reads this`state, this`cancelled, server`items, server`asked, passkey
    {
      && RefusalEnds(subs)
      && (Unsent(Ids(items), start) ==> AllClean(subs))
      && SentIds(subs) <= Ids(items)
      && (completed ==> AllAccepted(subs) && SentIds(subs) == Ids(items) && stop == None)
      && (!completed ==> RoundStopped(items, destination, shown, taken, start, subs, stop))
      && (!completed && !cancelled && state.Reviewing? && Unsent(Ids(items), start) ==>
            (Unsent(Ids(items), server.items) <==> NoneLanded(SentIds(subs), server.items)))
    }

    lemma {:induction false} RoundDone(batches: seq<seq<RotationItem>>, j: nat, destination: string, shown: nat, taken: nat,
                                       start: seq<StatusItem>, subs: seq<Submission>, stop: Option<Stop>, completed: bool)
      requires j <= |batches| && RoundSoFar(batches, j, destination, shown, taken, start, subs, stop, completed)
      requires completed ==> j == |batches|
      ensures RoundSent(Flatten(batches), destination, shown, taken, start, subs, stop, completed)
    {
      if completed {
        assert batches[..j] == batches;
      } else if !cancelled && state.Reviewing? && Unsent(Ids(Flatten(batches)), start) {
        UnsentUnlessLanded(Ids(Flatten(batches)), start, server.items, SentIds(subs));
      }
    }

    // The batches of a round, one after the other.
    method SubmitBatches(batches: seq<seq<RotationItem>>, offered: seq<RotationItem>, destination: string,
                         prevConfirmed: nat, roundTotal: nat)
      returns (completed: bool, ghost subs: seq<Submission>, ghost stop: Option<Stop>)
      requires Valid() && offered == Flatten(batches) && roundTotal == prevConfirmed + |offered|
      requires forall k :: 0 <= k < |batches| ==> 0 < |batches[k]| <= BATCH_SIZE
      requires prevConfirmed <= CountConfirmed(server.items)
      modifies this, server, passkey
      ensures Valid()
      ensures prevConfirmed <= CountConfirmed(server.items)
      ensures old(server.asked) <= server.asked
      ensures server.submissions == old(server.submissions) + subs
      ensures RoundSent(offered, destination, prevConfirmed, |old(passkey.answers)|, old(server.items), subs, stop, completed)
      ensures state.Error? ==> state == old(state)
      ensures old(cancelled) ==> cancelled
    {
      ghost var start, taken := server.items, |passkey.answers|;
      var j := 0;
      completed, subs, stop := true, [], None;
      assert Advances(start, start, []);
      while completed && j < |batches|
        invariant j <= |batches|
        invariant Valid()
        invariant prevConfirmed <= CountConfirmed(server.items)
        invariant old(server.asked) <= server.asked
        invariant server.submissions == old(server.submissions) + subs
        invariant RoundSoFar(batches, j, destination, prevConfirmed, taken, start, subs, stop, completed)
        invariant state.Error? ==> state == old(state)
        invariant old(cancelled) ==> cancelled
        decreases completed, |batches| - j
      {
        completed, subs, stop :=
          SubmitBatch(batches, j, offered, destination, prevConfirmed, roundTotal, taken, start, subs);
        j := j + 1;
      }
      RoundDone(batches, j, destination, prevConfirmed, taken, start, subs, stop, completed);
    }

    /** One round of submits: its begin set once, in order, in batches of at most 4, unless it stops. */
    method SubmitRound(items: seq<RotationItem>, destination: string, prevConfirmed: nat, roundTotal: nat)
      returns (completed: bool, ghost stop: Option<Stop>)
      requires Valid() && roundTotal == prevConfirmed + |items|
      requires prevConfirmed <= CountConfirmed(server.items)
      modifies this, server, passkey
      ensures Valid()
      ensures prevConfirmed <= CountConfirmed(server.items)
      ensures old(server.asked) <= server.asked
      ensures old(server.submissions) <= server.submissions
      ensures RoundSent(items, destination, prevConfirmed, |old(passkey.answers)|, old(server.items),
                        server.submissions[|old(server.submissions)|..], stop, completed)
      ensures state.Error? ==> state == old(state)
      ensures old(cancelled) ==> cancelled
    {
      var batches := Chunk(items, BATCH_SIZE);
      ghost var log, subs := server.submissions, [];
      completed, subs, stop := SubmitBatches(batches, items, destination, prevConfirmed, roundTotal);
      assert server.submissions[|log|..] == subs;
    }

    /** After a settled poll: finish, give up, or rebuild the challenges of the rest. It asks for an offer exactly when
        something is worth retrying and the rounds make progress, and goes on exactly when it gets one. */
    method ConcludeRound(poll: PollResult, signed: seq<RotationItem>, destination: string, noProgress: nat)
      returns (end: RoundEnd, ghost offer: Option<Reply<seq<RotationItem>>>)
      requires Valid() && PollIsHonest(poll, server.items) && poll.Settled?
      modifies this, server`items, server`asked
      ensures Valid()
      ensures offer.Some? <==> MustRebuild(poll.items, noProgress)
      ensures server.asked == if offer.Some? then old(server.asked) + [InitiateAsked(offer.value)] else old(server.asked)
      ensures end == if offer.Some? && offer.value.Success? && !cancelled then NextRound else Ended
      ensures end == NextRound ==> begin == Some(offer.value.value) && Ready() && !state.Error?
      ensures end == Ended && !cancelled ==> Concludes(poll, signed, noProgress, offer, destination, state)
      ensures state.Error? ==> NothingMovedOrMoving(server.items)
      ensures OnlySettles(old(server.items), server.items)
      ensures old(cancelled) ==> cancelled
      ensures old(resets) <= resets
    {
      var items := EnrichByItemId(poll.items, signed);
      EnrichKeepsVerdict(poll.items, signed);
      OutcomeByCount(items);
      var confirmed, total := poll.confirmedCount, poll.total;
      end, offer := Ended, None;
      if DeriveSettlementOutcome(items) == SettlementOutcome.Complete {
        state := RotationState.Complete(destination, confirmed);
        return;
      }
      var retryable := exists i :: 0 <= i < |items| && items[i].status != Confirmed && RetryableCode(items[i].errorCode);
      assert retryable <==> HasRetryable(poll.items);
      if !retryable || noProgress >= MAX_NO_PROGRESS_ROUNDS {
        state := if confirmed > 0 then RotationState.Partial(destination, items, confirmed, total) else Error("SERVER_ERROR");
        return;
      }
      ghost var answer;
      end, answer := Rebuild(items, destination, confirmed, total);
      offer := Some(answer);
    }

    // Fresh challenges for the rest, or the end of the drive when they are refused.
    method Rebuild(items: seq<StatusItem>, destination: string, confirmed: nat, total: nat)
      returns (end: RoundEnd, ghost offer: Reply<seq<RotationItem>>)
      requires confirmed < total == |server.items| && confirmed == CountConfirmed(server.items)
      requires NoneInFlight(server.items)
      modifies this, server`items, server`asked
      ensures Valid()
      ensures server.asked == old(server.asked) + [InitiateAsked(offer)]
      ensures end == if offer.Success? && !cancelled then NextRound else Ended
      ensures end == NextRound ==> begin == Some(offer.value) && Ready() && !state.Error?
      ensures end == Ended && !cancelled ==>
                state == if confirmed > 0 then RotationState.Partial(destination, items, confirmed, total) else Error(offer.code)
      ensures state.Error? ==> NothingMovedOrMoving(server.items)
      ensures OnlySettles(old(server.items), server.items)
      ensures old(cancelled) ==> cancelled
      ensures old(resets) <= resets
    {
      end := Ended;
      state := Transferring(Rebuilding, destination, confirmed, total);
      var reinit := RotateInitiate();
      offer := reinit;
      if cancelled {
        return;
      }
      match reinit
      case Failure(code) =>
        state := if confirmed > 0 then RotationState.Partial(destination, items, confirmed, total) else Error(code);
      case Success(data) =>
        begin := Some(data);
        end := NextRound;
    }

    // After the poll: unknown, or conclude.
    method EndRound(poll: PollResult, signed: seq<RotationItem>, destination: string, noProgress: nat)
      returns (end: RoundEnd, ghost offer: Option<Reply<seq<RotationItem>>>)
      requires Valid() && PollIsHonest(poll, server.items)
      modifies this, server`items, server`asked
      ensures Valid()
      ensures offer.Some? ==> poll.Settled? && MustRebuild(poll.items, noProgress)
      ensures !cancelled && poll.Settled? && MustRebuild(poll.items, noProgress) ==> offer.Some?
      ensures server.asked == if offer.Some? then old(server.asked) + [InitiateAsked(offer.value)] else old(server.asked)
      ensures end == if offer.Some? && offer.value.Success? && !cancelled then NextRound else Ended
      ensures end == NextRound ==> begin == Some(offer.value.value) && Ready() && !state.Error?
      ensures end == Ended && !cancelled && poll.Settled? ==>
                Concludes(poll, signed, noProgress, offer, destination, state)
      ensures !cancelled && poll.Unknown? ==> state == SettlementUnknown(destination, poll.confirmedCount, poll.total)
      ensures old(resets) <= resets && (poll.Unknown? ==> cancelled == old(cancelled))
      ensures state.Error? ==> old(state.Error?) || NothingMovedOrMoving(server.items)
      ensures OnlySettles(old(server.items), server.items)
      ensures old(cancelled) ==> cancelled
    {
      end, offer := Ended, None;
      if cancelled {
        return;
      }
      if poll.Unknown? {
        state := SettlementUnknown(destination, poll.confirmedCount, poll.total);
        return;
      }
      end, offer := ConcludeRound(poll, signed, destination, noProgress);
    }

    ghost predicate AtAnEnd()
      reads this`state, this`cancelled
    {
      || cancelled
      || state.Complete? || state.Partial? || state.Error?
      || state.SettlementUnknown? || state.Paused? || state.Reviewing?
    }

    ghost predicate PollMet(p: PollReport)
      reads this`resets, this`cancelled, server`asked, clock
    {
      PollMetBy(p, server.asked, cancelled || resets > p.resets, clock.readings)
    }

    // The poll of a round, and its report.
    method PollRound(destination: string, roundTotal: nat, prevConfirmed: nat)
      returns (poll: PollResult, ghost told: PollReport)
      requires Valid() && !state.Error?
      requires prevConfirmed <= CountConfirmed(server.items)
      modifies this, server`items, server`asked, clock
      ensures Valid() && !state.Error? && PollIsHonest(poll, server.items)
      ensures prevConfirmed <= CountConfirmed(server.items) && old(server.asked) <= server.asked
      ensures PollMet(told)
      ensures told.result == poll && BeganAt(told, |old(server.asked)|, old(resets), |old(clock.readings)|)
      ensures CountKept(told.answers, poll, prevConfirmed, roundTotal)
      ensures old(cancelled) ==> cancelled
    {
      ghost var readCount: nat, answers: seq<seq<StatusItem>>;
      poll, readCount, answers := PollToRest(destination, roundTotal);
      told := PollReport(|old(server.asked)|, old(resets), |old(clock.readings)|, answers, poll);
    }

    // The end of a round that was submitted whole is explained by its poll and its offer.
    lemma {:induction false} EndTold(r: RoundReport, destination: string)
      requires r.completed && r.signed != [] && r.poll.Some?
      requires r.offer.Some? ==> CallsForRebuild(r)
      requires !cancelled && CallsForRebuild(r) ==> r.offer.Some?
      requires r.end == if r.offer.Some? && r.offer.value.Success? && !cancelled then NextRound else Ended
      requires r.end == Ended && !cancelled && r.poll.value.result.Settled? ==>
                 Concludes(r.poll.value.result, r.signed, r.noProgress, r.offer, destination, state)
      requires !cancelled && r.poll.value.result.Unknown? ==>
                 state == SettlementUnknown(destination, r.poll.value.result.confirmedCount, r.poll.value.result.total)
      requires CountKept(r.poll.value.answers, r.poll.value.result, r.shown, r.shown + |r.signed|)
      ensures Explains(r, destination, cancelled, state) && CountFollows(r)
      ensures r.end == Ended ==> AtAnEnd()
    {
    }

    // The part of a round after its submits: poll to rest, then end or go on. It completes the report `r`.
    method FinishRound(signed: seq<RotationItem>, destination: string, roundTotal: nat, prevConfirmed: nat,
                       noProgressRounds: nat, ghost r: RoundReport)
      returns (end: RoundEnd, confirmed: nat, total: nat, noProgress: nat, ghost report: RoundReport)
      requires Valid() && !state.Error?
      requires prevConfirmed <= CountConfirmed(server.items) && roundTotal == prevConfirmed + |signed|
      requires r.signed == signed != [] && r.shown == prevConfirmed && r.completed
      modifies this, server`items, server`asked, clock
      ensures Valid()
      ensures prevConfirmed <= CountConfirmed(server.items) && old(server.asked) <= server.asked
      ensures CountFollows(report)
      ensures report == r.(poll := report.poll, noProgress := noProgress, offer := report.offer, end := end)
      ensures report.poll.Some? && PollMet(report.poll.value)
      ensures BeganAt(report.poll.value, |old(server.asked)|, old(resets), |old(clock.readings)|)
      ensures Explains(report, destination, cancelled, state)
      ensures report.offer.Some? ==> LastAsked(InitiateAsked(report.offer.value))
      ensures confirmed == report.poll.value.result.confirmedCount && total == report.poll.value.result.total
      ensures noProgress == if confirmed > prevConfirmed then 0 else noProgressRounds + 1
      ensures end != NothingToSign
      ensures end == NextRound ==>
                && begin == Some(report.offer.value.value)
                && Ready() && !cancelled && !state.Error?
                && prevConfirmed <= confirmed <= total && confirmed <= CountConfirmed(server.items)
      ensures end == Ended ==> AtAnEnd()
      ensures state.Error? ==> NothingMovedOrMoving(server.items)
    {
      var poll: PollResult;
      ghost var told: PollReport, offer: Option<Reply<seq<RotationItem>>>;
      poll, told := PollRound(destination, roundTotal, prevConfirmed);
      ghost var asked, aborted := server.asked, cancelled || resets > told.resets;
      confirmed, total := poll.confirmedCount, poll.total;
      noProgress := if confirmed > prevConfirmed then 0 else noProgressRounds + 1;
      end, offer := EndRound(poll, signed, destination, noProgress);
      PollStaysMet(told, asked, aborted, clock.readings, server.asked, cancelled || resets > told.resets);
      report := r.(poll := Some(told), noProgress := noProgress, offer := offer, end := end);
      EndTold(report, destination);
    }

    /** The submissions made since `log` was the log. */
    ghost function Since(log: seq<Submission>): seq<Submission>
      reads server`submissions
      requires log <= server.submissions
    {
      server.submissions[|log|..]
    }

    ghost predicate LogIsSafe(log: seq<Submission>, ready: bool)
      reads this`state, this`cancelled, server`submissions
    {
      log <= server.submissions && SafeStretch(Since(log), ready, cancelled, state)
    }

    ghost predicate NothingOrSafe(log: seq<Submission>, ready: bool)
      reads this`state, this`cancelled, server`submissions
    {
      server.submissions == log || LogIsSafe(log, ready)
    }

    /** A review that a round begun ready went back to is safe to sign exactly when nothing the round sent has landed. */
    ghost predicate Reoffers(ready: bool, r: RoundReport)
      reads this`state, this`cancelled, server`items
    {
      ready && !cancelled && r.end == Ended && state.Reviewing? ==>
        (Unsent(Ids(state.offered), server.items) <==> NoneLanded(r.sent, server.items))
    }

    /** What a round that began at `log`, with this begin set and this many passkey answers and questions asked, reports
        is what it did. */
    ghost predicate RoundTold(r: RoundReport, log: seq<Submission>, begin: Option<seq<RotationItem>>, taken: nat,
                              asked: seq<Asked>, destination: string)
      reads this`state, this`cancelled, this`resets, this`begin, server`submissions, server`asked, passkey, clock
    {
      && Explains(r, destination, cancelled, state) && CountFollows(r) && SignsOffer(begin, r) && RoundMet(r)
      && r.taken == taken
      && log <= server.submissions && SendsItsSet(r) && r.sent == SentIds(server.submissions[|log|..])
      && asked < server.asked && server.asked[|asked|] == LedgerAsked(r.ledger)
      && (r.refresh.Some? ==>
            |server.asked| > |asked| + 1 && server.asked[|asked| + 1] == InitiateAsked(r.refresh.value))
      && (r.end == NothingToSign ==> this.begin.None? || this.begin.value == [])
    }

    /** One round; the report says what it did. */
    method DriveRound(destination: string, prevConfirmed: nat, noProgressRounds: nat)
      returns (end: RoundEnd, confirmed: nat, total: nat, noProgress: nat, ghost report: RoundReport)
      requires Valid() && !state.Error?
      requires prevConfirmed <= CountConfirmed(server.items)
      modifies this, server, passkey, clock
      ensures Valid()
      ensures LogIsSafe(old(server.submissions), old(Ready()))
      ensures end != Ended ==> !state.Error? && !cancelled && AllAccepted(Since(old(server.submissions)))
      ensures end == NextRound ==> Ready()
      ensures end == NextRound ==> prevConfirmed <= confirmed <= total && confirmed <= CountConfirmed(server.items)
      ensures prevConfirmed <= CountConfirmed(server.items)
      ensures end == Ended ==> AtAnEnd()
      ensures state.Error? ==> NothingMovedOrMoving(server.items)
      ensures report.end == end && report.shown == prevConfirmed
      ensures RoundTold(report, old(server.submissions), old(begin), |old(passkey.answers)|, old(server.asked), destination)
      ensures end == NothingToSign && report.wasReset ==> resets > old(resets)
      ensures Reoffers(old(Ready()), report)
      ensures report.poll.Some? ==>
                report.noProgress ==
                if report.poll.value.result.confirmedCount > prevConfirmed then 0 else noProgressRounds + 1
      ensures end == NextRound ==>
                && confirmed == report.poll.value.result.confirmedCount && total == report.poll.value.result.total
                && noProgress == report.noProgress
    {
      end, confirmed, total, noProgress := Ended, prevConfirmed, prevConfirmed, noProgressRounds;
      ghost var log, begin0, taken, ready := server.submissions, begin, |passkey.answers|, Ready();
      var going: bool;
      ghost var r: RoundReport;
      going, r := BeginRound(prevConfirmed);
      report := r;
      if !going {
        end := if cancelled then Ended else NothingToSign;
        NothingDone(report, log, begin0, taken, old(server.asked), destination, ready);
        return;
      }
      end, confirmed, total, noProgress, report :=
        SignRound(destination, prevConfirmed, noProgressRounds, r, begin0, old(server.asked), ready);
    }

    // The beginning of a round: the refresh, and whether there is something to sign.
    method BeginRound(shown: nat) returns (going: bool, ghost r: RoundReport)
      requires Valid()
      modifies this, server`items, server`asked
      ensures Valid()
      ensures OnlySettles(old(server.items), server.items)
      ensures old(Ready()) ==> Ready()
      ensures state == old(state) || state == SelectingDestination
      ensures old(cancelled) ==> cancelled
      ensures server.asked == old(server.asked) + [LedgerAsked(r.ledger)] +
                              (if r.refresh.Some? then [InitiateAsked(r.refresh.value)] else [])
      ensures r == FreshReport(shown, |passkey.answers|, r.ledger, r.refresh, resets > old(resets))
                     .(end := if going || cancelled then Ended else NothingToSign)
      ensures going <==> !cancelled && begin.Some? && begin.value != []
      ensures SignsOffer(old(begin), if going then r.(signed := begin.value) else r)
    {
      ghost var ledger, refresh := RefreshExpired();
      going := !cancelled && begin.Some? && begin.value != [];
      r := FreshReport(shown, |passkey.answers|, ledger, refresh, resets > old(resets))
             .(end := if going || cancelled then Ended else NothingToSign);
    }

    // A round that has something to sign, seen from its beginning.
    method SignRound(destination: string, prevConfirmed: nat, noProgressRounds: nat, ghost r: RoundReport,
                     ghost begin0: Option<seq<RotationItem>>, ghost before: seq<Asked>, ghost ready: bool)
      returns (end: RoundEnd, confirmed: nat, total: nat, noProgress: nat, ghost report: RoundReport)
      requires Valid() && !state.Error? && begin.Some? && begin.value != []
      requires prevConfirmed <= CountConfirmed(server.items)
      requires r == FreshReport(prevConfirmed, |passkey.answers|, r.ledger, r.refresh, r.wasReset)
      requires SignsOffer(begin0, r.(signed := begin.value)) && (ready ==> Ready())
      requires server.asked ==
                 before + [LedgerAsked(r.ledger)] + (if r.refresh.Some? then [InitiateAsked(r.refresh.value)] else [])
      modifies this, server, passkey, clock
      ensures Valid()
      ensures LogIsSafe(old(server.submissions), ready)
      ensures end != NothingToSign
      ensures end != Ended ==> !state.Error? && !cancelled && AllAccepted(Since(old(server.submissions)))
      ensures end == NextRound ==> Ready()
      ensures end == NextRound ==> prevConfirmed <= confirmed <= total && confirmed <= CountConfirmed(server.items)
      ensures prevConfirmed <= CountConfirmed(server.items)
      ensures end == Ended ==> AtAnEnd()
      ensures state.Error? ==> NothingMovedOrMoving(server.items)
      ensures report.end == end && report.shown == prevConfirmed
      ensures RoundTold(report, old(server.submissions), begin0, |old(passkey.answers)|, before, destination)
      ensures Reoffers(ready, report)
      ensures report.poll.Some? ==>
                report.noProgress ==
                if report.poll.value.result.confirmedCount > prevConfirmed then 0 else noProgressRounds + 1
      ensures end == NextRound ==>
                && confirmed == report.poll.value.result.confirmedCount && total == report.poll.value.result.total
                && noProgress == report.noProgress
    {
      ghost var log, taken, readyNow, asked :=
        server.submissions, |passkey.answers|, Unsent(Ids(begin.value), server.items), server.asked;
      end, confirmed, total, noProgress, report := RunRound(begin.value, destination, prevConfirmed, noProgressRounds, r);
      RoundDoneAs(report, log, begin0, taken, before, asked, destination, ready, readyNow);
    }

    // A round that ends before it signs anything.
    lemma {:induction false} NothingDone(r: RoundReport, log: seq<Submission>, begin0: Option<seq<RotationItem>>, taken: nat,
                                         asked: seq<Asked>, destination: string, ready: bool)
      requires r.taken == taken
      requires r.signed == [] && r.sent == [] && !r.completed && r.stop.None? && r.poll.None? && r.offer.None?
      requires if r.end == NothingToSign then begin.None? || begin.value == [] else r.end == Ended && cancelled
      requires SignsOffer(begin0, r)
      requires log == server.submissions
      requires server.asked == asked + [LedgerAsked(r.ledger)] + (if r.refresh.Some? then [InitiateAsked(r.refresh.value)] else [])
      ensures RoundTold(r, log, begin0, taken, asked, destination)
      ensures LogIsSafe(log, ready) && Reoffers(ready, r) && Since(log) == []
    {
      assert server.submissions[|log|..] == [];
    }

    // What a round did, seen from its beginning, before the refresh.
    lemma {:induction false} RoundDoneAs(r: RoundReport, log: seq<Submission>, begin0: Option<seq<RotationItem>>, taken: nat,
                                         before: seq<Asked>, asked: seq<Asked>, destination: string, ready: bool,
                                         readyNow: bool)
      requires Explains(r, destination, cancelled, state) && CountFollows(r) && SignsOffer(begin0, r) && RoundMet(r)
      requires r.taken == taken
      requires log <= server.submissions && SendsItsSet(r) && r.sent == SentIds(Since(log)) && r.end != NothingToSign
      requires asked == before + [LedgerAsked(r.ledger)] + (if r.refresh.Some? then [InitiateAsked(r.refresh.value)] else [])
      requires asked <= server.asked
      requires LogIsSafe(log, readyNow) && Reoffers(readyNow, r) && (ready ==> readyNow)
      ensures RoundTold(r, log, begin0, taken, before, destination)
      ensures LogIsSafe(log, ready) && Reoffers(ready, r)
    {
      assert server.asked[|before|] == asked[|before|];
      assert r.refresh.Some? ==> server.asked[|before| + 1] == asked[|before| + 1];
    }

    /** The last submit was refused or lost. */
    ghost predicate RefusedLast()
      reads server`submissions
    {
      server.submissions != [] && !server.submissions[|server.submissions| - 1].accepted
    }

    /** What a round reports is what it met: its poll, its offer, and what stopped its submits. */
    ghost predicate RoundMet(r: RoundReport)
      reads this`cancelled, this`resets, this`begin, server`submissions, server`asked, passkey, clock
    {
      && (r.poll.Some? ==> PollMet(r.poll.value))
      && (r.offer.Some? ==> LastAsked(InitiateAsked(r.offer.value)))
      && (r.end == NextRound ==> r.offer.Some? && r.offer.value.Success? && begin == Some(r.offer.value.value))
      && (!cancelled && r.stop.Some? ==>
            match r.stop.value
            case SubmitFailed => r.sent != [] && RefusedLast()
            case PasskeyFailed => PasskeySaid(Errored, r.taken)
            case PasskeyDismissed(status) =>
              PasskeySaid(Cancelled, r.taken) && LastAsked(StatusAsked(status)))
    }

    // The submits, the poll and the end of a round that has something to sign. It completes the report `r`.
    method RunRound(signed: seq<RotationItem>, destination: string, prevConfirmed: nat, noProgressRounds: nat,
                    ghost r: RoundReport)
      returns (end: RoundEnd, confirmed: nat, total: nat, noProgress: nat, ghost report: RoundReport)
      requires Valid() && !state.Error? && signed != []
      requires prevConfirmed <= CountConfirmed(server.items)
      requires r == FreshReport(prevConfirmed, |passkey.answers|, r.ledger, r.refresh, r.wasReset)
      modifies this, server, passkey, clock
      ensures Valid()
      ensures LogIsSafe(old(server.submissions), Unsent(Ids(signed), old(server.items)))
      ensures end != NothingToSign && old(server.asked) <= server.asked
      ensures end == NextRound ==> !state.Error? && !cancelled && AllAccepted(Since(old(server.submissions))) && Ready()
      ensures end == NextRound ==> prevConfirmed <= confirmed <= total && confirmed <= CountConfirmed(server.items)
      ensures prevConfirmed <= CountConfirmed(server.items)
      ensures end == Ended ==> AtAnEnd()
      ensures state.Error? ==> NothingMovedOrMoving(server.items)
      ensures report.end == end && report.shown == prevConfirmed && report.signed == signed
      ensures report.ledger == r.ledger && report.refresh == r.refresh && report.wasReset == r.wasReset
      ensures Explains(report, destination, cancelled, state) && CountFollows(report)
      ensures SendsItsSet(report) && report.sent == SentIds(Since(old(server.submissions)))
      ensures RoundMet(report) && report.taken == r.taken
      ensures Reoffers(Unsent(Ids(signed), old(server.items)), report)
      ensures report.poll.Some? ==>
                report.noProgress ==
                if report.poll.value.result.confirmedCount > prevConfirmed then 0 else noProgressRounds + 1
      ensures end == NextRound ==>
                && confirmed == report.poll.value.result.confirmedCount && total == report.poll.value.result.total
                && noProgress == report.noProgress
    {
      end, confirmed, total, noProgress := Ended, prevConfirmed, prevConfirmed, noProgressRounds;
      ghost var start, log := server.items, server.submissions;
      var completed: bool;
      ghost var stop;
      completed, stop := SubmitRound(signed, destination, prevConfirmed, prevConfirmed + |signed|);
      report := r.(signed := signed, sent := SentIds(Since(log)), completed := completed, stop := stop);
      if completed {
        end, confirmed, total, noProgress, report :=
          FinishRound(signed, destination, prevConfirmed + |signed|, prevConfirmed, noProgressRounds, report);
      } else {
        CutShort(report, destination, log, start);
      }
    }

    // A round cut short explains itself.
    lemma {:induction false} CutShort(r: RoundReport, destination: string, log: seq<Submission>, start: seq<StatusItem>)
      requires log <= server.submissions && r.sent == SentIds(Since(log))
      requires RoundSent(r.signed, destination, r.shown, r.taken, start, Since(log), r.stop, false)
      requires r.signed != [] && !r.completed && r.poll.None? && r.offer.None? && r.end == Ended
      ensures Explains(r, destination, cancelled, state) && CountFollows(r) && SendsItsSet(r)
      ensures RoundMet(r) && AtAnEnd() && Reoffers(Unsent(Ids(r.signed), start), r)
      ensures SafeStretch(Since(log), Unsent(Ids(r.signed), start), cancelled, state)
      ensures !cancelled ==> !state.Error?
    {
      var subs := Since(log);
      if !AllAccepted(subs) {
        var i :| 0 <= i < |subs| && !subs[i].accepted;
        assert i == |subs| - 1 && server.submissions[|server.submissions| - 1] == subs[i];
      }
    }

    /** Where a drive stands after the rounds reported: safe since `log`, every round submitted whole went out once
        and in order, and what is published is what the last round calls for. */
    ghost predicate DriveSoFar(log: seq<Submission>, ready: bool, reports: seq<RoundReport>, destination: string,
                               end: RoundEnd)
      reads this`state, this`cancelled, this`resets, this`begin
      reads server`items, server`submissions, server`asked, passkey, clock
    {
      && log <= server.submissions
      && DriveHistory(Since(log), reports, ready, end, cancelled, state)
      && (end == NextRound && ready ==> Ready())
      && (end == NothingToSign ==> begin.None? || begin.value == [])
      && (end != Ended ==> !state.Error?)
      && (end == Ended ==> AtAnEnd() && Explains(reports[|reports| - 1], destination, cancelled, state))
      && (end == Ended ==> Reoffers(ready, reports[|reports| - 1]) && RoundMet(reports[|reports| - 1]))
      && (state.Error? ==> NothingMovedOrMoving(server.items))
    }

    /** How a drive that began at `log` ends. */
    ghost predicate DriveEnded(log: seq<Submission>, ready: bool, reports: seq<RoundReport>, initial: nat, destination: string)
      reads this`state, this`cancelled, this`resets, this`begin
      reads server`items, server`submissions, server`asked, passkey, clock
    {
      && LogIsSafe(log, ready)
      && DriveTold(reports, initial, destination, cancelled, state)
      && (forall i :: 0 <= i < |reports| ==> SendsItsSet(reports[i]))
      && SentBy(reports) == SentIds(Since(log))
      && Reoffers(ready, reports[|reports| - 1])
      && (reports[|reports| - 1].end == Ended ==> RoundMet(reports[|reports| - 1]))
      && (reports[|reports| - 1].end == NothingToSign ==> begin.None? || begin.value == [])
      && AtAnEnd()
      && (state.Error? ==> NothingMovedOrMoving(server.items))
    }

    // Nothing left to sign, or no round left: to be reconciled later.
    method LeaveOpen(destination: string, confirmed: nat, total: nat, ghost initial: nat,
                     ghost log: seq<Submission>, ghost ready: bool, ghost reports: seq<RoundReport>, ghost end: RoundEnd)
      requires confirmed <= total && confirmed <= CountConfirmed(server.items)
      requires DriveSoFar(log, ready, reports, destination, end)
      requires end != Ended && RunsInRounds(reports)
      requires confirmed == ShownBefore(reports, |reports|, initial) && total == TotalAfter(reports, initial)
      modifies this`state
      ensures Valid() && state == SettlementUnknown(destination, confirmed, total)
      ensures DriveEnded(log, ready, reports, initial, destination)
    {
      state := SettlementUnknown(destination, confirmed, total);
    }

    // A drive that its last round ended.
    lemma {:induction false} LastRoundTells(log: seq<Submission>, ready: bool, reports: seq<RoundReport>, initial: nat,
                                            destination: string)
      requires DriveSoFar(log, ready, reports, destination, Ended)
      ensures DriveEnded(log, ready, reports, initial, destination)
    {
    }

    // A round that began when the log was `middle`, after the rounds of a drive that began at `log`.
    lemma {:induction false} RoundJoins(log: seq<Submission>, middle: seq<Submission>, ready: bool, readyThen: bool,
                                        reports: seq<RoundReport>, r: RoundReport, destination: string,
                                        cancelledThen: bool, stateThen: RotationState)
      requires log <= middle && |reports| < MAX_ROUNDS
      requires DriveHistory(middle[|log|..], reports, ready, NextRound, cancelledThen, stateThen)
      requires LogIsSafe(middle, readyThen) && (ready ==> readyThen)
      requires SendsItsSet(r) && r.sent == SentIds(Since(middle))
      requires r.end != Ended ==> AllAccepted(Since(middle)) && !state.Error?
      requires r.end == NextRound ==> Ready()
      requires r.end == NothingToSign ==> begin.None? || begin.value == []
      requires r.end == Ended ==> AtAnEnd() && Explains(r, destination, cancelled, state) && RoundMet(r)
      requires Reoffers(readyThen, r)
      requires state.Error? ==> NothingMovedOrMoving(server.items)
      ensures DriveSoFar(log, ready, reports + [r], destination, r.end)
    {
      HistoryGrows(middle[|log|..], reports, ready, r, Since(middle), readyThen, cancelledThen, stateThen, cancelled, state);
      assert Since(log) == middle[|log|..] + Since(middle);
    }

    /** A drive whose rounds so far go on from one another, the last of which ended with `end`, and what it carries into
        the next one or shows when there is none. */
    ghost predicate Underway(reports: seq<RoundReport>, end: RoundEnd, initial: nat, begin0: Option<seq<RotationItem>>,
                             shown: nat, total: nat, noProgress: nat)
      reads this`begin
    {
      && Chained(reports, initial, begin0)
      && (end == NextRound ==> GoesInto(reports, initial, begin0, shown, total, noProgress))
      && (end == NothingToSign ==>
            shown == ShownBefore(reports, |reports|, initial) && total == TotalAfter(reports, initial))
    }

    /** How the next round of a drive would begin. */
    ghost predicate GoesInto(reports: seq<RoundReport>, initial: nat, begin0: Option<seq<RotationItem>>,
                             shown: nat, total: nat, noProgress: nat)
      reads this`begin
    {
      && shown == ShownBefore(reports, |reports|, initial) && total == TotalAfter(reports, initial)
      && noProgress == StalledBefore(reports, |reports|)
      && begin == BeginBefore(reports, |reports|, begin0)
    }

    // One more round, found as the one before left it.
    lemma {:induction false} UnderwayGrows(reports: seq<RoundReport>, initial: nat, begin0: Option<seq<RotationItem>>,
                                           shown: nat, total: nat, noProgress: nat, r: RoundReport)
      requires Chained(reports, initial, begin0)
      requires r.shown == shown == ShownBefore(reports, |reports|, initial) && total == TotalAfter(reports, initial)
      requires noProgress == StalledBefore(reports, |reports|)
      requires CountFollows(r) && SignsOffer(BeginBefore(reports, |reports|, begin0), r)
      requires r.poll.Some? ==> r.noProgress == if r.poll.value.result.confirmedCount > shown then 0 else noProgress + 1
      requires r.end == NextRound ==> Rebuilt(r) && begin == Some(r.offer.value.value)
      requires r.end == NothingToSign ==> r.poll.None?
      ensures if r.end == NextRound
              then Underway(reports + [r], r.end, initial, begin0, r.poll.value.result.confirmedCount,
                            r.poll.value.result.total, r.noProgress)
              else forall n :: Underway(reports + [r], r.end, initial, begin0, shown, total, n)
    {
      var more := reports + [r];
      assert more[..|reports|] == reports && more[|reports|] == r;
      assert ShownBefore(more, |reports|, initial) == ShownBefore(reports, |reports|, initial);
      assert BeginBefore(more, |reports|, begin0) == BeginBefore(reports, |reports|, begin0);
      ChainGrows(reports, initial, begin0, r);
    }

    // One more round of a drive that began at `log`.
    method DriveOn(destination: string, prevConfirmed: nat, lastTotal: nat, noProgressRounds: nat,
                   ghost log: seq<Submission>, ghost ready: bool, ghost reports: seq<RoundReport>, ghost initial: nat,
                   ghost begin0: Option<seq<RotationItem>>)
      returns (end: RoundEnd, confirmed: nat, total: nat, noProgress: nat, ghost reports': seq<RoundReport>)
      requires Valid() && |reports| < MAX_ROUNDS
      requires DriveSoFar(log, ready, reports, destination, NextRound)
      requires prevConfirmed <= CountConfirmed(server.items) && prevConfirmed <= lastTotal
      requires Underway(reports, NextRound, initial, begin0, prevConfirmed, lastTotal, noProgressRounds)
      modifies this, server, passkey, clock
      ensures Valid()
      ensures |reports'| == |reports| + 1
      ensures DriveSoFar(log, ready, reports', destination, end)
      ensures Underway(reports', end, initial, begin0, confirmed, total, noProgress)
      ensures prevConfirmed <= confirmed <= total && confirmed <= CountConfirmed(server.items)
      ensures prevConfirmed <= CountConfirmed(server.items) && old(server.asked) <= server.asked
    {
      ghost var middle, readyThen, cancelledThen, stateThen := server.submissions, Ready(), cancelled, state;
      ghost var report: RoundReport;
      end, confirmed, total, noProgress, report := DriveRound(destination, prevConfirmed, noProgressRounds);
      if end != NextRound {
        confirmed, total := prevConfirmed, lastTotal;
      }
      reports' := reports + [report];
      UnderwayGrows(reports, initial, begin0, prevConfirmed, lastTotal, noProgressRounds, report);
      RoundJoins(log, middle, ready, readyThen, reports, report, destination, cancelledThen, stateThen);
    }

    /** The whole drive. It never signs an item twice when it begins ready, submits nothing after a refused or lost
        submit or, since all it sent is then what its rounds signed, after a poll; and what it ends with is true:
        `Valid` makes every count, `Partial` and `Complete` agree with the chain, and `Error` means nothing moved
        and nothing is still moving. The reports say what each round did, how it follows from the one before and why the
        drive ended: a round that has something worth retrying is followed by another unless its rebuild is refused. */
    method Drive(destination: string, initialConfirmed: nat)
      returns (ghost reports: seq<RoundReport>)
      requires Valid() && !state.Error?
      requires initialConfirmed <= CountConfirmed(server.items)
      modifies this, server, passkey, clock
      ensures Valid()
      ensures DriveEnded(old(server.submissions), old(Ready()), reports, initialConfirmed, destination)
      ensures Chained(reports, initialConfirmed, old(begin)) && old(server.asked) <= server.asked
      ensures initialConfirmed > 0 ==> !state.Error?
    {
      var end: RoundEnd, confirmed: nat, total: nat;
      end, confirmed, total, reports := DriveLoop(destination, initialConfirmed);
      if end == Ended {
        LastRoundTells(old(server.submissions), old(Ready()), reports, initialConfirmed, destination);
      } else {
        LeaveOpen(destination, confirmed, total, initialConfirmed, old(server.submissions), old(Ready()), reports, end);
      }
    }

    // Round after round, until one ends the drive or none is left.
    method DriveLoop(destination: string, initialConfirmed: nat)
      returns (end: RoundEnd, prevConfirmed: nat, lastTotal: nat, ghost reports: seq<RoundReport>)
      requires Valid() && !state.Error?
      requires initialConfirmed <= CountConfirmed(server.items)
      modifies this, server, passkey, clock
      ensures Valid() && old(server.asked) <= server.asked
      ensures DriveSoFar(old(server.submissions), old(Ready()), reports, destination, end)
      ensures Chained(reports, initialConfirmed, old(begin)) && RunsInRounds(reports)
      ensures initialConfirmed <= prevConfirmed <= lastTotal && prevConfirmed <= CountConfirmed(server.items)
      ensures end != Ended ==>
                && prevConfirmed == ShownBefore(reports, |reports|, initialConfirmed)
                && lastTotal == TotalAfter(reports, initialConfirmed)
    {
      ghost var log, ready, begin0 := server.submissions, Ready(), begin;
      var noProgressRounds := 0;
      prevConfirmed, lastTotal := initialConfirmed, initialConfirmed;
      var round: nat := 0;
      end := NextRound;
      reports := [];
      while round < MAX_ROUNDS && end == NextRound
        invariant Valid() && old(server.asked) <= server.asked
        invariant round == |reports|
        invariant DriveSoFar(log, ready, reports, destination, end)
        invariant Underway(reports, end, initialConfirmed, begin0, prevConfirmed, lastTotal, noProgressRounds)
        invariant initialConfirmed <= prevConfirmed <= lastTotal && prevConfirmed <= CountConfirmed(server.items)
        decreases MAX_ROUNDS - round
      {
        end, prevConfirmed, lastTotal, noProgressRounds, reports :=
          DriveOn(destination, prevConfirmed, lastTotal, noProgressRounds, log, ready, reports, initialConfirmed, begin0);
        round := round + 1;
      }
    }

    /** `primary` and `offer` are the answers to the two calls, when they were made and waited for. */
    method ChooseDestination(destination: string)
      returns (ghost primary: Option<Reply<bool>>, ghost offer: Option<Reply<seq<RotationItem>>>)
      requires Valid()
      modifies this, server`items, server`asked
      ensures Valid()
      ensures old(busy) ==> state == old(state) && begin == old(begin) && busy
      ensures !old(busy) ==> !busy
      // What a fresh review offers is safe to sign when nothing is in flight.
      ensures !old(busy) && !cancelled && NoneInFlight(old(server.items)) && state.Reviewing? && state.blocked.None? ==>
                Ready() && begin == Some(state.offered)
      ensures !old(busy) && !cancelled ==> primary.Some? && (primary.value.Success? <==> offer.Some?)
      ensures server.asked == if offer.Some? then old(server.asked) + [InitiateAsked(offer.value)] else old(server.asked)
      ensures !old(busy) && !cancelled && primary.value.Failure? ==>
                state == Error(if primary.value.code == "SESSION_EXPIRED" then "SESSION_EXPIRED" else "SERVER_ERROR")
      ensures !old(busy) && !cancelled && primary.value.Success? ==>
                match offer.value {
                  case Success(data) => state == Reviewing(destination, data, None) && begin == Some(data)
                  case Failure(code) =>
                    state == if BlocksReview(code) then Reviewing(destination, [], Some(code)) else Error(code)
                }
    {
      primary, offer := None, None;
      if busy {
        return;
      }
      busy := true;
      state := Loading;
      var primarySet: bool, refusal: string := *, *;
      var setPrimary: Reply<bool> := if primarySet then Success(true) else Failure(refusal);
      primary := Some(setPrimary);
      Await();
      if cancelled {
        busy := false;
        return;
      }
      if setPrimary.Failure? {
        state := Error(if setPrimary.code == "SESSION_EXPIRED" then "SESSION_EXPIRED" else "SERVER_ERROR");
        busy := false;
        return;
      }
      var init := RotateInitiate();
      offer := Some(init);
      if !cancelled {
        match init
        case Failure(code) =>
          if BlocksReview(code) {
            state := Reviewing(destination, [], Some(code));
          } else {
            state := Error(code);
          }
        case Success(data) =>
          begin := Some(data);
          state := Reviewing(destination, data, None);
      }
      busy := false;
    }

    method ConfirmAndTransfer() returns (ghost reports: seq<RoundReport>)
      requires Valid()
      modifies this, server, passkey, clock
      ensures Valid()
      ensures old(busy || !state.Reviewing? || state.blocked.Some? || state.offered == []) ==>
                state == old(state) && server.submissions == old(server.submissions) && busy == old(busy)
      // Otherwise it drives.
      ensures !old(busy || !state.Reviewing? || state.blocked.Some? || state.offered == []) ==>
                && DriveEnded(old(server.submissions), old(Ready()), reports, 0, old(state.destination))
                && Chained(reports, 0, old(begin)) && !busy
    {
      reports := [];
      if busy || !state.Reviewing? || state.blocked.Some? || state.offered == [] {
        return;
      }
      busy := true;
      reports := Drive(state.destination, 0);
      busy := false;
    }

    /** A resume asks for the status, and for an offer if it makes one of it. */
    ghost predicate ResumeAsked(r: Resumed, asked: seq<Asked>)
      reads server`asked
    {
      && asked < server.asked && server.asked[|asked|] == StatusAsked(r.status)
      && (r.offer.Some? ==>
            |server.asked| > |asked| + 1 && server.asked[|asked| + 1] == InitiateAsked(r.offer.value))
    }

    /** What a resume that began at `log`, on the state `was`, with nothing in flight if `quiet`, has done and shows: a
        failed status read keeps the counts on show; nothing to rotate, or everything moved, is shown at once; otherwise it
        asks for an offer, and drives on with it unless it is refused. A read that has seen a confirmed item never ends in
        a claim that nothing moved. */
    ghost predicate ResumeTold(r: Resumed, was: RotationState, resetsThen: nat, log: seq<Submission>, quiet: bool)
      reads this`state, this`cancelled, this`resets, this`begin
      reads server`items, server`submissions, server`asked, passkey, clock
    {
      match r.status
      case Failure(code) =>
        resetsThen <= resets && (!cancelled && resets == resetsThen ==>
          state == if CarriesCounts(was) then SettlementUnknown(was.destination, was.confirmedCount, was.total)
                   else Error(code))
      case Success(data) =>
        && (CountConfirmed(data.items) > 0 && (!cancelled || r.offer.Some?) ==> !state.Error?)
        && (!cancelled ==> DataTold(data, r.offer, r.reports, log, quiet))
    }

    /** What a resume shows whose status read succeeded. */
    ghost predicate DataTold(data: StatusData, offer: Option<Reply<seq<RotationItem>>>, reports: seq<RoundReport>,
                             log: seq<Submission>, quiet: bool)
      reads this`state, this`cancelled, this`resets, this`begin
      reads server`items, server`submissions, server`asked, passkey, clock
    {
      if data.none then state == SelectingDestination
      else if DeriveSettlementOutcome(data.items) == SettlementOutcome.Complete then
        state == RotationState.Complete(data.destination, |data.items|)
      else offer.Some? && OfferTold(offer.value, reports, data, log, quiet)
    }

    /** What the offer of a resume leads to. */
    ghost predicate OfferTold(offer: Reply<seq<RotationItem>>, reports: seq<RoundReport>, data: StatusData,
                              log: seq<Submission>, quiet: bool)
      reads this`state, this`cancelled, this`resets, this`begin
      reads server`items, server`submissions, server`asked, passkey, clock
    {
      var confirmed := CountConfirmed(data.items);
      match offer
      case Failure(code) =>
        state == if confirmed > 0 then SettlementUnknown(data.destination, confirmed, |data.items|) else Error(code)
      case Success(offered) =>
        DriveEnded(log, quiet, reports, confirmed, data.destination) && Chained(reports, confirmed, Some(offered))
    }

    // What holds of a drive that began ready, after a while, holds when less is known of its beginning.
    lemma {:induction false} ToldWithLess(r: Resumed, was: RotationState, resetsThen: nat, was': RotationState,
                                          resetsThen': nat, log: seq<Submission>, quiet: bool, quiet': bool)
      requires ResumeTold(r, was, resetsThen, log, quiet) && (quiet' ==> quiet)
      requires resetsThen' <= resetsThen && (resetsThen' == resetsThen ==> was' == was)
      ensures ResumeTold(r, was', resetsThen', log, quiet')
    {
      if r.status.Success? {
        DataWithLess(r.status.value, r.offer, r.reports, log, quiet, quiet');
      }
    }

    lemma {:induction false} DataWithLess(data: StatusData, offer: Option<Reply<seq<RotationItem>>>, reports: seq<RoundReport>,
                                          log: seq<Submission>, quiet: bool, quiet': bool)
      requires quiet' ==> quiet
      ensures DataTold(data, offer, reports, log, quiet) ==> DataTold(data, offer, reports, log, quiet')
    {
    }

    /** Rehydrate from the status, unless the hook is busy. */
    method Resume() returns (ghost r: Option<Resumed>)
      requires Valid()
      modifies this, server, passkey, clock
      ensures Valid()
      ensures r.None? <==> old(busy)
      ensures if r.None? then state == old(state) && server.submissions == old(server.submissions) else !busy
      ensures r.None? || (&& ResumeAsked(r.value, old(server.asked))
                          && ResumeTold(r.value, old(state), old(resets), old(server.submissions),
                                        NoneInFlight(old(server.items))))
      ensures NothingOrSafe(old(server.submissions), NoneInFlight(old(server.items)))
    {
      r := None;
      if busy {
        return;
      }
      busy := true;
      ghost var resumed := ResumeBusy();
      r := Some(resumed);
      busy := false;
    }

    // A resume that holds the latch.
    method ResumeBusy() returns (ghost r: Resumed)
      requires Valid()
      modifies this, server, passkey, clock
      ensures Valid() && ResumeAsked(r, old(server.asked))
      ensures ResumeTold(r, old(state), old(resets), old(server.submissions), NoneInFlight(old(server.items)))
      ensures NothingOrSafe(old(server.submissions), NoneInFlight(old(server.items)))
    {
      var answer := RotateStatus();
      r := Rehydrate(answer, old(state), old(resets));
      ToldWithLess(r, old(state), old(resets), old(state), old(resets), old(server.submissions), r.quiet,
                   NoneInFlight(old(server.items)));
    }

    // What is made of the answer to the status read.
    method Rehydrate(answer: Reply<StatusData>, ghost was: RotationState, ghost resetsThen: nat) returns (ghost r: Resumed)
      requires Valid() && resetsThen <= resets && (resets == resetsThen ==> state == was)
      requires answer.Success? ==>
                 && |answer.value.items| == |server.items|
                 && CountConfirmed(answer.value.items) <= CountConfirmed(server.items)
                 && (DeriveSettlementOutcome(answer.value.items) != Inflight ==> AtRest(answer.value.items, server.items))
      modifies this, server, passkey, clock
      ensures Valid()
      ensures r.status == answer && r.quiet == NoneInFlight(old(server.items))
      ensures old(server.asked) <= server.asked
      ensures r.offer.Some? ==>
                |server.asked| > |old(server.asked)| && server.asked[|old(server.asked)|] == InitiateAsked(r.offer.value)
      ensures ResumeTold(r, was, resetsThen, old(server.submissions), r.quiet)
      ensures NothingOrSafe(old(server.submissions), NoneInFlight(old(server.items)))
    {
      r := Resumed(answer, None, [], NoneInFlight(server.items));
      if !cancelled {
        match answer
        case Failure(code) => ShowFailure(code);
        case Success(data) =>
          ghost var offer, reports := ResumeFrom(data);
          r := r.(offer := offer, reports := reports);
      }
    }

    // A status read that failed says nothing about what moved: keep the counts that were on show.
    method ShowFailure(code: string)
      requires Valid()
      modifies this`state
      ensures Valid()
      ensures state == if CarriesCounts(old(state))
                       then SettlementUnknown(old(state).destination, old(state).confirmedCount, old(state).total)
                       else Error(code)
    {
      state := if CarriesCounts(state)
        then SettlementUnknown(state.destination, state.confirmedCount, state.total)
        else Error(code);
    }

    // A resume whose status read succeeded.
    method ResumeFrom(data: StatusData)
      returns (ghost offer: Option<Reply<seq<RotationItem>>>, ghost reports: seq<RoundReport>)
      requires |data.items| == |server.items| && CountConfirmed(data.items) <= CountConfirmed(server.items)
      requires DeriveSettlementOutcome(data.items) != Inflight ==> AtRest(data.items, server.items)
      modifies this, server, passkey, clock
      ensures Valid()
      ensures NothingOrSafe(old(server.submissions), NoneInFlight(old(server.items)))
      ensures CountConfirmed(data.items) > 0 ==> !state.Error?
      ensures old(server.asked) <= server.asked
      ensures offer.Some? ==>
                |server.asked| > |old(server.asked)| && server.asked[|old(server.asked)|] == InitiateAsked(offer.value)
      ensures offer.None? ==> cancelled == old(cancelled)
      ensures !cancelled ==>
                DataTold(data, offer, reports, old(server.submissions), NoneInFlight(old(server.items)))
    {
      offer, reports := None, [];
      if data.none {
        state := SelectingDestination;
        return;
      }
      OutcomeByCount(data.items);
      if DeriveSettlementOutcome(data.items) == SettlementOutcome.Complete {
        state := RotationState.Complete(data.destination, CountConfirmed(data.items));
        return;
      }
      ghost var answer;
      answer, reports := ResumeRest(data);
      offer := Some(answer);
    }

    // The re-initiate and the drive of a resume that has something left to move.
    method ResumeRest(data: StatusData)
      returns (ghost offer: Reply<seq<RotationItem>>, ghost reports: seq<RoundReport>)
      requires CountConfirmed(data.items) <= CountConfirmed(server.items)
      modifies this, server, passkey, clock
      ensures Valid()
      ensures NothingOrSafe(old(server.submissions), NoneInFlight(old(server.items)))
      ensures CountConfirmed(data.items) > 0 ==> !state.Error?
      ensures |server.asked| > |old(server.asked)| && old(server.asked) <= server.asked
      ensures server.asked[|old(server.asked)|] == InitiateAsked(offer)
      ensures cancelled || OfferTold(offer, reports, data, old(server.submissions), NoneInFlight(old(server.items)))
    {
      reports := [];
      var confirmed, total := CountConfirmed(data.items), |data.items|;
      state := Transferring(Rebuilding, data.destination, confirmed, total);
      var init := RotateInitiate();
      offer := init;
      if cancelled {
        return;
      }
      match init
      case Failure(code) =>
        state := if confirmed > 0 then SettlementUnknown(data.destination, confirmed, total) else Error(code);
      case Success(offered) => reports := ResumeDrive(offered, data.destination, confirmed);
    }

    method ResumeDrive(offered: seq<RotationItem>, destination: string, confirmed: nat)
      returns (ghost reports: seq<RoundReport>)
      requires Valid() && !state.Error? && confirmed <= CountConfirmed(server.items)
      modifies this, server, passkey, clock
      ensures Valid() && old(server.asked) <= server.asked
      ensures DriveEnded(old(server.submissions), NoneInFlight(old(server.items)) && Unsent(Ids(offered), old(server.items)),
                         reports, confirmed, destination)
      ensures Chained(reports, confirmed, Some(offered))
      ensures confirmed > 0 ==> !state.Error?
    {
      begin := Some(offered);
      busy := false;  // drive manages its own re-entrancy
      reports := Drive(destination, confirmed);
    }

    /** A refused cancel resumes; any other leaves the flow. */
    method Cancel() returns (ghost answer: Reply<string>, ghost r: Option<Resumed>)
      requires Valid()
      modifies this, server, passkey, clock
      ensures Valid()
      ensures old(busy) ==> state == old(state) && server.submissions == old(server.submissions) && r.None?
      ensures NothingOrSafe(old(server.submissions), NoneInFlight(old(server.items)))
      ensures !old(busy) && !cancelled && answer != Failure("ROTATION_CANNOT_CANCEL") ==>
                && state == SelectingDestination && (answer.Success? ==> begin == None) && r.None?
                && server.submissions == old(server.submissions) && server.asked == old(server.asked)
      ensures !old(busy) && !cancelled && answer == Failure("ROTATION_CANNOT_CANCEL") ==> r.Some?
      ensures r.None? || (&& ResumeAsked(r.value, old(server.asked))
                          && ResumeTold(r.value, old(state), old(resets), old(server.submissions),
                                        NoneInFlight(old(server.items))))
    {
      answer, r := Failure(""), None;
      if busy {
        return;
      }
      busy := true;
      answer, r := CancelBusy();
      busy := false;
    }

    // A cancel that holds the latch.
    method CancelBusy() returns (ghost answer: Reply<string>, ghost r: Option<Resumed>)
      requires Valid()
      modifies this, server, passkey, clock
      ensures Valid()
      ensures NothingOrSafe(old(server.submissions), NoneInFlight(old(server.items)))
      ensures !cancelled && answer != Failure("ROTATION_CANNOT_CANCEL") ==>
                && state == SelectingDestination && (answer.Success? ==> begin == None) && r.None?
                && server.submissions == old(server.submissions) && server.asked == old(server.asked)
      ensures !cancelled && answer == Failure("ROTATION_CANNOT_CANCEL") ==> r.Some?
      ensures r.None? || (&& ResumeAsked(r.value, old(server.asked))
                          && ResumeTold(r.value, old(state), old(resets), old(server.submissions),
                                        NoneInFlight(old(server.items))))
    {
      r := None;
      var result: Reply<string> := *;
      answer := result;
      Await();
      if cancelled {
        return;
      }
      if result == Failure("ROTATION_CANNOT_CANCEL") {
        ghost var was, resetsThen, quiet := state, resets, NoneInFlight(server.items);
        busy := false;
        r := Resume();
        ToldWithLess(r.value, was, resetsThen, old(state), old(resets), old(server.submissions), quiet,
                     NoneInFlight(old(server.items)));
        return;
      }
      if result.Success? {
        begin := None;
      }
      state := SelectingDestination;
    }
  }
}
