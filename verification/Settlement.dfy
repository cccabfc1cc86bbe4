/** apps/web/lib/wallet/settlementOutcome.ts and the per-item code table of rotationMessages.ts:
    what a list of transfer items says about the money. */
module Settlement {
  import opened Wrappers

  datatype ItemStatus = Pending | Submitted | Confirmed | Failed

  datatype StatusItem = StatusItem(
    itemId: string,
    status: ItemStatus,
    errorCode: Option<string>,
    displayName: Option<string>,
    decimals: Option<nat>
  )

  datatype SettlementOutcome = Inflight | Complete | Partial | NothingMoved

  predicate Undecided(item: StatusItem) {
    item.status == Pending || item.status == Submitted
  }

  function DeriveSettlementOutcome(items: seq<StatusItem>): (outcome: SettlementOutcome) {
    if |items| == 0 then Inflight
    else if exists i :: 0 <= i < |items| && Undecided(items[i]) then Inflight
    else if forall i :: 0 <= i < |items| ==> items[i].status == Confirmed then Complete
    else if exists i :: 0 <= i < |items| && items[i].status == Confirmed then Partial
    else NothingMoved
  }

  // The left fold of the source, peeled from the right.
  function CountConfirmed(items: seq<StatusItem>): (n: nat)
    ensures n <= |items|
  {
    if |items| == 0 then 0
    else CountConfirmed(items[..|items| - 1]) + (if items[|items| - 1].status == Confirmed then 1 else 0)
  }

  predicate RetryableCode(code: Option<string>) {
    match code
    case Some("TRANSFER_EXPIRED") => true
    case Some("TRANSFER_UNAVAILABLE") => true
    case Some("TRANSFER_SIMULATION_FAILED") => true
    case Some("TRANSFER_FAILED") => true
    case _ => false
  }

  lemma {:induction false} CountExtremes(items: seq<StatusItem>)
    ensures CountConfirmed(items) == |items| <==> forall i :: 0 <= i < |items| ==> items[i].status == Confirmed
    ensures CountConfirmed(items) == 0 <==> forall i :: 0 <= i < |items| ==> items[i].status != Confirmed
  {
    if |items| > 0 {
      var front := items[..|items| - 1];
      CountExtremes(front);
      assert forall i :: 0 <= i < |front| ==> front[i] == items[i];
    }
  }

  lemma {:induction false} CountOfPrefix(items: seq<StatusItem>, j: nat)
    requires j <= |items|
    ensures CountConfirmed(items[..j]) <= CountConfirmed(items)
  {
    if j == |items| {
      assert items[..j] == items;
    } else {
      var front := items[..|items| - 1];
      CountOfPrefix(front, j);
      assert front[..j] == items[..j];
    }
  }

  /** The outcome is exactly what the confirmed count says once nothing is undecided. */
  lemma {:induction false} OutcomeByCount(items: seq<StatusItem>)
    ensures DeriveSettlementOutcome(items) == Inflight <==>
            (items == [] || exists i :: 0 <= i < |items| && Undecided(items[i]))
    ensures DeriveSettlementOutcome(items) == Complete <==> items != [] && CountConfirmed(items) == |items|
    ensures DeriveSettlementOutcome(items) == Partial ==> 0 < CountConfirmed(items) < |items|
    ensures DeriveSettlementOutcome(items) == NothingMoved ==> CountConfirmed(items) == 0
  {
    CountExtremes(items);
  }

  /** Confirmations that are kept are never counted away; with no new one the count is the same. */
  lemma {:induction false} CountMonotone(before: seq<StatusItem>, after: seq<StatusItem>)
    requires |before| == |after|
    requires forall i :: 0 <= i < |before| && before[i].status == Confirmed ==> after[i].status == Confirmed
    ensures CountConfirmed(before) <= CountConfirmed(after)
    ensures (forall i :: 0 <= i < |before| && after[i].status == Confirmed ==> before[i].status == Confirmed)
              ==> CountConfirmed(before) == CountConfirmed(after)
  {
    if |before| > 0 {
      CountMonotone(before[..|before| - 1], after[..|after| - 1]);
    }
  }
}
