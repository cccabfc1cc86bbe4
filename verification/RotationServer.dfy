/** The rotation backend as the driver may rely on it. The truth is `items`; between and during calls it
    moves by any step that `Advances` allows, chosen by havoc, so that a proof about a caller is a proof
    about every schedule of on-chain settlement. */
module RotationServer {
  import opened Wrappers
  import opened Settlement

  datatype RotationItem = RotationItem(
    itemId: string,
    displayName: Option<string>,
    decimals: nat,
    expiresAtLedger: nat
  )

  datatype StatusData = StatusData(none: bool, destination: string, items: seq<StatusItem>)

  /** One submit call: the ids sent, the true state of every item when it arrived, and the answer. */
  datatype Submission = Submission(ids: seq<string>, before: seq<StatusItem>, accepted: bool)

  /** One question put to the server, with its answer. */
  datatype Asked =
    | StatusAsked(status: Reply<StatusData>)
    | InitiateAsked(offer: Reply<seq<RotationItem>>)
    | LedgerAsked(ledger: Option<nat>)

  function Ids(items: seq<RotationItem>): (ids: seq<string>) {
    seq(|items|, i requires 0 <= i < |items| => items[i].itemId)
  }

  predicate Distinct(ids: seq<string>) {
    forall i, j :: 0 <= i < j < |ids| ==> ids[i] != ids[j]
  }

  /** What the chain may do to one item: a confirmation stays, and only a sent item leaves the wallet. */
  predicate ItemAdvances(before: StatusItem, after: StatusItem, sent: bool) {
    && before.itemId == after.itemId
    && (before.status == Confirmed ==> after.status == Confirmed)
    && (after.status == Submitted ==> before.status == Submitted || sent)
    && (after.status == Confirmed ==> before.status == Submitted || before.status == Confirmed || sent)
  }

  predicate Advances(before: seq<StatusItem>, after: seq<StatusItem>, sent: seq<string>) {
    && |before| == |after|
    && forall i :: 0 <= i < |before| ==> ItemAdvances(before[i], after[i], before[i].itemId in sent)
  }

  /** Any proposal is cut back, item by item, to a permitted move. */
  function Advance(before: seq<StatusItem>, proposal: seq<StatusItem>, sent: seq<string>): (after: seq<StatusItem>)
    ensures Advances(before, after, sent)
  {
    seq(|before|, i requires 0 <= i < |before| =>
      if i < |proposal| && ItemAdvances(before[i], proposal[i], before[i].itemId in sent) then proposal[i]
      else before[i])
  }

  /** The havoc loses nothing: every permitted move is the result of some proposal. */
  lemma {:induction false} EveryAdvanceIsReachable(before: seq<StatusItem>, after: seq<StatusItem>, sent: seq<string>)
    requires Advances(before, after, sent)
    ensures Advance(before, after, sent) == after
  {
  }

  lemma {:induction false} AdvancesCompose(a: seq<StatusItem>, b: seq<StatusItem>, c: seq<StatusItem>,
                                           s: seq<string>, t: seq<string>)
    requires Advances(a, b, s) && Advances(b, c, t)
    ensures Advances(a, c, s + t)
  {
  }

  predicate NoneInFlight(items: seq<StatusItem>) {
    forall k :: 0 <= k < |items| ==> items[k].status != Submitted
  }

  /** The items an initiate answer lists: each listed once, none confirmed, every unconfirmed one there. */
  predicate ListsUnconfirmed(ids: seq<string>, items: seq<StatusItem>) {
    && Distinct(ids)
    && (forall k :: 0 <= k < |items| && items[k].status == Confirmed ==> items[k].itemId !in ids)
    && (forall k :: 0 <= k < |items| && items[k].status != Confirmed ==> items[k].itemId in ids)
  }

  /** None of these items is in flight or confirmed. */
  predicate NoneLanded(ids: seq<string>, items: seq<StatusItem>) {
    forall k :: 0 <= k < |items| && items[k].itemId in ids ==>
      items[k].status != Confirmed && items[k].status != Submitted
  }

  /** Signing these ids cannot move anything twice: distinct, and none is confirmed or in flight. */
  predicate Unsent(ids: seq<string>, items: seq<StatusItem>) {
    Distinct(ids) && NoneLanded(ids, items)
  }

  /** An initiate answer is safe to sign exactly when nothing is in flight. */
  lemma {:induction false} UnsentWhenNothingInFlight(ids: seq<string>, items: seq<StatusItem>)
    requires ListsUnconfirmed(ids, items)
    ensures Unsent(ids, items) <==> NoneInFlight(items)
  {
  }

  /** A begin set of which some ids have been sent may be signed again exactly when none of those has landed. */
  lemma {:induction false} UnsentUnlessLanded(ids: seq<string>, start: seq<StatusItem>, now: seq<StatusItem>,
                                              sent: seq<string>)
    requires Unsent(ids, start) && Advances(start, now, sent)
    requires forall id :: id in sent ==> id in ids
    ensures Unsent(ids, now) <==> NoneLanded(sent, now)
  {
  }

  datatype Assertion = Signed | Dismissed | Broken

  /** The passkey prompt: every ceremony ends signed, dismissed or in an error. */
  class Passkey {
    ghost var answers: seq<Assertion>

    constructor ()
      ensures answers == []
    {
      answers := [];
    }

    method Assert() returns (answer: Assertion)
      modifies this
      ensures answers == old(answers) + [answer]
    {
      answer := *;
      answers := answers + [answer];
    }
  }

  class Clock {
    ghost var readings: seq<int>

    constructor ()
      ensures readings == []
    {
      readings := [];
    }

    method Now() returns (ms: int)
      modifies this
      ensures readings == old(readings) + [ms]
    {
      ms := *;
      readings := readings + [ms];
    }
  }

  class Server {
    var items: seq<StatusItem>
    ghost var submissions: seq<Submission>
    ghost var asked: seq<Asked>

    constructor (items: seq<StatusItem>)
      ensures this.items == items && submissions == [] && asked == []
    {
      this.items := items;
      submissions, asked := [], [];
    }

    /** Time passes on chain. */
    method Settle()
      modifies this`items
      ensures Advances(old(items), items, [])
    {
      var proposal: seq<StatusItem> := *;
      items := Advance(items, proposal, []);
    }

    method Status() returns (reply: Reply<StatusData>)
      modifies this`items, this`asked
      ensures Advances(old(items), items, [])
      ensures asked == old(asked) + [StatusAsked(reply)]
      ensures reply.Success? ==> reply.value.items == items
    {
      Settle();
      var none: bool, destination: string, code: string := *, *, *;
      if * {
        reply := Success(StatusData(none, destination, items));
      } else {
        reply := Failure(code);
      }
      asked := asked + [StatusAsked(reply)];
    }

    method Initiate() returns (reply: Reply<seq<RotationItem>>)
      modifies this`items, this`asked
      ensures Advances(old(items), items, [])
      ensures asked == old(asked) + [InitiateAsked(reply)]
      ensures reply.Success? ==> ListsUnconfirmed(Ids(reply.value), items)
    {
      Settle();
      var offered: seq<RotationItem> := *;
      var code: string := *;
      if ListsUnconfirmed(Ids(offered), items) {
        reply := Success(offered);
      } else {
        reply := Failure(code);
      }
      asked := asked + [InitiateAsked(reply)];
    }

    /** The current ledger, if it can be read. */
    method CurrentLedger() returns (ledger: Option<nat>)
      modifies this`asked
      ensures asked == old(asked) + [LedgerAsked(ledger)]
    {
      ledger := *;
      asked := asked + [LedgerAsked(ledger)];
    }

    /** A submit may reach the chain whatever it answers, so its ids count as sent either way. */
    method Submit(ids: seq<string>) returns (accepted: bool)
      modifies this`items, this`submissions
      ensures Advances(old(items), items, ids)
      ensures |submissions| == |old(submissions)| + 1 && submissions[..|old(submissions)|] == old(submissions)
      ensures var s := submissions[|old(submissions)|];
              s.ids == ids && s.accepted == accepted && Advances(old(items), s.before, [])
    {
      ghost var start := items;
      Settle();
      ghost var arrival := items;
      var proposal: seq<StatusItem> := *;
      items := Advance(items, proposal, ids);
      AdvancesCompose(start, arrival, items, [], ids);
      assert [] + ids == ids;
      accepted := *;
      submissions := submissions + [Submission(ids, arrival, accepted)];
    }
  }
}
