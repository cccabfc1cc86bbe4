/** The handlers and effects of ArtworkTimeline as an object over its refs and its committed state; every method is one
    step of the component in Timeline and keeps its invariant. What is dispatched but not committed, and what is asked but
    not answered, belongs to React and the network and is ghost. */
module TimelineComponent {
  import opened Wrappers
  import opened Timeline

  class TimelineView {
    ghost const server: Server
    var shown: State
    var inFlight: bool
    var alive: bool
    ghost var queue: seq<Action>
    ghost var requests: seq<Request>

    ghost function View(): Component
      reads this
    {
      Component(shown, queue, inFlight, requests, alive)
    }

    /** The list shown is a plain walk, and at most one thing is on its way, asked for by what is shown. */
    ghost predicate Valid()
      reads this
    {
      Inv(server, View())
    }

    /** From the server-rendered first page, or its failure. */
    constructor (initial: Reply<Page>, ghost server: Server)
      requires initial.Success? ==> initial.value == server(false, None)
      ensures Valid() && this.server == server && View() == Initial(initial)
      ensures Shows(server, shown, if initial.Success? then 1 else 0) && !shown.expand
      ensures shown.tailStatus == if initial.Success? then Idle else Error
    {
      this.server := server;
      shown, inFlight, alive := InitState(initial), false, true;
      queue, requests := [], [];
      new;
      InitialShows(server, initial.Failure?);
    }

    /** Sends one request, for the page at the cursor and in the mode that are shown, exactly when nothing is on its
        way and there are more pages. */
    method LoadMore()
      requires Valid()
      modifies this`inFlight, this`queue, this`requests
      ensures Valid() && View() == OnLoadMore(old(View()))
      ensures old(inFlight) || shown.cursor.None? ==> View() == old(View())
      ensures !old(inFlight) && shown.cursor.Some? ==>
                inFlight && queue == [AppendStart] && requests == [Append(shown.expand, shown.cursor.value)]
    {
      LoadMoreKeeps(server, View());
      if inFlight {
        return;
      }
      if shown.cursor.None? {
        return;
      }
      inFlight := true;
      queue := queue + [AppendStart];
      requests := requests + [Append(shown.expand, shown.cursor.value)];
    }

    /** Sends one request, for the first page of the target mode, exactly when nothing is on its way. */
    method ReplaceFromFirstPage(targetExpand: bool)
      requires Valid()
      modifies this`inFlight, this`queue, this`requests
      ensures Valid() && View() == OnReplace(old(View()), targetExpand)
      ensures old(inFlight) ==> View() == old(View())
      ensures !old(inFlight) ==> inFlight && queue == [ReplaceStart] && requests == [Replace(targetExpand)]
    {
      ReplaceKeeps(server, View(), targetExpand);
      if inFlight {
        return;
      }
      inFlight := true;
      queue := queue + [ReplaceStart];
      requests := requests + [Replace(targetExpand)];
    }

    /** An answer, or a failed round trip, reaches the transition: no request is out afterwards, nothing shown changes
        yet, and what is dispatched is the page asked for, or the error of its request, and fits what is still shown. */
    method ResolveRequest(ghost i: nat, ghost ok: bool)
      requires Valid() && i < |requests|
      modifies this`queue, this`requests
      ensures Valid() && View() == OnAnswer(server, old(View()), i, ok)
      ensures requests == []
      ensures alive ==> queue != [] && queue[..|queue| - 1] == old(queue)
      ensures alive ==> FitsShown(server, shown, queue[|queue| - 1])
      ensures alive ==> IsAnswer(server, old(requests[i]), ok, queue[|queue| - 1])
      ensures !alive ==> queue == old(queue)
    {
      AnswerKeeps(server, View(), i, ok);
      AnswerMeans(server, View(), i, ok);
      TakeAnswer(i, ok);
    }

    method TakeAnswer(ghost i: nat, ghost ok: bool)
      requires i < |requests|
      modifies this`queue, this`requests
      ensures View() == OnAnswer(server, old(View()), i, ok)
    {
      ghost var r := requests[i];
      requests := requests[..i] + requests[i + 1..];
      if alive {
        queue := queue + [Resolved(server, r, ok)];
      }
    }

    /** React renders the first dispatched actions; then the passive release effect runs. The list shown is a plain
        walk again, and an answer committed alone always frees the lock. */
    method Commit(actions: seq<Action>)
      requires Valid() && actions <= queue
      modifies this`shown, this`inFlight, this`queue
      ensures Valid() && View() == OnCommit(old(View()), |actions|)
      ensures exists k :: Shows(server, shown, k)
      ensures old(|queue| == 1 && IsResult(queue[0])) && |actions| == 1 ==> !inFlight
      ensures queue == old(queue)[|actions|..]
      // All of it: what the last action brings, by a walk of one more page, a first page, or an unchanged walk.
      ensures actions == old(queue) && actions != [] ==>
                forall k :: Shows(server, old(shown), k) ==> Tells(server, old(shown), k, actions[|actions| - 1], shown)
    {
      if actions == queue && actions != [] {
        forall k | Shows(server, shown, k)
          ensures Tells(server, shown, k, actions[|actions| - 1], OnCommit(View(), |actions|).shown)
        {
          CommitTells(server, View(), k);
        }
      }
      CommitKeeps(server, View(), |actions|);
      if |queue| == 1 && |actions| == 1 {
        ReleaseIsExact(server, View());
      }
      Render(actions);
    }

    method Render(actions: seq<Action>)
      requires actions <= queue
      modifies this`shown, this`inFlight, this`queue
      ensures View() == OnCommit(old(View()), |actions|)
    {
      var before := shown;
      var eventsReplaced := Fold(actions);
      assert actions == queue[..|actions|];
      queue := queue[|actions|..];
      if shown.tailStatus != before.tailStatus || eventsReplaced {
        if shown.tailStatus != Loading {
          inFlight := false;
        }
      }
    }

    // Renders the actions one after another; says whether the events array is a new one.
    method Fold(actions: seq<Action>) returns (eventsReplaced: bool)
      modifies this`shown
      ensures shown == ReduceAll(old(shown), actions)
      ensures eventsReplaced == NewEvents(actions)
    {
      eventsReplaced := false;
      var i := 0;
      while i < |actions|
        invariant i <= |actions|
        invariant ReduceAll(old(shown), actions) == ReduceAll(shown, actions[i..])
        invariant eventsReplaced == NewEvents(actions[..i])
      {
        shown := Reduce(shown, actions[i]);
        eventsReplaced := eventsReplaced || actions[i].AppendOk? || actions[i].ReplaceOk?;
        assert actions[i..][1..] == actions[i + 1..];
        assert actions[..i + 1] == actions[..i] + [actions[i]];
        i := i + 1;
      }
      assert actions[..i] == actions;
    }

    method Unmount()
      requires Valid()
      modifies this`alive
      ensures Valid() && View() == old(View()).(alive := false)
    {
      alive := false;
    }
  }
}
