/** The promises of the transfer manager, for every run of the interleaved system. */
module TransferGuarantees {
  import opened Wrappers
  import opened Runs
  import opened TransferModel
  import opened TransferFacts

  // ---- the life of one item ----

  /** What a listener and the history see of one item, in order. */
  ghost predicate Lifecycle(h: seq<Event>, i: nat, path: string) {
    && (h != [] ==> h[0] == Report(i, Initial(path)))
    && (forall j, k | 0 <= j < k < |h| :: !(h[j].Record? && h[k].Record?))
    && (forall k | 0 <= k < |h| && h[k].Report? && h[k].u.done :: k == |h| - 1 && RecordedBefore(h, k, h[k].u.status))
    && (forall k | 0 <= k < |h| && h[k].Report? :: 0 <= h[k].u.sent <= h[k].u.total && h[k].u.path == path)
    && Ordered(h)
  }

  ghost predicate RecordedBefore(h: seq<Event>, k: nat, status: Option<Status>)
    requires k <= |h|
  {
    exists r :: 0 <= r < k && h[r].Record? && status == Some(h[r].status)
  }

  /** One record, then one done update, which is the last event. */
  ghost predicate Complete(h: seq<Event>) {
    && |h| > 1 && h[|h| - 1].Report? && h[|h| - 1].u.done
    && RecordedBefore(h, |h| - 1, h[|h| - 1].u.status)
    && (h[|h| - 1].u.status == Some(Status.Sent) ==> h[|h| - 1].u.sent == h[|h| - 1].u.total)
  }

  lemma FitsMeansLifecycle(it: Item, i: nat, h: seq<Event>)
    requires ItemFits(it, i, h)
    ensures Lifecycle(h, i, it.path)
    ensures it.stage.Finished? <==> Complete(h)
  {
    match it.stage
    case Recorded(status) =>
      var j :| RecordAt(h, it, i, status, j);
      assert forall k | 0 <= k < |h| && k != j :: Plain(h[k], it);
    case Finished(status) =>
      var init := h[..|h| - 1];
      var j: nat :| RecordAt(init, it, i, status, j);
      forall k | 0 <= k < |init| && k != j ensures Plain(h[k], it) {
        assert init[k] == h[k];
      }
      assert h[j] == Record(i, status);
      assert RecordedBefore(h, |h| - 1, Some(status));
    case _ =>
  }

  /** In every interleaving each item's first update is the queued one, it is recorded at most once and then reported
      done at most once, nothing follows that, and the shown bytes never exceed the total or go down. */
  lemma EveryItemHasALifecycle(acts: seq<Action>, run: seq<State>, k: nat, i: nat)
    requires FromStart(acts, run) && k <= |acts| && i < |run[k].items|
    ensures Lifecycle(History(run[k].log, i), i, run[k].items[i].path)
    ensures run[k].items[i].stage.Finished? <==> Complete(History(run[k].log, i))
  {
    RunKeepsInv(acts, run, k);
    FitsMeansLifecycle(run[k].items[i], i, History(run[k].log, i));
  }

  // ---- one action touches one item ----

  /** The item that an action is about. */
  function Touched(a: Action): Option<nat> {
    match a
    case Announce(i) => Some(i)
    case StartItem(i) => Some(i)
    case BeginScan(i, _) => Some(i)
    case Examine(i, _, _, _, _) => Some(i)
    case Launch(i) => Some(i)
    case End(i, _) => Some(i)
    case Drop(i) => Some(i)
    case RecordItem(i) => Some(i)
    case Finish(i) => Some(i)
    case Progress(i, _, _) => Some(i)
    case Cancel(i) => Some(i)
    case _ => None
  }

  lemma OthersStay(s: State, a: Action, i: nat)
    requires Enabled(s, a) && i < |s.items| && Touched(a) != Some(i)
    ensures i < |Apply(s, a).items| && Apply(s, a).items[i] == s.items[i]
  {
  }

  // ---- Close ----

  /** Close returns once the manager is closed, every context is cancelled, and every worker has ended. */
  ghost predicate CloseReturns(s: State) {
    s.closed && s.stopped && forall i | 0 <= i < |s.items| :: s.items[i].stage.Finished?
  }

  lemma StepAfterClose(s: State, a: Action)
    requires Inv(s) && Enabled(s, a) && CloseReturns(s)
    ensures CloseReturns(Apply(s, a)) && |Apply(s, a).items| == |s.items| && Apply(s, a).log == s.log
  {
    match a
    case Progress(i, n, now) =>
      assert ItemFits(s.items[i], i, History(s.log, i));
      assert Reports(i, []) == [];
    case _ =>
  }

  lemma ClosedAt(acts: seq<Action>, run: seq<State>, k: nat)
    requires FromStart(acts, run) && k < |acts| && CloseReturns(run[k])
    ensures run[k + 1].log == run[k].log && |run[k + 1].items| == |run[k].items| && CloseReturns(run[k + 1])
  {
    RunKeepsInv(acts, run, k);
    StepAt(Step, run, acts, k);
    StepAfterClose(run[k], acts[k]);
  }

  lemma {:induction false} StaysClosed(acts: seq<Action>, run: seq<State>, k: nat, m: nat)
    requires FromStart(acts, run) && k <= m <= |acts| && CloseReturns(run[k])
    ensures run[m].log == run[k].log && |run[m].items| == |run[k].items| && CloseReturns(run[m])
    decreases m
  {
    if k < m {
      StaysClosed(acts, run, k, m - 1);
      ClosedAt(acts, run, m - 1);
    }
  }

  /** When Close returns every accepted item was recorded and reported done, none is tracked, and from then on nothing is
      accepted, recorded or reported, and Cancel finds nothing. */
  lemma AfterClose(acts: seq<Action>, run: seq<State>, k: nat, m: nat, i: nat)
    requires FromStart(acts, run) && k <= m <= |acts| && CloseReturns(run[k])
    ensures run[m].log == run[k].log && |run[m].items| == |run[k].items|
    ensures run[m].tracked == {} && !CancelAnswer(run[m], i)
    ensures i < |run[k].items| ==> Complete(History(run[m].log, i))
  {
    StaysClosed(acts, run, k, m);
    RunKeepsInv(acts, run, m);
    if i < |run[k].items| {
      EveryItemHasALifecycle(acts, run, m, i);
    }
    NothingTracked(run[m]);
  }

  lemma NothingTracked(s: State)
    requires Inv(s) && CloseReturns(s)
    ensures s.tracked == {}
  {
    assert forall i | i in s.tracked :: s.items[i].stage.Settled();
  }

  // ---- Cancel ----

  /** Cancel finds exactly the items that were accepted and have not settled. */
  lemma CancelFindsUnsettled(acts: seq<Action>, run: seq<State>, k: nat, id: nat)
    requires FromStart(acts, run) && k <= |acts|
    ensures CancelAnswer(run[k], id) <==> id < |run[k].items| && !run[k].items[id].stage.Settled()
    ensures !CancelAnswer(run[k], id) ==> Apply(run[k], Cancel(id)) == run[k]
  {
    RunKeepsInv(acts, run, k);
  }

  /** The item was cancelled while it waited, and has not been uploaded or given another outcome. */
  ghost predicate CancelledWaiting(s: State, i: nat) {
    && i < |s.items|
    && !s.items[i].launched
    && if s.items[i].stage.Waiting() then s.items[i].ctl.cancelQueued
       else s.items[i].stage.Over() && s.items[i].stage.status == Cancelled
  }

  lemma StepKeepsCancelled(s: State, a: Action, i: nat)
    requires Inv(s) && Enabled(s, a) && CancelledWaiting(s, i)
    ensures CancelledWaiting(Apply(s, a), i)
  {
    if Touched(a) == Some(i) {
      OwnKeepsCancelled(s, a, i);
    } else {
      OthersStay(s, a, i);
    }
  }

  lemma OwnKeepsCancelled(s: State, a: Action, i: nat)
    requires Enabled(s, a) && Touched(a) == Some(i) && CancelledWaiting(s, i)
    requires ItemFits(s.items[i], i, History(s.log, i))
    ensures CancelledWaiting(Apply(s, a), i)
  {
  }

  lemma CancelledAt(acts: seq<Action>, run: seq<State>, k: nat, i: nat)
    requires FromStart(acts, run) && k < |acts| && CancelledWaiting(run[k], i)
    ensures CancelledWaiting(run[k + 1], i)
  {
    RunKeepsInv(acts, run, k);
    StepAt(Step, run, acts, k);
    StepKeepsCancelled(run[k], acts[k], i);
  }

  lemma {:induction false} StaysCancelled(acts: seq<Action>, run: seq<State>, k: nat, m: nat, i: nat)
    requires FromStart(acts, run) && k <= m <= |acts| && CancelledWaiting(run[k], i)
    ensures CancelledWaiting(run[m], i)
    decreases m
  {
    if k < m {
      StaysCancelled(acts, run, k, m - 1, i);
      CancelledAt(acts, run, m - 1, i);
    }
  }

  /** An item whose Cancel succeeded before it started is never uploaded, and is recorded as cancelled. */
  lemma CancelBeforeStart(acts: seq<Action>, run: seq<State>, k: nat, m: nat, i: nat)
    requires FromStart(acts, run) && k < m <= |acts|
    requires acts[k] == Cancel(i) && CancelAnswer(run[k], i)
    requires i < |run[k].items| && run[k].items[i].stage.Waiting()
    ensures i < |run[m].items|
    ensures forall e | e in History(run[m].log, i) :: !e.Upload? && (e.Record? ==> e.status == Cancelled)
  {
    RunKeepsInv(acts, run, k);
    StepAt(Step, run, acts, k);
    assert CancelledWaiting(run[k + 1], i);
    StaysCancelled(acts, run, k + 1, m, i);
    RunKeepsInv(acts, run, m);
    CancelledHistory(run[m].items[i], i, History(run[m].log, i));
  }

  lemma CancelledHistory(it: Item, i: nat, h: seq<Event>)
    requires ItemFits(it, i, h) && !it.launched
    requires it.stage.Waiting() || (it.stage.Over() && it.stage.status == Cancelled)
    ensures forall e | e in h :: !e.Upload? && (e.Record? ==> e.status == Cancelled)
  {
    match it.stage
    case Recorded(status) =>
      var j :| RecordAt(h, it, i, status, j);
    case Finished(status) =>
      var init := h[..|h| - 1];
      var j :| RecordAt(init, it, i, status, j);
      forall e | e in h ensures !e.Upload? && (e.Record? ==> e.status == Cancelled) {
        var k :| 0 <= k < |h| && h[k] == e;
        if k < |init| { assert init[k] == e; }
      }
    case _ =>
  }

  /** The item was cancelled while it ran, and has not failed for another reason. */
  ghost predicate AbortedRunning(s: State, i: nat) {
    && i < |s.items| && s.items[i].ctl.aborted
    && (s.items[i].stage.Active() || (s.items[i].stage.Over() && s.items[i].stage.status != Failed))
  }

  lemma StepKeepsAborted(s: State, a: Action, i: nat)
    requires Inv(s) && Enabled(s, a) && AbortedRunning(s, i)
    ensures AbortedRunning(Apply(s, a), i)
  {
    if Touched(a) == Some(i) {
      OwnKeepsAborted(s, a, i);
    } else {
      OthersStay(s, a, i);
    }
  }

  lemma OwnKeepsAborted(s: State, a: Action, i: nat)
    requires Enabled(s, a) && Touched(a) == Some(i) && AbortedRunning(s, i)
    requires ItemFits(s.items[i], i, History(s.log, i))
    ensures AbortedRunning(Apply(s, a), i)
  {
  }

  lemma AbortedAt(acts: seq<Action>, run: seq<State>, k: nat, i: nat)
    requires FromStart(acts, run) && k < |acts| && AbortedRunning(run[k], i)
    ensures AbortedRunning(run[k + 1], i)
  {
    RunKeepsInv(acts, run, k);
    StepAt(Step, run, acts, k);
    StepKeepsAborted(run[k], acts[k], i);
  }

  lemma CancelAborts(s: State, i: nat)
    requires Inv(s) && CancelAnswer(s, i) && i < |s.items| && s.items[i].stage.Active()
    ensures AbortedRunning(Apply(s, Cancel(i)), i)
  {
  }

  /** An item cancelled while it runs is never recorded as failed: it was sent in time, or it counts as cancelled. */
  lemma {:induction false} CancelWhileRunning(acts: seq<Action>, run: seq<State>, k: nat, m: nat, i: nat)
    requires FromStart(acts, run) && k < m <= |acts|
    requires acts[k] == Cancel(i) && CancelAnswer(run[k], i)
    requires i < |run[k].items| && run[k].items[i].stage.Active()
    ensures AbortedRunning(run[m], i)
    decreases m
  {
    if k + 1 < m {
      CancelWhileRunning(acts, run, k, m - 1, i);
      AbortedAt(acts, run, m - 1, i);
    } else {
      RunKeepsInv(acts, run, k);
      StepAt(Step, run, acts, k);
      CancelAborts(run[k], i);
    }
  }

  // ---- one at a time, in order ----

  ghost predicate InOrder(s: State) {
    && (forall i | 0 <= i < |s.items| :: s.items[i].first <= i)
    && (forall i, j | 0 <= i < |s.items| && s.items[i].first <= j <= i :: s.items[j].first == s.items[i].first)
    && (forall i, j | 0 <= j < i < |s.items| && s.items[j].first == s.items[i].first && !s.items[i].stage.Waiting() ::
          s.items[j].stage.Finished?)
  }

  /** What a step may make of an item. */
  ghost predicate Follows(it: Item, it': Item) {
    it'.first == it.first && (it.stage.Finished? ==> it'.stage.Finished?)
  }

  ghost predicate Advances(s: State, s': State) {
    && |s.items| <= |s'.items|
    && (forall i | 0 <= i < |s.items| :: Follows(s.items[i], s'.items[i]))
    && (forall i | |s.items| <= i < |s'.items| :: s'.items[i].first == |s.items| && s'.items[i].stage.Waiting())
  }

  lemma OwnAdvances(s: State, a: Action, i: nat)
    requires Enabled(s, a) && Touched(a) == Some(i) && i < |s.items|
    ensures |Apply(s, a).items| == |s.items| && Follows(s.items[i], Apply(s, a).items[i])
    ensures s.items[i].stage.Waiting() && a != StartItem(i) ==> Apply(s, a).items[i].stage.Waiting()
  {
  }

  lemma NewItemsWait(s: State, a: Action)
    requires Enabled(s, a)
    ensures |s.items| <= |Apply(s, a).items|
    ensures forall i | |s.items| <= i < |Apply(s, a).items| ::
              Apply(s, a).items[i].first == |s.items| && Apply(s, a).items[i].stage.Waiting()
  {
  }

  lemma StepAdvances(s: State, a: Action)
    requires Enabled(s, a)
    ensures Advances(s, Apply(s, a))
    ensures forall i | 0 <= i < |s.items| && s.items[i].stage.Waiting() && a != StartItem(i) ::
              Apply(s, a).items[i].stage.Waiting()
  {
    var s' := Apply(s, a);
    NewItemsWait(s, a);
    forall i | 0 <= i < |s.items|
      ensures Follows(s.items[i], s'.items[i])
      ensures s.items[i].stage.Waiting() && a != StartItem(i) ==> s'.items[i].stage.Waiting()
    {
      if Touched(a) == Some(i) { OwnAdvances(s, a, i); } else { OthersStay(s, a, i); }
    }
  }

  lemma StepKeepsInOrder(s: State, a: Action)
    requires InOrder(s) && Enabled(s, a)
    ensures InOrder(Apply(s, a))
  {
    var s' := Apply(s, a);
    StepAdvances(s, a);
    assert forall i | 0 <= i < |s.items| :: Follows(s.items[i], s'.items[i]);
    forall i, j | 0 <= j < i < |s'.items| && s'.items[j].first == s'.items[i].first && !s'.items[i].stage.Waiting()
      ensures s'.items[j].stage.Finished?
    {
      if a == StartItem(i) {
        assert s.items[i].first <= s.items[j].first <= j;
      }
    }
  }

  /** Of the items of one call, those before one that has started are finished. */
  lemma {:induction false} SentInOrder(acts: seq<Action>, run: seq<State>, k: nat)
    requires FromStart(acts, run) && k <= |acts|
    ensures InOrder(run[k])
  {
    if k > 0 {
      SentInOrder(acts, run, k - 1);
      StepAt(Step, run, acts, k - 1);
      StepKeepsInOrder(run[k - 1], acts[k - 1]);
    }
  }
}
