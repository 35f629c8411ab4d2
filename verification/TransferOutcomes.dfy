/** How a transfer ends, told from what happened in the run, and what its updates show. */
module TransferOutcomes {
  import opened Wrappers
  import opened Progress
  import opened Runs
  import opened TransferModel
  import opened TransferFacts
  import opened TransferGuarantees

  // ---- what happened to an item so far ----

  ghost predicate NoStart(acts: seq<Action>, k: nat, i: nat)
    requires k <= |acts|
  {
    forall c | 0 <= c < k :: acts[c] != StartItem(i)
  }

  ghost predicate NoEnd(acts: seq<Action>, k: nat, i: nat)
    requires k <= |acts|
  {
    forall c | 0 <= c < k :: acts[c] != End(i, true) && acts[c] != End(i, false)
  }

  /** The item's turn came at q, and only then. */
  ghost predicate TurnAt(acts: seq<Action>, k: nat, i: nat, q: nat)
    requires k <= |acts|
  {
    q < k && acts[q] == StartItem(i) && forall c | 0 <= c < k && acts[c] == StartItem(i) :: c == q
  }

  /** Its upload ended at e, and only then. */
  ghost predicate EndAt(acts: seq<Action>, k: nat, i: nat, e: nat, failed: bool)
    requires k <= |acts|
  {
    && e < k && acts[e] == End(i, failed)
    && forall c | 0 <= c < k && (acts[c] == End(i, true) || acts[c] == End(i, false)) :: c == e
  }

  ghost predicate StoppedBefore(acts: seq<Action>, k: nat)
    requires k <= |acts|
  {
    exists c :: 0 <= c < k && acts[c] == Stop
  }

  /** Cancel was called for the item, once it was accepted, between two points of the run. */
  ghost predicate CancelledIn(acts: seq<Action>, run: seq<State>, lo: nat, hi: nat, i: nat)
    requires hi <= |acts| < |run|
  {
    exists c :: lo <= c < hi && acts[c] == Cancel(i) && i < |run[c].items|
  }

  /** When its turn came, the item had been cancelled or the manager was closing. */
  ghost predicate Hindered(acts: seq<Action>, run: seq<State>, i: nat, q: nat)
    requires q <= |acts| < |run|
  {
    StoppedBefore(acts, q) || CancelledIn(acts, run, 0, q, i)
  }

  /** When its upload ended, the item had been cancelled since its turn or the manager was closing. */
  ghost predicate Aborted(acts: seq<Action>, run: seq<State>, i: nat, q: nat, e: nat)
    requires e <= |acts| < |run|
  {
    StoppedBefore(acts, e) || CancelledIn(acts, run, q, e, i)
  }

  ghost predicate EndedAs(acts: seq<Action>, run: seq<State>, k: nat, i: nat, q: nat, e: nat, failed: bool, status: Status)
    requires k <= |acts| < |run|
  {
    && q < e && EndAt(acts, k, i, e, failed)
    && status == if !failed then Status.Sent else if Aborted(acts, run, i, q, e) then Cancelled else Failed
  }

  ghost predicate OverAs(acts: seq<Action>, run: seq<State>, k: nat, i: nat, q: nat, status: Status)
    requires k <= |acts| < |run|
  {
    && TurnAt(acts, k, i, q)
    && if Hindered(acts, run, i, q) then NoEnd(acts, k, i) && status == Cancelled
       else exists e, failed :: EndedAs(acts, run, k, i, q, e, failed, status)
  }

  ghost predicate RunsSince(acts: seq<Action>, run: seq<State>, k: nat, i: nat, q: nat, aborted: bool)
    requires k <= |acts| < |run|
  {
    && TurnAt(acts, k, i, q) && !Hindered(acts, run, i, q) && NoEnd(acts, k, i)
    && (aborted <==> CancelledIn(acts, run, q, k, i))
  }

  /** The stage of an item is what happened to it. */
  ghost predicate Told(acts: seq<Action>, run: seq<State>, k: nat, i: nat)
    requires k <= |acts| < |run|
  {
    if i >= |run[k].items| then NoStart(acts, k, i) && NoEnd(acts, k, i) && !CancelledIn(acts, run, 0, k, i)
    else
      var it := run[k].items[i];
      if it.stage.Waiting() then
        && NoStart(acts, k, i) && NoEnd(acts, k, i)
        && (it.ctl.cancelQueued <==> CancelledIn(acts, run, 0, k, i)) && !it.ctl.running && !it.ctl.aborted
      else if it.stage.Active() then it.ctl.running && exists q :: RunsSince(acts, run, k, i, q, it.ctl.aborted)
      else exists q :: OverAs(acts, run, k, i, q, it.stage.status)
  }

  // ---- one step ----

  lemma StopTold(acts: seq<Action>, run: seq<State>, k: nat)
    requires FromStart(acts, run) && k < |acts|
    ensures StoppedBefore(acts, k + 1) <==> StoppedBefore(acts, k) || acts[k] == Stop
  {
  }

  lemma {:induction false} StoppedMeans(acts: seq<Action>, run: seq<State>, k: nat)
    requires FromStart(acts, run) && k <= |acts|
    ensures run[k].stopped <==> StoppedBefore(acts, k)
  {
    if k > 0 {
      StoppedMeans(acts, run, k - 1);
      StopTold(acts, run, k - 1);
      StepAt(Step, run, acts, k - 1);
      StopStays(run[k - 1], acts[k - 1]);
    }
  }

  lemma StopStays(s: State, a: Action)
    requires Enabled(s, a)
    ensures Apply(s, a).stopped <==> s.stopped || a == Stop
  {
  }

  /** Of one more action, only those about the item tell something about it. */
  lemma OneMoreAction(acts: seq<Action>, run: seq<State>, k: nat, i: nat)
    requires k < |acts| < |run|
    ensures NoStart(acts, k + 1, i) <==> NoStart(acts, k, i) && acts[k] != StartItem(i)
    ensures NoEnd(acts, k + 1, i) <==> NoEnd(acts, k, i) && acts[k] != End(i, true) && acts[k] != End(i, false)
    ensures forall lo: nat | lo <= k ::
              CancelledIn(acts, run, lo, k + 1, i) <==>
              CancelledIn(acts, run, lo, k, i) || (acts[k] == Cancel(i) && i < |run[k].items|)
  {
    forall lo: nat | lo <= k
      ensures CancelledIn(acts, run, lo, k + 1, i) <==>
              CancelledIn(acts, run, lo, k, i) || (acts[k] == Cancel(i) && i < |run[k].items|)
    {
      OneMoreCancel(acts, run, lo, k, i);
    }
  }

  lemma OneMoreCancel(acts: seq<Action>, run: seq<State>, lo: nat, k: nat, i: nat)
    requires lo <= k < |acts| < |run|
    ensures CancelledIn(acts, run, lo, k + 1, i) <==>
            CancelledIn(acts, run, lo, k, i) || (acts[k] == Cancel(i) && i < |run[k].items|)
  {
    if acts[k] == Cancel(i) && i < |run[k].items| {
      assert CancelledIn(acts, run, lo, k + 1, i);
    }
    if c :| lo <= c < k && acts[c] == Cancel(i) && i < |run[c].items| {
      assert lo <= c < k + 1;
    }
  }

  lemma OneMoreTurn(acts: seq<Action>, k: nat, i: nat, q: nat)
    requires k < |acts|
    ensures TurnAt(acts, k, i, q) && acts[k] != StartItem(i) ==> TurnAt(acts, k + 1, i, q)
    ensures NoStart(acts, k, i) && acts[k] == StartItem(i) ==> TurnAt(acts, k + 1, i, k)
  {
  }

  lemma OneMoreEnd(acts: seq<Action>, k: nat, i: nat, e: nat, failed: bool)
    requires k < |acts|
    ensures EndAt(acts, k, i, e, failed) && acts[k] != End(i, true) && acts[k] != End(i, false) ==>
              EndAt(acts, k + 1, i, e, failed)
    ensures NoEnd(acts, k, i) && acts[k] == End(i, failed) ==> EndAt(acts, k + 1, i, k, failed)
  {
  }

  lemma StillOver(acts: seq<Action>, run: seq<State>, k: nat, i: nat, q: nat, status: Status)
    requires k < |acts| < |run| && OverAs(acts, run, k, i, q, status)
    requires acts[k] != StartItem(i) && acts[k] != End(i, true) && acts[k] != End(i, false)
    ensures OverAs(acts, run, k + 1, i, q, status)
  {
    OneMoreTurn(acts, k, i, q);
    OneMoreAction(acts, run, k, i);
    if !Hindered(acts, run, i, q) {
      var e, failed :| EndedAs(acts, run, k, i, q, e, failed, status);
      OneMoreEnd(acts, k, i, e, failed);
      assert EndedAs(acts, run, k + 1, i, q, e, failed, status);
    }
  }

  lemma StillRuns(acts: seq<Action>, run: seq<State>, k: nat, i: nat, q: nat, was: bool, aborted: bool)
    requires k < |acts| < |run| && RunsSince(acts, run, k, i, q, was) && i < |run[k].items|
    requires acts[k] != StartItem(i) && acts[k] != End(i, true) && acts[k] != End(i, false)
    requires aborted <==> was || acts[k] == Cancel(i)
    ensures RunsSince(acts, run, k + 1, i, q, aborted)
  {
    OneMoreTurn(acts, k, i, q);
    OneMoreAction(acts, run, k, i);
  }

  lemma NewTold(acts: seq<Action>, run: seq<State>, k: nat, i: nat)
    requires FromStart(acts, run) && k < |acts| && i >= |run[k].items| && Told(acts, run, k, i)
    ensures Told(acts, run, k + 1, i)
  {
    StepAt(Step, run, acts, k);
    OneMoreAction(acts, run, k, i);
    NewIsUntouched(run[k], acts[k], i);
  }

  lemma NewIsUntouched(s: State, a: Action, i: nat)
    requires Enabled(s, a) && i >= |s.items|
    ensures a != StartItem(i) && a != End(i, true) && a != End(i, false)
    ensures i < |Apply(s, a).items| ==>
              Apply(s, a).items[i].stage == Accepted && Apply(s, a).items[i].ctl == Control(false, false, false)
  {
  }

  lemma OtherTold(acts: seq<Action>, run: seq<State>, k: nat, i: nat)
    requires FromStart(acts, run) && k < |acts| && i < |run[k].items| && Told(acts, run, k, i)
    requires Touched(acts[k]) != Some(i)
    ensures Told(acts, run, k + 1, i)
  {
    StepAt(Step, run, acts, k);
    OthersStay(run[k], acts[k], i);
    OneMoreAction(acts, run, k, i);
    var it := run[k].items[i];
    if it.stage.Active() {
      var q :| RunsSince(acts, run, k, i, q, it.ctl.aborted);
      StillRuns(acts, run, k, i, q, it.ctl.aborted, it.ctl.aborted);
    } else if it.stage.Over() {
      var q :| OverAs(acts, run, k, i, q, it.stage.status);
      StillOver(acts, run, k, i, q, it.stage.status);
    }
  }

  /** What an action makes of the item that it is about. */
  ghost predicate Becomes(s: State, a: Action, it: Item, it': Item) {
    match a
    case StartItem(i) =>
      && it.stage.Waiting()
      && if it.ctl.cancelQueued || s.stopped then it'.stage == Ended(Cancelled)
         else it'.stage.Active() && it'.ctl == it.ctl.(running := true)
    case End(i, failed) =>
      it.stage.Active() && it'.stage == Ended(if !failed then Status.Sent else if it.ctl.aborted || s.stopped then Cancelled else Failed)
    case Cancel(i) =>
      it'.stage == it.stage
      && (it.stage.Waiting() && !it.ctl.running ==> it'.ctl == it.ctl.(cancelQueued := true))
      && (it.stage.Active() && it.ctl.running ==> it'.ctl == it.ctl.(aborted := true))
    case _ =>
      && it'.ctl == it.ctl && (it.stage.Waiting() <==> it'.stage.Waiting()) && (it.stage.Active() <==> it'.stage.Active())
      && (it.stage.Over() ==> it'.stage.status == it.stage.status)
  }

  lemma StepBecomes(s: State, a: Action, i: nat)
    requires Inv(s) && Enabled(s, a) && Touched(a) == Some(i) && i < |s.items|
    ensures i < |Apply(s, a).items| && Becomes(s, a, s.items[i], Apply(s, a).items[i])
  {
    assert ItemFits(s.items[i], i, History(s.log, i));
    match a
    case Cancel(_) => CancelBecomes(s, i);
    case StartItem(_) =>
    case End(_, _) =>
    case _ => OtherBecomes(s, a, i);
  }

  lemma CancelBecomes(s: State, i: nat)
    requires i < |s.items| && (i in s.tracked <==> !s.items[i].stage.Settled())
    ensures i < |Apply(s, Cancel(i)).items| && Becomes(s, Cancel(i), s.items[i], Apply(s, Cancel(i)).items[i])
  {
  }

  lemma OtherBecomes(s: State, a: Action, i: nat)
    requires Enabled(s, a) && Touched(a) == Some(i) && i < |s.items| && !a.Cancel? && !a.StartItem? && !a.End?
    ensures i < |Apply(s, a).items| && Becomes(s, a, s.items[i], Apply(s, a).items[i])
  {
  }

  lemma StartTold(acts: seq<Action>, run: seq<State>, k: nat, i: nat)
    requires FromStart(acts, run) && k < |acts| && i < |run[k].items| && Told(acts, run, k, i)
    requires acts[k] == StartItem(i) && i < |run[k + 1].items|
    requires Becomes(run[k], acts[k], run[k].items[i], run[k + 1].items[i])
    ensures Told(acts, run, k + 1, i)
  {
    OneMoreTurn(acts, k, i, k);
    OneMoreAction(acts, run, k, i);
    StoppedMeans(acts, run, k);
    var it' := run[k + 1].items[i];
    if Hindered(acts, run, i, k) {
      assert OverAs(acts, run, k + 1, i, k, Cancelled);
    } else {
      assert !CancelledIn(acts, run, k, k + 1, i);
      assert RunsSince(acts, run, k + 1, i, k, it'.ctl.aborted);
    }
  }

  lemma EndTold(acts: seq<Action>, run: seq<State>, k: nat, i: nat, failed: bool)
    requires FromStart(acts, run) && k < |acts| && i < |run[k].items| && Told(acts, run, k, i)
    requires acts[k] == End(i, failed) && i < |run[k + 1].items|
    requires Becomes(run[k], acts[k], run[k].items[i], run[k + 1].items[i])
    ensures Told(acts, run, k + 1, i)
  {
    var it := run[k].items[i];
    var q :| RunsSince(acts, run, k, i, q, it.ctl.aborted);
    OneMoreTurn(acts, k, i, q);
    OneMoreEnd(acts, k, i, k, failed);
    StoppedMeans(acts, run, k);
    assert EndedAs(acts, run, k + 1, i, q, k, failed, run[k + 1].items[i].stage.status);
    assert OverAs(acts, run, k + 1, i, q, run[k + 1].items[i].stage.status);
  }

  lemma RestTold(acts: seq<Action>, run: seq<State>, k: nat, i: nat)
    requires FromStart(acts, run) && k < |acts| && i < |run[k].items| && Told(acts, run, k, i)
    requires !acts[k].StartItem? && !acts[k].End? && Touched(acts[k]) == Some(i) && i < |run[k + 1].items|
    requires Becomes(run[k], acts[k], run[k].items[i], run[k + 1].items[i])
    ensures Told(acts, run, k + 1, i)
  {
    OneMoreAction(acts, run, k, i);
    var it, it' := run[k].items[i], run[k + 1].items[i];
    if it.stage.Active() {
      var q :| RunsSince(acts, run, k, i, q, it.ctl.aborted);
      StillRuns(acts, run, k, i, q, it.ctl.aborted, it'.ctl.aborted);
    } else if it.stage.Over() {
      var q :| OverAs(acts, run, k, i, q, it.stage.status);
      StillOver(acts, run, k, i, q, it.stage.status);
    }
  }

  lemma StepTold(acts: seq<Action>, run: seq<State>, k: nat, i: nat)
    requires FromStart(acts, run) && k < |acts| && Told(acts, run, k, i)
    ensures Told(acts, run, k + 1, i)
  {
    if i >= |run[k].items| {
      NewTold(acts, run, k, i);
    } else if Touched(acts[k]) != Some(i) {
      OtherTold(acts, run, k, i);
    } else {
      RunKeepsInv(acts, run, k);
      StepAt(Step, run, acts, k);
      StepBecomes(run[k], acts[k], i);
      match acts[k]
      case StartItem(_) => StartTold(acts, run, k, i);
      case End(_, failed) => EndTold(acts, run, k, i, failed);
      case _ => RestTold(acts, run, k, i);
    }
  }

  lemma {:induction false} EveryStageIsTold(acts: seq<Action>, run: seq<State>, k: nat, i: nat)
    requires FromStart(acts, run) && k <= |acts|
    ensures Told(acts, run, k, i)
  {
    if k > 0 {
      EveryStageIsTold(acts, run, k - 1, i);
      StepTold(acts, run, k - 1, i);
    }
  }

  // ---- the recorded outcome ----

  /** The upload went through. */
  ghost predicate WentThrough(acts: seq<Action>, k: nat, i: nat)
    requires k <= |acts|
  {
    exists e :: 0 <= e < k && acts[e] == End(i, false)
  }

  /** The upload failed, after the item was cancelled or the manager began to close, or before. */
  ghost predicate BrokeOff(acts: seq<Action>, run: seq<State>, k: nat, i: nat, aborted: bool)
    requires k <= |acts| < |run|
  {
    exists q, e :: BrokeOffAt(acts, run, k, i, q, e, aborted)
  }

  ghost predicate BrokeOffAt(acts: seq<Action>, run: seq<State>, k: nat, i: nat, q: nat, e: nat, aborted: bool)
    requires k <= |acts| < |run|
  {
    q < e < k && acts[q] == StartItem(i) && acts[e] == End(i, true) && (aborted <==> Aborted(acts, run, i, q, e))
  }

  ghost predicate OutcomeRight(acts: seq<Action>, run: seq<State>, k: nat, i: nat, status: Status)
    requires k <= |acts| < |run|
  {
    && (status == Status.Sent <==> WentThrough(acts, k, i))
    && (status == Failed <==> BrokeOff(acts, run, k, i, false))
    && (status == Cancelled <==> BrokeOff(acts, run, k, i, true) || NoEnd(acts, k, i))
  }

  lemma OverIsRight(acts: seq<Action>, run: seq<State>, k: nat, i: nat, q: nat, status: Status)
    requires k <= |acts| < |run| && OverAs(acts, run, k, i, q, status)
    ensures OutcomeRight(acts, run, k, i, status)
  {
    if !Hindered(acts, run, i, q) {
      var e, failed :| EndedAs(acts, run, k, i, q, e, failed, status);
      assert failed ==> BrokeOffAt(acts, run, k, i, q, e, Aborted(acts, run, i, q, e));
    }
  }

  /** In every run: an item is recorded, and reported done, as sent exactly if its upload went through; as failed exactly if
      its upload failed while it was neither cancelled nor the manager closing; and as cancelled exactly if its upload failed
      while it was, or never took place. */
  lemma OutcomeIsTold(acts: seq<Action>, run: seq<State>, k: nat, i: nat, e: Event)
    requires FromStart(acts, run) && k <= |acts| && e in run[k].log && e.id == i
    ensures e.Record? ==> OutcomeRight(acts, run, k, i, e.status)
    ensures e.Report? && e.u.done ==> e.u.status.Some? && OutcomeRight(acts, run, k, i, e.u.status.value)
  {
    RunKeepsInv(acts, run, k);
    EveryStageIsTold(acts, run, k, i);
    InHistory(run[k].log, e);
    assert ItemFits(run[k].items[i], i, History(run[k].log, i));
    StatusInHistory(run[k].items[i], i, History(run[k].log, i), e);
    if run[k].items[i].stage.Over() {
      var q :| OverAs(acts, run, k, i, q, run[k].items[i].stage.status);
      OverIsRight(acts, run, k, i, q, run[k].items[i].stage.status);
    }
  }

  lemma {:induction false} InHistory(log: seq<Event>, e: Event)
    requires e in log
    ensures e in History(log, e.id)
  {
    var n := |log| - 1;
    assert log == log[..n] + [log[n]];
    if e != log[n] {
      InHistory(log[..n], e);
    }
  }

  lemma StatusInHistory(it: Item, i: nat, h: seq<Event>, e: Event)
    requires ItemFits(it, i, h) && e in h
    ensures e.Record? ==> it.stage.Over() && e.status == it.stage.status
    ensures e.Report? && e.u.done ==> it.stage.Over() && e.u.status == Some(it.stage.status)
  {
    var k :| 0 <= k < |h| && h[k] == e;
    match it.stage
    case Recorded(status) =>
      var j :| RecordAt(h, it, i, status, j);
    case Finished(status) =>
      var init := h[..|h| - 1];
      var j :| RecordAt(init, it, i, status, j);
      if k < |init| { assert init[k] == e; }
    case _ =>
  }

  /** An item that is running or over as sent was uploaded. */
  ghost predicate UploadLogged(s: State, i: nat) {
    i < |s.items| && (s.items[i].stage.Sending? || (s.items[i].stage.Over() && s.items[i].stage.status == Status.Sent)) ==>
      Upload(i) in s.log
  }

  lemma StepUploads(s: State, a: Action, t: State, i: nat)
    requires UploadLogged(s, i) && Step(s, a) == Some(t)
    ensures UploadLogged(t, i)
  {
    LogGrows(s, a);
  }

  lemma LogGrows(s: State, a: Action)
    requires Enabled(s, a)
    ensures s.log <= Apply(s, a).log
  {
  }

  /** What is recorded as sent was uploaded. */
  lemma SentWasUploaded(acts: seq<Action>, run: seq<State>, k: nat, i: nat)
    requires FromStart(acts, run) && k <= |acts| && Record(i, Status.Sent) in run[k].log
    ensures Upload(i) in run[k].log
  {
    forall s, a, t | UploadLogged(s, i) && Step(s, a) == Some(t) ensures UploadLogged(t, i) { StepUploads(s, a, t, i); }
    HoldsThroughout(Step, s => UploadLogged(s, i), run, acts, k);
    RunKeepsInv(acts, run, k);
    InHistory(run[k].log, Record(i, Status.Sent));
    StatusInHistory(run[k].items[i], i, History(run[k].log, i), Record(i, Status.Sent));
  }

  /** An item whose turn came is uploaded unless it had been cancelled or the manager was closing. */
  lemma TurnMeans(acts: seq<Action>, run: seq<State>, q: nat, i: nat)
    requires FromStart(acts, run) && q < |acts| && acts[q] == StartItem(i)
    ensures i < |run[q + 1].items|
    ensures if Hindered(acts, run, i, q) then run[q + 1].items[i].stage == Ended(Cancelled)
            else run[q + 1].items[i].stage == Started
  {
    StoppedMeans(acts, run, q);
    EveryStageIsTold(acts, run, q, i);
    StepAt(Step, run, acts, q);
  }

  // ---- what is accepted ----

  /** SendPaths accepts every path once, in order, under the next IDs, unless the manager was closed before. */
  lemma EveryPathIsAccepted(acts: seq<Action>, run: seq<State>, k: nat, paths: seq<string>, j: nat)
    requires FromStart(acts, run) && k < |acts| && acts[k] == SendPaths(paths)
    ensures run[k].closed <==> exists c :: 0 <= c < k && acts[c] == Close
    ensures var n := |run[k].items|;
            if run[k].closed then run[k + 1] == run[k]
            else
              && |run[k + 1].items| == n + |paths|
              && (j < |paths| ==> run[k + 1].items[n + j].path == paths[j] && CancelAnswer(run[k + 1], n + j))
              && (j < n ==> run[k + 1].items[j] == run[k].items[j])
  {
    ClosedMeans(acts, run, k);
    StepAt(Step, run, acts, k);
  }

  lemma {:induction false} ClosedMeans(acts: seq<Action>, run: seq<State>, k: nat)
    requires FromStart(acts, run) && k <= |acts|
    ensures run[k].closed <==> exists c :: 0 <= c < k && acts[c] == Close
  {
    if k > 0 {
      ClosedMeans(acts, run, k - 1);
      StepAt(Step, run, acts, k - 1);
      CloseStays(run[k - 1], acts[k - 1]);
    }
  }

  lemma CloseStays(s: State, a: Action)
    requires Enabled(s, a)
    ensures Apply(s, a).closed <==> s.closed || a == Close
  {
  }

  /** The items from n up to m are those of one call. */
  ghost predicate OneCall(s: State, n: nat, m: nat) {
    && n <= m <= |s.items|
    && forall j | 0 <= j < |s.items| :: s.items[j].first <= j && (j < m <= n || (s.items[j].first == n <==> n <= j < m))
  }

  lemma NewCallIsOne(s: State, paths: seq<string>)
    requires InOrder(s) && !s.closed && paths != []
    ensures OneCall(Apply(s, SendPaths(paths)), |s.items|, |s.items| + |paths|)
  {
    StepAdvances(s, SendPaths(paths));
  }

  lemma StepOneCall(s: State, a: Action, n: nat, m: nat)
    requires OneCall(s, n, m) && n < m && Enabled(s, a)
    ensures OneCall(Apply(s, a), n, m)
  {
    StepAdvances(s, a);
    assert forall j | 0 <= j < |s.items| :: Follows(s.items[j], Apply(s, a).items[j]);
  }

  lemma {:induction false} StaysOneCall(acts: seq<Action>, run: seq<State>, c: nat, paths: seq<string>, k: nat)
    requires FromStart(acts, run) && c < k <= |acts| && acts[c] == SendPaths(paths) && !run[c].closed && paths != []
    ensures OneCall(run[k], |run[c].items|, |run[c].items| + |paths|)
    decreases k
  {
    StepAt(Step, run, acts, k - 1);
    if c + 1 < k {
      StaysOneCall(acts, run, c, paths, k - 1);
      StepOneCall(run[k - 1], acts[k - 1], |run[c].items|, |run[c].items| + |paths|);
    } else {
      SentInOrder(acts, run, c);
      NewCallIsOne(run[c], paths);
    }
  }

  /** An item that waits for its turn waits only for items of its own call: all of them must have been announced, and those
      before it be finished. */
  lemma OnlyItsCallHoldsItUp(acts: seq<Action>, run: seq<State>, c: nat, paths: seq<string>, k: nat, i: nat)
    requires FromStart(acts, run) && c < k <= |acts| && acts[c] == SendPaths(paths) && !run[c].closed
    requires var n := |run[c].items|; n <= i < n + |paths|
    ensures var n, items := |run[c].items|, run[k].items;
            && n + |paths| <= |items|
            && (Enabled(run[k], StartItem(i)) <==>
                  && items[i].stage.Announced?
                  && (forall j | n <= j < n + |paths| :: !items[j].stage.Accepted?)
                  && forall j | n <= j < i :: items[j].stage.Finished?)
  {
    StaysOneCall(acts, run, c, paths, k);
  }

  /** A worker starts only when every item of its call was announced. */
  lemma AnnouncedBeforeStart(acts: seq<Action>, run: seq<State>, k: nat, i: nat, j: nat)
    requires FromStart(acts, run) && k <= |acts| && i < |run[k].items| && j < |run[k].items|
    requires run[k].items[i].first == run[k].items[j].first && !run[k].items[i].stage.Waiting()
    ensures !run[k].items[j].stage.Accepted?
    decreases k
  {
    if k > 0 {
      StepAt(Step, run, acts, k - 1);
      SentInOrder(acts, run, k - 1);
      StepAnnounced(run[k - 1], acts[k - 1], i, j);
      var s := run[k - 1];
      if i < |s.items| && j < |s.items| && !s.items[i].stage.Waiting() {
        AnnouncedBeforeStart(acts, run, k - 1, i, j);
      }
    }
  }

  lemma StepAnnounced(s: State, a: Action, i: nat, j: nat)
    requires InOrder(s) && Enabled(s, a) && i < |Apply(s, a).items| && j < |Apply(s, a).items|
    requires Apply(s, a).items[i].first == Apply(s, a).items[j].first && !Apply(s, a).items[i].stage.Waiting()
    ensures i < |s.items| && j < |s.items| && s.items[i].first == s.items[j].first
    ensures s.items[i].stage.Waiting() ==> !Apply(s, a).items[j].stage.Accepted?
    ensures !s.items[j].stage.Accepted? ==> !Apply(s, a).items[j].stage.Accepted?
  {
    StepAdvances(s, a);
  }

  // ---- what the updates show ----

  ghost predicate Logs(run: seq<State>, k: nat, e: Event)
    requires k + 1 < |run|
  {
    run[k + 1].log == run[k].log + [e]
  }

  /** What an update shows of the bytes sent: of a file the bytes up to its size, and of a folder the same fraction of its
      content as of its stream, rounded down. */
  ghost predicate Shows(it: Item, n: int64, sent: int64) {
    var total := it.rep.base.total;
    if !it.rep.base.folder then sent == if n < total then n else total
    else if n <= 0 || it.tarSize <= 0 || total <= 0 then sent == 0
    else if n >= it.tarSize then sent == total
    else sent == n * total / it.tarSize
  }

  /** An update about progress goes out exactly if the last update but for the first is 100 milliseconds old and the item is
      not reported done; it shows the progress, and everything else as before. */
  lemma ProgressShows(acts: seq<Action>, run: seq<State>, k: nat, i: nat, n: int64, now: int)
    requires FromStart(acts, run) && k < |acts| && acts[k] == Progress(i, n, now)
    ensures i < |run[k].items| && i < |run[k + 1].items|
    ensures var it := run[k].items[i];
            && Shows(it, n, run[k + 1].items[i].rep.sent)
            && if now - it.rep.last >= 100 && !it.stage.Finished?
               then Logs(run, k, Report(i, it.rep.base.(sent := run[k + 1].items[i].rep.sent)))
               else run[k + 1].log == run[k].log
  {
    RunKeepsInv(acts, run, k);
    StepAt(Step, run, acts, k);
    var it := run[k].items[i];
    assert ItemFits(it, i, History(run[k].log, i));
    if now - it.rep.last >= 100 && !it.stage.Finished? {
      var u := it.rep.base.(sent := run[k + 1].items[i].rep.sent);
      assert Reports(i, [u]) == [Report(i, u)];
    } else {
      assert Reports(i, []) == [];
    }
  }

  /** While a folder is scanned, the item shows that it is one. */
  lemma ScanShows(acts: seq<Action>, run: seq<State>, k: nat, i: nat, now: int)
    requires FromStart(acts, run) && k < |acts| && acts[k] == BeginScan(i, now)
    ensures i < |run[k].items| && Logs(run, k, Report(i, Update(run[k].items[i].path, true, 0, 0, false, None)))
  {
    RunKeepsInv(acts, run, k);
    StepAt(Step, run, acts, k);
    var it := run[k].items[i];
    assert ItemFits(it, i, History(run[k].log, i));
    var u := Update(it.path, true, 0, 0, false, None);
    assert Reports(i, [u]) == [Report(i, u)];
  }

  /** Once examined, an item shows what was found: whether it is a folder, and how many bytes it has. */
  lemma ExaminedShows(acts: seq<Action>, run: seq<State>, k: nat, i: nat, folder: bool, total: int64, tarSize: int64, now: int)
    requires FromStart(acts, run) && k < |acts| && acts[k] == Examine(i, folder, total, tarSize, now)
    ensures i < |run[k].items| && i < |run[k + 1].items|
    ensures Logs(run, k, Report(i, Update(run[k].items[i].path, folder, 0, total, false, None)))
    ensures run[k + 1].items[i].rep.base == Update(run[k].items[i].path, folder, 0, total, false, None)
  {
    RunKeepsInv(acts, run, k);
    StepAt(Step, run, acts, k);
    var it := run[k].items[i];
    assert ItemFits(it, i, History(run[k].log, i));
    var u := Update(it.path, folder, 0, total, false, None);
    assert Reports(i, [u]) == [Report(i, u)];
  }

  /** The last update shows what was found, the outcome, and all of the bytes if the item was sent. */
  lemma FinishedShows(acts: seq<Action>, run: seq<State>, k: nat, i: nat)
    requires FromStart(acts, run) && k < |acts| && acts[k] == Finish(i)
    ensures i < |run[k].items| && run[k].items[i].stage.Recorded?
    ensures var it := run[k].items[i];
            var sent := if it.stage.status == Status.Sent then it.rep.base.total else it.rep.sent;
            Logs(run, k, Report(i, it.rep.base.(sent := sent, done := true, status := Some(it.stage.status))))
  {
    RunKeepsInv(acts, run, k);
    StepAt(Step, run, acts, k);
    var it := run[k].items[i];
    assert ItemFits(it, i, History(run[k].log, i));
    var u := FinalUpdate(it.rep, it.stage.status);
    assert Reports(i, [u]) == [Report(i, u)];
  }

  // ---- how often ----

  /** The time at which an action reads the clock for an item. */
  function ReadsClock(a: Action, i: nat): Option<int> {
    match a
    case BeginScan(j, now) => if j == i then Some(now) else None
    case Examine(j, _, _, _, now) => if j == i then Some(now) else None
    case Progress(j, _, now) => if j == i then Some(now) else None
    case _ => None
  }

  /** The clock does not go back, as an item reads it. */
  ghost predicate ClockGoesOn(acts: seq<Action>, i: nat) {
    forall c, d | 0 <= c <= d < |acts| && ReadsClock(acts[c], i).Some? && ReadsClock(acts[d], i).Some? ::
      ReadsClock(acts[c], i).value <= ReadsClock(acts[d], i).value
  }

  lemma LastMoves(s: State, a: Action, i: nat)
    requires Enabled(s, a) && i < |s.items|
    ensures i < |Apply(s, a).items|
    ensures Apply(s, a).items[i].rep.last == s.items[i].rep.last || ReadsClock(a, i) == Some(Apply(s, a).items[i].rep.last)
    ensures ReadsClock(a, i).Some? && Apply(s, a).log != s.log ==> Apply(s, a).items[i].rep.last == ReadsClock(a, i).value
  {
    if Touched(a) != Some(i) {
      OthersStay(s, a, i);
    } else if a.Progress? {
      assert Reports(i, []) == [];
    }
  }

  lemma {:induction false} LastIsLate(acts: seq<Action>, run: seq<State>, i: nat, c: nat, k: nat)
    requires FromStart(acts, run) && c < k <= |acts| && i < |run[c].items| && ClockGoesOn(acts, i)
    requires ReadsClock(acts[c], i).Some? && run[c + 1].log != run[c].log
    ensures i < |run[k].items| && run[k].items[i].rep.last >= ReadsClock(acts[c], i).value
    decreases k
  {
    if k == c + 1 {
      LastMovesAt(acts, run, c, i);
    } else {
      LastIsLate(acts, run, i, c, k - 1);
      LastMovesAt(acts, run, k - 1, i);
    }
  }

  lemma LastMovesAt(acts: seq<Action>, run: seq<State>, k: nat, i: nat)
    requires FromStart(acts, run) && k < |acts| && i < |run[k].items|
    ensures i < |run[k + 1].items|
    ensures var last := run[k + 1].items[i].rep.last;
            && (last == run[k].items[i].rep.last || ReadsClock(acts[k], i) == Some(last))
            && (ReadsClock(acts[k], i).Some? && run[k + 1].log != run[k].log ==> last == ReadsClock(acts[k], i).value)
  {
    StepAt(Step, run, acts, k);
    LastMoves(run[k], acts[k], i);
  }

  /** Two updates of an item, the later about progress, are at least 100 milliseconds apart. */
  lemma UpdatesAreSpaced(acts: seq<Action>, run: seq<State>, i: nat, c: nat, k: nat)
    requires FromStart(acts, run) && c < k < |acts| && i < |run[c].items| && ClockGoesOn(acts, i)
    requires ReadsClock(acts[c], i).Some? && run[c + 1].log != run[c].log
    requires acts[k].Progress? && acts[k].i == i && run[k + 1].log != run[k].log
    ensures acts[k].now - ReadsClock(acts[c], i).value >= 100
  {
    LastIsLate(acts, run, i, c, k);
    ProgressShows(acts, run, k, i, acts[k].n, acts[k].now);
  }
}
