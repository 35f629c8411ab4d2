/** No item gets stuck: however the workers are scheduled they finish what was accepted, so Close returns. */
module TransferProgress {
  import opened Runs
  import opened Wrappers
  import opened TransferModel
  import opened TransferFacts
  import opened TransferGuarantees

  /** How many steps of its worker an item may still need. */
  function Left(st: Stage): nat {
    match st
    case Accepted => 9
    case Announced => 8
    case Started => 7
    case Scanning => 6
    case Examined => 5
    case Sending => 4
    case Ended(_) => 3
    case Dropped(_) => 2
    case Recorded(_) => 1
    case Finished(_) => 0
  }

  function Work(items: seq<Item>): nat {
    if items == [] then 0 else Work(items[..|items| - 1]) + Left(items[|items| - 1].stage)
  }

  lemma {:induction false} WorkShrinks(items: seq<Item>, i: nat, it: Item)
    requires i < |items|
    ensures Work(items[i := it]) == Work(items) - Left(items[i].stage) + Left(it.stage)
  {
    var n := |items| - 1;
    if i < n {
      assert items[i := it][..n] == items[..n][i := it];
      WorkShrinks(items[..n], i, it);
    } else {
      assert items[i := it][..n] == items[..n];
    }
  }

  /** The steps that take an item further; the others are calls from outside and progress callbacks. */
  predicate WorkerStep(a: Action) {
    || a.Announce? || a.StartItem? || a.BeginScan? || a.Examine? || a.Launch?
    || a.End? || a.Drop? || a.RecordItem? || a.Finish?
  }

  lemma OwnShrinks(s: State, a: Action, i: nat)
    requires Enabled(s, a) && Touched(a) == Some(i) && i < |s.items|
    ensures Apply(s, a).items == s.items[i := Apply(s, a).items[i]]
    ensures if WorkerStep(a) then Left(Apply(s, a).items[i].stage) < Left(s.items[i].stage)
            else Apply(s, a).items[i].stage == s.items[i].stage
  {
  }

  /** Every step of a worker leaves less work, and no other step adds any, unless new items are accepted. */
  lemma StepShrinks(s: State, a: Action)
    requires Enabled(s, a) && (a.SendPaths? ==> s.closed)
    ensures |Apply(s, a).items| == |s.items| && (s.closed ==> Apply(s, a).closed)
    ensures Work(Apply(s, a).items) + (if WorkerStep(a) then 1 else 0) <= Work(s.items)
  {
    if Touched(a).Some? && Touched(a).value < |s.items| {
      var i := Touched(a).value;
      OwnShrinks(s, a, i);
      WorkShrinks(s.items, i, Apply(s, a).items[i]);
    }
  }

  function WorkerSteps(acts: seq<Action>): nat {
    if acts == [] then 0 else (if WorkerStep(acts[0]) then 1 else 0) + WorkerSteps(acts[1..])
  }

  /** Whatever else happens meanwhile, once nothing new is accepted the workers take at most as many steps as there is work. */
  lemma {:induction false} WorkIsBounded(s: State, acts: seq<Action>, t: State)
    requires Leads(Step, s, acts, t) && (s.closed || forall a | a in acts :: !a.SendPaths?)
    ensures WorkerSteps(acts) + Work(t.items) <= Work(s.items) && |t.items| == |s.items| && (s.closed ==> t.closed)
    decreases |acts|
  {
    if acts != [] {
      assert acts[0] in acts;
      StepShrinks(s, acts[0]);
      WorkIsBounded(Apply(s, acts[0]), acts[1..], t);
    }
  }

  ghost predicate Unfinished(s: State, i: nat) { i < |s.items| && !s.items[i].stage.Finished? }

  ghost predicate LeastUnfinished(s: State, i: nat) {
    Unfinished(s, i) && forall j | 0 <= j < i :: !Unfinished(s, j)
  }

  lemma {:induction false} FindLeast(s: State, i: nat) returns (m: nat)
    requires Unfinished(s, i)
    ensures LeastUnfinished(s, m)
    decreases i
  {
    if j: nat :| j < i && Unfinished(s, j) {
      m := FindLeast(s, j);
    } else {
      m := i;
    }
  }

  ghost predicate AcceptedBeside(s: State, i: nat, j: nat)
    requires i < |s.items|
  {
    j < |s.items| && s.items[j].first == s.items[i].first && s.items[j].stage.Accepted?
  }

  lemma {:induction false} FirstAccepted(s: State, i: nat, j: nat) returns (m: nat)
    requires InOrder(s) && i < |s.items| && AcceptedBeside(s, i, j)
    ensures AcceptedBeside(s, i, m) && MayAnnounce(s, m)
    decreases j
  {
    if k: nat :| k < j && AcceptedBeside(s, i, k) {
      m := FirstAccepted(s, i, k);
    } else {
      m := j;
      forall k | s.items[m].first <= k < m ensures !s.items[k].stage.Accepted? {
        assert s.items[k].first == s.items[m].first;
        assert !AcceptedBeside(s, i, k);
      }
    }
  }

  lemma CanStart(s: State, i: nat)
    requires LeastUnfinished(s, i) && s.items[i].stage.Announced? && forall k: nat :: !AcceptedBeside(s, i, k)
    ensures MayStart(s, i)
  {
    forall j | 0 <= j < |s.items| && s.items[j].first == s.items[i].first ensures !s.items[j].stage.Accepted? {
      assert !AcceptedBeside(s, i, j);
    }
    forall j | s.items[i].first <= j < i ensures s.items[j].stage.Finished? {
      assert !Unfinished(s, j);
    }
  }

  /** While an item is unfinished some worker has a step to take. */
  lemma NeverStuck(s: State, i: nat) returns (a: Action)
    requires InOrder(s) && Unfinished(s, i)
    ensures Enabled(s, a) && WorkerStep(a)
  {
    var j := FindLeast(s, i);
    match s.items[j].stage
    case Accepted =>
      j := FirstAccepted(s, j, j);
      a := Announce(j);
    case Announced =>
      if k: nat :| AcceptedBeside(s, j, k) {
        j := FirstAccepted(s, j, k);
        a := Announce(j);
      } else {
        CanStart(s, j);
        a := StartItem(j);
      }
    case Ended(_) => a := Drop(j);
    case Dropped(_) => a := RecordItem(j);
    case Recorded(_) => a := Action.Finish(j);
    case _ => a := End(j, true);
  }

  /** No worker has a step to take. */
  ghost predicate Rests(s: State) {
    forall a | WorkerStep(a) :: !Enabled(s, a)
  }

  lemma RestMeansFinished(s: State)
    requires InOrder(s)
    ensures Rests(s) ==> forall i | 0 <= i < |s.items| :: s.items[i].stage.Finished?
  {
    if i: nat :| Unfinished(s, i) {
      var a := NeverStuck(s, i);
      assert !Rests(s);
    } else {
      forall i | 0 <= i < |s.items| ensures s.items[i].stage.Finished? {
        assert !Unfinished(s, i);
      }
    }
  }

  lemma {:induction false} LeadsInOrder(s: State, acts: seq<Action>, t: State)
    requires InOrder(s) && Leads(Step, s, acts, t)
    ensures InOrder(t)
    decreases |acts|
  {
    if acts != [] {
      StepKeepsInOrder(s, acts[0]);
      LeadsInOrder(Apply(s, acts[0]), acts[1..], t);
    }
  }

  /** Every schedule finishes: from any state of a run the workers take at most as many steps as there is work, and where
      none has a step to take every accepted item is finished. */
  lemma WorkersFinish(acts: seq<Action>, run: seq<State>, k: nat, more: seq<Action>, t: State)
    requires FromStart(acts, run) && k <= |acts| && Leads(Step, run[k], more, t)
    requires run[k].closed || forall a | a in more :: !a.SendPaths?
    ensures WorkerSteps(more) <= Work(run[k].items) && |t.items| == |run[k].items|
    ensures Rests(t) <==> forall i | 0 <= i < |t.items| :: t.items[i].stage.Finished?
  {
    SentInOrder(acts, run, k);
    WorkIsBounded(run[k], more, t);
    LeadsInOrder(run[k], more, t);
    RestMeansFinished(t);
  }

  /** Close returns in every schedule: once it has marked the manager and cancelled every context, whatever happens, the
      workers take a bounded number of steps, and where none has a step to take Close returns. */
  lemma CloseReturnsAlways(acts: seq<Action>, run: seq<State>, k: nat, more: seq<Action>, t: State)
    requires FromStart(acts, run) && k <= |acts| && Leads(Step, run[k], more, t)
    requires run[k].closed && run[k].stopped
    ensures WorkerSteps(more) <= Work(run[k].items)
    ensures Rests(t) <==> CloseReturns(t)
  {
    WorkersFinish(acts, run, k, more, t);
    StaysStopped(run[k], more, t);
  }

  lemma {:induction false} StaysStopped(s: State, acts: seq<Action>, t: State)
    requires s.closed && s.stopped && Leads(Step, s, acts, t)
    ensures t.closed && t.stopped
    decreases |acts|
  {
    if acts != [] {
      StaysStopped(Apply(s, acts[0]), acts[1..], t);
    }
  }

  /** And there is such a schedule. */
  lemma {:induction false} WorkersCanFinish(s: State) returns (acts: seq<Action>, t: State)
    requires InOrder(s)
    ensures Leads(Step, s, acts, t) && (forall a | a in acts :: WorkerStep(a)) && Rests(t)
    decreases Work(s.items)
  {
    if a :| WorkerStep(a) && Enabled(s, a) {
      StepShrinks(s, a);
      StepKeepsInOrder(s, a);
      var rest, end := WorkersCanFinish(Apply(s, a));
      LeadsFirst(Step, s, a, Apply(s, a), rest, end);
      acts, t := [a] + rest, end;
    } else {
      acts, t := [], s;
    }
  }
}
