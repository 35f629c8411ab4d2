/** How far apart the calls of a throttle really begin, and how long a trigger can wait. */
module ThrottleTiming {
  import opened Wrappers
  import opened Runs
  import opened Throttle

  ghost predicate Apart(interval: int, calls: seq<Call>) {
    forall i | 0 <= i < |calls| - 1 :: calls[i + 1].at - calls[i].at >= interval
  }

  // ---- calls that begin when they were recorded ----

  ghost predicate AtRecorded(s: State) {
    forall i | 0 <= i < |s.calls| :: s.calls[i].id < |s.starts| && s.calls[i].at == s.starts[s.calls[i].id]
  }

  /** Calls that begin at their recorded starts are an interval apart, whatever order the runners get the lock in. */
  lemma RecordedAreApart(interval: int, s: State)
    requires Inv(interval, s) && AtRecorded(s)
    ensures Apart(interval, s.calls)
  {
    forall i | 0 <= i < |s.calls| - 1 ensures s.calls[i + 1].at - s.calls[i].at >= interval {
      var x, y := s.calls[i], s.calls[i + 1];
      assert x.at <= y.at && x.id != y.id;
      assert s.starts[x.id] == x.at && s.starts[y.id] == y.at;
    }
  }

  /** The call that enters does so at its recorded start. */
  predicate EntersAtStart(s: State, a: Action) {
    a.Enter? && a.id < |s.starts| ==> s.now == s.starts[a.id]
  }

  lemma StepAtRecorded(interval: int, s: State, a: Action)
    requires OneFires(s) && AtRecorded(s) && Enabled(s, a) && EntersAtStart(s, a)
    ensures AtRecorded(Apply(interval, s, a))
  {
  }

  lemma {:induction false} RunAtRecorded(interval: int, now: int, states: seq<State>, acts: seq<Action>, i: nat)
    requires IsRun(Step(interval), states, acts) && states[0] == Start(now) && i <= |acts|
    requires forall k | 0 <= k < |acts| :: EntersAtStart(states[k], acts[k])
    ensures AtRecorded(states[i])
  {
    if i > 0 {
      RunAtRecorded(interval, now, states, acts, i - 1);
      RunKeepsInv(interval, now, states, acts, i - 1);
      StepAt(Step(interval), states, acts, i - 1);
      StepAtRecorded(interval, states[i - 1], acts[i - 1]);
    }
  }

  /** In every run in which each call begins at its recorded start, the calls begin an interval apart. */
  lemma PromptCallsAreApart(interval: int, now: int, states: seq<State>, acts: seq<Action>, i: nat)
    requires IsRun(Step(interval), states, acts) && states[0] == Start(now) && i <= |acts|
    requires forall k | 0 <= k < |acts| :: EntersAtStart(states[k], acts[k])
    ensures Apart(interval, states[i].calls)
  {
    RunAtRecorded(interval, now, states, acts, i);
    RunKeepsInv(interval, now, states, acts, i);
    RecordedAreApart(interval, states[i]);
  }

  // ---- calls of bounded length ----

  /** How far an action moves the clock. */
  function Elapses(a: Action): nat {
    match a
    case Pass(d) => d
    case Trigger(d) => d
    case _ => 0
  }

  /** Time does not pass while a call is committed and the second lock is free. */
  ghost predicate Prompt(s: State, a: Action) {
    Elapses(a) > 0 ==> !(s.holder.None? && SomeoneWaits(s))
  }

  /** The call that runs has not lasted longer than `length`. */
  ghost predicate Brief(length: int, s: State) {
    s.holder.Some? ==> s.calls != [] && s.now - s.calls[|s.calls| - 1].at <= length
  }

  ghost predicate PromptAndBrief(length: int, states: seq<State>, acts: seq<Action>) {
    |states| == |acts| + 1 &&
    forall i | 0 <= i < |acts| :: Paced(length, states[i], acts[i], states[i + 1])
  }

  ghost predicate Paced(length: int, s: State, a: Action, s': State) { Prompt(s, a) && Brief(length, s') }

  /** Whoever waits for the second lock was recorded last, and just now. */
  ghost predicate WaitsNow(s: State) {
    forall id | id in s.runners && s.runners[id] == Committed :: id == |s.starts| - 1 && s.starts[id] == s.now
  }

  ghost predicate OnTime(length: int, s: State) { AtRecorded(s) && WaitsNow(s) && Brief(length, s) }

  /** Under these conditions the clock stands while anyone waits. */
  lemma ClockStands(interval: int, length: int, s: State, a: Action, id: nat)
    requires Inv(interval, s) && OnTime(length, s) && Enabled(s, a) && Paced(length, s, a, Apply(interval, s, a))
    requires length <= interval && id in s.runners && s.runners[id] == Committed
    ensures Elapses(a) == 0
  {
    assert SomeoneWaits(s);
    if s.holder.Some? {
      var call := s.calls[|s.calls| - 1];
      assert call.id == s.holder.value && s.runners[call.id] == Firing;
      assert s.starts[id] - s.starts[call.id] >= interval;
    }
  }

  /** While a call waits, none is recorded. */
  lemma NoneJoins(interval: int, length: int, s: State, a: Action, id: nat)
    requires Inv(interval, s) && OnTime(length, s) && Enabled(s, a) && Paced(length, s, a, Apply(interval, s, a))
    requires 0 < interval && length <= interval && id in s.runners && s.runners[id] == Committed
    ensures Apply(interval, s, a).starts == s.starts && Apply(interval, s, a).now == s.now
  {
    ClockStands(interval, length, s, a, id);
    assert s.core.last == Some(s.now);
  }

  lemma StepWaitsNow(interval: int, length: int, s: State, a: Action)
    requires Inv(interval, s) && OnTime(length, s) && Enabled(s, a) && Paced(length, s, a, Apply(interval, s, a))
    requires 0 < interval && length <= interval
    ensures WaitsNow(Apply(interval, s, a))
  {
    var s' := Apply(interval, s, a);
    forall id | id in s'.runners && s'.runners[id] == Committed
      ensures id == |s'.starts| - 1 && s'.starts[id] == s'.now
    {
      if id in s.runners {
        assert s.runners[id] == Committed;
        NoneJoins(interval, length, s, a, id);
      }
    }
  }

  lemma StepOnTime(interval: int, length: int, s: State, a: Action)
    requires Inv(interval, s) && OnTime(length, s) && Enabled(s, a) && Paced(length, s, a, Apply(interval, s, a))
    requires 0 < interval && length <= interval
    ensures OnTime(length, Apply(interval, s, a))
  {
    StepWaitsNow(interval, length, s, a);
    StepAtRecorded(interval, s, a);
  }

  lemma {:induction false} RunOnTime(interval: int, length: int, now: int, states: seq<State>, acts: seq<Action>, i: nat)
    requires IsRun(Step(interval), states, acts) && states[0] == Start(now) && i <= |acts|
    requires PromptAndBrief(length, states, acts) && 0 < interval && length <= interval
    ensures OnTime(length, states[i])
  {
    if i > 0 {
      RunOnTime(interval, length, now, states, acts, i - 1);
      RunKeepsInv(interval, now, states, acts, i - 1);
      StepAt(Step(interval), states, acts, i - 1);
      assert Paced(length, states[i - 1], acts[i - 1], states[i - 1 + 1]);
      StepOnTime(interval, length, states[i - 1], acts[i - 1]);
    }
  }

  /** In every run with prompt entry and calls of at most this length, calls begin an interval apart. */
  ghost predicate AlwaysApart(interval: int, length: int) {
    forall now, states: seq<State>, acts |
      IsRun(Step(interval), states, acts) && states[0] == Start(now) && PromptAndBrief(length, states, acts) ::
      Apart(interval, states[|acts|].calls)
  }

  /** With prompt entry calls begin an interval apart, in every run, exactly when no call lasts longer than the interval. (An
      interval that is not positive asks for nothing.) */
  lemma ApartIffBrief(interval: int, length: int)
    ensures AlwaysApart(interval, length) <==> length <= interval || interval <= 0
  {
    if interval <= 0 {
      forall now, states: seq<State>, acts |
        IsRun(Step(interval), states, acts) && states[0] == Start(now) && PromptAndBrief(length, states, acts)
        ensures Apart(interval, states[|acts|].calls)
      {
        RunKeepsInv(interval, now, states, acts, |acts|);
      }
    } else if length <= interval {
      forall now, states: seq<State>, acts |
        IsRun(Step(interval), states, acts) && states[0] == Start(now) && PromptAndBrief(length, states, acts)
        ensures Apart(interval, states[|acts|].calls)
      {
        RunOnTime(interval, length, now, states, acts, |acts|);
        RunKeepsInv(interval, now, states, acts, |acts|);
        RecordedAreApart(interval, states[|acts|]);
      }
    } else {
      LongCallsBunchUp(interval, length);
    }
  }

  // ---- the run in which a long call bunches up the next ones ----

  /** The first call lasts one unit longer than the interval; the second, recorded in time, begins when it ends; the third
      begins in time. */
  function LongRun(interval: nat): seq<Action> {
    [Trigger(0), Enter(0), Pass(interval), Trigger(0)] + [Pass(1), Leave(0), Enter(1), Leave(1)]
    + [Pass(if interval > 0 then interval - 1 else 0), Trigger(0), Enter(2)]
  }

  /** Its states. */
  function LongStates(i: nat): seq<State> {
    [Start(0),
     State(0, At(0), 0, map[0 := Committed], None, [0], [], 1, [], Some(0)),
     State(0, At(0), 0, map[0 := Firing], Some(0), [0], [Call(0, 0)], 1, [1], None),
     State(i, At(0), 0, map[0 := Firing], Some(0), [0], [Call(0, 0)], 1, [1], None),
     State(i, At(i), 0, map[0 := Firing, 1 := Committed], Some(0), [0, i], [Call(0, 0)], 2, [1], Some(i)),
     State(i + 1, At(i), 0, map[0 := Firing, 1 := Committed], Some(0), [0, i], [Call(0, 0)], 2, [1], Some(i)),
     State(i + 1, At(i), 0, map[1 := Committed], None, [0, i], [Call(0, 0)], 2, [1], Some(i)),
     State(i + 1, At(i), 0, map[1 := Firing], Some(1), [0, i], [Call(0, 0), Call(1, i + 1)], 2, [1, 2], None),
     State(i + 1, At(i), 0, map[], None, [0, i], [Call(0, 0), Call(1, i + 1)], 2, [1, 2], None),
     State(2 * i, At(i), 0, map[], None, [0, i], [Call(0, 0), Call(1, i + 1)], 2, [1, 2], None),
     State(2 * i, At(2 * i), 0, map[2 := Committed], None, [0, i, 2 * i], [Call(0, 0), Call(1, i + 1)], 3, [1, 2], Some(2 * i)),
     State(2 * i, At(2 * i), 0, map[2 := Firing], Some(2), [0, i, 2 * i],
           [Call(0, 0), Call(1, i + 1), Call(2, 2 * i)], 3, [1, 2, 3], None)]
  }

  function At(last: int): Core { Core(Some(last), false, None, false) }

  lemma LongRunSteps(interval: nat, k: nat)
    requires 0 < interval && k < 11
    ensures Step(interval)(LongStates(interval)[k], LongRun(interval)[k]) == Some(LongStates(interval)[k + 1])
  {
    var states, acts := LongStates(interval), LongRun(interval);
    assert acts == [Trigger(0), Enter(0), Pass(interval), Trigger(0), Pass(1), Leave(0), Enter(1), Leave(1),
                    Pass(interval - 1), Trigger(0), Enter(2)];
    if k < 4 { Early(interval, k); } else if k < 8 { Middle(interval, k); } else { Late(interval, k); }
  }

  lemma Early(interval: nat, k: nat)
    requires 0 < interval && k < 4
    ensures Step(interval)(LongStates(interval)[k], [Trigger(0), Enter(0), Pass(interval), Trigger(0)][k])
            == Some(LongStates(interval)[k + 1])
  {
    var states := LongStates(interval);
    if k == 0 {
      assert Apply(interval, states[0], Trigger(0)) == states[1];
    } else if k == 1 {
      assert Apply(interval, states[1], Enter(0)) == states[2];
    } else if k == 2 {
      assert Apply(interval, states[2], Pass(interval)) == states[3];
    } else {
      assert Apply(interval, states[3], Trigger(0)) == states[4];
    }
  }

  lemma Middle(interval: nat, k: nat)
    requires 0 < interval && 4 <= k < 8
    ensures Step(interval)(LongStates(interval)[k], [Pass(1), Leave(0), Enter(1), Leave(1)][k - 4])
            == Some(LongStates(interval)[k + 1])
  {
    var states := LongStates(interval);
    if k == 4 {
      assert Apply(interval, states[4], Pass(1)) == states[5];
    } else if k == 5 {
      assert Apply(interval, states[5], Leave(0)) == states[6];
    } else if k == 6 {
      assert Apply(interval, states[6], Enter(1)) == states[7];
    } else {
      assert Apply(interval, states[7], Leave(1)) == states[8];
    }
  }

  lemma Late(interval: nat, k: nat)
    requires 0 < interval && 8 <= k < 11
    ensures Step(interval)(LongStates(interval)[k], [Pass(interval - 1), Trigger(0), Enter(2)][k - 8])
            == Some(LongStates(interval)[k + 1])
  {
    var states := LongStates(interval);
    if k == 8 {
      assert Apply(interval, states[8], Pass(interval - 1)) == states[9];
    } else if k == 9 {
      assert Apply(interval, states[9], Trigger(0)) == states[10];
    } else {
      assert Apply(interval, states[10], Enter(2)) == states[11];
    }
  }

  lemma LongRunPrompt(interval: nat, length: int)
    requires 0 < interval < length
    ensures PromptAndBrief(length, LongStates(interval), LongRun(interval))
  {
  }

  /** Where a call may last longer than the interval, there is a run in which two calls begin less than an interval apart. */
  lemma LongCallsBunchUp(interval: nat, length: int)
    requires 0 < interval < length
    ensures !AlwaysApart(interval, length)
  {
    var states, acts := LongStates(interval), LongRun(interval);
    forall k | 0 <= k < |acts| ensures Step(interval)(states[k], acts[k]) == Some(states[k + 1]) {
      LongRunSteps(interval, k);
    }
    LongRunPrompt(interval, length);
    var calls := states[|acts|].calls;
    assert calls[1 + 1].at - calls[1].at == interval - 1;
  }

  // ---- without prompt entry ----

  /** However short the calls are: one that is held up on its way to the second lock can begin together with the next. */
  lemma CallsCanBunchUp(interval: nat) returns (t: State)
    ensures Leads(Step(interval), Start(0),
                  [Trigger(0), Pass(interval), Trigger(0), Enter(0)] + [Leave(0), Enter(1)], t)
    ensures t.starts == [0, interval] && t.calls == [Call(0, interval), Call(1, interval)]
  {
    var s1 := Apply(interval, Start(0), Trigger(0));
    var s2 := Apply(interval, s1, Pass(interval));
    var s3 := Apply(interval, s2, Trigger(0));
    var s4 := Apply(interval, s3, Enter(0));
    var s5 := Apply(interval, s4, Leave(0));
    assert s3.runners == map[0 := Committed, 1 := Committed];
    t := Apply(interval, s5, Enter(1));
    LeadsFour(Step(interval), Start(0), Trigger(0), s1, Pass(interval), s2, Trigger(0), s3, Enter(0), s4);
    LeadsTwo(Step(interval), s4, Leave(0), s5, Enter(1), t);
    LeadsOn(Step(interval), Start(0), [Trigger(0), Pass(interval), Trigger(0), Enter(0)], s4, [Leave(0), Enter(1)], t);
  }

  // ---- how long a trigger waits ----

  /** Time does not pass while a timer is due or about to take the lock. */
  predicate Punctual(s: State, a: Action) {
    Elapses(a) > 0 ==> s.woken == 0 && (s.core.armed.Some? ==> s.now + Elapses(a) <= s.core.armed.value)
  }

  ghost predicate Answering(interval: int, s: State) {
    !s.core.stopped && s.asked.Some? ==>
      && s.now <= s.asked.value + interval
      && (SomeoneWaits(s) || (s.core.armed.Some? ==> s.core.armed.value <= s.asked.value + interval))
  }

  /** The clock moves no further than an interval past the trigger. */
  lemma ClockHolds(interval: int, length: int, s: State, a: Action)
    requires Inv(interval, s) && OnTime(length, s) && Enabled(s, a) && Paced(length, s, a, Apply(interval, s, a))
    requires 0 < interval && length <= interval && Answering(interval, s) && Punctual(s, a)
    requires !s.core.stopped && s.asked.Some?
    ensures s.now + Elapses(a) <= s.asked.value + interval
  {
    if SomeoneWaits(s) {
      var id :| id in s.runners && s.runners[id] == Committed;
      ClockStands(interval, length, s, a, id);
    }
  }

  lemma TriggerAnswering(interval: int, length: int, s: State, d: nat)
    requires Inv(interval, s) && OnTime(length, s) && Paced(length, s, Trigger(d), Apply(interval, s, Trigger(d)))
    requires 0 < interval && length <= interval && Answering(interval, s) && Punctual(s, Trigger(d))
    ensures Answering(interval, Apply(interval, s, Trigger(d)))
  {
    var s' := Apply(interval, s, Trigger(d));
    if !s.core.stopped {
      if s.asked.Some? { ClockHolds(interval, length, s, Trigger(d)); }
      if SomeoneWaits(s) { WaitersStay(s, s'); }
      if OnTrigger(s.core, interval, s.now, s.now + d).1 {
        assert s'.runners[|s.starts|] == Committed;
      }
    }
  }

  lemma StepAnswering(interval: int, length: int, s: State, a: Action)
    requires Inv(interval, s) && OnTime(length, s) && Enabled(s, a) && Paced(length, s, a, Apply(interval, s, a))
    requires 0 < interval && length <= interval && Answering(interval, s) && Punctual(s, a)
    ensures Answering(interval, Apply(interval, s, a))
  {
    var s' := Apply(interval, s, a);
    match a
    case Trigger(d) => TriggerAnswering(interval, length, s, d);
    case Flush =>
      if !s.core.stopped { assert s'.runners[|s.starts|] == Committed; }
    case Enter(_) =>
    case _ =>
      if !s.core.stopped && s.asked.Some? { ClockHolds(interval, length, s, a); }
      if SomeoneWaits(s) { WaitersStay(s, s'); }
  }

  /** In every run with prompt entry, punctual timers and calls no longer than the interval: a trigger that no call has seen
      yet is at most an interval old, unless the throttle was stopped. */
  lemma {:induction false} AnsweredInTime(interval: int, now: int, states: seq<State>, acts: seq<Action>, i: nat)
    requires IsRun(Step(interval), states, acts) && states[0] == Start(now) && i <= |acts| && 0 < interval
    requires PromptAndBrief(interval, states, acts) && forall k | 0 <= k < |acts| :: Punctual(states[k], acts[k])
    ensures Answering(interval, states[i])
    ensures var s := states[i];
            !s.core.stopped && s.asked.Some? ==> s.now - s.asked.value <= interval
    ensures states[i].asked.None? <==> Answered(states[i])
  {
    RunKeepsInv(interval, now, states, acts, i);
    if i > 0 {
      AnsweredInTime(interval, now, states, acts, i - 1);
      RunOnTime(interval, interval, now, states, acts, i - 1);
      RunKeepsInv(interval, now, states, acts, i - 1);
      StepAt(Step(interval), states, acts, i - 1);
      assert Paced(interval, states[i - 1], acts[i - 1], states[i - 1 + 1]);
      StepAnswering(interval, interval, states[i - 1], acts[i - 1]);
    }
  }

  lemma StepAsked(interval: int, s: State, a: Action)
    requires Enabled(s, a) && !s.core.stopped && (s.asked.Some? ==> s.asked.value <= s.now)
    ensures var s' := Apply(interval, s, a);
            && (a.Trigger? ==> s'.asked.Some? && s'.asked.value <= s'.now)
            && (!a.Enter? && s.asked.Some? ==> s'.asked == s.asked)
  {
    assert a.Trigger? && s.asked.None? ==> Apply(interval, s, a).asked == Some(s.now + a.d);
  }

  lemma {:induction false} StillAsked(interval: int, now: int, states: seq<State>, acts: seq<Action>, j: nat, i: nat)
    requires IsRun(Step(interval), states, acts) && states[0] == Start(now) && j < i <= |acts|
    requires acts[j].Trigger? && !states[i].core.stopped && forall m | j < m < i :: !acts[m].Enter?
    ensures states[i].asked.Some? && states[i].asked.value <= states[j + 1].now
    decreases i
  {
    StepAt(Step(interval), states, acts, i - 1);
    StepStops(interval, states[i - 1], acts[i - 1]);
    RunKeepsInv(interval, now, states, acts, i - 1);
    StepAsked(interval, states[i - 1], acts[i - 1]);
    if j + 1 < i {
      StillAsked(interval, now, states, acts, j, i - 1);
    }
  }

  /** In the same runs, told by the actions: as long as no call began after a trigger and the throttle was not stopped, the
      trigger is at most an interval old. */
  lemma UnseenIsYoung(interval: int, now: int, states: seq<State>, acts: seq<Action>, j: nat, i: nat)
    requires IsRun(Step(interval), states, acts) && states[0] == Start(now) && j < i <= |acts| && 0 < interval
    requires PromptAndBrief(interval, states, acts) && forall k | 0 <= k < |acts| :: Punctual(states[k], acts[k])
    requires acts[j].Trigger? && !states[i].core.stopped && forall m | j < m < i :: !acts[m].Enter?
    ensures states[i].now - states[j + 1].now <= interval
  {
    AnsweredInTime(interval, now, states, acts, i);
    StillAsked(interval, now, states, acts, j, i);
  }

  /** A trigger is answered by a call that starts at once when none started within the interval, and otherwise by one that
      starts when the interval ends; that call has seen the trigger. */
  lemma TriggerIsAnswered(interval: int, s: State) returns (acts: seq<Action>, t: State)
    requires Inv(interval, s) && !s.core.stopped && !s.core.pending && s.runners == map[]
    ensures Leads(Step(interval), s, [Trigger(0)] + acts, t)
    ensures t.reports != [] && t.reports[|t.reports| - 1] == s.triggers + 1
    ensures if s.core.last.None? || s.now - s.core.last.value >= interval then acts == [Enter(|s.starts|)] && t.now == s.now
            else acts == [Pass(s.core.last.value + interval - s.now), GoOff, Flush, Enter(|s.starts|)]
                 && t.now == s.core.last.value + interval
  {
    var s1 := Apply(interval, s, Trigger(0));
    assert s.holder.None?;
    if s.core.last.None? || s.now - s.core.last.value >= interval {
      acts := [Enter(|s.starts|)];
      t := Apply(interval, s1, Enter(|s.starts|));
      LeadsOne(Step(interval), s1, Enter(|s.starts|), t);
    } else {
      var d := s.core.last.value + interval - s.now;
      var s2 := Apply(interval, s1, Pass(d));
      var s3 := Apply(interval, s2, GoOff);
      var s4 := Apply(interval, s3, Flush);
      acts := [Pass(d), GoOff, Flush, Enter(|s.starts|)];
      t := Apply(interval, s4, Enter(|s.starts|));
      LeadsFour(Step(interval), s1, Pass(d), s2, GoOff, s3, Flush, s4, Enter(|s.starts|), t);
    }
    LeadsFirst(Step(interval), s, Trigger(0), s1, acts, t);
  }

  // ---- what stop does ----

  /** The triggers before the first stop. */
  function Triggers(acts: seq<Action>): nat {
    if acts == [] then 0
    else if Stop in acts[..|acts| - 1] then Triggers(acts[..|acts| - 1])
    else Triggers(acts[..|acts| - 1]) + if acts[|acts| - 1].Trigger? then 1 else 0
  }

  lemma StepStops(interval: int, s: State, a: Action)
    requires Enabled(s, a)
    ensures Apply(interval, s, a).core.stopped <==> s.core.stopped || a == Stop
    ensures Apply(interval, s, a).triggers == s.triggers + if a.Trigger? && !s.core.stopped then 1 else 0
    ensures s.core.stopped ==> Apply(interval, s, a).starts == s.starts
  {
  }

  /** The throttle is stopped exactly once stop was called, and counts the triggers before. */
  lemma {:induction false} CountsUntilStop(interval: int, now: int, states: seq<State>, acts: seq<Action>, i: nat)
    requires IsRun(Step(interval), states, acts) && states[0] == Start(now) && i <= |acts|
    ensures states[i].core.stopped <==> Stop in acts[..i]
    ensures states[i].triggers == Triggers(acts[..i])
  {
    if i > 0 {
      CountsUntilStop(interval, now, states, acts, i - 1);
      StepAt(Step(interval), states, acts, i - 1);
      StepStops(interval, states[i - 1], acts[i - 1]);
      assert acts[..i][..i - 1] == acts[..i - 1] && acts[..i] == acts[..i - 1] + [acts[i - 1]];
    }
  }

  /** After stop no call starts that had not been recorded before. */
  lemma {:induction false} NoneStartsAfterStop(interval: int, states: seq<State>, acts: seq<Action>, i: nat, j: nat)
    requires IsRun(Step(interval), states, acts) && i <= j <= |acts| && states[i].core.stopped
    ensures states[j].core.stopped && states[j].starts == states[i].starts
    decreases j
  {
    if i < j {
      NoneStartsAfterStop(interval, states, acts, i, j - 1);
      StepAt(Step(interval), states, acts, j - 1);
      StepStops(interval, states[j - 1], acts[j - 1]);
    }
  }
}
