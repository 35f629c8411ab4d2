/** A throttle: at most one call is started per interval, and a trigger inside the interval is answered when it ends. */
module Throttle {
  import opened Wrappers
  import opened Runs

  /** What the lock protects. `pending` says that the timer field is set, and `armed` when that timer goes off, unless it
      already did. */
  datatype Core = Core(last: Option<int>, pending: bool, armed: Option<int>, stopped: bool)

  const Idle := Core(None, false, None, false)

  /** How long to wait; nothing when there was no call yet. */
  function Wait(c: Core, interval: int, now: int): int {
    match c.last
    case None => 0
    case Some(last) => interval - (now - last)
  }

  /** A trigger at `now`, whose second look at the clock sees `later`; the result says that a call starts at once. */
  function OnTrigger(c: Core, interval: int, now: int, later: int): (Core, bool) {
    if c.stopped || c.pending then (c, false)
    else if Wait(c, interval, now) > 0 then
      (c.(pending := true, armed := Some(later + Wait(c, interval, now))), false)
    else (c.(last := Some(later)), true)
  }

  function OnFlush(c: Core, now: int): (Core, bool) {
    if c.stopped then (c.(pending := false), false) else (c.(pending := false, last := Some(now)), true)
  }

  function OnStop(c: Core): Core {
    c.(pending := false, armed := if c.pending then None else c.armed, stopped := true)
  }

  datatype Phase = Committed | Firing

  /** A call that began: which of the recorded starts it belongs to, and when it really began. */
  datatype Call = Call(id: nat, at: int)

  /** Goroutines: `woken` timers about to take the lock, and runners that wait for the second lock or hold it. History: the
      recorded start times, the calls that began, the triggers so far, how many triggers each call had seen when it began,
      and since when there is a trigger that no call has seen. */
  datatype State = State(
    now: int, core: Core, woken: nat, runners: map<nat, Phase>, holder: Option<nat>,
    starts: seq<int>, calls: seq<Call>, triggers: nat, reports: seq<nat>, asked: Option<int>)

  datatype Action =
    | Pass(d: nat) | Trigger(d: nat) | GoOff | Flush | Enter(id: nat) | Leave(id: nat) | Stop

  function Start(now: int): State { State(now, Idle, 0, map[], None, [], [], 0, [], None) }

  predicate Enabled(s: State, a: Action) {
    match a
    case Pass(_) => true
    case Trigger(_) => true
    case GoOff => s.core.armed.Some? && s.now >= s.core.armed.value
    case Flush => s.woken > 0
    case Enter(id) => id in s.runners && s.runners[id] == Committed && s.holder.None?
    case Leave(id) => id in s.runners && s.runners[id] == Firing
    case Stop => true
  }

  /** A call is decided at the time the throttle records. */
  function Commit(s: State, runs: bool): State {
    if runs then s.(runners := s.runners[|s.starts| := Committed], starts := s.starts + [s.now]) else s
  }

  /** The clock moves on, and a trigger is counted unless the throttle is stopped. */
  function Asked(s: State, d: nat): State {
    if s.core.stopped then s.(now := s.now + d)
    else s.(now := s.now + d, triggers := s.triggers + 1, asked := if s.asked.None? then Some(s.now + d) else s.asked)
  }

  function Apply(interval: int, s: State, a: Action): State
    requires Enabled(s, a)
  {
    match a
    case Pass(d) => s.(now := s.now + d)
    case Trigger(d) =>
      var (core, runs) := OnTrigger(s.core, interval, s.now, s.now + d);
      Commit(Asked(s, d).(core := core), runs)
    case GoOff => s.(core := s.core.(armed := None), woken := s.woken + 1)
    case Flush =>
      var (core, runs) := OnFlush(s.core, s.now);
      Commit(s.(core := core, woken := s.woken - 1), runs)
    case Enter(id) =>
      s.(runners := s.runners[id := Firing], holder := Some(id), calls := s.calls + [Call(id, s.now)],
         reports := s.reports + [s.triggers], asked := None)
    case Leave(id) => s.(runners := s.runners - {id}, holder := None)
    case Stop => s.(core := OnStop(s.core))
  }

  function Step(interval: int): (State, Action) -> Option<State> {
    (s: State, a: Action) => if Enabled(s, a) then Some(Apply(interval, s, a)) else None
  }

  // ---- what every step keeps ----

  ghost predicate Spaced(interval: int, starts: seq<int>) {
    forall i, j | 0 <= i < j < |starts| :: starts[j] - starts[i] >= interval && starts[j] >= starts[i]
  }

  /** The calls that began: in time order, each for another recorded start and not before it. */
  ghost predicate CallsInOrder(s: State) {
    && |s.calls| == |s.reports|
    && (forall i | 0 <= i < |s.calls| :: s.calls[i].id < |s.starts| && s.starts[s.calls[i].id] <= s.calls[i].at <= s.now)
    && (forall i, j | 0 <= i < j < |s.calls| :: s.calls[i].at <= s.calls[j].at && s.calls[i].id != s.calls[j].id)
  }

  /** Whoever is in a call began last, and whoever waits has not begun. */
  ghost predicate CallsRun(s: State) {
    && (forall i | 0 <= i < |s.calls| && s.calls[i].id in s.runners :: s.runners[s.calls[i].id] == Firing)
    && (forall id | id in s.runners && s.runners[id] == Firing :: s.calls != [] && s.calls[|s.calls| - 1].id == id)
  }

  ghost predicate Recorded(s: State) {
    if s.starts == [] then s.core.last == None
    else s.core.last == Some(s.starts[|s.starts| - 1]) && s.starts[|s.starts| - 1] <= s.now
  }

  /** A timer does not go off before the interval ends, and at most an interval from now. */
  ghost predicate TimerLate(interval: int, s: State) {
    && (s.core.armed.Some? ==>
          s.core.last.Some? && s.core.last.value + interval <= s.core.armed.value <= s.now + interval)
    && (s.woken > 0 && !s.core.stopped ==> s.core.last.Some? && s.now >= s.core.last.value + interval)
  }

  ghost predicate OneTimer(s: State) {
    && s.woken <= 1 && (s.core.armed.Some? ==> s.woken == 0 && s.core.pending && !s.core.stopped)
    && (!s.core.stopped ==> (s.core.pending <==> s.core.armed.Some? || s.woken == 1))
  }

  /** Only the holder of the second lock is in a call. */
  ghost predicate OneFires(s: State) {
    && (forall id | id in s.runners :: id < |s.starts|)
    && (forall id | id in s.runners && s.runners[id] == Firing :: s.holder == Some(id))
    && (s.holder.Some? ==> s.holder.value in s.runners && s.runners[s.holder.value] == Firing)
  }

  ghost predicate SomeoneWaits(s: State) { exists id :: id in s.runners && s.runners[id] == Committed }

  ghost predicate Answered(s: State) {
    s.triggers == 0 || (s.reports != [] && s.reports[|s.reports| - 1] == s.triggers)
  }

  ghost predicate AskedRight(s: State) {
    (s.asked.None? <==> Answered(s)) && (s.asked.Some? ==> s.asked.value <= s.now)
  }

  /** Until the throttle is stopped, a trigger that no call has followed has a timer or a committed call. */
  ghost predicate NoneLost(s: State) {
    s.core.stopped || Answered(s) || s.core.pending || SomeoneWaits(s)
  }

  ghost predicate ReportsGrow(s: State) {
    && (forall i, j | 0 <= i <= j < |s.reports| :: s.reports[i] <= s.reports[j])
    && (forall i | 0 <= i < |s.reports| :: s.reports[i] <= s.triggers)
  }

  ghost predicate Live(interval: int, s: State) {
    && Spaced(interval, s.starts) && Recorded(s) && TimerLate(interval, s) && OneTimer(s)
    && OneFires(s) && NoneLost(s) && ReportsGrow(s)
  }

  ghost predicate Inv(interval: int, s: State) {
    Live(interval, s) && CallsInOrder(s) && CallsRun(s) && AskedRight(s)
  }

  lemma CommitKeeps(interval: int, s: State)
    requires Spaced(interval, s.starts) && OneFires(s) && ReportsGrow(s)
    requires s.starts == [] || (s.now - s.starts[|s.starts| - 1] >= interval && s.now >= s.starts[|s.starts| - 1])
    ensures var s' := Commit(s, true);
            Spaced(interval, s'.starts) && OneFires(s') && ReportsGrow(s') && SomeoneWaits(s')
  {
    var s' := Commit(s, true);
    assert |s.starts| in s'.runners && s'.runners[|s.starts|] == Committed;
    var n := |s.starts|;
    forall i, j | 0 <= i < j < n + 1
      ensures s'.starts[j] - s'.starts[i] >= interval && s'.starts[j] >= s'.starts[i]
    {
      if j == n && i < n - 1 {
        assert s.starts[n - 1] - s.starts[i] >= interval && s.starts[n - 1] >= s.starts[i];
      }
    }
  }

  lemma WaitersStay(s: State, s': State)
    requires SomeoneWaits(s)
    requires forall id | id in s.runners && s.runners[id] == Committed :: id in s'.runners && s'.runners[id] == Committed
    ensures SomeoneWaits(s')
  {
  }

  lemma TriggerKeepsLive(interval: int, s: State, d: nat)
    requires Live(interval, s)
    ensures Live(interval, Apply(interval, s, Trigger(d)))
  {
    var (core, runs) := OnTrigger(s.core, interval, s.now, s.now + d);
    if runs {
      CommitKeeps(interval, Asked(s, d).(core := core));
    }
  }

  lemma FlushKeepsLive(interval: int, s: State)
    requires Live(interval, s) && s.woken > 0
    ensures Live(interval, Apply(interval, s, Flush))
  {
    var (core, runs) := OnFlush(s.core, s.now);
    if runs {
      CommitKeeps(interval, s.(core := core, woken := s.woken - 1));
    }
  }

  lemma StepKeepsLive(interval: int, s: State, a: Action)
    requires Live(interval, s) && Enabled(s, a)
    ensures Live(interval, Apply(interval, s, a))
  {
    var s' := Apply(interval, s, a);
    match a
    case Trigger(d) => TriggerKeepsLive(interval, s, d);
    case Flush => FlushKeepsLive(interval, s);
    case Leave(id) =>
      if SomeoneWaits(s) { WaitersStay(s, s'); }
    case _ =>
  }

  lemma StepKeepsOrder(interval: int, s: State, a: Action)
    requires Live(interval, s) && CallsInOrder(s) && CallsRun(s) && Enabled(s, a)
    ensures CallsInOrder(Apply(interval, s, a))
  {
    if a.Enter? {
      StartPassed(interval, s, a.id);
    }
  }

  lemma StartPassed(interval: int, s: State, id: nat)
    requires Spaced(interval, s.starts) && Recorded(s) && id < |s.starts|
    ensures s.starts[id] <= s.now
  {
    if id < |s.starts| - 1 {
      assert s.starts[|s.starts| - 1] >= s.starts[id];
    }
  }

  lemma StepKeepsRunning(interval: int, s: State, a: Action)
    requires OneFires(s) && CallsInOrder(s) && CallsRun(s) && Enabled(s, a)
    ensures CallsRun(Apply(interval, s, a))
  {
  }

  lemma StepKeepsAsked(interval: int, s: State, a: Action)
    requires ReportsGrow(s) && AskedRight(s) && Enabled(s, a)
    ensures AskedRight(Apply(interval, s, a))
  {
  }

  lemma StepKeepsInv(interval: int, s: State, a: Action)
    requires Inv(interval, s) && Enabled(s, a)
    ensures Inv(interval, Apply(interval, s, a))
  {
    StepKeepsLive(interval, s, a);
    StepKeepsOrder(interval, s, a);
    StepKeepsRunning(interval, s, a);
    StepKeepsAsked(interval, s, a);
  }

  /** In every interleaving: recorded starts are an interval apart, at most one timer is set, calls do not overlap, what they
      report never goes back, and no trigger is lost. */
  lemma {:induction false} RunKeepsInv(interval: int, now: int, states: seq<State>, acts: seq<Action>, i: nat)
    requires IsRun(Step(interval), states, acts) && states[0] == Start(now) && i <= |acts|
    ensures Inv(interval, states[i])
  {
    if i > 0 {
      RunKeepsInv(interval, now, states, acts, i - 1);
      StepAt(Step(interval), states, acts, i - 1);
      StepKeepsInv(interval, states[i - 1], acts[i - 1]);
    }
  }

  /** When nothing is under way and the throttle was not stopped, the last call has seen the last trigger. */
  lemma QuietMeansReported(interval: int, now: int, states: seq<State>, acts: seq<Action>, i: nat)
    requires IsRun(Step(interval), states, acts) && states[0] == Start(now) && i <= |acts|
    requires var s := states[i];
             !s.core.stopped && !s.core.pending && s.runners == map[] && s.triggers > 0
    ensures var s := states[i];
            s.reports != [] && s.reports[|s.reports| - 1] == s.triggers
  {
    RunKeepsInv(interval, now, states, acts, i);
  }

  // ---- the locked sections as they run ----

  class Timed {
    const interval: int
    var last: Option<int>
    var pending: bool
    var armed: Option<int>
    var stopped: bool

    ghost function State(): Core
      reads this
    {
      Core(last, pending, armed, stopped)
    }

    constructor (interval: int)
      ensures this.interval == interval && State() == Idle
    {
      this.interval, last, pending, armed, stopped := interval, None, false, None, false;
    }

    method Trigger(now: int, later: int) returns (runs: bool)
      modifies this
      ensures (State(), runs) == OnTrigger(old(State()), interval, now, later)
    {
      if stopped || pending { return false; }
      var wait := if last.None? then 0 else interval - (now - last.value);
      if wait > 0 {
        pending, armed := true, Some(later + wait);
        return false;
      }
      last := Some(later);
      return true;
    }

    method Flush(now: int) returns (runs: bool)
      modifies this
      ensures (State(), runs) == OnFlush(old(State()), now)
    {
      pending := false;
      if stopped { return false; }
      last := Some(now);
      return true;
    }

    method Stop()
      modifies this
      ensures State() == OnStop(old(State()))
    {
      stopped := true;
      if pending { armed, pending := None, false; }
    }
  }
}
