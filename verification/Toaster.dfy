/** The notification window: what it shows, when it hides, and which chat a click opens. */
module Toaster {
  import opened Wrappers

  datatype Content = Content(title: string, body: string, key: string)

  /** A hide timer that has not gone off, for a generation. */
  datatype Alarm = Alarm(gen: nat, due: int)

  /** What the lock protects. */
  datatype Core = Core(
    closed: bool, ready: bool, want: bool, cur: Content, at: int, gen: nat, pages: nat, timer: Option<Alarm>)

  const Fresh := Core(false, false, false, Content("", "", ""), 0, 0, 0, None)

  // ---- locked sections; a boolean result says that the worker is to be woken ----

  function OnShow(t: Core, c: Content, now: int): (Core, bool) {
    if t.closed then (t, false) else (t.(cur := c, at := now, want := true, gen := t.gen + 1), true)
  }

  function OnPageReady(t: Core): Core { t.(ready := true, pages := t.pages + 1) }

  /** The second result is the chat to open. */
  function OnClick(t: Core): (Core, Option<Content>) {
    if t.closed || !t.want then (t, None) else (t.(want := false, timer := None), Some(t.cur))
  }

  function OnExpire(t: Core, gen: nat): (Core, bool) {
    if t.closed || t.gen != gen || !t.want then (t, false) else (t.(want := false), true)
  }

  function OnArm(t: Core, gen: nat, due: int): Core {
    if t.closed || t.gen != gen || !t.want then t else t.(timer := Some(Alarm(gen, due)))
  }

  function OnClose(t: Core): Core { t.(closed := true, timer := None) }

  // ---- the worker ----

  /** What the worker keeps between rounds: whether the window shows, and what was last sent to the page. */
  datatype Memory = Memory(shown: bool, lastGen: nat, lastPages: nat)

  datatype Verdict = Drop | Present | Dismiss | Rest

  function Decide(seen: Core, m: Memory, now: int, duration: int): Verdict {
    if seen.want && seen.ready && now - seen.at >= duration then Drop
    else if seen.want && seen.ready && (seen.gen != m.lastGen || seen.pages != m.lastPages) then Present
    else if !seen.want && m.shown then Dismiss
    else Rest
  }

  datatype Worker = Waiting | AtLock | Saw(seen: Core) | Arming(gen: nat) | Dropping(gen: nat) | Ended

  /** `pokes` are callers about to wake the worker and `expiring` timers that went off and wait for the lock. The screen shows
      the content of a generation or nothing. History: the contents shown in turn, and which generations a click opened. */
  datatype State = State(
    now: int, core: Core, wake: bool, pokes: nat, expiring: multiset<nat>, worker: Worker, memory: Memory,
    screen: Option<nat>, shows: seq<Content>, clicks: seq<nat>)

  datatype Action =
    | Pass(d: nat) | Show(c: Content) | PageReady | Click | Close | Poke | GoOff | Expire(gen: nat)
    | Take | Look | Act | Arm | DropIt | Quit

  function Start(now: int): State {
    State(now, Fresh, false, 0, multiset{}, Waiting, Memory(false, 0, 0), None, [], [])
  }

  predicate Enabled(s: State, a: Action) {
    match a
    case Poke => s.pokes > 0
    case GoOff => s.core.timer.Some? && s.now >= s.core.timer.value.due
    case Expire(gen) => gen in s.expiring
    case Take => s.worker.Waiting? && s.wake
    case Look => s.worker.AtLock?
    case Act => s.worker.Saw?
    case Arm => s.worker.Arming?
    case DropIt => s.worker.Dropping?
    case Quit => s.worker.Waiting? && s.core.closed
    case _ => true
  }

  function Poked(s: State, yes: bool): State { if yes then s.(pokes := s.pokes + 1) else s }

  /** What the worker remembers and what is on screen after it acted. */
  function After(m: Memory, screen: Option<nat>, seen: Core, verdict: Verdict): (Memory, Option<nat>) {
    match verdict
    case Present => (Memory(true, seen.gen, seen.pages), Some(seen.gen))
    case Dismiss => (m.(shown := false), None)
    case _ => (m, screen)
  }

  function Acted(s: State, verdict: Verdict): State
    requires s.worker.Saw?
  {
    var seen := s.worker.seen;
    var (memory, screen) := After(s.memory, s.screen, seen, verdict);
    s.(memory := memory, screen := screen,
       worker := match verdict
                 case Drop => Dropping(seen.gen)
                 case Present => Arming(seen.gen)
                 case _ => Waiting)
  }

  function Apply(duration: int, s: State, a: Action): State
    requires Enabled(s, a)
  {
    match a
    case Pass(d) => s.(now := s.now + d)
    case Show(c) =>
      var (core, poke) := OnShow(s.core, c, s.now);
      Poked(s.(core := core, shows := if poke then s.shows + [c] else s.shows), poke)
    case PageReady => Poked(s.(core := OnPageReady(s.core)), true)
    case Click =>
      var (core, open) := OnClick(s.core);
      Poked(s.(core := core, clicks := if open.Some? then s.clicks + [s.core.gen] else s.clicks), open.Some?)
    case Close => s.(core := OnClose(s.core))
    case Poke => s.(pokes := s.pokes - 1, wake := true)
    case GoOff => s.(core := s.core.(timer := None), expiring := s.expiring + multiset{s.core.timer.value.gen})
    case Expire(gen) =>
      var (core, poke) := OnExpire(s.core, gen);
      Poked(s.(core := core, expiring := s.expiring - multiset{gen}), poke)
    case Take => s.(wake := false, worker := AtLock)
    case Look => s.(worker := if s.core.closed then Ended else Saw(s.core))
    case Act => Acted(s, Decide(s.worker.seen, s.memory, s.now, duration))
    case Arm => s.(core := OnArm(s.core, s.worker.gen, s.now + duration), worker := Waiting)
    case DropIt =>
      var (core, poke) := OnExpire(s.core, s.worker.gen);
      Poked(s.(core := core, worker := Waiting), poke)
    case Quit => s.(worker := Ended)
  }

  function Step(duration: int): (State, Action) -> Option<State> {
    (s: State, a: Action) => if Enabled(s, a) then Some(Apply(duration, s, a)) else None
  }

  // ---- what every step keeps ----

  ghost predicate Logged(s: State) {
    && s.core.gen == |s.shows| && (s.core.want ==> s.shows != [])
    && (s.shows != [] ==> s.core.cur == s.shows[|s.shows| - 1] && s.core.at <= s.now)
  }

  /** Generations that were opened: each at most once, and not the current one while it is wanted. */
  ghost predicate OpenedOnce(s: State) {
    && (forall i, j | 0 <= i < j < |s.clicks| :: s.clicks[i] < s.clicks[j])
    && (forall i | 0 <= i < |s.clicks| :: 0 < s.clicks[i] <= s.core.gen && (s.core.want ==> s.clicks[i] < s.core.gen))
  }

  /** The toast of a generation has lasted, or is not the current one. */
  ghost predicate Ripe(duration: int, s: State, gen: nat) {
    gen <= s.core.gen && (gen == s.core.gen ==> s.now >= s.core.at + duration)
  }

  ghost predicate DueLate(duration: int, t: Core) {
    t.timer.Some? ==>
      t.timer.value.gen <= t.gen && (t.timer.value.gen == t.gen ==> t.timer.value.due >= t.at + duration)
  }

  /** Nothing that is under way, save a click, can end the current toast early. */
  ghost predicate NotEarly(duration: int, s: State) {
    && DueLate(duration, s.core)
    && (forall g | g in s.expiring :: Ripe(duration, s, g))
    && (s.worker.Dropping? ==> Ripe(duration, s, s.worker.gen))
  }

  /** What the worker saw: as it is, or older. */
  ghost predicate SawTruly(s: State) {
    && s.memory.lastGen <= s.core.gen
    && (s.worker.Saw? ==>
          && s.memory.lastGen <= s.worker.seen.gen <= s.core.gen
          && (s.worker.seen.gen == s.core.gen ==>
                s.worker.seen.at == s.core.at && (!s.worker.seen.want ==> !s.core.want)))
  }

  ghost predicate Alive(s: State) {
    (s.core.timer.Some? && s.core.timer.value.gen == s.core.gen) || s.core.gen in s.expiring
  }

  /** A toast that was sent to the page has a timer, unless the worker is about to set it. */
  ghost predicate Timed(s: State) {
    && (s.core.want && !s.core.closed && s.memory.lastGen == s.core.gen && s.worker != Arming(s.core.gen) ==> Alive(s))
    && (s.core.want && s.memory.lastGen == s.core.gen ==> s.memory.shown)
    && (s.core.closed ==> s.core.timer.None?) && (s.worker.Ended? ==> s.core.closed)
  }

  ghost predicate Screened(s: State) {
    s.screen == if s.memory.shown then Some(s.memory.lastGen) else None
  }

  ghost predicate Notified(s: State) { s.wake || s.pokes > 0 || s.worker.AtLock? }

  /** The page has what it should have. */
  ghost predicate Current(s: State) {
    && (s.core.want && s.core.ready ==> s.memory == Memory(true, s.core.gen, s.core.pages))
    && (!s.core.want ==> !s.memory.shown)
  }

  /** Without a wake-up under way, the worker works on the latest state or is done with it. */
  ghost predicate CaughtUp(s: State) {
    s.core.closed || Notified(s) ||
    match s.worker
    case Waiting => Current(s)
    case Saw(seen) => seen.(timer := s.core.timer) == s.core
    case Arming(gen) => s.core.want && gen == s.core.gen && Current(s)
    case Dropping(gen) => s.core.want && gen == s.core.gen
    case _ => false
  }

  ghost predicate Inv(duration: int, s: State) {
    && Logged(s) && OpenedOnce(s) && NotEarly(duration, s) && SawTruly(s) && Timed(s) && Screened(s) && CaughtUp(s)
  }

  lemma StepLogged(duration: int, s: State, a: Action)
    requires Logged(s) && Enabled(s, a)
    ensures Logged(Apply(duration, s, a))
  {
    if !a.Show? {
      assert Apply(duration, s, a).shows == s.shows;
    }
  }

  lemma StepOpened(duration: int, s: State, a: Action)
    requires Logged(s) && OpenedOnce(s) && Enabled(s, a)
    ensures OpenedOnce(Apply(duration, s, a))
  {
  }

  lemma StepRipe(duration: int, s: State, a: Action, gen: nat)
    requires Logged(s) && Ripe(duration, s, gen) && Enabled(s, a)
    ensures Ripe(duration, Apply(duration, s, a), gen)
  {
  }

  lemma StepExpiring(duration: int, s: State, a: Action, gen: nat)
    requires NotEarly(duration, s) && Enabled(s, a) && gen in Apply(duration, s, a).expiring
    ensures Ripe(duration, s, gen)
  {
    if gen !in s.expiring {
      assert a.GoOff? && gen == s.core.timer.value.gen;
    }
  }

  lemma StepDueLate(duration: int, s: State, a: Action)
    requires Logged(s) && DueLate(duration, s.core) && Enabled(s, a)
    ensures DueLate(duration, Apply(duration, s, a).core)
  {
  }

  lemma StepDropping(duration: int, s: State, a: Action)
    requires SawTruly(s) && Enabled(s, a)
    ensures var w := Apply(duration, s, a).worker; w.Dropping? ==> w == s.worker || Ripe(duration, s, w.gen)
  {
  }

  lemma StepEarly(duration: int, s: State, a: Action)
    requires Logged(s) && SawTruly(s) && NotEarly(duration, s) && Enabled(s, a)
    ensures NotEarly(duration, Apply(duration, s, a))
  {
    var s' := Apply(duration, s, a);
    StepDueLate(duration, s, a);
    StepDropping(duration, s, a);
    forall g | g in s'.expiring ensures Ripe(duration, s', g) {
      StepExpiring(duration, s, a, g);
      StepRipe(duration, s, a, g);
    }
    if s'.worker.Dropping? {
      StepRipe(duration, s, a, s'.worker.gen);
    }
  }

  lemma StepSaw(duration: int, s: State, a: Action)
    requires Logged(s) && SawTruly(s) && Enabled(s, a)
    ensures SawTruly(Apply(duration, s, a))
  {
  }

  lemma StepTimed(duration: int, s: State, a: Action)
    requires SawTruly(s) && Timed(s) && Enabled(s, a)
    ensures Timed(Apply(duration, s, a))
  {
    match a
    case Act => ActTimed(duration, s);
    case Expire(gen) => ExpireTimed(duration, s, gen);
    case GoOff => GoOffTimed(duration, s);
    case _ => OtherTimed(duration, s, a);
  }

  lemma ActTimed(duration: int, s: State)
    requires SawTruly(s) && Timed(s) && s.worker.Saw?
    ensures Timed(Apply(duration, s, Act))
  {
  }

  lemma ExpireTimed(duration: int, s: State, gen: nat)
    requires Timed(s) && gen in s.expiring
    ensures Timed(Apply(duration, s, Expire(gen)))
  {
  }

  lemma GoOffTimed(duration: int, s: State)
    requires Timed(s) && Enabled(s, GoOff)
    ensures Timed(Apply(duration, s, GoOff))
  {
  }

  lemma OtherTimed(duration: int, s: State, a: Action)
    requires SawTruly(s) && Timed(s) && Enabled(s, a) && !a.Act? && !a.Expire? && !a.GoOff?
    ensures Timed(Apply(duration, s, a))
  {
  }

  lemma StepScreen(duration: int, s: State, a: Action)
    requires Screened(s) && Enabled(s, a)
    ensures Screened(Apply(duration, s, a))
  {
  }

  lemma StepCaught(duration: int, s: State, a: Action)
    requires SawTruly(s) && Timed(s) && CaughtUp(s) && Enabled(s, a)
    ensures CaughtUp(Apply(duration, s, a))
  {
  }

  lemma StepKeepsInv(duration: int, s: State, a: Action)
    requires Inv(duration, s) && Enabled(s, a)
    ensures Inv(duration, Apply(duration, s, a))
  {
    StepLogged(duration, s, a);
    StepOpened(duration, s, a);
    StepEarly(duration, s, a);
    StepSaw(duration, s, a);
    StepTimed(duration, s, a);
    StepScreen(duration, s, a);
    StepCaught(duration, s, a);
  }

  // ---- the toaster as it runs ----

  /** A method's `wake` result says that it pokes the worker. */
  class Window {
    const duration: int
    var closed: bool
    var ready: bool
    var want: bool
    var cur: Content
    var at: int
    var gen: nat
    var pages: nat
    var timer: Option<Alarm>

    ghost function State(): Core
      reads this
    {
      Core(closed, ready, want, cur, at, gen, pages, timer)
    }

    constructor (duration: int)
      ensures this.duration == duration && State() == Fresh
    {
      this.duration := duration;
      closed, ready, want, cur := false, false, false, Content("", "", "");
      at, gen, pages, timer := 0, 0, 0, None;
    }

    method Show(c: Content, now: int) returns (wake: bool)
      modifies this
      ensures (State(), wake) == OnShow(old(State()), c, now)
    {
      if closed { return false; }
      cur, at, want := c, now, true;
      gen := gen + 1;
      return true;
    }

    method PageReady()
      modifies this
      ensures State() == OnPageReady(old(State()))
    {
      ready := true;
      pages := pages + 1;
    }

    method Clicked() returns (open: Option<Content>)
      modifies this
      ensures (State(), open) == OnClick(old(State()))
    {
      if closed || !want { return None; }
      open := Some(cur);
      want := false;
      timer := None;
    }

    method Expire(gen: nat) returns (wake: bool)
      modifies this
      ensures (State(), wake) == OnExpire(old(State()), gen)
    {
      if closed || this.gen != gen || !want { return false; }
      want := false;
      return true;
    }

    method Arm(gen: nat, now: int)
      modifies this
      ensures State() == OnArm(old(State()), gen, now + duration)
    {
      if closed || this.gen != gen || !want { return; }
      timer := Some(Alarm(gen, now + duration));
    }

    method Close()
      modifies this
      ensures State() == OnClose(old(State()))
    {
      closed := true;
      timer := None;
    }
  }

  /** One round of the worker: what it saw under the lock, and then the window call. */
  class Presenter {
    const duration: int
    var shown: bool
    var lastGen: nat
    var lastPages: nat
    var screen: Option<nat>

    ghost function State(): (Memory, Option<nat>)
      reads this
    {
      (Memory(shown, lastGen, lastPages), screen)
    }

    constructor (duration: int)
      ensures this.duration == duration && State() == (Memory(false, 0, 0), None)
    {
      this.duration, shown, lastGen, lastPages, screen := duration, false, 0, 0, None;
    }

    method Round(seen: Core, now: int) returns (verdict: Verdict)
      modifies this
      ensures verdict == Decide(seen, old(State()).0, now, duration)
      ensures State() == After(old(State()).0, old(State()).1, seen, verdict)
    {
      if seen.want && seen.ready && now - seen.at >= duration { return Drop; }
      if seen.want && seen.ready && (seen.gen != lastGen || seen.pages != lastPages) {
        screen, shown := Some(seen.gen), true;
        lastGen, lastPages := seen.gen, seen.pages;
        return Present;
      }
      if !seen.want && shown {
        screen, shown := None, false;
        return Dismiss;
      }
      return Rest;
    }
  }
}
