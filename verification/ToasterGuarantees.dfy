/** What the notification window promises in every run, and what becomes of a toast in every schedule. */
module ToasterGuarantees {
  import opened Wrappers
  import opened Runs
  import opened Toaster

  lemma {:induction false} RunKeepsInv(duration: int, now: int, states: seq<State>, acts: seq<Action>, i: nat)
    requires IsRun(Step(duration), states, acts) && states[0] == Start(now) && i <= |acts|
    ensures Inv(duration, states[i])
  {
    if i > 0 {
      RunKeepsInv(duration, now, states, acts, i - 1);
      StepAt(Step(duration), states, acts, i - 1);
      StepKeepsInv(duration, states[i - 1], acts[i - 1]);
    } else {
      assert Start(now).expiring == multiset{};
    }
  }

  /** Only a click ends a toast before its time. */
  lemma StepLasts(duration: int, s: State, a: Action)
    requires NotEarly(duration, s) && Enabled(s, a)
    ensures s.core.want && !Apply(duration, s, a).core.want ==> a.Click? || s.now >= s.core.at + duration
  {
  }

  /** A toast that was not clicked lasts its full time: no timer of an older generation ends it. */
  lemma LastsItsTime(duration: int, now: int, states: seq<State>, acts: seq<Action>, i: nat)
    requires IsRun(Step(duration), states, acts) && states[0] == Start(now) && i < |acts|
    requires states[i].core.want && !states[i + 1].core.want
    ensures acts[i].Click? || states[i].now >= states[i].core.at + duration
  {
    RunKeepsInv(duration, now, states, acts, i);
    StepAt(Step(duration), states, acts, i);
    StepLasts(duration, states[i], acts[i]);
  }

  /** When no wake-up is under way, the window shows the newest notification, with a timer that will end it, or nothing. */
  lemma WindowIsRight(duration: int, now: int, states: seq<State>, acts: seq<Action>, i: nat)
    requires IsRun(Step(duration), states, acts) && states[0] == Start(now) && i <= |acts|
    requires !states[i].core.closed && !Notified(states[i]) && states[i].worker.Waiting?
    ensures var s := states[i];
            && (s.core.want && s.core.ready ==>
                  s.screen == Some(|s.shows|) && s.memory.lastPages == s.core.pages && Alive(s))
            && (!s.core.want ==> s.screen == None)
            && (s.core.want ==> s.shows != [] && s.core.cur == s.shows[|s.shows| - 1])
  {
    RunKeepsInv(duration, now, states, acts, i);
  }

  // ---- clicks ----

  ghost predicate Opens(s: State, a: Action) { a.Click? && OnClick(s.core).1.Some? }

  ghost predicate Grew(s: State, a: Action, s': State) {
    s.clicks <= s'.clicks && s.core.gen <= s'.core.gen && (s.core.gen < s'.core.gen ==> a.Show?)
  }

  lemma StepGrows(duration: int, s: State, a: Action)
    requires Enabled(s, a)
    ensures Grew(s, a, Apply(duration, s, a))
  {
  }

  ghost predicate GrewAlong(states: seq<State>, acts: seq<Action>) {
    |states| == |acts| + 1 && forall i | 0 <= i < |acts| :: Grew(states[i], acts[i], states[i + 1])
  }

  lemma RunGrows(duration: int, states: seq<State>, acts: seq<Action>)
    requires IsRun(Step(duration), states, acts)
    ensures GrewAlong(states, acts)
  {
    forall i | 0 <= i < |acts| ensures Grew(states[i], acts[i], states[i + 1]) {
      StepAt(Step(duration), states, acts, i);
      StepGrows(duration, states[i], acts[i]);
    }
  }

  lemma {:induction false} HistoryGrows(states: seq<State>, acts: seq<Action>, i: nat, j: nat)
    requires GrewAlong(states, acts) && i <= j <= |acts|
    ensures states[i].clicks <= states[j].clicks && states[i].core.gen <= states[j].core.gen
    ensures states[i].core.gen < states[j].core.gen ==> exists k :: i <= k < j && acts[k].Show?
    decreases j
  {
    if i < j {
      HistoryGrows(states, acts, i, j - 1);
      assert Grew(states[j - 1], acts[j - 1], states[j - 1 + 1]);
    }
  }

  /** A click opens the chat of the newest notification, and between two clicks that open a chat a new one came. */
  lemma ClickOpensNewest(duration: int, now: int, states: seq<State>, acts: seq<Action>, i: nat, j: nat)
    requires IsRun(Step(duration), states, acts) && states[0] == Start(now) && i < j < |acts|
    requires Opens(states[i], acts[i]) && Opens(states[j], acts[j])
    ensures states[j].shows != [] && OnClick(states[j].core).1 == Some(states[j].shows[|states[j].shows| - 1])
    ensures exists k :: i <= k < j && acts[k].Show?
  {
    RunKeepsInv(duration, now, states, acts, i);
    RunKeepsInv(duration, now, states, acts, j);
    RunGrows(duration, states, acts);
    StepAt(Step(duration), states, acts, i);
    ClickLogs(states[i]);
    HistoryGrows(states, acts, i, j);
    HistoryGrows(states, acts, i + 1, j);
    GensDiffer(states[i], states[i + 1].clicks, states[j]);
  }

  lemma ClickLogs(s: State)
    requires Opens(s, Click)
    ensures forall duration :: Apply(duration, s, Click).clicks == s.clicks + [s.core.gen]
  {
  }

  lemma GensDiffer(s: State, clicks: seq<nat>, t: State)
    requires clicks == s.clicks + [s.core.gen] && clicks <= t.clicks && s.core.gen <= t.core.gen
    requires OpenedOnce(t) && t.core.want
    ensures s.core.gen < t.core.gen
  {
    assert t.clicks[|s.clicks|] == s.core.gen;
  }

  // ---- every schedule ----

  /** The steps that the toaster and its timers take by themselves. */
  predicate Own(a: Action) {
    a.Poke? || a.GoOff? || a.Expire? || a.Take? || a.Look? || a.Act? || a.Arm? || a.DropIt? || a.Quit?
  }

  function OwnSteps(acts: seq<Action>): nat {
    if acts == [] then 0 else (if Own(acts[0]) then 1 else 0) + OwnSteps(acts[1..])
  }

  /** How many such steps there can still be. */
  function Rank(s: State): nat {
    8 * s.pokes + (if s.wake then 7 else 0) + (if s.core.want then 8 else 0) + (if s.core.timer.Some? then 2 else 0)
    + |s.expiring| + Ahead(s.worker)
  }

  function Ahead(w: Worker): nat {
    match w
    case Waiting => 1
    case AtLock => 7
    case Saw(_) => 6
    case Arming(_) => 5
    case Dropping(_) => 2
    case Ended => 0
  }

  lemma StepShrinks(duration: int, s: State, a: Action)
    requires Enabled(s, a) && (Own(a) || a.Pass?)
    ensures Rank(Apply(duration, s, a)) + (if Own(a) then 1 else 0) <= Rank(s)
  {
  }

  /** Only time passes, and the toaster acts by itself. */
  predicate Undisturbed(acts: seq<Action>) { forall a | a in acts :: Own(a) || a.Pass? }

  /** Undisturbed, the toaster comes to rest: it takes a bounded number of steps. */
  lemma {:induction false} ComesToRest(duration: int, s: State, acts: seq<Action>, t: State)
    requires Leads(Step(duration), s, acts, t) && Undisturbed(acts)
    ensures OwnSteps(acts) + Rank(t) <= Rank(s)
    decreases |acts|
  {
    if acts != [] {
      assert acts[0] in acts;
      StepShrinks(duration, s, acts[0]);
      ComesToRest(duration, Apply(duration, s, acts[0]), acts[1..], t);
    }
  }

  /** Nothing is left to do before time passes or someone calls. */
  ghost predicate Rests(s: State) { forall a | Own(a) :: !Enabled(s, a) }

  /** At rest the window shows the newest notification, with a timer that has yet to go off, or nothing. */
  lemma RestIsRight(duration: int, s: State)
    requires Inv(duration, s) && !s.core.closed && Rests(s)
    ensures s.worker.Waiting? && !Notified(s)
    ensures s.core.want && s.core.ready ==>
              && s.screen == Some(|s.shows|) && s.memory == Memory(true, s.core.gen, s.core.pages)
              && s.core.timer.Some? && s.core.timer.value.gen == s.core.gen && s.now < s.core.timer.value.due
    ensures !s.core.want ==> s.screen == None
  {
    assert !Enabled(s, Poke) && !Enabled(s, Take) && !Enabled(s, Look) && !Enabled(s, Act);
    assert !Enabled(s, Arm) && !Enabled(s, DropIt) && !Enabled(s, GoOff) && !Enabled(s, Expire(s.core.gen));
  }

  lemma {:induction false} LeadsKeepsInv(duration: int, s: State, acts: seq<Action>, t: State)
    requires Inv(duration, s) && Leads(Step(duration), s, acts, t)
    ensures Inv(duration, t)
    decreases |acts|
  {
    if acts != [] {
      StepKeepsInv(duration, s, acts[0]);
      LeadsKeepsInv(duration, Apply(duration, s, acts[0]), acts[1..], t);
    }
  }

  // ---- a toast appears ----

  /** The notification c, shown at a time, is still wanted. */
  ghost predicate Wanted(s: State, shows: seq<Content>, at: int, closed: bool) {
    s.core.want && s.shows == shows && s.core.at == at && s.core.closed == closed
  }

  lemma StepWanted(duration: int, s: State, a: Action, shows: seq<Content>, at: int, closed: bool)
    requires NotEarly(duration, s) && Enabled(s, a) && (Own(a) || a.Pass?)
    requires Wanted(s, shows, at, closed) && s.now < at + duration
    ensures Wanted(Apply(duration, s, a), shows, at, closed) && s.now <= Apply(duration, s, a).now
  {
    StepLasts(duration, s, a);
  }

  lemma {:induction false} TimePasses(duration: int, s: State, acts: seq<Action>, t: State)
    requires Leads(Step(duration), s, acts, t)
    ensures s.now <= t.now
    decreases |acts|
  {
    if acts != [] {
      TimePasses(duration, Apply(duration, s, acts[0]), acts[1..], t);
    }
  }

  lemma {:induction false} StaysWanted(duration: int, s: State, acts: seq<Action>, t: State, shows: seq<Content>, at: int, closed: bool)
    requires Inv(duration, s) && Leads(Step(duration), s, acts, t) && Undisturbed(acts)
    requires Wanted(s, shows, at, closed) && t.now < at + duration
    ensures Wanted(t, shows, at, closed)
    decreases |acts|
  {
    if acts != [] {
      assert acts[0] in acts;
      TimePasses(duration, s, acts, t);
      StepKeepsInv(duration, s, acts[0]);
      StepWanted(duration, s, acts[0], shows, at, closed);
      StaysWanted(duration, Apply(duration, s, acts[0]), acts[1..], t, shows, at, closed);
    }
  }

  /** In every schedule a notification appears: where the toaster rests before the time of a toast is over, and the page
      listens, the notification is on screen. */
  lemma ShowAppears(duration: int, s: State, c: Content, acts: seq<Action>, t: State)
    requires Inv(duration, s) && !s.core.closed && Leads(Step(duration), Apply(duration, s, Show(c)), acts, t)
    requires Undisturbed(acts) && Rests(t) && t.core.ready && t.now < s.now + duration
    ensures t.shows == s.shows + [c] && t.screen == Some(|t.shows|)
  {
    var s1 := Apply(duration, s, Show(c));
    StepKeepsInv(duration, s, Show(c));
    StaysWanted(duration, s1, acts, t, s.shows + [c], s.now, false);
    LeadsKeepsInv(duration, s1, acts, t);
    RestIsRight(duration, t);
  }

  // ---- a toast goes away ----

  /** The page has the newest notification, and its timer is the given one or has gone off. */
  ghost predicate Sent(s: State, gen: nat, pages: nat, alarm: Alarm) {
    && s.core.gen == gen && s.core.pages == pages && s.memory.lastGen == gen && s.memory.lastPages == pages
    && (s.core.timer.Some? ==> s.core.timer.value == alarm)
    && (s.worker.Saw? ==> s.worker.seen.gen == gen && s.worker.seen.pages == pages) && !s.worker.Arming?
    && s.core.ready && !s.core.closed
  }

  lemma StepSent(duration: int, s: State, a: Action, gen: nat, pages: nat, alarm: Alarm)
    requires Sent(s, gen, pages, alarm) && Enabled(s, a) && (Own(a) || a.Pass?)
    ensures Sent(Apply(duration, s, a), gen, pages, alarm)
    ensures !s.core.want ==> !Apply(duration, s, a).core.want
  {
  }

  lemma {:induction false} StaysSent(duration: int, s: State, acts: seq<Action>, t: State, gen: nat, pages: nat, alarm: Alarm)
    requires Sent(s, gen, pages, alarm) && Leads(Step(duration), s, acts, t) && Undisturbed(acts)
    ensures Sent(t, gen, pages, alarm) && (!s.core.want ==> !t.core.want)
    decreases |acts|
  {
    if acts != [] {
      assert acts[0] in acts;
      StepSent(duration, s, acts[0], gen, pages, alarm);
      StaysSent(duration, Apply(duration, s, acts[0]), acts[1..], t, gen, pages, alarm);
    }
  }

  /** In every schedule a toast goes away: where the toaster rests again once its timer is due, nothing is on screen. */
  lemma GoesAway(duration: int, s: State, acts: seq<Action>, t: State)
    requires Inv(duration, s) && !s.core.closed && s.core.ready && s.core.want && Rests(s)
    requires Leads(Step(duration), s, acts, t) && Undisturbed(acts) && Rests(t)
    requires s.core.timer.Some? && t.now >= s.core.timer.value.due
    ensures t.screen == None
  {
    RestIsRight(duration, s);
    StaysSent(duration, s, acts, t, s.core.gen, s.core.pages, s.core.timer.value);
    LeadsKeepsInv(duration, s, acts, t);
    RestIsRight(duration, t);
  }

  // ---- not longer than its time ----

  /** A timer is due at most a toast's time from now. */
  ghost predicate DueSoon(duration: int, s: State) { s.core.timer.Some? ==> s.core.timer.value.due <= s.now + duration }

  lemma StepDueSoon(duration: int, s: State, a: Action)
    requires DueSoon(duration, s) && Enabled(s, a)
    ensures DueSoon(duration, Apply(duration, s, a))
  {
  }

  lemma {:induction false} RunDueSoon(duration: int, now: int, states: seq<State>, acts: seq<Action>, i: nat)
    requires IsRun(Step(duration), states, acts) && states[0] == Start(now) && i <= |acts|
    ensures DueSoon(duration, states[i])
  {
    if i > 0 {
      RunDueSoon(duration, now, states, acts, i - 1);
      StepAt(Step(duration), states, acts, i - 1);
      StepDueSoon(duration, states[i - 1], acts[i - 1]);
    }
  }

  /** In every run and every undisturbed schedule from where the toaster rests: where it rests again a toast's time later,
      nothing is on screen. */
  lemma GoesAwayInTime(duration: int, now: int, states: seq<State>, before: seq<Action>, i: nat, acts: seq<Action>, t: State)
    requires IsRun(Step(duration), states, before) && states[0] == Start(now) && i <= |before|
    requires var s := states[i]; !s.core.closed && s.core.ready && s.core.want && Rests(s)
    requires Leads(Step(duration), states[i], acts, t) && Undisturbed(acts) && Rests(t)
    requires t.now >= states[i].now + duration
    ensures t.screen == None
  {
    RunKeepsInv(duration, now, states, before, i);
    RunDueSoon(duration, now, states, before, i);
    RestIsRight(duration, states[i]);
    GoesAway(duration, states[i], acts, t);
  }

  // ---- what is sent to the page ----

  /** The step sends the toast of a generation to the page, and the worker goes on to set its timer. */
  ghost predicate Sends(a: Action, s': State, gen: nat) { a.Act? && s'.worker == Arming(gen) && s'.screen == Some(gen) }

  /** What is sent is not older than a toast lasts, and it is what was newest when the worker looked. Nothing else puts a toast
      on screen. */
  lemma PresentedWhileFresh(duration: int, s: State, a: Action)
    requires Inv(duration, s) && Enabled(s, a)
    requires var s' := Apply(duration, s, a);
             (a.Act? && s'.worker.Arming?) || (s'.screen != s.screen && s'.screen.Some?)
    ensures s.worker.Saw? && s.worker.seen.want && s.worker.seen.ready && s.now < s.worker.seen.at + duration
    ensures Sends(a, Apply(duration, s, a), s.worker.seen.gen)
  {
  }

  /** What a round of the worker does: where a page has reported, a wanted toast is dropped if it is older than a toast lasts,
      and sent if it is not and this page did not get it yet; one that is not wanted any more is taken off the screen. */
  lemma RoundMeans(duration: int, s: State, a: Action)
    requires a.Act? && Enabled(s, a)
    ensures var s', seen := Apply(duration, s, a), s.worker.seen;
            var due := seen.want && seen.ready;
            && (s'.worker == Dropping(seen.gen) <==> due && seen.at + duration <= s.now)
            && (s'.worker == Arming(seen.gen) <==>
                  due && s.now < seen.at + duration && !(s.memory.lastGen == seen.gen && s.memory.lastPages == seen.pages))
            && (s'.memory.shown <==> s'.worker.Arming? || (s.memory.shown && seen.want))
  {
  }

  /** The worker knows of no page that has not reported yet. */
  ghost predicate PagesKnown(s: State) {
    s.memory.lastPages <= s.core.pages && (s.worker.Saw? ==> s.worker.seen.pages <= s.core.pages)
  }

  lemma StepPages(duration: int, s: State, a: Action)
    requires PagesKnown(s) && Enabled(s, a)
    ensures var s' := Apply(duration, s, a);
            && PagesKnown(s') && s.core.pages <= s'.core.pages && (s.core.ready ==> s'.core.ready)
            && (a.PageReady? ==> s.core.pages < s'.core.pages && s'.core.ready)
            && (s'.memory == s.memory.(shown := s'.memory.shown) || Sends(a, s', s'.memory.lastGen))
  {
  }

  lemma {:induction false} RunPages(duration: int, now: int, states: seq<State>, acts: seq<Action>, i: nat, j: nat)
    requires IsRun(Step(duration), states, acts) && states[0] == Start(now) && i <= j <= |acts|
    ensures PagesKnown(states[i]) && PagesKnown(states[j])
    ensures states[i].core.pages <= states[j].core.pages && (states[i].core.ready ==> states[j].core.ready)
    ensures states[i].memory.lastPages == states[j].memory.lastPages ||
            exists k :: i <= k < j && Sends(acts[k], states[k + 1], states[j].memory.lastGen)
    decreases j
  {
    if 0 < j {
      RunPages(duration, now, states, acts, if i < j then i else j - 1, j - 1);
      StepAt(Step(duration), states, acts, j - 1);
      StepPages(duration, states[j - 1], acts[j - 1]);
    }
  }

  /** A page that reports again gets the toast again: where the worker is done with it and a toast is wanted, the newest one was
      sent after the report. */
  lemma EachPageGetsIt(duration: int, now: int, states: seq<State>, acts: seq<Action>, i: nat, j: nat)
    requires IsRun(Step(duration), states, acts) && states[0] == Start(now) && i < j <= |acts| && acts[i].PageReady?
    requires var s := states[j]; !s.core.closed && s.core.want && !Notified(s) && s.worker.Waiting?
    ensures exists k :: i < k < j && Sends(acts[k], states[k + 1], |states[j].shows|)
  {
    RunPages(duration, now, states, acts, i, i);
    StepAt(Step(duration), states, acts, i);
    StepPages(duration, states[i], acts[i]);
    RunPages(duration, now, states, acts, i + 1, j);
    RunKeepsInv(duration, now, states, acts, j);
  }

  /** A timer is set only by the worker behind what it sent; a click that opens a chat and Close leave none. */
  lemma TimersAreArmed(duration: int, s: State, a: Action)
    requires Enabled(s, a)
    ensures var timer := Apply(duration, s, a).core.timer;
            && (timer.Some? && timer != s.core.timer ==> a.Arm? && timer == Some(Alarm(s.worker.gen, s.now + duration)))
            && (Opens(s, a) || a.Close? ==> timer.None?)
  {
  }

  /** After Close nothing more is shown or opened, and the worker makes no further round. */
  lemma ClosedForGood(duration: int, s: State, a: Action)
    requires s.core.closed && Enabled(s, a)
    ensures var s' := Apply(duration, s, a);
            && s'.core.closed && s'.shows == s.shows && s'.clicks == s.clicks
            && (s'.worker.Saw? || s'.screen != s.screen ==> s.worker.Saw?)
  {
  }
}
