/** What holds in every interleaving of workers, late progress callbacks, Cancel and Close. */
module TransferFacts {
  import opened Wrappers
  import opened Progress
  import opened Runs
  import opened TransferModel

  // ---- the events of one item ----

  /** An update that is not the last one and shows no more than is known now, or the start of the upload. */
  ghost predicate Plain(e: Event, it: Item) {
    match e
    case Record(_, _) => false
    case Upload(_) => it.launched
    case Report(_, u) => !u.done && u.path == it.path && 0 <= u.sent <= u.total && u.sent <= it.rep.sent
  }

  ghost predicate Opens(h: seq<Event>, it: Item, i: nat) {
    h != [] && h[0] == Report(i, Initial(it.path))
  }

  ghost predicate AllPlain(h: seq<Event>, it: Item) {
    forall k | 0 <= k < |h| :: Plain(h[k], it)
  }

  ghost predicate RecordAt(h: seq<Event>, it: Item, i: nat, status: Status, j: nat) {
    && 0 < j < |h| && h[j] == Record(i, status)
    && forall k | 0 <= k < |h| && k != j :: Plain(h[k], it)
  }

  /** Exactly one event is the record, with this status, and the others are plain. */
  ghost predicate OneRecord(h: seq<Event>, it: Item, i: nat, status: Status) {
    exists j :: RecordAt(h, it, i, status, j)
  }

  ghost predicate IsFinal(e: Event, it: Item, i: nat, status: Status) {
    && e.Report? && e.id == i && e.u.done && e.u.status == Some(status) && e.u.path == it.path
    && 0 <= e.u.sent <= e.u.total && (status == Status.Sent ==> e.u.sent == e.u.total)
  }

  ghost predicate HistoryFits(it: Item, i: nat, h: seq<Event>) {
    match it.stage
    case Accepted => h == []
    case Announced => h == [Report(i, Initial(it.path))]
    case Recorded(status) => Opens(h, it, i) && OneRecord(h, it, i, status)
    case Finished(status) =>
      && |h| > 1 && Opens(h, it, i) && IsFinal(h[|h| - 1], it, i, status)
      && OneRecord(h[..|h| - 1], it, i, status)
    case _ => Opens(h, it, i) && AllPlain(h, it)
  }

  /** The shown number of bytes never goes down. */
  ghost predicate Ordered(h: seq<Event>) {
    forall j, k | 0 <= j < k < |h| && h[j].Report? && h[k].Report? :: h[j].u.sent <= h[k].u.sent
  }

  ghost predicate ReporterFits(it: Item) {
    && (it.rep.done <==> it.stage.Finished?)
    && !it.rep.base.done && it.rep.base.sent == 0 && it.rep.base.status == None && it.rep.base.path == it.path
    && 0 <= it.rep.base.total && 0 <= it.counter
    && (it.stage.Waiting() ==> it.rep.base == Initial(it.path))
    && it.rep.sent == (if it.launched then Shown(it, it.counter) else 0)
    && (!it.launched ==> it.counter == 0)
  }

  ghost predicate ControlFits(it: Item) {
    && (it.launched ==> it.ctl.running && (it.stage.Sending? || it.stage.Over()))
    && (it.stage.Sending? ==> it.launched)
    && (it.stage.Active() ==> it.ctl.running)
    && (it.ctl.running ==> !it.stage.Waiting() && !it.ctl.cancelQueued)
    && (it.stage.Over() && !it.ctl.running ==> it.stage.status == Cancelled)
  }

  ghost predicate ItemFits(it: Item, i: nat, h: seq<Event>) {
    it.first <= i && ReporterFits(it) && ControlFits(it) && HistoryFits(it, i, h) && Ordered(h)
  }

  ghost predicate Inv(s: State) {
    && (forall i | 0 <= i < |s.items| :: ItemFits(s.items[i], i, History(s.log, i)))
    && (forall i :: i in s.tracked <==> 0 <= i < |s.items| && !s.items[i].stage.Settled())
    && (forall k | 0 <= k < |s.log| :: s.log[k].id < |s.items|)
  }

  // ---- one step changes one item ----

  lemma ShownBounds(it: Item, counter: int64)
    requires 0 <= it.rep.base.total && 0 <= counter
    ensures 0 <= Shown(it, counter) <= it.rep.base.total
    ensures counter == 0 ==> Shown(it, counter) == 0
  {
  }

  lemma ShownMonotone(it: Item, a: int64, b: int64)
    requires a <= b
    ensures Shown(it, a) <= Shown(it, b)
  {
    if it.rep.base.folder {
      ScaleProgressMonotone(a, b, it.tarSize, it.rep.base.total);
    }
  }

  /** Facts about events stay true while the item's shown bytes only grow. */
  ghost predicate Later(it: Item, it': Item) {
    it'.path == it.path && it.rep.sent <= it'.rep.sent && (it.launched ==> it'.launched)
  }

  lemma PlainLater(h: seq<Event>, it: Item, it': Item)
    requires Later(it, it')
    ensures AllPlain(h, it) ==> AllPlain(h, it')
    ensures forall i, status, j :: RecordAt(h, it, i, status, j) ==> RecordAt(h, it', i, status, j)
  {
    assert forall e | Plain(e, it) :: Plain(e, it');
  }

  /** A plain update goes out, and the stage is the old one or the next that still has no record. */
  lemma ReportPlain(it: Item, it': Item, i: nat, h: seq<Event>, u: Update)
    requires ItemFits(it, i, h) && Later(it, it') && !it.stage.Waiting() && !it.stage.Finished?
    requires it'.stage == it.stage || (it.stage.Active() && it'.stage.Active())
    requires Plain(Report(i, u), it') && u.sent == it'.rep.sent
    ensures HistoryFits(it', i, h + [Report(i, u)]) && Ordered(h + [Report(i, u)])
  {
    PlainLater(h, it, it');
    var h' := h + [Report(i, u)];
    assert forall k | 0 <= k < |h| && h[k].Report? :: h[k].u.sent <= it.rep.sent by {
      if it.stage.Recorded? {
        var j :| RecordAt(h, it, i, it.stage.status, j);
      }
    }
    if it.stage.Recorded? {
      var j :| RecordAt(h, it, i, it.stage.status, j);
      assert RecordAt(h, it', i, it.stage.status, j);
      assert RecordAt(h', it', i, it.stage.status, j);
    }
  }

  lemma SilentStep(it: Item, it': Item, i: nat, h: seq<Event>)
    requires ItemFits(it, i, h) && Later(it, it')
    requires it'.stage == it.stage || (Unrecorded(it.stage) && Unrecorded(it'.stage))
             || (it.stage.Announced? && Unrecorded(it'.stage))
    ensures HistoryFits(it', i, h)
  {
    PlainLater(h, it, it');
    if it.stage.Recorded? {
      var j :| RecordAt(h, it, i, it.stage.status, j);
      assert RecordAt(h, it', i, it.stage.status, j);
    } else if it.stage.Finished? {
      PlainLater(h[..|h| - 1], it, it');
      var j :| RecordAt(h[..|h| - 1], it, i, it.stage.status, j);
      assert RecordAt(h[..|h| - 1], it', i, it.stage.status, j);
    }
  }

  ghost predicate Unrecorded(st: Stage) { st.Active() || st.Ended? || st.Dropped? }

  lemma UploadStep(it: Item, it': Item, i: nat, h: seq<Event>)
    requires ItemFits(it, i, h) && Later(it, it') && it'.launched && it.stage.Active() && it'.stage.Active()
    ensures HistoryFits(it', i, h + [Upload(i)]) && Ordered(h + [Upload(i)])
  {
    PlainLater(h, it, it');
  }

  lemma RecordStep(it: Item, it': Item, i: nat, h: seq<Event>, status: Status)
    requires ItemFits(it, i, h) && Later(it, it') && it.stage == Dropped(status) && it'.stage == Recorded(status)
    ensures HistoryFits(it', i, h + [Record(i, status)]) && Ordered(h + [Record(i, status)])
  {
    PlainLater(h, it, it');
    assert RecordAt(h + [Record(i, status)], it', i, status, |h|);
  }

  lemma FinalStep(it: Item, it': Item, i: nat, h: seq<Event>, status: Status)
    requires ItemFits(it, i, h) && it.stage == Recorded(status) && it'.stage == Finished(status) && Later(it, it')
    ensures var h' := h + [Report(i, FinalUpdate(it.rep, status))]; HistoryFits(it', i, h') && Ordered(h')
  {
    ShownBounds(it, it.counter);
    PlainLater(h, it, it');
    var j :| RecordAt(h, it, i, status, j);
    var h' := h + [Report(i, FinalUpdate(it.rep, status))];
    assert h'[..|h'| - 1] == h;
    assert RecordAt(h, it', i, status, j);
    assert forall k | 0 <= k < |h| && h[k].Report? :: h[k].u.sent <= it.rep.sent;
  }

  // ---- every step ----

  lemma Untouched(s: State, s': State, i: nat)
    requires Inv(s) && i < |s.items| <= |s'.items| && s'.items[i] == s.items[i]
    requires History(s'.log, i) == History(s.log, i)
    ensures ItemFits(s'.items[i], i, History(s'.log, i))
  {
  }

  lemma {:induction false} HistoryIDs(log: seq<Event>, id: nat)
    requires forall k | 0 <= k < |log| :: log[k].id != id
    ensures History(log, id) == []
  {
    if log != [] {
      HistoryIDs(log[..|log| - 1], id);
    }
  }

  lemma AtMostOne(more: seq<Event>, i: nat, j: nat)
    requires |more| <= 1 && forall e | e in more :: e.id == i
    ensures History(more, j) == if j == i then more else []
  {
    if more != [] {
      assert more[..0] == [] && more[0] in more;
      assert more == [more[0]];
    }
  }

  /** A step that changes item i and appends at most one event, which is about that item. */
  lemma ItemStep(s: State, s': State, i: nat, more: seq<Event>)
    requires Inv(s) && i < |s.items| && |s'.items| == |s.items| && |more| <= 1
    requires s'.items == s.items[i := s'.items[i]] && s'.log == s.log + more
    requires forall e | e in more :: e.id == i
    requires ItemFits(s'.items[i], i, History(s.log, i) + more)
    requires forall j :: j in s'.tracked <==> 0 <= j < |s.items| && !s'.items[j].stage.Settled()
    ensures Inv(s')
  {
    forall j: nat | j < |s'.items| ensures ItemFits(s'.items[j], j, History(s'.log, j)) {
      HistoryConcat(s.log, more, j);
      AtMostOne(more, i, j);
      if j != i {
        assert History(s.log, j) + [] == History(s.log, j);
        Untouched(s, s', j);
      }
    }
    forall k | 0 <= k < |s'.log| ensures s'.log[k].id < |s'.items| {
      if k >= |s.log| { assert s'.log[k] in more; }
    }
  }

  lemma SendPathsKeepsInv(s: State, paths: seq<string>)
    requires Inv(s)
    ensures Inv(Apply(s, SendPaths(paths)))
  {
    var s' := Apply(s, SendPaths(paths));
    forall j: nat | j < |s'.items| ensures ItemFits(s'.items[j], j, History(s'.log, j)) {
      if j >= |s.items| {
        HistoryIDs(s.log, j);
      }
    }
  }

  lemma AnnounceKeepsInv(s: State, i: nat)
    requires Inv(s) && Enabled(s, Announce(i))
    ensures Inv(Apply(s, Announce(i)))
  {
    var it := s.items[i];
    assert ItemFits(it, i, History(s.log, i));
    var more := Reports(i, [it.rep.base]);
    assert more == [Report(i, Initial(it.path))];
    ItemStep(s, Apply(s, Announce(i)), i, more);
  }

  lemma StartKeepsInv(s: State, i: nat)
    requires Inv(s) && Enabled(s, StartItem(i))
    ensures Inv(Apply(s, StartItem(i)))
  {
    var s' := Apply(s, StartItem(i));
    SilentStep(s.items[i], s'.items[i], i, History(s.log, i));
    assert History(s.log, i) + [] == History(s.log, i);
    ItemStep(s, s', i, []);
  }

  lemma BeginKeepsInv(s: State, i: nat, a: Action)
    requires Inv(s) && Enabled(s, a) && i < |s.items|
    requires (a.BeginScan? && a.i == i) || (a.Examine? && a.i == i)
    ensures Inv(Apply(s, a))
  {
    var s' := Apply(s, a);
    var it, it' := s.items[i], s'.items[i];
    ReportPlain(it, it', i, History(s.log, i), it'.rep.base);
    var more := Reports(i, [it'.rep.base]);
    assert more == [Report(i, it'.rep.base)];
    ItemStep(s, s', i, more);
  }

  lemma LaunchKeepsInv(s: State, i: nat)
    requires Inv(s) && Enabled(s, Launch(i))
    ensures Inv(Apply(s, Launch(i)))
  {
    var s' := Apply(s, Launch(i));
    ShownBounds(s'.items[i], 0);
    UploadStep(s.items[i], s'.items[i], i, History(s.log, i));
    ItemStep(s, s', i, [Upload(i)]);
  }

  lemma EndKeepsInv(s: State, i: nat, a: Action)
    requires Inv(s) && Enabled(s, a) && i < |s.items|
    requires (a.End? && a.i == i) || (a.Drop? && a.i == i)
    ensures Inv(Apply(s, a))
  {
    var s' := Apply(s, a);
    SilentStep(s.items[i], s'.items[i], i, History(s.log, i));
    assert History(s.log, i) + [] == History(s.log, i);
    ItemStep(s, s', i, []);
  }

  lemma RecordKeepsInv(s: State, i: nat)
    requires Inv(s) && Enabled(s, RecordItem(i))
    ensures Inv(Apply(s, RecordItem(i)))
  {
    var s' := Apply(s, RecordItem(i));
    RecordStep(s.items[i], s'.items[i], i, History(s.log, i), s.items[i].stage.status);
    ItemStep(s, s', i, [Record(i, s.items[i].stage.status)]);
  }

  lemma FinishKeepsInv(s: State, i: nat)
    requires Inv(s) && Enabled(s, Finish(i))
    ensures Inv(Apply(s, Finish(i)))
  {
    var s' := Apply(s, Finish(i));
    var it := s.items[i];
    FinalStep(it, s'.items[i], i, History(s.log, i), it.stage.status);
    var more := Reports(i, [FinalUpdate(it.rep, it.stage.status)]);
    assert more == [Report(i, FinalUpdate(it.rep, it.stage.status))];
    ItemStep(s, s', i, more);
  }

  /** A progress callback may run long after the upload returned; once the item is done nothing goes out. */
  lemma ProgressKeepsInv(s: State, i: nat, n: int64, now: int)
    requires Inv(s) && Enabled(s, Progress(i, n, now))
    ensures Inv(Apply(s, Progress(i, n, now)))
  {
    var s' := Apply(s, Progress(i, n, now));
    var it, it' := s.items[i], s'.items[i];
    ShownMonotone(it, it.counter, n);
    ShownBounds(it, it.counter);
    ShownBounds(it', n);
    if it.rep.done || now - it.rep.last < PROGRESS_INTERVAL {
      SilentStep(it, it', i, History(s.log, i));
      assert History(s.log, i) + [] == History(s.log, i);
      ItemStep(s, s', i, []);
    } else {
      var u := it.rep.base.(sent := it'.rep.sent);
      ReportPlain(it, it', i, History(s.log, i), u);
      var more := Reports(i, [u]);
      assert more == [Report(i, u)];
      ItemStep(s, s', i, more);
    }
  }

  lemma CancelKeepsInv(s: State, i: nat)
    requires Inv(s)
    ensures Inv(Apply(s, Cancel(i)))
  {
    if i in s.tracked {
      var s' := Apply(s, Cancel(i));
      SilentStep(s.items[i], s'.items[i], i, History(s.log, i));
      assert History(s.log, i) + [] == History(s.log, i);
      ItemStep(s, s', i, []);
    }
  }

  lemma StepKeepsInv(s: State, a: Action)
    requires Inv(s) && Enabled(s, a)
    ensures Inv(Apply(s, a))
  {
    match a
    case SendPaths(paths) => SendPathsKeepsInv(s, paths);
    case Announce(i) => AnnounceKeepsInv(s, i);
    case StartItem(i) => StartKeepsInv(s, i);
    case BeginScan(i, _) => BeginKeepsInv(s, i, a);
    case Examine(i, _, _, _, _) => BeginKeepsInv(s, i, a);
    case Launch(i) => LaunchKeepsInv(s, i);
    case End(i, _) => EndKeepsInv(s, i, a);
    case Drop(i) => EndKeepsInv(s, i, a);
    case RecordItem(i) => RecordKeepsInv(s, i);
    case Finish(i) => FinishKeepsInv(s, i);
    case Progress(i, n, now) => ProgressKeepsInv(s, i, n, now);
    case Cancel(id) => CancelKeepsInv(s, id);
    case Close =>
    case Stop =>
  }

  lemma StartHasInv()
    ensures Inv(Start)
  {
  }

  lemma NextKeepsInv(s: State, a: Action, t: State)
    requires Inv(s) && Step(s, a) == Some(t)
    ensures Inv(t)
  {
    StepKeepsInv(s, a);
  }

  // ---- every run ----

  ghost predicate FromStart(acts: seq<Action>, run: seq<State>) { IsRun(Step, run, acts) && run[0] == Start }

  lemma RunKeepsInv(acts: seq<Action>, run: seq<State>, k: nat)
    requires FromStart(acts, run) && k <= |acts|
    ensures Inv(run[k])
  {
    StartHasInv();
    forall s, a, t | Inv(s) && Step(s, a) == Some(t) ensures Inv(t) { NextKeepsInv(s, a, t); }
    HoldsThroughout(Step, s => Inv(s), run, acts, k);
  }
}
