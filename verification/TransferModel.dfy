/** The transfer manager as an interleaved system: every step is one section that runs under a lock, or one callback. */
module TransferModel {
  import opened Wrappers
  import opened Progress

  datatype Status = Sent | Failed | Cancelled

  datatype Update = Update(path: string, folder: bool, sent: int64, total: int64, done: bool, status: Option<Status>)

  /** Milliseconds between two progress updates of one item. */
  const PROGRESS_INTERVAL := 100

  // ---- the part of an item that its own lock guards ----

  datatype Reporter = Reporter(done: bool, base: Update, sent: int64, last: int)

  function Initial(path: string): Update { Update(path, false, 0, 0, false, None) }

  /** The reporter afterwards, and the updates that go out: none once the item is done. */
  function Emit(rep: Reporter, u: Update): (Reporter, seq<Update>) {
    if rep.done then (rep, []) else (rep.(done := u.done), [u])
  }

  function BeginReport(rep: Reporter, base: Update, now: int): (Reporter, seq<Update>) {
    Emit(rep.(base := base, last := now), base)
  }

  function ProgressReport(rep: Reporter, sent: int64, now: int): (Reporter, seq<Update>) {
    var rep' := rep.(sent := sent);
    if now - rep.last < PROGRESS_INTERVAL then (rep', [])
    else Emit(rep'.(last := now), rep.base.(sent := sent))
  }

  function FinalUpdate(rep: Reporter, status: Status): Update {
    rep.base.(sent := if status == Status.Sent then rep.base.total else rep.sent, done := true, status := Some(status))
  }

  function FinishReport(rep: Reporter, status: Status): (Reporter, seq<Update>) {
    Emit(rep, FinalUpdate(rep, status))
  }

  // ---- the part that the manager's lock guards ----

  /** `running`: its context exists; `aborted`: that context was cancelled; `cancelQueued`: cancelled before it started. */
  datatype Control = Control(running: bool, aborted: bool, cancelQueued: bool)

  function CancelItem(c: Control): Control {
    if c.running then c.(aborted := true) else c.(cancelQueued := true)
  }

  // ---- items and the whole system ----

  datatype Stage =
    | Accepted | Announced
    | Started | Scanning | Examined | Sending
    | Ended(status: Status) | Dropped(status: Status) | Recorded(status: Status) | Finished(status: Status)
  {
    predicate Waiting() { Accepted? || Announced? }
    predicate Active() { Started? || Scanning? || Examined? || Sending? }
    predicate Settled() { Dropped? || Recorded? || Finished? }
    predicate Over() { !Waiting() && !Active() }
  }

  /** `first` is the first item of the same SendPaths call. `launched` says that the upload, and so the progress
      callback, exists; `counter` is the last number of bytes that callback was given, and `tarSize` the length of a
      folder's stream. */
  datatype Item = Item(path: string, first: nat, stage: Stage, ctl: Control, rep: Reporter,
                       launched: bool, tarSize: int64, counter: int64)

  /** A history entry, an update, or the start of an upload, for one item. */
  datatype Event = Record(id: nat, status: Status) | Report(id: nat, u: Update) | Upload(id: nat)

  datatype State = State(closed: bool, stopped: bool, items: seq<Item>, tracked: set<nat>, log: seq<Event>)

  const Start := State(false, false, [], {}, [])

  function NewItem(path: string, first: nat): Item {
    Item(path, first, Accepted, Control(false, false, false), Reporter(false, Initial(path), 0, 0), false, 0, 0)
  }

  /** What the progress callback reports for a counter: a folder is scaled to its content, a file capped at its size. */
  function Shown(it: Item, counter: int64): int64
  {
    if it.rep.base.folder then ScaleProgress(counter, it.tarSize, it.rep.base.total)
    else if counter < it.rep.base.total then counter else it.rep.base.total
  }

  datatype Action =
    | SendPaths(paths: seq<string>)
    | Announce(i: nat)
    | StartItem(i: nat)
    | BeginScan(i: nat, now: int)
    | Examine(i: nat, folder: bool, total: int64, tarSize: int64, now: int)
    | Launch(i: nat)
    | End(i: nat, failed: bool)
    | Drop(i: nat)
    | RecordItem(i: nat)
    | Finish(i: nat)
    | Progress(i: nat, n: int64, now: int)
    | Cancel(id: nat)
    | Close
    | Stop

  /** The items of one call are announced in order, and sent in order once all of them were announced. */
  predicate MayAnnounce(s: State, i: nat) {
    && i < |s.items| && s.items[i].stage.Accepted?
    && forall j | s.items[i].first <= j < i :: !s.items[j].stage.Accepted?
  }

  predicate MayStart(s: State, i: nat) {
    && i < |s.items| && s.items[i].stage.Announced?
    && (forall j | 0 <= j < |s.items| && s.items[j].first == s.items[i].first :: !s.items[j].stage.Accepted?)
    && (forall j | s.items[i].first <= j < i :: s.items[j].stage.Finished?)
  }

  predicate Enabled(s: State, a: Action) {
    match a
    case SendPaths(_) => true
    case Announce(i) => MayAnnounce(s, i)
    case StartItem(i) => MayStart(s, i)
    case BeginScan(i, _) => i < |s.items| && s.items[i].stage.Started?
    case Examine(i, folder, total, tarSize, _) =>
      && i < |s.items| && (if folder then s.items[i].stage.Scanning? else s.items[i].stage.Started?)
      && 0 <= total
    case Launch(i) => i < |s.items| && s.items[i].stage.Examined?
    case End(i, failed) => i < |s.items| && s.items[i].stage.Active() && (failed || s.items[i].stage.Sending?)
    case Drop(i) => i < |s.items| && s.items[i].stage.Ended?
    case RecordItem(i) => i < |s.items| && s.items[i].stage.Dropped?
    case Finish(i) => i < |s.items| && s.items[i].stage.Recorded?
    case Progress(i, n, _) => i < |s.items| && s.items[i].launched && s.items[i].counter <= n
    case Cancel(_) => true
    case Close => true
    case Stop => s.closed
  }

  function Reports(i: nat, us: seq<Update>): seq<Event> { seq(|us|, k requires 0 <= k < |us| => Report(i, us[k])) }

  function WithReport(s: State, i: nat, it: Item, out: (Reporter, seq<Update>)): State
    requires i < |s.items|
  {
    s.(items := s.items[i := it.(rep := out.0)], log := s.log + Reports(i, out.1))
  }

  function NewItems(paths: seq<string>, first: nat): seq<Item> {
    seq(|paths|, k requires 0 <= k < |paths| => NewItem(paths[k], first))
  }

  function IdRange(lo: nat, hi: nat): (ids: set<nat>)
    ensures forall k :: k in ids <==> lo <= k < hi
    decreases hi - lo
  {
    if lo >= hi then {} else {lo} + IdRange(lo + 1, hi)
  }

  function Outcome(s: State, it: Item, failed: bool): Status {
    if !failed then Status.Sent else if it.ctl.aborted || s.stopped then Status.Cancelled else Status.Failed
  }

  /** The answer of Cancel: whether the ID belongs to an item that is queued or running. */
  predicate CancelAnswer(s: State, id: nat) { id in s.tracked }

  function Apply(s: State, a: Action): State
    requires Enabled(s, a)
  {
    match a
    case SendPaths(paths) =>
      if s.closed then s
      else
        var n := |s.items|;
        s.(items := s.items + NewItems(paths, n), tracked := s.tracked + IdRange(n, n + |paths|))
    case Announce(i) =>
      var it := s.items[i].(stage := Announced);
      WithReport(s, i, it, Emit(it.rep, it.rep.base))
    case StartItem(i) =>
      var it := s.items[i];
      if it.ctl.cancelQueued || s.stopped then s.(items := s.items[i := it.(stage := Ended(Cancelled))])
      else s.(items := s.items[i := it.(stage := Started, ctl := it.ctl.(running := true))])
    case BeginScan(i, now) =>
      var it := s.items[i].(stage := Scanning);
      WithReport(s, i, it, BeginReport(it.rep, Initial(it.path).(folder := true), now))
    case Examine(i, folder, total, tarSize, now) =>
      var it := s.items[i].(stage := Examined, tarSize := tarSize);
      WithReport(s, i, it, BeginReport(it.rep, Initial(it.path).(folder := folder, total := total), now))
    case Launch(i) =>
      s.(items := s.items[i := s.items[i].(stage := Sending, launched := true)], log := s.log + [Upload(i)])
    case End(i, failed) =>
      s.(items := s.items[i := s.items[i].(stage := Ended(Outcome(s, s.items[i], failed)))])
    case Drop(i) =>
      s.(items := s.items[i := s.items[i].(stage := Dropped(s.items[i].stage.status))], tracked := s.tracked - {i})
    case RecordItem(i) =>
      var status := s.items[i].stage.status;
      s.(items := s.items[i := s.items[i].(stage := Recorded(status))], log := s.log + [Record(i, status)])
    case Finish(i) =>
      var status := s.items[i].stage.status;
      var it := s.items[i].(stage := Finished(status));
      WithReport(s, i, it, FinishReport(it.rep, status))
    case Progress(i, n, now) =>
      var it := s.items[i].(counter := n);
      WithReport(s, i, it, ProgressReport(it.rep, Shown(it, n), now))
    case Cancel(id) =>
      if id in s.tracked && id < |s.items| then s.(items := s.items[id := s.items[id].(ctl := CancelItem(s.items[id].ctl))])
      else s
    case Close => s.(closed := true)
    case Stop => s.(stopped := true)
  }

  function Step(s: State, a: Action): Option<State> { if Enabled(s, a) then Some(Apply(s, a)) else None }

  /** The events of one item. */
  function History(log: seq<Event>, id: nat): seq<Event> {
    if log == [] then []
    else History(log[..|log| - 1], id) + if log[|log| - 1].id == id then [log[|log| - 1]] else []
  }

  lemma {:induction false} HistoryConcat(log: seq<Event>, more: seq<Event>, id: nat)
    ensures History(log + more, id) == History(log, id) + History(more, id)
  {
    if more == [] {
      assert log + more == log;
    } else {
      var n := |more| - 1;
      assert (log + more)[..|log| + n] == log + more[..n];
      HistoryConcat(log, more[..n], id);
    }
  }
}
