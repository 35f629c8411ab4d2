/** What the receive directory keeps in every run, and on which file systems. */
module StorageGuarantees {
  import opened Wrappers
  import opened Filenames
  import FolderExtract
  import opened Runs
  import opened StorageModel
  import opened StorageRuns

  // ---- the end of an upload ----

  /** The upload's temporary entry stands under the i-th candidate now, as it was but for its name; the rest is as before. */
  ghost predicate Placed(fs: FileSystem, s: State, s': State, u: Session, i: nat) {
    var k, name := fs.fold(u.Temp()), NumberedName(u.name, i, u.isDir);
    var key := fs.fold(name);
    && k in s.dir && key in s'.dir && s'.dir[key] == s.dir[k].(name := name) && key in s'.done
    && (k != key ==> k !in s'.dir)
    && forall j | j != k && j != key :: (j in s'.dir <==> j in s.dir) && (j in s.dir ==> s'.dir[j] == s.dir[j])
  }

  /** A finished upload is committed under the first candidate that is free, unless its temporary entry is gone or cannot be
      moved; if it is not committed, nothing is left of it and nothing else changes. */
  lemma FinishMeans(fs: FileSystem, s: State, a: Action, i: nat)
    requires a.Finish? && Enabled(fs, s, a)
    ensures var s', u := Apply(fs, s, a), s.live[a.id];
            var there := fs.fold(u.Temp()) in s.dir && !a.stuck;
            && s'.live == s.live - {a.id}
            && (there && IsFree(fs, s.dir, u.name, u.isDir, i) ==> Placed(fs, s, s', u, i))
            && (s'.done == s.done || exists j :: there && IsFree(fs, s.dir, u.name, u.isDir, j))
            && (!(there && exists j :: IsFree(fs, s.dir, u.name, u.isDir, j)) ==>
                  s'.dir == s.dir - {fs.fold(u.Temp())} && s'.done == s.done)
  {
    var u := s.live[a.id];
    FinalMeans(fs, s.dir, u.Temp(), u.name, u.isDir, a.stuck, i);
    var r := FinalOf(fs, s, a);
    if r.Ok? {
      FinalMeans(fs, s.dir, u.Temp(), u.name, u.isDir, a.stuck, r.value);
      assert IsFree(fs, s.dir, u.name, u.isDir, r.value);
    }
  }

  // ---- runs without a clash ----

  /** No step of the run clashes. */
  ghost predicate NoneClashes(fs: FileSystem, s: State, acts: seq<Action>)
    decreases |acts|
  {
    acts != [] && Step(fs)(s, acts[0]).Some? ==>
      !Clashes(fs, s, acts[0]) && NoneClashes(fs, Step(fs)(s, acts[0]).value, acts[1..])
  }

  lemma {:induction false} StaysUnlessClash(fs: FileSystem, first: Dir, s: State, acts: seq<Action>, t: State)
    requires Inv(fs, first, s) && Leads(Step(fs), s, acts, t) && NoneClashes(fs, s, acts)
    ensures Inv(fs, first, t)
    ensures forall k | k in s.done ::
              k in t.done && t.done[k] == s.done[k] && k in t.dir && t.dir[k] == s.done[k].stored
    decreases |acts|
  {
    if acts != [] {
      StepKeepsInv(fs, first, s, acts[0]);
      DoneStays(fs, s, acts[0]);
      StaysUnlessClash(fs, first, Apply(fs, s, acts[0]), acts[1..], t);
    }
  }

  /** As long as the temporary entry of every running upload is there, no step clashes. */
  lemma ClashNeedsASweptUpload(fs: FileSystem, s: State, a: Action)
    requires Enabled(fs, s, a) && forall id | id in s.live :: fs.fold(s.live[id].Temp()) in s.dir
    ensures !Clashes(fs, s, a)
  {
  }

  // ---- file systems that keep the names apart ----

  /** The i-th candidate for a valid name can become the final name of an upload that drew q, and is then, to the file
      system, the temporary name drawn as p. */
  ghost predicate Meets(fs: FileSystem, n: string, i: nat, isDir: bool, p: nat, q: nat) {
    && ValidFilename(fs.pf, n) && i <= MAX_NUMBER && p < DRAWS && q < DRAWS
    && fs.fold(TempName(p)) != fs.fold(TempName(q))
    && Key(fs, n, i, isDir) == fs.fold(TempName(p)) && fs.accepts(NumberedName(n, i, isDir))
    && forall j: nat | j < i :: Key(fs, n, j, isDir) != Key(fs, n, i, isDir)
  }

  /** No final name is, to the file system, a temporary name. */
  ghost predicate Separates(fs: FileSystem) {
    forall n, i, isDir, p, q :: !Meets(fs, n, i, isDir, p, q)
  }

  /** A file system that keeps different names apart does. */
  lemma InjectiveSeparates(fs: FileSystem)
    requires forall a, b | fs.fold(a) == fs.fold(b) :: a == b
    ensures Separates(fs)
  {
    forall n, i, isDir, p, q ensures !Meets(fs, n, i, isDir, p, q) {
      if ValidFilename(fs.pf, n) {
        CandidateIsNotPart(fs.pf, n, i, isDir);
        TempIsPart(p);
      }
    }
  }

  lemma SeparatedFinish(fs: FileSystem, s: State, a: Action)
    requires Separates(fs) && Names(fs, s) && a.Finish? && Enabled(fs, s, a)
    ensures !Clashes(fs, s, a)
  {
    var u := s.live[a.id];
    var r := FinalOf(fs, s, a);
    if r.Ok? {
      FinalIsPicked(fs, s, a);
      forall id | id in s.live ensures fs.fold(s.live[id].Temp()) != Key(fs, u.name, r.value, u.isDir) {
        assert Named(fs, u) && Named(fs, s.live[id]);
        assert !Meets(fs, u.name, r.value, u.isDir, s.live[id].draw, u.draw);
      }
    }
  }

  /** The final name is accepted, it is not in use, and the candidates before it and the temporary name are. */
  lemma FinalIsPicked(fs: FileSystem, s: State, a: Action)
    requires a.Finish? && a.id in s.live && FinalOf(fs, s, a).Ok?
    ensures var u := s.live[a.id];
            var i := FinalOf(fs, s, a).value;
            && i <= MAX_NUMBER && fs.accepts(NumberedName(u.name, i, u.isDir))
            && Key(fs, u.name, i, u.isDir) !in s.dir && fs.fold(u.Temp()) in s.dir
            && forall j: nat | j < i :: Key(fs, u.name, j, u.isDir) in s.dir
  {
    var u := s.live[a.id];
    var r := Pick(fs, s.dir.Keys, u.name, u.isDir, 0);
    assert FinalOf(fs, s, a) == r;
  }

  lemma SeparatedStep(fs: FileSystem, s: State, a: Action)
    requires Separates(fs) && Names(fs, s) && Step(fs)(s, a).Some?
    ensures !Clashes(fs, s, a)
  {
    if a.Finish? {
      SeparatedFinish(fs, s, a);
    }
  }

  lemma {:induction false} SeparatedRun(fs: FileSystem, first: Dir, s: State, acts: seq<Action>)
    requires Separates(fs) && Inv(fs, first, s)
    ensures NoneClashes(fs, s, acts)
    decreases |acts|
  {
    if acts != [] && Step(fs)(s, acts[0]).Some? {
      SeparatedStep(fs, s, acts[0]);
      StepKeepsInv(fs, first, s, acts[0]);
      SeparatedRun(fs, first, Apply(fs, s, acts[0]), acts[1..]);
    }
  }

  /** Once committed, an item is never changed and never deleted. */
  lemma CommittedStays(fs: FileSystem, first: Dir, acts: seq<Action>, s: State, more: seq<Action>, t: State)
    requires Separates(fs) && WellKeyed(fs, first)
    requires Leads(Step(fs), Start(first), acts, s) && Leads(Step(fs), s, more, t)
    ensures forall k | k in s.done ::
              k in t.done && t.done[k] == s.done[k] && k in t.dir && t.dir[k] == s.done[k].stored
  {
    StartsWell(fs, first);
    SeparatedRun(fs, first, Start(first), acts);
    StaysUnlessClash(fs, first, Start(first), acts, s);
    SeparatedRun(fs, first, s, more);
    StaysUnlessClash(fs, first, s, more, t);
  }

  lemma {:induction false} NoOrphans(fs: FileSystem, s: State, acts: seq<Action>, t: State)
    requires Leads(Step(fs), s, acts, t) && Crash !in acts
    ensures t.orphans == s.orphans
    decreases |acts|
  {
    if acts != [] {
      assert acts[0] in acts;
      NoOrphans(fs, Apply(fs, s, acts[0]), acts[1..], t);
    }
  }

  /** When all uploads have ended and none crashed, the directory holds what was there at first, except for stale temporary
      entries, and what was committed. Failed uploads left nothing, and nothing was overwritten. */
  lemma OnlyCommittedAdded(fs: FileSystem, first: Dir, acts: seq<Action>, s: State)
    requires Separates(fs) && WellKeyed(fs, first) && Leads(Step(fs), Start(first), acts, s)
    requires Crash !in acts && s.live == map[]
    ensures forall k | k in s.dir :: (k in first && s.dir[k] == first[k]) || (k in s.done && s.dir[k] == s.done[k].stored)
    ensures forall k | k in s.done :: k in s.dir && s.dir[k] == s.done[k].stored && Genuine(fs, k, s.done[k])
    ensures forall k | k in first && !IsPart(first[k].name) :: k in s.dir && s.dir[k] == first[k] && k !in s.done
  {
    StartsWell(fs, first);
    SeparatedRun(fs, first, Start(first), acts);
    StaysUnlessClash(fs, first, Start(first), acts, s);
    NoOrphans(fs, Start(first), acts, s);
    NothingElse(fs, first, s);
  }

  lemma NothingElse(fs: FileSystem, first: Dir, s: State)
    requires Inv(fs, first, s) && s.live == map[] && s.orphans == {}
    ensures forall k | k in s.dir :: (k in first && s.dir[k] == first[k]) || (k in s.done && s.dir[k] == s.done[k].stored)
    ensures forall k | k in s.done :: k in s.dir && s.dir[k] == s.done[k].stored && Genuine(fs, k, s.done[k])
    ensures forall k | k in first && !IsPart(first[k].name) :: k in s.dir && s.dir[k] == first[k] && k !in s.done
  {
    assert LiveKeys(fs, s) == {};
    forall k | k in first && !IsPart(first[k].name) ensures k in s.dir && s.dir[k] == first[k] && k !in s.done {
      assert k in Fixed(first);
    }
  }

  // ---- what was committed ----

  /** An upload that one of the actions began, with what it received. */
  ghost predicate Heard(seen: seq<Action>, u: Session) {
    && (exists a | a in seen && a.Begin? :: a.name == u.name && a.isDir == u.isDir && a.size == u.size && a.draw == u.draw)
    && (u == Began(u) || exists a | a in seen && a.Receive? :: a.got == u.got)
  }

  ghost predicate AllHeard(seen: seq<Action>, s: State) {
    && (forall id | id in s.live :: Heard(seen, s.live[id]))
    && (forall k | k in s.done :: Heard(seen, s.done[k].session))
  }

  lemma HeardStill(seen: seq<Action>, a: Action, u: Session)
    requires Heard(seen, u)
    ensures Heard(seen + [a], u)
  {
  }

  lemma StepHeard(fs: FileSystem, seen: seq<Action>, s: State, a: Action)
    requires AllHeard(seen, s) && Enabled(fs, s, a)
    ensures AllHeard(seen + [a], Apply(fs, s, a))
  {
    var t := Apply(fs, s, a);
    assert a in seen + [a];
    forall id | id in t.live ensures Heard(seen + [a], t.live[id]) {
      if id in s.live { HeardStill(seen, a, s.live[id]); }
    }
    forall k | k in t.done ensures Heard(seen + [a], t.done[k].session) {
      if k in s.done && t.done[k] == s.done[k] {
        HeardStill(seen, a, s.done[k].session);
      } else {
        HeardStill(seen, a, s.live[a.id]);
      }
    }
  }

  lemma {:induction false} RunHeard(fs: FileSystem, seen: seq<Action>, s: State, acts: seq<Action>, t: State)
    requires AllHeard(seen, s) && Leads(Step(fs), s, acts, t)
    ensures AllHeard(seen + acts, t)
    decreases |acts|
  {
    if acts == [] {
      assert seen + acts == seen;
    } else {
      StepHeard(fs, seen, s, acts[0]);
      RunHeard(fs, seen + [acts[0]], Apply(fs, s, acts[0]), acts[1..], t);
      assert seen + [acts[0]] + acts[1..] == seen + acts;
    }
  }

  /** What is stored is as long as announced, or what a stream of the announced length makes. */
  ghost predicate Whole(fs: FileSystem, r: Receipt) {
    if r.session.isDir then
      exists stream ::
        var x := FolderExtract.Extracted(fs.pf, fs.fold, stream, r.session.size); x.Ok? && r.stored.data == Tree(x.value.disk)
    else r.stored.data.Bytes? && |r.stored.data.bytes| == r.session.size
  }

  lemma GenuineIsWhole(fs: FileSystem, k: string, r: Receipt)
    requires Genuine(fs, k, r)
    ensures Whole(fs, r)
  {
    var stream :| Complete(fs, r.session, stream);
    if r.session.isDir {
      assert FolderExtract.Extracted(fs.pf, fs.fold, stream, r.session.size).Ok?;
    }
  }

  /** Whatever is committed was announced in the run under this name and with this size, came in the run, and is whole. */
  lemma CommittedIsWhole(fs: FileSystem, first: Dir, acts: seq<Action>, s: State, k: string)
    requires Separates(fs) && WellKeyed(fs, first) && Leads(Step(fs), Start(first), acts, s) && k in s.done
    ensures var r := s.done[k];
            && k in s.dir && s.dir[k] == r.stored && Whole(fs, r) && Heard(acts, r.session)
            && r.stored.data == r.session.got
            && exists i: nat :: i <= 9999 && r.stored.name == NumberedName(r.session.name, i, r.session.isDir)
  {
    StartsWell(fs, first);
    SeparatedRun(fs, first, Start(first), acts);
    StaysUnlessClash(fs, first, Start(first), acts, s);
    RunHeard(fs, [], Start(first), acts, s);
    assert [] + acts == acts;
    GenuineIsWhole(fs, k, s.done[k]);
  }

  // ---- what a sweep spares ----

  /** The upload is running, and its entry, if it is there, was last written to at the given time. */
  ghost predicate WrittenAt(fs: FileSystem, s: State, id: nat, k: string, time: int) {
    id in s.live && fs.fold(s.live[id].Temp()) == k && (k in s.dir ==> s.dir[k].newest == time)
  }

  /** A new upload's entry is empty and of now; what is received replaces what is there, and is of now. */
  lemma WritesNow(fs: FileSystem, s: State, a: Action)
    requires (a.Begin? || a.Receive?) && Enabled(fs, s, a)
    ensures var s' := Apply(fs, s, a);
            && a.id in s'.live && WrittenAt(fs, s', a.id, fs.fold(s'.live[a.id].Temp()), a.now)
            && s'.live[a.id].got == (if a.Receive? then a.got else if a.isDir then Tree(map[]) else Bytes(""))
            && s'.done == s.done && s'.orphans == s.orphans
  {
  }

  lemma StepKeepsTime(fs: FileSystem, s: State, a: Action, id: nat, k: string, time: int)
    requires WrittenAt(fs, s, id, k, time) && Apart(fs, s) && Step(fs)(s, a).Some? && !Clashes(fs, s, a)
    requires !(a.Receive? && a.id == id)
    ensures id in Apply(fs, s, a).live ==> WrittenAt(fs, Apply(fs, s, a), id, k, time)
  {
    LiveKey(fs, s, id);
  }

  /** On a file system that keeps the names apart, an upload that is running is not swept before it was idle for as long as the
      sweep allows: since it began or last received something. */
  lemma {:induction false} RunningIsSpared(fs: FileSystem, first: Dir, s: State, acts: seq<Action>, t: State, id: nat, k: string,
                                           time: int, sweep: Action)
    requires Separates(fs) && Inv(fs, first, s) && Leads(Step(fs), s, acts, t) && WrittenAt(fs, s, id, k, time)
    requires (forall a | a in acts :: !(a.Receive? && a.id == id)) && StaysLive(fs, s, acts, id)
    requires sweep.Sweep? && sweep.key == k && Enabled(fs, t, sweep)
    ensures sweep.now - time >= sweep.olderThan
    decreases |acts|
  {
    if acts != [] {
      SeparatedStep(fs, s, acts[0]);
      assert acts[0] in acts;
      StepKeepsTime(fs, s, acts[0], id, k, time);
      StepKeepsInv(fs, first, s, acts[0]);
      RunningIsSpared(fs, first, Apply(fs, s, acts[0]), acts[1..], t, id, k, time, sweep);
    }
  }

  /** The upload goes on during the actions. */
  ghost predicate StaysLive(fs: FileSystem, s: State, acts: seq<Action>, id: nat)
    decreases |acts|
  {
    id in s.live && (acts != [] && Step(fs)(s, acts[0]).Some? ==> StaysLive(fs, Step(fs)(s, acts[0]).value, acts[1..], id))
  }

  // ---- file systems that do not ----

  /** A commit that clashes can be undone: when the other upload fails, it removes the item. */
  lemma ClashLosesTheItem(fs: FileSystem, s: State, a: Action) returns (other: nat)
    requires Enabled(fs, s, a) && a.Finish? && Clashes(fs, s, a)
    ensures var s' := Apply(fs, s, a);
            && Enabled(fs, s', Fail(other))
            && Creates(fs, s, a).value in s'.done
            && Creates(fs, s, a).value !in Apply(fs, s', Fail(other)).dir
  {
    other :| other in s.live && fs.fold(s.live[other].Temp()) == Creates(fs, s, a).value;
    assert other != a.id;
  }

  /** Entries under the candidates before the i-th. */
  function Occupied(fs: FileSystem, n: string, isDir: bool, i: nat): (dir: Dir)
    ensures WellKeyed(fs, dir)
    ensures forall k | k in dir :: exists j: nat :: j < i && k == Key(fs, n, j, isDir)
    ensures forall j: nat | j < i :: Key(fs, n, j, isDir) in dir
  {
    if i == 0 then map[]
    else Occupied(fs, n, isDir, i - 1)[Key(fs, n, i - 1, isDir) := Stored(NumberedName(n, i - 1, isDir), Bytes(""), 0)]
  }

  /** The two uploads once the first one's entry was swept and the second one has begun. */
  function Swept(fs: FileSystem, first: Dir, n: string, isDir: bool, p: nat, q: nat): State {
    var u, v := Began(Session(n, false, 0, p, Special)), Began(Session(n, isDir, 0, q, Special));
    State(first[fs.fold(TempName(q)) := Stored(TempName(q), v.got, 600)], map[0 := u, 1 := v], map[], {})
  }

  function ClashRun(fs: FileSystem, n: string, isDir: bool, p: nat, q: nat): seq<Action> {
    [Begin(0, n, false, 0, p, 0)] + [Sweep(fs.fold(TempName(p)), 600, 600)] + [Begin(1, n, isDir, 0, q, 600)]
  }

  /** An upload is idle for so long that its entry is swept, and another begins. */
  lemma ClashPrepared(fs: FileSystem, first: Dir, n: string, isDir: bool, p: nat, q: nat)
    requires ValidFilename(fs.pf, n) && p < DRAWS && q < DRAWS
    requires fs.fold(TempName(p)) != fs.fold(TempName(q))
    requires fs.fold(TempName(p)) !in first && fs.fold(TempName(q)) !in first
    ensures Leads(Step(fs), Start(first), ClashRun(fs, n, isDir, p, q), Swept(fs, first, n, isDir, p, q))
  {
    var k := fs.fold(TempName(p));
    var begin, sweep, again := Begin(0, n, false, 0, p, 0), Sweep(k, 600, 600), Begin(1, n, isDir, 0, q, 600);
    var s1, s2 := Idle(fs, first, n, p, true), Idle(fs, first, n, p, false);
    FirstIsSwept(fs, first, n, p);
    SecondBegins(fs, first, n, isDir, p, q);
    LeadsOne(Step(fs), Start(first), begin, s1);
    LeadsOne(Step(fs), s1, sweep, s2);
    LeadsOne(Step(fs), s2, again, Swept(fs, first, n, isDir, p, q));
    LeadsOn(Step(fs), Start(first), [begin], s1, [sweep], s2);
    LeadsOn(Step(fs), Start(first), [begin] + [sweep], s2, [again], Swept(fs, first, n, isDir, p, q));
  }

  /** The first upload alone, with its entry or without. */
  function Idle(fs: FileSystem, first: Dir, n: string, p: nat, there: bool): State {
    var u := Began(Session(n, false, 0, p, Special));
    State(if there then first[fs.fold(TempName(p)) := Stored(TempName(p), Bytes(""), 0)] else first, map[0 := u], map[], {})
  }

  lemma FirstIsSwept(fs: FileSystem, first: Dir, n: string, p: nat)
    requires ValidFilename(fs.pf, n) && p < DRAWS && fs.fold(TempName(p)) !in first
    ensures Step(fs)(Start(first), Begin(0, n, false, 0, p, 0)) == Some(Idle(fs, first, n, p, true))
    ensures Step(fs)(Idle(fs, first, n, p, true), Sweep(fs.fold(TempName(p)), 600, 600)) == Some(Idle(fs, first, n, p, false))
  {
    TempIsPart(p);
    assert LiveKeys(fs, Start(first)) == {};
    assert Idle(fs, first, n, p, true).dir - {fs.fold(TempName(p))} == first;
  }

  lemma SecondBegins(fs: FileSystem, first: Dir, n: string, isDir: bool, p: nat, q: nat)
    requires ValidFilename(fs.pf, n) && q < DRAWS && fs.fold(TempName(q)) !in first
    requires fs.fold(TempName(p)) != fs.fold(TempName(q))
    ensures Step(fs)(Idle(fs, first, n, p, false), Begin(1, n, isDir, 0, q, 600)) == Some(Swept(fs, first, n, isDir, p, q))
  {
    var s := Idle(fs, first, n, p, false);
    forall id | id in s.live ensures fs.fold(s.live[id].Temp()) != fs.fold(TempName(q)) {
      assert id == 0;
    }
  }

  /** The second upload is committed under a name that is, to the file system, the first one's temporary name. */
  lemma ClashArises(fs: FileSystem, n: string, i: nat, isDir: bool, p: nat, q: nat)
    requires Meets(fs, n, i, isDir, p, q)
    ensures var first := Occupied(fs, n, isDir, i) - {fs.fold(TempName(q))};
            var s := Swept(fs, first, n, isDir, p, q);
            && WellKeyed(fs, first) && Leads(Step(fs), Start(first), ClashRun(fs, n, isDir, p, q), s)
            && Enabled(fs, s, Finish(1, FolderExtract.Stream([], 0), false)) && Clashes(fs, s, Finish(1, FolderExtract.Stream([], 0), false))
  {
    var first := Occupied(fs, n, isDir, i) - {fs.fold(TempName(q))};
    var s := Swept(fs, first, n, isDir, p, q);
    ClashPrepared(fs, first, n, isDir, p, q);
    assert s.dir.Keys == first.Keys + {fs.fold(TempName(q))};
    PickReaches(fs, s.dir.Keys, n, isDir, 0, i);
    EmptyIsComplete(fs, s.live[1]);
    LiveKey(fs, s, 0);
  }

  lemma EmptyIsComplete(fs: FileSystem, u: Session)
    requires u.size == 0 && u.got == if u.isDir then Tree(map[]) else Bytes("")
    ensures Complete(fs, u, FolderExtract.Stream([], 0))
  {
  }

  /** In every run, whatever was there at first, what was committed is there. */
  ghost predicate NeverLoses(fs: FileSystem) {
    forall first, acts, s | WellKeyed(fs, first) && Leads(Step(fs), Start(first), acts, s) :: Kept(s)
  }

  /** A file system loses nothing that was committed exactly when it keeps final names and temporary names apart. */
  lemma NeverLosesIffSeparates(fs: FileSystem)
    ensures NeverLoses(fs) <==> Separates(fs)
  {
    if Separates(fs) {
      forall first, acts, s | WellKeyed(fs, first) && Leads(Step(fs), Start(first), acts, s) ensures Kept(s) {
        StartsWell(fs, first);
        SeparatedRun(fs, first, Start(first), acts);
        StaysUnlessClash(fs, first, Start(first), acts, s);
      }
    } else {
      var n, i, isDir, p, q :| Meets(fs, n, i, isDir, p, q);
      MeetingLoses(fs, n, i, isDir, p, q);
    }
  }

  lemma ClashingRunLoses(fs: FileSystem, first: Dir, acts: seq<Action>, s: State, a: Action)
    requires WellKeyed(fs, first) && Leads(Step(fs), Start(first), acts, s)
    requires Enabled(fs, s, a) && a.Finish? && Clashes(fs, s, a)
    ensures !NeverLoses(fs)
  {
    var other := ClashLosesTheItem(fs, s, a);
    var t := Apply(fs, s, a);
    var end := Apply(fs, t, Fail(other));
    LeadsTwo(Step(fs), s, a, t, Fail(other), end);
    LeadsOn(Step(fs), Start(first), acts, s, [a, Fail(other)], end);
    assert Creates(fs, s, a).value in end.done;
    assert !Kept(end);
  }

  lemma MeetingLoses(fs: FileSystem, n: string, i: nat, isDir: bool, p: nat, q: nat)
    requires Meets(fs, n, i, isDir, p, q)
    ensures !NeverLoses(fs)
  {
    ClashArises(fs, n, i, isDir, p, q);
    var first := Occupied(fs, n, isDir, i) - {fs.fold(TempName(q))};
    ClashingRunLoses(fs, first, ClashRun(fs, n, isDir, p, q), Swept(fs, first, n, isDir, p, q),
                     Finish(1, FolderExtract.Stream([], 0), false));
  }

  // ---- a file system of the second kind ----

  function LowerChar(c: char): char { if 'A' <= c <= 'Z' then (c as int + 32) as char else c }

  function UpperChar(c: char): char { if 'a' <= c <= 'z' then (c as int - 32) as char else c }

  function Lower(s: string): string { seq(|s|, i requires 0 <= i < |s| => LowerChar(s[i])) }

  function Upper(s: string): string { seq(|s|, i requires 0 <= i < |s| => UpperChar(s[i])) }

  /** The usual file system of macOS, as far as names of ASCII characters go: it ignores letter case. */
  const CASELESS := FileSystem(Platform(Darwin, (s: string) => |s|, Upper), Lower, (s: string) => true)

  lemma ShoutedIsValid()
    ensures ValidFilename(CASELESS.pf, ".LANXFER-1.PART")
  {
    var n := ".LANXFER-1.PART";
    ShoutedIsPlain(n);
    ShoutedIsNoPart(n);
    DottedIsNotReserved(n);
  }

  lemma ShoutedIsNoPart(n: string)
    requires |n| > 1 && n[1] == 'L'
    ensures !IsPart(n)
  {
    assert PART_PREFIX[1] == 'l';
  }

  lemma ShoutedIsPlain(n: string)
    requires n == ".LANXFER-1.PART"
    ensures n != "." && n != ".." && |n| <= 255 && !ContainsAny(n, "/\\") && !EndsWith(n, ".") && !EndsWith(n, " ")
    ensures forall i | 0 <= i < |n| :: 0x20 <= n[i] as int < 0x7F
  {
    assert |n| == 15 && n[14..] == "T";
  }

  lemma DottedIsNotReserved(n: string)
    requires n != "" && n[0] == '.'
    ensures Upper(n) !in WINDOWS_RESERVED
  {
    assert Upper(n)[0] == '.';
  }

  lemma ShoutedIsTemporary()
    ensures Lower(".LANXFER-1.PART") == Lower(TempName(1)) && Lower(TempName(1)) != Lower(TempName(2))
  {
    assert TempName(1) == ".lanxfer-1.part" && TempName(2) == ".lanxfer-2.part";
    assert Lower(".LANXFER-1.PART") == ".lanxfer-1.part" == Lower(".lanxfer-1.part");
    assert Lower(".lanxfer-2.part")[9] == '2';
  }

  /** There a file named like a swept temporary entry in capitals can be lost. */
  lemma CaselessLoses()
    ensures !Separates(CASELESS) && !NeverLoses(CASELESS)
  {
    ShoutedIsValid();
    ShoutedIsTemporary();
    assert Meets(CASELESS, ".LANXFER-1.PART", 0, false, 1, 2);
    NeverLosesIffSeparates(CASELESS);
  }
}
