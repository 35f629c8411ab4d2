/** Any number of uploads into one directory, interleaved with crashes and with sweeps of stale temporary entries. */
module StorageRuns {
  import opened Wrappers
  import opened Filenames
  import opened FolderExtract
  import opened StorageModel

  /** Temporary names are made from random 32-bit numbers. */
  const DRAWS := 0x1_0000_0000

  datatype Session = Session(name: string, isDir: bool, size: nat, draw: nat, got: Data)
  {
    function Temp(): string { TempName(draw) }
  }

  /** What was committed, for which upload and under which number. */
  datatype Receipt = Receipt(stored: Stored, session: Session, number: nat)

  /** `done` and `orphans` are history: what was committed, and the temporary entries that crashes left. */
  datatype State = State(dir: Dir, live: map<nat, Session>, done: map<string, Receipt>, orphans: set<string>)

  datatype Action =
    | Begin(id: nat, name: string, isDir: bool, size: nat, draw: nat, now: int)
    | Receive(id: nat, got: Data, now: int)
    | Finish(id: nat, stream: Stream, stuck: bool)
    | Fail(id: nat)
    | Crash
    | Sweep(key: string, now: int, olderThan: int)

  predicate Grows(was: Data, got: Data) {
    match got
    case Bytes(b) => was.Bytes? && was.bytes <= b
    case Tree(_) => was.Tree?
    case Special => false
  }

  /** An upload may be committed when exactly the announced bytes came, or the whole stream was extracted. */
  predicate Complete(fs: FileSystem, u: Session, stream: Stream) {
    if u.isDir then
      var r := Extracted(fs.pf, fs.fold, stream, u.size);
      r.Ok? && u.got == Tree(r.value.disk)
    else u.got.Bytes? && |u.got.bytes| == u.size
  }

  predicate Enabled(fs: FileSystem, s: State, a: Action) {
    match a
    case Begin(id, name, _, _, draw, _) =>
      id !in s.live && ValidFilename(fs.pf, name) && draw < DRAWS && fs.fold(TempName(draw)) !in s.dir
    case Receive(id, got, _) => id in s.live && Grows(s.live[id].got, got)
    case Finish(id, stream, _) => id in s.live && Complete(fs, s.live[id], stream)
    case Fail(id) => id in s.live
    case Crash => true
    case Sweep(key, now, olderThan) => key in s.dir && Stale(s.dir, key, now, olderThan)
  }

  function Began(u: Session): Session { u.(got := if u.isDir then Tree(map[]) else Bytes("")) }

  function FinalOf(fs: FileSystem, s: State, a: Action): Result<nat, Failure>
    requires a.Finish? && a.id in s.live
  {
    var u := s.live[a.id];
    Final(fs, s.dir, u.Temp(), u.name, u.isDir, a.stuck)
  }

  function Apply(fs: FileSystem, s: State, a: Action): State
    requires Enabled(fs, s, a)
  {
    match a
    case Begin(id, name, isDir, size, draw, now) =>
      var u := Began(Session(name, isDir, size, draw, Special));
      s.(dir := s.dir[fs.fold(u.Temp()) := Stored(u.Temp(), u.got, now)], live := s.live[id := u])
    case Receive(id, got, now) =>
      var u := s.live[id];
      var k := fs.fold(u.Temp());
      s.(dir := if k in s.dir then s.dir[k := s.dir[k].(data := got, newest := now)] else s.dir,
         live := s.live[id := u.(got := got)])
    case Finish(id, _, _) =>
      var u := s.live[id];
      (match FinalOf(fs, s, a)
       case Err(_) => Dropped(fs, s, id)
       case Ok(i) =>
         var final := NumberedName(u.name, i, u.isDir);
         s.(dir := Moved(fs, s.dir, u.Temp(), final), live := s.live - {id},
            done := s.done[fs.fold(final) := Receipt(s.dir[fs.fold(u.Temp())].(name := final), u, i)]))
    case Fail(id) => Dropped(fs, s, id)
    case Crash => s.(live := map[], orphans := s.orphans + LiveKeys(fs, s))
    case Sweep(key, _, _) => s.(dir := s.dir - {key})
  }

  /** A failed upload removes its temporary entry. */
  function Dropped(fs: FileSystem, s: State, id: nat): State
    requires id in s.live
  {
    s.(dir := s.dir - {fs.fold(s.live[id].Temp())}, live := s.live - {id})
  }

  function LiveKeys(fs: FileSystem, s: State): set<string> { set id | id in s.live :: fs.fold(s.live[id].Temp()) }

  /** The key under which an action creates an entry. */
  function Creates(fs: FileSystem, s: State, a: Action): Option<string> {
    match a
    case Begin(_, _, _, _, draw, _) => Some(fs.fold(TempName(draw)))
    case Finish(id, _, _) =>
      if id in s.live && FinalOf(fs, s, a).Ok? then
        Some(Key(fs, s.live[id].name, FinalOf(fs, s, a).value, s.live[id].isDir))
      else None
    case _ => None
  }

  /** An entry is created under the name of a temporary entry that its upload still counts on. */
  predicate Clashes(fs: FileSystem, s: State, a: Action) {
    Creates(fs, s, a).Some? && Creates(fs, s, a).value in LiveKeys(fs, s)
  }

  // ---- what every step keeps ----

  ghost predicate Kept(s: State) {
    forall k | k in s.done :: k in s.dir && s.dir[k] == s.done[k].stored
  }

  ghost predicate WasComplete(fs: FileSystem, u: Session) {
    exists stream :: Complete(fs, u, stream)
  }

  /** A receipt is for a complete upload and carries one of the names derived from the announced one. */
  ghost predicate Genuine(fs: FileSystem, k: string, r: Receipt) {
    && ValidFilename(fs.pf, r.session.name) && r.number <= MAX_NUMBER
    && r.stored.name == NumberedName(r.session.name, r.number, r.session.isDir) && fs.fold(r.stored.name) == k
    && r.stored.data == r.session.got && WasComplete(fs, r.session)
  }

  /** An upload's temporary entry, if it is still there, holds what the upload received. */
  ghost predicate Owns(fs: FileSystem, s: State, u: Session) {
    && fs.fold(u.Temp()) !in s.done
    && (fs.fold(u.Temp()) in s.dir ==>
          s.dir[fs.fold(u.Temp())].name == u.Temp() && s.dir[fs.fold(u.Temp())].data == u.got)
  }

  ghost predicate AllOwn(fs: FileSystem, s: State) {
    forall id | id in s.live :: Owns(fs, s, s.live[id])
  }

  ghost predicate Apart(fs: FileSystem, s: State) {
    forall i, j | i in s.live && j in s.live && i != j :: fs.fold(s.live[i].Temp()) != fs.fold(s.live[j].Temp())
  }

  /** The first entries that no sweep may take. */
  ghost function Fixed(first: Dir): set<string> { set k | k in first && !IsPart(first[k].name) }

  /** What was there at first is there still, except for stale temporary entries. */
  ghost predicate Untouched(fs: FileSystem, first: Dir, fixed: set<string>, s: State) {
    forall k | k in fixed ::
      k in first && k in s.dir && s.dir[k] == first[k] && k !in s.done && k !in LiveKeys(fs, s)
  }

  /** Whatever is there was there at first, was committed, or belongs to an upload that runs or crashed. */
  ghost predicate Accounted(fs: FileSystem, first: Dir, s: State) {
    forall k | k in s.dir ::
      (k in first && s.dir[k] == first[k]) || k in s.done || k in s.orphans || k in LiveKeys(fs, s)
  }

  ghost predicate OnDisk(fs: FileSystem, first: Dir, fixed: set<string>, s: State) {
    && WellKeyed(fs, s.dir) && Kept(s) && Apart(fs, s) && AllOwn(fs, s)
    && Untouched(fs, first, fixed, s) && Accounted(fs, first, s)
  }

  ghost predicate Named(fs: FileSystem, u: Session) {
    u.draw < DRAWS && ValidFilename(fs.pf, u.name) && (u.got.Tree? <==> u.isDir) && !u.got.Special?
  }

  ghost predicate Names(fs: FileSystem, s: State) {
    && (forall k | k in s.done :: Genuine(fs, k, s.done[k]))
    && (forall id | id in s.live :: Named(fs, s.live[id]))
  }

  ghost predicate Inv(fs: FileSystem, first: Dir, s: State) {
    OnDisk(fs, first, Fixed(first), s) && Names(fs, s)
  }

  // ---- every step keeps what is on disk ----

  lemma LiveKey(fs: FileSystem, s: State, id: nat)
    requires id in s.live
    ensures fs.fold(s.live[id].Temp()) in LiveKeys(fs, s)
  {
  }

  lemma LessLive(fs: FileSystem, s: State, s': State, id: nat)
    requires id in s.live && Apart(fs, s) && s'.live == s.live - {id}
    ensures LiveKeys(fs, s') == LiveKeys(fs, s) - {fs.fold(s.live[id].Temp())}
  {
    forall j | j in s.live && j != id ensures fs.fold(s.live[j].Temp()) in LiveKeys(fs, s') {
      assert j in s'.live;
    }
  }

  lemma MoreLive(fs: FileSystem, s: State, s': State, id: nat, u: Session)
    requires id !in s.live && s'.live == s.live[id := u]
    ensures LiveKeys(fs, s') == LiveKeys(fs, s) + {fs.fold(u.Temp())}
  {
    forall j | j in s.live ensures fs.fold(s.live[j].Temp()) in LiveKeys(fs, s') {
      assert j in s'.live;
    }
    assert id in s'.live;
  }

  lemma BeginOnDisk(fs: FileSystem, first: Dir, fixed: set<string>, s: State, s': State, id: nat, u: Session, now: int)
    requires OnDisk(fs, first, fixed, s) && id !in s.live
    requires fs.fold(u.Temp()) !in s.dir && fs.fold(u.Temp()) !in LiveKeys(fs, s)
    requires s' == s.(dir := s.dir[fs.fold(u.Temp()) := Stored(u.Temp(), u.got, now)], live := s.live[id := u])
    ensures OnDisk(fs, first, fixed, s')
  {
    MoreLive(fs, s, s', id, u);
    forall j | j in s.live ensures Owns(fs, s', s.live[j]) && fs.fold(s.live[j].Temp()) != fs.fold(u.Temp()) {
      LiveKey(fs, s, j);
      assert Owns(fs, s, s.live[j]);
    }
  }

  lemma ReceiveOnDisk(fs: FileSystem, first: Dir, fixed: set<string>, s: State, s': State, id: nat, got: Data, now: int)
    requires OnDisk(fs, first, fixed, s) && id in s.live
    requires var k := fs.fold(s.live[id].Temp());
             s' == s.(dir := if k in s.dir then s.dir[k := s.dir[k].(data := got, newest := now)] else s.dir,
                      live := s.live[id := s.live[id].(got := got)])
    ensures OnDisk(fs, first, fixed, s')
  {
    var k := fs.fold(s.live[id].Temp());
    LiveKey(fs, s, id);
    SameLive(fs, s, s', id, got);
    assert Owns(fs, s, s.live[id]);
    forall j | j in s'.live ensures Owns(fs, s', s'.live[j]) {
      assert Owns(fs, s, s.live[j]);
    }
  }

  lemma SameLive(fs: FileSystem, s: State, s': State, id: nat, got: Data)
    requires id in s.live && s'.live == s.live[id := s.live[id].(got := got)]
    ensures LiveKeys(fs, s') == LiveKeys(fs, s)
  {
    forall j | j in s.live ensures fs.fold(s.live[j].Temp()) in LiveKeys(fs, s') {
      assert j in s'.live && s'.live[j].Temp() == s.live[j].Temp();
    }
  }

  lemma DropOnDisk(fs: FileSystem, first: Dir, fixed: set<string>, s: State, id: nat)
    requires OnDisk(fs, first, fixed, s) && id in s.live
    ensures OnDisk(fs, first, fixed, Dropped(fs, s, id))
  {
    var s' := Dropped(fs, s, id);
    LessLive(fs, s, s', id);
    LiveKey(fs, s, id);
    assert Owns(fs, s, s.live[id]);
    forall j | j in s'.live ensures Owns(fs, s', s'.live[j]) {
      assert Owns(fs, s, s.live[j]);
    }
  }

  lemma MoveOnDisk(fs: FileSystem, first: Dir, fixed: set<string>, s: State, s': State, id: nat, final: string, r: Receipt)
    requires OnDisk(fs, first, fixed, s) && id in s.live
    requires var k := fs.fold(s.live[id].Temp());
             && k in s.dir && fs.fold(final) !in s.dir && fs.fold(final) !in LiveKeys(fs, s)
             && r.stored == s.dir[k].(name := final)
             && s' == s.(dir := Moved(fs, s.dir, s.live[id].Temp(), final), live := s.live - {id},
                         done := s.done[fs.fold(final) := r])
    ensures OnDisk(fs, first, fixed, s')
  {
    LessLive(fs, s, s', id);
    LiveKey(fs, s, id);
    assert Owns(fs, s, s.live[id]);
    forall j | j in s'.live ensures Owns(fs, s', s'.live[j]) {
      LiveKey(fs, s, j);
      assert Owns(fs, s, s.live[j]);
    }
  }

  lemma RemoveOnDisk(fs: FileSystem, first: Dir, fixed: set<string>, s: State, key: string)
    requires OnDisk(fs, first, fixed, s) && key !in s.done && key !in fixed
    ensures OnDisk(fs, first, fixed, s.(dir := s.dir - {key}))
  {
    var s' := s.(dir := s.dir - {key});
    assert LiveKeys(fs, s') == LiveKeys(fs, s);
    forall j | j in s'.live ensures Owns(fs, s', s'.live[j]) {
      assert Owns(fs, s, s.live[j]);
    }
  }

  /** A sweep takes neither what was committed nor what was there at first under another kind of name. */
  lemma SweepSpares(fs: FileSystem, first: Dir, s: State, key: string)
    requires Inv(fs, first, s) && key in s.dir && IsPart(s.dir[key].name)
    ensures key !in s.done && key !in Fixed(first)
  {
    if key in s.done {
      var r := s.done[key];
      assert Genuine(fs, key, r);
      CandidateIsNotPart(fs.pf, r.session.name, r.number, r.session.isDir);
    }
  }

  // ---- every step keeps the names ----

  lemma MovedNames(fs: FileSystem, s: State, a: Action)
    requires Names(fs, s) && AllOwn(fs, s) && a.Finish? && Enabled(fs, s, a) && FinalOf(fs, s, a).Ok?
    ensures Names(fs, Apply(fs, s, a))
  {
    var u := s.live[a.id];
    assert Named(fs, u) && Owns(fs, s, u) && WasComplete(fs, u);
    var k := fs.fold(NumberedName(u.name, FinalOf(fs, s, a).value, u.isDir));
    assert Genuine(fs, k, Apply(fs, s, a).done[k]);
  }

  lemma StepNames(fs: FileSystem, s: State, a: Action)
    requires Names(fs, s) && AllOwn(fs, s) && Enabled(fs, s, a)
    ensures Names(fs, Apply(fs, s, a))
  {
    if a.Finish? && FinalOf(fs, s, a).Ok? {
      MovedNames(fs, s, a);
    }
  }

  lemma FinishOnDisk(fs: FileSystem, first: Dir, fixed: set<string>, s: State, a: Action)
    requires OnDisk(fs, first, fixed, s) && a.Finish? && Enabled(fs, s, a) && !Clashes(fs, s, a)
    ensures OnDisk(fs, first, fixed, Apply(fs, s, a))
  {
    var u := s.live[a.id];
    var s' := Apply(fs, s, a);
    if FinalOf(fs, s, a).Err? {
      DropOnDisk(fs, first, fixed, s, a.id);
    } else {
      var final := NumberedName(u.name, FinalOf(fs, s, a).value, u.isDir);
      MoveOnDisk(fs, first, fixed, s, s', a.id, final, s'.done[fs.fold(final)]);
    }
  }

  /** No step breaks what is promised, unless it creates an entry under the name of a temporary entry that a running upload
      still counts on. */
  lemma StepKeepsInv(fs: FileSystem, first: Dir, s: State, a: Action)
    requires Inv(fs, first, s) && Enabled(fs, s, a) && !Clashes(fs, s, a)
    ensures Inv(fs, first, Apply(fs, s, a))
  {
    StepNames(fs, s, a);
    if a.Sweep? {
      SweepSpares(fs, first, s, a.key);
    }
    StepOnDisk(fs, first, Fixed(first), s, a);
  }

  lemma StepOnDisk(fs: FileSystem, first: Dir, fixed: set<string>, s: State, a: Action)
    requires OnDisk(fs, first, fixed, s) && Enabled(fs, s, a) && !Clashes(fs, s, a)
    requires a.Sweep? ==> a.key !in s.done && a.key !in fixed
    ensures OnDisk(fs, first, fixed, Apply(fs, s, a))
  {
    var s' := Apply(fs, s, a);
    match a
    case Begin(id, _, _, _, _, now) => BeginOnDisk(fs, first, fixed, s, s', id, s'.live[id], now);
    case Receive(id, got, now) => ReceiveOnDisk(fs, first, fixed, s, s', id, got, now);
    case Finish(_, _, _) => FinishOnDisk(fs, first, fixed, s, a);
    case Fail(id) => DropOnDisk(fs, first, fixed, s, id);
    case Crash => CrashOnDisk(fs, first, fixed, s, s');
    case Sweep(key, _, _) => RemoveOnDisk(fs, first, fixed, s, key);
  }

  lemma CrashOnDisk(fs: FileSystem, first: Dir, fixed: set<string>, s: State, s': State)
    requires OnDisk(fs, first, fixed, s) && s' == s.(live := map[], orphans := s.orphans + LiveKeys(fs, s))
    ensures OnDisk(fs, first, fixed, s')
  {
    assert LiveKeys(fs, s') == {};
  }

  function Step(fs: FileSystem): (State, Action) -> Option<State> {
    (s: State, a: Action) => if Enabled(fs, s, a) && Fresh(fs, s, a) then Some(Apply(fs, s, a)) else None
  }

  /** A random draw gives no name that a running upload has drawn, even if that name was swept. */
  predicate Fresh(fs: FileSystem, s: State, a: Action) {
    a.Begin? ==> fs.fold(TempName(a.draw)) !in LiveKeys(fs, s)
  }

  function Start(first: Dir): State { State(first, map[], map[], {}) }

  lemma StartsWell(fs: FileSystem, first: Dir)
    requires WellKeyed(fs, first)
    ensures Inv(fs, first, Start(first))
  {
    assert LiveKeys(fs, Start(first)) == {};
  }

  lemma DoneStays(fs: FileSystem, s: State, a: Action)
    requires Enabled(fs, s, a) && Kept(s)
    ensures forall k | k in s.done :: k in Apply(fs, s, a).done && Apply(fs, s, a).done[k] == s.done[k]
  {
  }
}
