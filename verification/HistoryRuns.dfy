/** Any number of writers that append to one log, where a look at the file's last byte and the write are separate steps. */
module HistoryRuns {
  import opened Wrappers
  import opened HistoryLog
  import opened Runs

  /** A writer between its look and its write. `doubtful` is history: the look failed, or a write was cut short since. */
  datatype Pending = Pending(e: Entry, apart: bool, doubtful: bool)

  /** `log` is history: the entries that went to the file, in the order of the writes. */
  datatype State = State(file: string, writers: map<nat, Pending>, log: seq<Entry>)

  datatype Action =
    | Look(w: nat, e: Entry, now: int, blind: bool)
    | Write(w: nat)
    | Tear(w: nat, n: nat)

  predicate Enabled(c: Codec, s: State, a: Action) {
    match a
    case Look(w, e, now, _) => w !in s.writers && Valid(Stamped(e, now))
    case Write(w) => w in s.writers
    case Tear(w, n) => w in s.writers && n < |Line(c, s.writers[w].e, s.writers[w].apart)|
  }

  function Doubted(writers: map<nat, Pending>): map<nat, Pending> {
    map w | w in writers :: writers[w].(doubtful := true)
  }

  function Apply(c: Codec, s: State, a: Action): State
    requires Enabled(c, s, a)
  {
    match a
    case Look(w, e, now, blind) =>
      s.(writers := s.writers[w := Pending(Stamped(e, now), !blind && !Clean(s.file), blind)])
    case Write(w) =>
      var p := s.writers[w];
      State(s.file + Line(c, p.e, p.apart), s.writers - {w}, s.log + [p.e])
    case Tear(w, n) =>
      var p := s.writers[w];
      var line := Line(c, p.e, p.apart);
      State(s.file + line[..n], Doubted(s.writers - {w}), if n == |line| - 1 then s.log + [p.e] else s.log)
  }

  /** A write that goes behind a torn line. */
  predicate Glues(s: State, a: Action) {
    !a.Look? && a.w in s.writers && !s.writers[a.w].apart && !Clean(s.file)
  }

  ghost predicate Stamps(s: State) {
    forall w | w in s.writers :: s.writers[w].e.v == VERSION
  }

  /** A writer without doubts that saw a clean file still has one. */
  ghost predicate Trusty(s: State) {
    forall w | w in s.writers && !s.writers[w].apart && !s.writers[w].doubtful :: Clean(s.file)
  }

  ghost predicate Logged(c: Codec, first: string, s: State) {
    Readable(c, s.file) == Readable(c, first) + s.log
  }

  lemma MoreLogged(c: Codec, first: string, f: string, log: seq<Entry>, f': string, more: seq<Entry>)
    requires Readable(c, f) == Readable(c, first) + log && Readable(c, f') == Readable(c, f) + more
    ensures Readable(c, f') == Readable(c, first) + (log + more)
  {
  }

  lemma StepLogs(c: Codec, first: string, s: State, a: Action)
    requires ObjectPerLine(c) && Stamps(s) && Logged(c, first, s) && Enabled(c, s, a) && !Glues(s, a)
    ensures Stamps(Apply(c, s, a)) && Logged(c, first, Apply(c, s, a))
  {
    match a
    case Look(_, _, _, _) =>
    case Write(w) =>
      var p := s.writers[w];
      AppendsOne(c, s.file, p.e, p.apart);
      MoreLogged(c, first, s.file, s.log, s.file + Line(c, p.e, p.apart), [p.e]);
    case Tear(w, n) =>
      var p := s.writers[w];
      var line := Line(c, p.e, p.apart);
      var more := if n == |line| - 1 then [p.e] else [];
      TornAdds(c, s.file, p.e, p.apart, n);
      MoreLogged(c, first, s.file, s.log, s.file + line[..n], more);
      assert s.log + [] == s.log;
  }

  lemma StepTrusty(c: Codec, s: State, a: Action)
    requires Trusty(s) && Enabled(c, s, a)
    ensures Trusty(Apply(c, s, a))
  {
    if a.Write? {
      assert Clean(Apply(c, s, a).file);
    }
  }

  function Step(c: Codec): (State, Action) -> Option<State> {
    (s: State, a: Action) => if Enabled(c, s, a) then Some(Apply(c, s, a)) else None
  }

  ghost predicate NoneGlues(c: Codec, s: State, acts: seq<Action>)
    decreases |acts|
  {
    acts != [] && Enabled(c, s, acts[0]) ==>
      !Glues(s, acts[0]) && NoneGlues(c, Apply(c, s, acts[0]), acts[1..])
  }

  /** As long as no write goes behind a torn line, the file reads as at first and then every entry in the order of writes. */
  lemma {:induction false} LogKept(c: Codec, first: string, s: State, acts: seq<Action>, s': State)
    requires ObjectPerLine(c) && Stamps(s) && Logged(c, first, s)
    requires Leads(Step(c), s, acts, s') && NoneGlues(c, s, acts)
    ensures Logged(c, first, s')
    decreases |acts|
  {
    if acts != [] {
      StepLogs(c, first, s, acts[0]);
      LogKept(c, first, Apply(c, s, acts[0]), acts[1..], s');
    }
  }

  predicate Smooth(a: Action) { !a.Tear? && (a.Look? ==> !a.blind) }

  ghost predicate NoDoubts(s: State) { forall w | w in s.writers :: !s.writers[w].doubtful }

  lemma {:induction false} SmoothNeverGlues(c: Codec, s: State, acts: seq<Action>)
    requires Trusty(s) && NoDoubts(s) && forall a | a in acts :: Smooth(a)
    ensures NoneGlues(c, s, acts)
    decreases |acts|
  {
    if acts != [] && Enabled(c, s, acts[0]) {
      assert Smooth(acts[0]);
      StepTrusty(c, s, acts[0]);
      SmoothNeverGlues(c, Apply(c, s, acts[0]), acts[1..]);
    }
  }

  /** For any first bytes, a torn last line among them, and any interleaving of looks and writes that succeed: what could be
      read stays, and every entry follows in the order of the writes. */
  lemma AppendsInterleave(c: Codec, first: string, acts: seq<Action>, s: State)
    requires ObjectPerLine(c) && Leads(Step(c), State(first, map[], []), acts, s) && forall a | a in acts :: Smooth(a)
    ensures Readable(c, s.file) == Readable(c, first) + s.log
  {
    SmoothNeverGlues(c, State(first, map[], []), acts);
    LogKept(c, first, State(first, map[], []), acts, s);
  }

  /** A writer sets out to write the stamped entry, on a line of its own if it saw that the last line is torn. */
  lemma LookMeans(c: Codec, s: State, a: Action)
    requires a.Look? && Enabled(c, s, a)
    ensures var t := Apply(c, s, a);
            && t.file == s.file && t.log == s.log && t.writers.Keys == s.writers.Keys + {a.w}
            && t.writers[a.w].e == Stamped(a.e, a.now)
            && (t.writers[a.w].apart <==> !a.blind && s.file != "" && s.file[|s.file| - 1] != '\n')
            && forall w | w in s.writers :: t.writers[w] == s.writers[w]
  {
  }

  /** In any run, only a writer whose look failed or that was overtaken by a write cut short can glue. */
  lemma {:induction false} GluesOnlyInDoubt(c: Codec, s: State, acts: seq<Action>, s': State, a: Action)
    requires Trusty(s) && Leads(Step(c), s, acts, s') && Glues(s', a)
    ensures s'.writers[a.w].doubtful
    decreases |acts|
  {
    if acts != [] {
      StepTrusty(c, s, acts[0]);
      GluesOnlyInDoubt(c, Apply(c, s, acts[0]), acts[1..], s', a);
    }
  }

  /** A write that glues loses its entry, unless all that stands on the torn line is white space. */
  lemma GlueLoses(c: Codec, s: State, a: Action)
    requires ObjectPerLine(c) && Stamps(s) && a.Write? && Enabled(c, s, a) && Glues(s, a)
    ensures Readable(c, Apply(c, s, a).file) == Readable(c, s.file) + [s.writers[a.w].e] <==> Blank(Tail(s.file))
  {
    AddsIffTailBlank(c, s.file, s.writers[a.w].e);
  }

  /** It happens: a write cut short between another writer's look and write makes that writer's entry unreadable, although
      its write succeeds. The worst case of a concurrent append is thus more than an empty line. */
  lemma TornBetween(c: Codec, e: Entry, d: Entry, n: nat)
    requires ObjectPerLine(c) && Valid(Stamped(e, 0)) && Valid(Stamped(d, 0))
    requires 0 < n < |c.enc(Stamped(d, 0))| && !Blank(c.enc(Stamped(d, 0))[..n])
    ensures var torn := c.enc(Stamped(d, 0))[..n];
            var s := State(torn + Line(c, Stamped(e, 0), false), map[], [Stamped(e, 0)]);
            && Leads(Step(c), State("", map[], []), [Look(0, e, 0, false), Look(1, d, 0, false), Tear(1, n), Write(0)], s)
            && Readable(c, s.file) != Readable(c, "") + s.log
  {
    TornRun(c, e, d, n);
    TornLoses(c, Stamped(e, 0), Stamped(d, 0), n);
  }

  lemma TornLoses(c: Codec, e: Entry, d: Entry, n: nat)
    requires ObjectPerLine(c) && e.v == VERSION && d.v == VERSION
    requires n < |c.enc(d)| && !Blank(c.enc(d)[..n])
    ensures Readable(c, c.enc(d)[..n] + Line(c, e, false)) != Readable(c, "") + [e]
  {
    assert '\n' !in c.enc(d);
    TornTail(c.enc(d)[..n]);
    AddsIffTailBlank(c, c.enc(d)[..n], e);
    TornEncoding(c, d, n);
  }

  lemma TornRun(c: Codec, e: Entry, d: Entry, n: nat)
    requires Valid(Stamped(e, 0)) && Valid(Stamped(d, 0)) && n < |c.enc(Stamped(d, 0))|
    ensures Leads(Step(c), State("", map[], []), [Look(0, e, 0, false), Look(1, d, 0, false), Tear(1, n), Write(0)],
                    State(c.enc(Stamped(d, 0))[..n] + Line(c, Stamped(e, 0), false), map[], [Stamped(e, 0)]))
  {
    var e', d' := Stamped(e, 0), Stamped(d, 0);
    var torn := c.enc(d')[..n];
    var p := Pending(e', false, false);
    var s0 := State("", map[], []);
    var s1 := State("", map[0 := p], []);
    var s2 := State("", map[0 := p, 1 := Pending(d', false, false)], []);
    var s3 := State(torn, map[0 := p.(doubtful := true)], []);
    var s4 := State(torn + Line(c, e', false), map[], [e']);
    var acts := [Look(0, e, 0, false), Look(1, d, 0, false), Tear(1, n), Write(0)];
    TearOf(c, d', n);
    assert Apply(c, s0, acts[0]) == s1 && Apply(c, s1, acts[1]) == s2;
    assert Apply(c, s2, acts[2]) == s3;
    assert Apply(c, s3, acts[3]) == s4;
    LeadsFour(Step(c), s0, acts[0], s1, acts[1], s2, acts[2], s3, acts[3], s4);
  }

  lemma TearOf(c: Codec, d: Entry, n: nat)
    requires n < |c.enc(d)|
    ensures Line(c, d, false)[..n] == c.enc(d)[..n] && n < |Line(c, d, false)| - 1 && "" + c.enc(d)[..n] == c.enc(d)[..n]
  {
  }

  lemma TornTail(torn: string)
    requires '\n' !in torn
    ensures Tail(torn) == torn
  {
  }

  // ---- one writer and one reader as they run ----

  class LogFile {
    const c: Codec
    var bytes: string

    constructor (c: Codec, bytes: string)
      ensures this.c == c && this.bytes == bytes
    {
      this.c, this.bytes := c, bytes;
    }

    /** Adds an entry. `room` is how many bytes the disk still takes. */
    method Append(e: Entry, now: int, room: nat) returns (ok: bool)
      requires ObjectPerLine(c)
      modifies this
      ensures ok ==> Valid(Stamped(e, now)) && Readable(c, bytes) == Readable(c, old(bytes)) + [Stamped(e, now)]
      ensures !Valid(Stamped(e, now)) ==> !ok && bytes == old(bytes)
      ensures !ok ==> Readable(c, bytes) == Readable(c, old(bytes))
                      || Readable(c, bytes) == Readable(c, old(bytes)) + [Stamped(e, now)]
      ensures !ok ==> |bytes| <= |old(bytes)| + room
    {
      var entry := Stamped(e, now);
      if !Valid(entry) { return false; }
      var apart := |bytes| > 0 && bytes[|bytes| - 1] != '\n';
      var line := Line(c, entry, apart);
      AppendsOne(c, bytes, entry, apart);
      if room < |line| {
        TornAdds(c, bytes, entry, apart, room);
        bytes := bytes + line[..room];
        return false;
      }
      bytes := bytes + line;
      return true;
    }

    /** Reads line by line to the end of the file. */
    method ReadAll() returns (entries: seq<Entry>)
      ensures entries == Readable(c, bytes)
    {
      entries := [];
      var rest := bytes;
      while rest != ""
        invariant Readable(c, bytes) == entries + Readable(c, rest)
        decreases |rest|
      {
        ReadStep(c, rest, entries);
        var n := LineEnd(rest);
        entries := entries + Decoded(c, rest[..n]);
        rest := rest[n..];
      }
    }
  }

  lemma ReadStep(c: Codec, f: string, entries: seq<Entry>)
    requires f != ""
    ensures entries + Readable(c, f) == entries + Decoded(c, f[..LineEnd(f)]) + Readable(c, f[LineEnd(f)..])
  {
    Chain(entries, Decoded(c, f[..LineEnd(f)]), Readable(c, f[LineEnd(f)..]));
  }
}
