/** Processes that load or create the one device ID of a machine, with the file system between them. */
module Identity {
  import opened Wrappers
  import opened DeviceId
  import opened Runs

  predicate IsSpace(c: char) { c in " \t\n\r" || c as int == 0x0B || c as int == 0x0C }

  function TrimLeft(s: string): string {
    if s != "" && IsSpace(s[0]) then TrimLeft(s[1..]) else s
  }

  function TrimRight(s: string): string {
    if s != "" && IsSpace(s[|s| - 1]) then TrimRight(s[..|s| - 1]) else s
  }

  function TrimSpace(s: string): string { TrimRight(TrimLeft(s)) }

  predicate AllSpace(s: string) { forall i | 0 <= i < |s| :: IsSpace(s[i]) }

  lemma {:induction false} TrimLeftMeans(s: string) returns (pre: string)
    ensures s == pre + TrimLeft(s) && AllSpace(pre) && (TrimLeft(s) != "" ==> !IsSpace(TrimLeft(s)[0]))
  {
    if s != "" && IsSpace(s[0]) {
      var more := TrimLeftMeans(s[1..]);
      pre := [s[0]] + more;
      assert s == [s[0]] + s[1..];
    } else {
      pre := "";
    }
  }

  lemma {:induction false} TrimRightMeans(s: string) returns (post: string)
    ensures s == TrimRight(s) + post && AllSpace(post)
    ensures TrimRight(s) != "" ==> !IsSpace(TrimRight(s)[|TrimRight(s)| - 1]) && TrimRight(s)[0] == s[0]
    decreases |s|
  {
    if s != "" && IsSpace(s[|s| - 1]) {
      var n := |s| - 1;
      var more := TrimRightMeans(s[..n]);
      post := more + [s[n]];
      assert s == s[..n] + [s[n]];
    } else {
      post := "";
    }
  }

  /** Trimming takes white space off both ends, and all of it. */
  lemma TrimMeans(s: string) returns (pre: string, post: string)
    ensures var t := TrimSpace(s);
            && s == pre + t + post && AllSpace(pre) && AllSpace(post)
            && (t != "" ==> !IsSpace(t[0]) && !IsSpace(t[|t| - 1]))
  {
    pre := TrimLeftMeans(s);
    post := TrimRightMeans(TrimLeft(s));
    assert pre + (TrimSpace(s) + post) == pre + TrimSpace(s) + post;
  }

  lemma TrimmedId(id: string)
    requires Valid(id)
    ensures TrimSpace(id + "\n") == id
  {
    var s := id + "\n";
    assert IsHex(id[0]) && IsHex(id[31]);
    assert s[0] == id[0] && !IsSpace(id[0]) && !IsSpace(id[31]);
    assert s[|s| - 1] == '\n' && s[..|s| - 1] == id;
    assert TrimRight(s) == TrimRight(id) == id;
  }

  /** The ID in a file, if the file is there and holds a valid one. */
  function StoredId(file: Option<string>): Option<string> {
    if file.Some? && Valid(TrimSpace(file.value)) then Some(TrimSpace(file.value)) else None
  }

  datatype Answer = Id(id: string) | Failed

  /** Where a process is: about to read, about to write its temporary file, then to link it, to read again after it lost the
      race, to rename, and to remove the temporary file. */
  datatype Pc =
    | Reading | Making | Linking(id: string) | Rereading(id: string) | Renaming(id: string)
    | Leaving(answer: Answer) | Returned(answer: Answer)

  datatype State = State(file: Option<string>, temps: map<nat, string>, procs: map<nat, Pc>)

  /** `fails` says that the system call of the step returns an error other than "exists" or "does not exist". */
  datatype Action =
    | Arrive(p: nat) | Read(p: nat, fails: bool) | Make(p: nat, id: string, fails: bool) | Link(p: nat, fails: bool)
    | Reread(p: nat, fails: bool) | Rename(p: nat, fails: bool) | Remove(p: nat)

  predicate Enabled(s: State, a: Action) {
    if a.Arrive? then a.p !in s.procs
    else
      && a.p in s.procs
      && match a
         case Read(p, _) => s.procs[p].Reading?
         case Make(p, id, _) => s.procs[p].Making? && Valid(id)
         case Link(p, _) => s.procs[p].Linking?
         case Reread(p, _) => s.procs[p].Rereading?
         case Rename(p, _) => s.procs[p].Renaming? && p in s.temps
         case Remove(p) => s.procs[p].Leaving?
  }

  function At(s: State, p: nat, pc: Pc): State { s.(procs := s.procs[p := pc]) }

  function Apply(s: State, a: Action): State
    requires Enabled(s, a)
  {
    match a
    case Arrive(p) => At(s, p, Reading)
    case Read(p, fails) =>
      if fails then At(s, p, Returned(Failed))
      else if StoredId(s.file).Some? then At(s, p, Returned(Id(StoredId(s.file).value)))
      else At(s, p, Making)
    case Make(p, id, fails) =>
      if fails then At(s, p, Returned(Failed))
      else At(s.(temps := s.temps[p := id + "\n"]), p, Linking(id))
    case Link(p, fails) =>
      var id := s.procs[p].id;
      if fails then At(s, p, Renaming(id))
      else if s.file.Some? then At(s, p, Rereading(id))
      else At(s.(file := Some(id + "\n")), p, Leaving(Id(id)))
    case Reread(p, fails) =>
      if fails then At(s, p, Leaving(Failed))
      else if StoredId(s.file).Some? then At(s, p, Leaving(Id(StoredId(s.file).value)))
      else At(s, p, Renaming(s.procs[p].id))
    case Rename(p, fails) =>
      if fails then At(s, p, Leaving(Failed))
      else At(s.(file := Some(s.temps[p]), temps := s.temps - {p}), p, Leaving(Id(s.procs[p].id)))
    case Remove(p) => At(s.(temps := s.temps - {p}), p, Returned(s.procs[p].answer))
  }

  function Step(s: State, a: Action): Option<State> { if Enabled(s, a) then Some(Apply(s, a)) else None }

  function Start(file: Option<string>): State { State(file, map[], map[]) }

  // ---- in every run ----

  ghost predicate AnswerValid(pc: Pc) {
    match pc
    case Linking(id) => Valid(id)
    case Rereading(id) => Valid(id)
    case Renaming(id) => Valid(id)
    case Leaving(Id(id)) => Valid(id)
    case Returned(Id(id)) => Valid(id)
    case _ => true
  }

  /** Whole IDs only: the file holds what it held at first or a complete valid ID. */
  ghost predicate Whole(first: Option<string>, s: State) {
    && (s.file == first || StoredId(s.file).Some?)
    && (forall p | p in s.procs :: AnswerValid(s.procs[p]))
  }

  ghost predicate HoldsTemp(s: State, p: nat) {
    p in s.procs && (s.procs[p].Linking? || s.procs[p].Rereading? || s.procs[p].Renaming? || s.procs[p].Leaving?)
  }

  /** A temporary file belongs to a process that will yet remove or rename it, and holds its ID. */
  ghost predicate TempsHeld(s: State) {
    && (forall p | p in s.temps :: HoldsTemp(s, p))
    && (forall p | p in s.procs :: TempWritten(s, p))
  }

  ghost predicate TempWritten(s: State, p: nat)
    requires p in s.procs
  {
    s.procs[p].Linking? || s.procs[p].Rereading? || s.procs[p].Renaming? ==>
      p in s.temps && s.temps[p] == s.procs[p].id + "\n"
  }

  lemma StepTempsHeld(s: State, a: Action)
    requires TempsHeld(s) && Enabled(s, a)
    ensures TempsHeld(Apply(s, a))
  {
    var s' := Apply(s, a);
    forall p | p in s'.temps ensures HoldsTemp(s', p) {
      if p != a.p { assert HoldsTemp(s, p); }
    }
    forall p | p in s'.procs ensures TempWritten(s', p) {
      if p != a.p { assert TempWritten(s, p); }
    }
  }

  lemma StepWhole(first: Option<string>, s: State, a: Action)
    requires Whole(first, s) && TempsHeld(s) && Enabled(s, a)
    ensures Whole(first, Apply(s, a))
  {
    if a.Link? || a.Rename? {
      TrimmedId(s.procs[a.p].id);
    }
  }

  lemma {:induction false} RunWhole(first: Option<string>, s: State, acts: seq<Action>, t: State)
    requires Whole(first, s) && TempsHeld(s) && Leads(Step, s, acts, t)
    ensures Whole(first, t) && TempsHeld(t)
    decreases |acts|
  {
    if acts != [] {
      StepWhole(first, s, acts[0]);
      StepTempsHeld(s, acts[0]);
      RunWhole(first, Apply(s, acts[0]), acts[1..], t);
    }
  }

  /** Whatever the file held, whether or not links work, and however calls fail: nobody returns half an ID, and no temporary
      file is left once everyone has returned. */
  lemma NoTempSurvives(first: Option<string>, acts: seq<Action>, s: State)
    requires Leads(Step, Start(first), acts, s)
    ensures s.file == first || StoredId(s.file).Some?
    ensures forall p | p in s.procs && s.procs[p].Returned? && s.procs[p].answer.Id? :: Valid(s.procs[p].answer.id)
    ensures (forall p | p in s.procs :: s.procs[p].Returned?) ==> s.temps == map[]
  {
    RunWhole(first, Start(first), acts, s);
    assert forall p | p in s.temps :: HoldsTemp(s, p);
  }

  // ---- no needless failure ----

  ghost predicate Faulted(acts: seq<Action>, p: nat) {
    exists a | a in acts :: a.p == p && (a.Read? || a.Make? || a.Reread? || a.Rename?) && a.fails
  }

  ghost predicate FailedFor(acts: seq<Action>, s: State) {
    forall p | p in s.procs && (s.procs[p].Leaving? || s.procs[p].Returned?) && s.procs[p].answer == Failed :: Faulted(acts, p)
  }

  lemma StepFails(acts: seq<Action>, s: State, a: Action)
    requires FailedFor(acts, s) && Enabled(s, a)
    ensures FailedFor(acts + [a], Apply(s, a))
  {
    var s' := Apply(s, a);
    assert a in acts + [a];
    forall p | p in s'.procs && (s'.procs[p].Leaving? || s'.procs[p].Returned?) && s'.procs[p].answer == Failed
      ensures Faulted(acts + [a], p)
    {
      if p in s.procs && (s.procs[p].Leaving? || s.procs[p].Returned?) {
        assert Faulted(acts, p);
      }
    }
  }

  lemma {:induction false} RunFails(before: seq<Action>, s: State, acts: seq<Action>, t: State)
    requires FailedFor(before, s) && Leads(Step, s, acts, t)
    ensures FailedFor(before + acts, t)
    decreases |acts|
  {
    if acts == [] {
      assert before + acts == before;
    } else {
      StepFails(before, s, acts[0]);
      RunFails(before + [acts[0]], Apply(s, acts[0]), acts[1..], t);
      assert before + [acts[0]] + acts[1..] == before + acts;
    }
  }

  /** A process fails only if it cannot read the file, write a temporary one, or rename it: not because there are no hard
      links, because the file is corrupt, or because of another process. */
  lemma FailsOnlyByFault(first: Option<string>, acts: seq<Action>, s: State, p: nat)
    requires Leads(Step, Start(first), acts, s) && p in s.procs && s.procs[p] == Returned(Failed)
    ensures Faulted(acts, p)
  {
    RunFails([], Start(first), acts, s);
    assert [] + acts == acts;
  }

  // ---- agreement ----

  /** The file is missing or holds a valid ID. */
  predicate Proper(file: Option<string>) { file.None? || StoredId(file).Some? }

  ghost predicate Agreed(s: State) {
    && Proper(s.file)
    && (forall p | p in s.procs :: !s.procs[p].Renaming? && AnswerValid(s.procs[p]))
    && (forall p | p in s.procs && s.procs[p].Rereading? :: s.file.Some?)
    && (forall p | p in s.procs && (s.procs[p].Leaving? || s.procs[p].Returned?) && s.procs[p].answer.Id? ::
          StoredId(s.file) == Some(s.procs[p].answer.id))
  }

  predicate LinksWork(a: Action) { a.Link? ==> !a.fails }

  lemma StepAgreed(s: State, a: Action)
    requires Agreed(s) && Enabled(s, a) && LinksWork(a)
    ensures Agreed(Apply(s, a)) && (s.file.Some? ==> Apply(s, a).file == s.file)
  {
    if a.Link? {
      TrimmedId(s.procs[a.p].id);
    }
  }

  lemma {:induction false} RunAgreed(s: State, acts: seq<Action>, t: State)
    requires Agreed(s) && Leads(Step, s, acts, t) && forall a | a in acts :: LinksWork(a)
    ensures Agreed(t) && (s.file.Some? ==> t.file == s.file)
    decreases |acts|
  {
    if acts != [] {
      assert acts[0] in acts;
      StepAgreed(s, acts[0]);
      RunAgreed(Apply(s, acts[0]), acts[1..], t);
    }
  }

  /** Where the file is missing or valid at first and links work, everyone who gets an ID gets the same one, which is the
      valid ID in the file; a file that was there is not changed. */
  lemma AllAgree(first: Option<string>, acts: seq<Action>, s: State)
    requires Proper(first) && Leads(Step, Start(first), acts, s) && forall a | a in acts :: LinksWork(a)
    ensures forall p | p in s.procs && s.procs[p].Returned? && s.procs[p].answer.Id? ::
              Valid(s.procs[p].answer.id) && StoredId(s.file) == Some(s.procs[p].answer.id)
    ensures first.Some? ==> s.file == first
  {
    RunAgreed(Start(first), acts, s);
  }

  /** Two processes that returned different IDs. */
  ghost predicate Disagree(s: State) {
    exists p, q :: p in s.procs && q in s.procs && s.procs[p].Returned? && s.procs[q].Returned?
                   && s.procs[p].answer.Id? && s.procs[q].answer.Id? && s.procs[p].answer != s.procs[q].answer
  }

  /** Two processes, each a step at a time, that both find nothing to use and both rename. */
  function Race(x: string, y: string, broken: bool): seq<Action> { Makes(x, y) + Links(broken) + Renames() }

  function Makes(x: string, y: string): seq<Action> {
    [Arrive(0), Read(0, false)] + [Make(0, x, false), Arrive(1)] + [Read(1, false), Make(1, y, false)]
  }

  function Links(broken: bool): seq<Action> {
    if broken then [Link(0, true), Link(1, true)]
    else [Link(0, false), Reread(0, false)] + [Link(1, false), Reread(1, false)]
  }

  function Renames(): seq<Action> { [Rename(0, false), Rename(1, false)] + [Remove(0), Remove(1)] }

  lemma TwoSteps(s: State, a: Action, t: State, b: Action, u: State)
    requires Enabled(s, a) && Apply(s, a) == t && Enabled(t, b) && Apply(t, b) == u
    ensures Leads(Step, s, [a, b], u)
  {
    LeadsTwo(Step, s, a, t, b, u);
  }

  /** The race up to the two temporary files. */
  lemma RaceMakes(file: Option<string>, x: string, y: string)
    requires StoredId(file).None? && Valid(x) && Valid(y)
    ensures Leads(Step, Start(file), Makes(x, y),
                  State(file, map[0 := x + "\n", 1 := y + "\n"], map[0 := Linking(x), 1 := Linking(y)]))
  {
    var s0 := Start(file);
    var s2 := State(file, map[], map[0 := Making]);
    var s4 := State(file, map[0 := x + "\n"], map[0 := Linking(x), 1 := Reading]);
    var s6 := State(file, map[0 := x + "\n", 1 := y + "\n"], map[0 := Linking(x), 1 := Linking(y)]);
    TwoSteps(s0, Arrive(0), State(file, map[], map[0 := Reading]), Read(0, false), s2);
    TwoSteps(s2, Make(0, x, false), State(file, map[0 := x + "\n"], map[0 := Linking(x)]), Arrive(1), s4);
    TwoSteps(s4, Read(1, false), State(file, map[0 := x + "\n"], map[0 := Linking(x), 1 := Making]), Make(1, y, false), s6);
    LeadsOn(Step, s0, [Arrive(0), Read(0, false)], s2, [Make(0, x, false), Arrive(1)], s4);
    LeadsOn(Step, s0, [Arrive(0), Read(0, false)] + [Make(0, x, false), Arrive(1)], s4, [Read(1, false), Make(1, y, false)], s6);
  }

  /** The race from the temporary files to two renames that are due. */
  lemma RaceLinks(file: Option<string>, x: string, y: string, broken: bool)
    requires StoredId(file).None? && (broken || file.Some?)
    ensures var temps := map[0 := x + "\n", 1 := y + "\n"];
            Leads(Step, State(file, temps, map[0 := Linking(x), 1 := Linking(y)]), Links(broken),
                  State(file, temps, map[0 := Renaming(x), 1 := Renaming(y)]))
  {
    var temps := map[0 := x + "\n", 1 := y + "\n"];
    var s := State(file, temps, map[0 := Linking(x), 1 := Linking(y)]);
    var t := State(file, temps, map[0 := Renaming(x), 1 := Linking(y)]);
    var u := State(file, temps, map[0 := Renaming(x), 1 := Renaming(y)]);
    if broken {
      TwoSteps(s, Link(0, true), t, Link(1, true), u);
    } else {
      TwoSteps(s, Link(0, false), State(file, temps, map[0 := Rereading(x), 1 := Linking(y)]), Reread(0, false), t);
      TwoSteps(t, Link(1, false), State(file, temps, map[0 := Renaming(x), 1 := Rereading(y)]), Reread(1, false), u);
      LeadsOn(Step, s, [Link(0, false), Reread(0, false)], t, [Link(1, false), Reread(1, false)], u);
    }
  }

  lemma RaceRenames(file: Option<string>, x: string, y: string)
    ensures Leads(Step, State(file, map[0 := x + "\n", 1 := y + "\n"], map[0 := Renaming(x), 1 := Renaming(y)]),
                  Renames(),
                  State(Some(y + "\n"), map[], map[0 := Returned(Id(x)), 1 := Returned(Id(y))]))
  {
    var s := State(file, map[0 := x + "\n", 1 := y + "\n"], map[0 := Renaming(x), 1 := Renaming(y)]);
    var t := State(Some(x + "\n"), map[1 := y + "\n"], map[0 := Leaving(Id(x)), 1 := Renaming(y)]);
    var u := State(Some(y + "\n"), map[], map[0 := Leaving(Id(x)), 1 := Leaving(Id(y))]);
    var v := State(Some(y + "\n"), map[], map[0 := Returned(Id(x)), 1 := Leaving(Id(y))]);
    var w := State(Some(y + "\n"), map[], map[0 := Returned(Id(x)), 1 := Returned(Id(y))]);
    TwoSteps(s, Rename(0, false), t, Rename(1, false), u);
    TwoSteps(u, Remove(0), v, Remove(1), w);
    LeadsOn(Step, s, [Rename(0, false), Rename(1, false)], u, [Remove(0), Remove(1)], w);
  }

  /** Where there is nothing to use and renames are due, two processes can return different IDs. */
  lemma RaceDisagrees(file: Option<string>, x: string, y: string, broken: bool)
    requires StoredId(file).None? && (broken || file.Some?) && Valid(x) && Valid(y) && x != y
    ensures var s := State(Some(y + "\n"), map[], map[0 := Returned(Id(x)), 1 := Returned(Id(y))]);
            Leads(Step, Start(file), Race(x, y, broken), s) && Disagree(s)
  {
    var temps := map[0 := x + "\n", 1 := y + "\n"];
    var s := State(file, temps, map[0 := Linking(x), 1 := Linking(y)]);
    var t := State(file, temps, map[0 := Renaming(x), 1 := Renaming(y)]);
    var u := State(Some(y + "\n"), map[], map[0 := Returned(Id(x)), 1 := Returned(Id(y))]);
    RaceMakes(file, x, y);
    RaceLinks(file, x, y, broken);
    RaceRenames(file, x, y);
    LeadsOn(Step, Start(file), Makes(x, y), s, Links(broken), t);
    LeadsOn(Step, Start(file), Makes(x, y) + Links(broken), t, Renames(), u);
    assert u.procs[0].answer != u.procs[1].answer;
  }

  /** A valid ID is found by everyone at once. */
  ghost predicate Found(s: State) {
    && StoredId(s.file).Some?
    && forall p | p in s.procs ::
         s.procs[p] == Reading || s.procs[p] == Returned(Failed) || s.procs[p] == Returned(Id(StoredId(s.file).value))
  }

  lemma {:induction false} RunFound(s: State, acts: seq<Action>, t: State)
    requires Found(s) && Leads(Step, s, acts, t)
    ensures Found(t)
    decreases |acts|
  {
    if acts != [] {
      RunFound(Apply(s, acts[0]), acts[1..], t);
    }
  }

  ghost predicate LinksAre(acts: seq<Action>, broken: bool) {
    forall a | a in acts && a.Link? :: a.fails == broken
  }

  ghost predicate AlwaysAgree(file: Option<string>, broken: bool) {
    forall acts, s | Leads(Step, Start(file), acts, s) && LinksAre(acts, broken) :: !Disagree(s)
  }

  /** Any number of processes agree in every run exactly when the file holds a valid ID at first, or is missing where hard
      links work. A corrupt file is replaced by each that finds it, so the promise does not extend to it. */
  lemma AgreementIff(file: Option<string>, broken: bool)
    ensures AlwaysAgree(file, broken) <==> StoredId(file).Some? || (file.None? && !broken)
  {
    if StoredId(file).Some? {
      forall acts, s | Leads(Step, Start(file), acts, s) && LinksAre(acts, broken) ensures !Disagree(s) {
        RunFound(Start(file), acts, s);
      }
    } else if file.None? && !broken {
      forall acts, s | Leads(Step, Start(file), acts, s) && LinksAre(acts, broken) ensures !Disagree(s) {
        AllAgree(file, acts, s);
      }
    } else {
      MayDisagree(file, broken);
    }
  }

  lemma MayDisagree(file: Option<string>, broken: bool)
    requires StoredId(file).None? && (broken || file.Some?)
    ensures !AlwaysAgree(file, broken)
  {
    var x, y := seq(32, _ => '0'), seq(32, _ => '1');
    assert x[0] != y[0];
    RaceDisagrees(file, x, y, broken);
    assert LinksAre(Race(x, y, broken), broken);
  }

  // ---- one process as it runs ----

  /** Which system calls of a run fail. */
  datatype Faults = Faults(read: bool, temp: bool, link: bool, reread: bool, rename: bool)

  class ConfigFolder {
    var file: Option<string>
    var temps: map<string, string>

    constructor (file: Option<string>)
      ensures this.file == file && temps == map[]
    {
      this.file, temps := file, map[];
    }

    method ReadId() returns (id: Option<string>)
      ensures id == StoredId(file)
    {
      if file.None? { return None; }
      var text := TrimSpace(file.value);
      var ok := CheckValid(text);
      return if ok then Some(text) else None;
    }

    /** `random` is the new random ID and `name` the name that the temporary file gets. */
    method LoadOrCreate(random: string, name: string, faults: Faults) returns (answer: Answer)
      requires Valid(random) && name !in temps
      modifies this
      ensures temps == old(temps)
      ensures answer.Id? ==> Valid(answer.id) && StoredId(file) == Some(answer.id)
      ensures StoredId(old(file)).Some? ==> file == old(file)
      ensures answer == Failed ==> file == old(file)
      ensures !faults.read && StoredId(old(file)).Some? ==> answer == Id(StoredId(old(file)).value)
      ensures !faults.read && StoredId(old(file)).None? && answer.Id? ==> answer.id == random
      ensures faults == Faults(false, false, false, false, false) ==> answer.Id?
    {
      if faults.read { return Failed; }
      var stored := ReadId();
      if stored.Some? { return Id(stored.value); }
      if faults.temp { return Failed; }
      temps := temps[name := random + "\n"];
      answer := Publish(random, name, faults);
      temps := temps - {name};
    }

    method Publish(random: string, name: string, faults: Faults) returns (answer: Answer)
      requires name in temps && temps[name] == random + "\n" && Valid(random)
      modifies this
      ensures temps == old(temps) || temps == old(temps) - {name}
      ensures answer == Failed ==> file == old(file)
      ensures answer.Id? ==> StoredId(file) == Some(answer.id)
      ensures !faults.link && StoredId(old(file)).Some? ==> file == old(file)
      ensures answer.Id? && (faults.link || StoredId(old(file)).None?) ==> answer.id == random
      ensures faults == Faults(false, false, false, false, false) ==> answer.Id?
    {
      TrimmedId(random);
      if !faults.link {
        if file.None? {
          file := Some(temps[name]);
          return Id(random);
        }
        if faults.reread { return Failed; }
        var other := ReadId();
        if other.Some? { return Id(other.value); }
      }
      if faults.rename { return Failed; }
      file, temps := Some(temps[name]), temps - {name};
      return Id(random);
    }
  }
}
