/** The peers that a receiving process has seen. */
module Registry {
  import opened Wrappers
  import opened DeviceId
  import opened Runs

  /** `ip` is whatever the platform's address type holds; an invalid address has none. */
  datatype AddrPort = AddrPort(ip: Option<string>, port: nat)

  datatype Peer = Peer(id: string, name: string, os: string, addr: AddrPort, lastSeen: int, online: bool)

  datatype Sighting = Sighting(id: string, name: string, os: string, addr: AddrPort)

  /** 90 seconds in nanoseconds. */
  const OFFLINE_AFTER := 90_000_000_000

  const MAX_NAME := 64

  type Lower = string -> string

  type Peers = map<string, Peer>

  predicate ValidName(name: string) {
    1 <= |name| <= MAX_NAME && forall i | 0 <= i < |name| :: name[i] as int >= 0x20 && name[i] as int != 0x7F
  }

  function IdKey(id: string): string { "id:" + id }

  function NameKey(lower: Lower, name: string): string { "name:" + lower(name) }

  function KeyOf(lower: Lower, p: Peer): string { if p.id != "" then IdKey(p.id) else NameKey(lower, p.name) }

  function Cleaned(id: string): string { if Valid(id) then id else "" }

  /** The entry that a sighting is about, unless it counts for nothing. A sighting without a port only refreshes a peer that
      is known by its ID. */
  function Target(lower: Lower, known: set<string>, s: Sighting): Option<string> {
    var id := Cleaned(s.id);
    if s.addr.ip.None? then None
    else if s.addr.port == 0 then
      if id != "" && IdKey(id) in known then Some(IdKey(id)) else None
    else if !ValidName(s.name) then None
    else Some(if id != "" then IdKey(id) else NameKey(lower, s.name))
  }

  /** A sighting with an ID and a port replaces the entry that the peer had under its name alone. */
  function Replaced(lower: Lower, s: Sighting): set<string> {
    if s.addr.port != 0 && Cleaned(s.id) != "" then {NameKey(lower, s.name)} else {}
  }

  function Observed(lower: Lower, peers: Peers, s: Sighting, now: int): Peers {
    match Target(lower, peers.Keys, s)
    case None => peers
    case Some(k) =>
      if s.addr.port == 0 then
        peers[k := peers[k].(addr := AddrPort(s.addr.ip, peers[k].addr.port), lastSeen := now, online := true)]
      else
        (peers - Replaced(lower, s))
        [k := Peer(if k in peers then peers[k].id else Cleaned(s.id), s.name, s.os, s.addr, now, true)]
  }

  predicate Missed(p: Peer, now: int) { p.online && now - p.lastSeen > OFFLINE_AFTER }

  function Aged(p: Peer, now: int): Peer { if Missed(p, now) then p.(online := false) else p }

  function Ticked(peers: Peers, now: int): Peers {
    map k | k in peers :: Aged(peers[k], now)
  }

  predicate Kept(p: Peer) { ValidName(p.name) && p.addr.ip.Some? }

  function Restored(p: Peer): Peer { p.(id := Cleaned(p.id), online := false) }

  /** What the peers file holds; of entries with one key the last one counts. */
  function Loaded(lower: Lower, list: seq<Peer>): Peers {
    if list == [] then map[]
    else
      var p := list[|list| - 1];
      var before := Loaded(lower, list[..|list| - 1]);
      if Kept(p) then before[KeyOf(lower, Restored(p)) := Restored(p)] else before
  }

  // ---- what every operation keeps ----

  ghost predicate Sound(lower: Lower, peers: Peers) {
    forall k | k in peers ::
      k == KeyOf(lower, peers[k]) && Kept(peers[k]) && (peers[k].id == "" || Valid(peers[k].id))
  }

  lemma ObservedKeepsSound(lower: Lower, peers: Peers, s: Sighting, now: int)
    requires Sound(lower, peers)
    ensures Sound(lower, Observed(lower, peers, s, now))
  {
    KeysApart();
  }

  /** The prefixes keep the two kinds of key apart. */
  lemma KeysApart()
    ensures forall id: string, x: string :: IdKey(id) != "name:" + x
  {
    forall id: string, x: string ensures IdKey(id) != "name:" + x {
      assert IdKey(id)[0] == 'i' && ("name:" + x)[0] == 'n';
    }
  }

  lemma {:induction false} LoadedIsSound(lower: Lower, list: seq<Peer>)
    ensures Sound(lower, Loaded(lower, list))
    ensures forall k | k in Loaded(lower, list) :: !Loaded(lower, list)[k].online
  {
    if list != [] {
      LoadedIsSound(lower, list[..|list| - 1]);
    }
  }

  /** A device ID has at most one entry, and so has a name among the peers without one. */
  lemma OneEntryEach(lower: Lower, peers: Peers, j: string, k: string)
    requires Sound(lower, peers) && j in peers && k in peers && peers[j].id == peers[k].id
    requires peers[j].id != "" || lower(peers[j].name) == lower(peers[k].name)
    ensures j == k
  {
  }

  // ---- what counts as a change ----

  /** Everything but the times of the last sightings. */
  ghost function Timeless(peers: Peers): Peers {
    map k | k in peers :: peers[k].(lastSeen := 0)
  }

  predicate Differs(p: Peer, q: Peer) { p.(lastSeen := 0) != q.(lastSeen := 0) }

  /** The answer of an observation. */
  function Changes(lower: Lower, peers: Peers, s: Sighting): bool {
    match Target(lower, peers.Keys, s)
    case None => false
    case Some(k) =>
      if k !in peers then true
      else if s.addr.port == 0 then
        peers[k].addr != AddrPort(s.addr.ip, peers[k].addr.port) || !peers[k].online
      else
        || Replaced(lower, s) * peers.Keys != {}
        || peers[k].name != s.name || peers[k].os != s.os || peers[k].addr != s.addr || !peers[k].online
  }

  /** An observation answers that something changed exactly when something besides the time of a sighting did. */
  lemma ChangesExactly(lower: Lower, peers: Peers, s: Sighting, now: int)
    ensures Changes(lower, peers, s) <==> Timeless(Observed(lower, peers, s, now)) != Timeless(peers)
  {
    match Target(lower, peers.Keys, s)
    case None =>
    case Some(k) =>
      var after := Observed(lower, peers, s, now);
      OthersStay(lower, peers, s, now);
      KeysApart();
      if s.addr.port != 0 && Replaced(lower, s) * peers.Keys != {} {
        var gone :| gone in Replaced(lower, s) * peers.Keys;
        LostEntry(peers, after, gone);
      } else if k !in peers {
        LostEntry(after, peers, k);
      } else {
        OneEntryDiffers(peers, after, k);
      }
  }

  lemma LostEntry(peers: Peers, after: Peers, k: string)
    requires k in peers && k !in after
    ensures Timeless(after) != Timeless(peers)
  {
    assert k in Timeless(peers) && k !in Timeless(after);
  }

  lemma OneEntryDiffers(peers: Peers, after: Peers, k: string)
    requires k in peers && after.Keys == peers.Keys && forall j | j in peers && j != k :: after[j] == peers[j]
    ensures Timeless(after) != Timeless(peers) <==> Differs(after[k], peers[k])
  {
    if Differs(after[k], peers[k]) {
      assert Timeless(after)[k] != Timeless(peers)[k];
    } else {
      assert Timeless(after) == Timeless(peers);
    }
  }

  ghost predicate SomeMissed(peers: Peers, now: int) { exists k :: k in peers && Missed(peers[k], now) }

  lemma TickChangesExactly(peers: Peers, now: int)
    ensures SomeMissed(peers, now) <==> Timeless(Ticked(peers, now)) != Timeless(peers)
  {
    if SomeMissed(peers, now) {
      var k :| k in peers && Missed(peers[k], now);
      assert Timeless(Ticked(peers, now))[k] != Timeless(peers)[k];
    } else {
      assert Ticked(peers, now) == peers;
    }
  }

  // ---- who is online ----

  datatype Op = Observe(s: Sighting, now: int) | Tick(now: int) | Load(list: seq<Peer>)

  /** `seen` is history: when each entry was last sighted since the last load. `clock` is the latest time used. */
  datatype State = State(peers: Peers, seen: map<string, int>, clock: int)

  function Apply(lower: Lower, st: State, op: Op): State {
    match op
    case Observe(s, now) =>
      var k := Target(lower, st.peers.Keys, s);
      State(Observed(lower, st.peers, s, now),
            if k.None? then st.seen else (st.seen - Replaced(lower, s))[k.value := now], now)
    case Tick(now) => State(Ticked(st.peers, now), st.seen, now)
    case Load(list) => State(Loaded(lower, list), map[], st.clock)
  }

  predicate InTime(st: State, op: Op) { op.Load? || op.now >= st.clock }

  ghost predicate Tracked(st: State) {
    && (forall k | k in st.seen :: k in st.peers && st.peers[k].lastSeen == st.seen[k])
    && (forall k | k in st.peers && st.peers[k].online :: k in st.seen)
    && (forall k | k in st.seen && !st.peers[k].online :: st.clock - st.seen[k] > OFFLINE_AFTER)
  }

  lemma ObserveTracked(lower: Lower, st: State, s: Sighting, now: int)
    requires Tracked(st) && now >= st.clock
    ensures Tracked(Apply(lower, st, Observe(s, now)))
  {
    var st' := Apply(lower, st, Observe(s, now));
    var k := Target(lower, st.peers.Keys, s);
    if k.Some? {
      KeysApart();
      assert k.value !in Replaced(lower, s);
      OthersStay(lower, st.peers, s, now);
    }
  }

  /** An observation touches the entry it is about and the one it replaces, and no other. */
  lemma OthersStay(lower: Lower, peers: Peers, s: Sighting, now: int)
    requires Target(lower, peers.Keys, s).Some?
    ensures var k := Target(lower, peers.Keys, s).value;
            var after := Observed(lower, peers, s, now);
            && k in after && after[k].lastSeen == now && after[k].online
            && after.Keys == (peers.Keys - Replaced(lower, s)) + {k}
            && forall j | j in after && j != k :: after[j] == peers[j]
  {
  }

  lemma StepKeepsTracked(lower: Lower, st: State, op: Op)
    requires Sound(lower, st.peers) && Tracked(st) && InTime(st, op)
    ensures Sound(lower, Apply(lower, st, op).peers) && Tracked(Apply(lower, st, op))
  {
    match op
    case Observe(s, now) =>
      ObservedKeepsSound(lower, st.peers, s, now);
      ObserveTracked(lower, st, s, now);
    case Tick(_) =>
    case Load(list) =>
      LoadedIsSound(lower, list);
  }

  /** What a call does, if the clock has not gone back. */
  function Step(lower: Lower): (State, Op) -> Option<State> {
    (st: State, op: Op) => if InTime(st, op) then Some(Apply(lower, st, op)) else None
  }

  lemma {:induction false} RunKeepsSound(lower: Lower, start: int, states: seq<State>, ops: seq<Op>, i: nat)
    requires IsRun(Step(lower), states, ops) && states[0] == State(map[], map[], start) && i <= |ops|
    ensures Sound(lower, states[i].peers) && Tracked(states[i])
  {
    if i > 0 {
      RunKeepsSound(lower, start, states, ops, i - 1);
      StepAt(Step(lower), states, ops, i - 1);
      StepKeepsTracked(lower, states[i - 1], ops[i - 1]);
    }
  }

  /** After a tick a peer is online exactly when it was sighted since the last load and not more than 90 seconds ago. */
  lemma OnlineAfterTick(lower: Lower, start: int, states: seq<State>, ops: seq<Op>, i: nat, k: string)
    requires IsRun(Step(lower), states, ops) && states[0] == State(map[], map[], start) && i < |ops| && ops[i].Tick?
    requires k in states[i + 1].peers
    ensures states[i + 1].peers[k].online <==>
            k in states[i + 1].seen && ops[i].now - states[i + 1].seen[k] <= OFFLINE_AFTER
  {
    RunKeepsSound(lower, start, states, ops, i);
    RunKeepsSound(lower, start, states, ops, i + 1);
    StepAt(Step(lower), states, ops, i);
  }

  // ---- what is saved is loaded ----

  /** A list of the entries in some order, as the file holds them. */
  ghost predicate Lists(lower: Lower, list: seq<Peer>, peers: Peers) {
    && (forall p | p in list :: KeyOf(lower, p) in peers && peers[KeyOf(lower, p)] == p)
    && (forall k | k in peers :: peers[k] in list)
  }

  ghost function Offline(peers: Peers): Peers { map k | k in peers :: peers[k].(online := false) }

  lemma {:induction false} LoadedEntries(lower: Lower, list: seq<Peer>, peers: Peers)
    requires Sound(lower, peers) && forall p | p in list :: KeyOf(lower, p) in peers && peers[KeyOf(lower, p)] == p
    ensures forall k | k in Loaded(lower, list) :: k in peers && Loaded(lower, list)[k] == peers[k].(online := false)
    ensures forall p | p in list :: KeyOf(lower, p) in Loaded(lower, list)
  {
    if list != [] {
      var n := |list| - 1;
      var p := list[n];
      assert list == list[..n] + [p] && p in list;
      LoadedEntries(lower, list[..n], peers);
      assert Kept(p) && Restored(p) == p.(online := false);
    }
  }

  /** Loading what was saved, in whatever order, gives back every peer, offline. */
  lemma SavedIsLoaded(lower: Lower, list: seq<Peer>, peers: Peers)
    requires Sound(lower, peers) && Lists(lower, list, peers)
    ensures Loaded(lower, list) == Offline(peers)
  {
    LoadedEntries(lower, list, peers);
    forall k | k in peers ensures k in Loaded(lower, list) {
      assert KeyOf(lower, peers[k]) == k;
    }
  }
}
