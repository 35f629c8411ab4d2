/** What the peer list holds: the fields of an entry after one call, and over a whole run. */
module RegistryRuns {
  import opened Wrappers
  import opened Runs
  import opened DeviceId
  import opened Registry

  // ---- one sighting ----

  /** The name of a peer: 1 to 64 bytes, none of them a control character. */
  ghost predicate GoodName(name: string) { 0 < |name| <= 64 && forall c | c in name :: c as int >= 32 && c as int != 127 }

  /** The sighting is of the entry k: with a port it needs a good name, and names the entry by its ID, or by its name without
      one; without a port it has to be of a peer known by its ID. */
  ghost predicate IsOf(lower: Lower, peers: Peers, s: Sighting, k: string) {
    && s.addr.ip.Some?
    && if s.addr.port != 0 then GoodName(s.name) && k == (if Valid(s.id) then "id:" + s.id else "name:" + lower(s.name))
       else Valid(s.id) && k == "id:" + s.id && k in peers
  }

  /** The entry that the sighting of k replaces: one under the name alone, when an ID comes with the name. */
  ghost predicate Replaces(lower: Lower, s: Sighting, j: string) {
    s.addr.port != 0 && Valid(s.id) && j == "name:" + lower(s.name)
  }

  /** Field by field: what an entry is after a sighting of it. */
  ghost predicate Refreshed(was: Option<Peer>, p: Peer, s: Sighting, now: int) {
    && p.addr.ip == s.addr.ip && p.lastSeen == now && p.online
    && (s.addr.port != 0 ==> p.name == s.name && p.os == s.os && p.addr.port == s.addr.port)
    && (s.addr.port == 0 ==> was.Some? && p.name == was.value.name && p.os == was.value.os
                             && p.addr.port == was.value.addr.port)
    && p.id == if was.Some? then was.value.id else if Valid(s.id) then s.id else ""
  }

  function Entry(peers: Peers, k: string): Option<Peer> { if k in peers then Some(peers[k]) else None }

  /** What a sighting makes of the list. */
  ghost predicate Sighted(lower: Lower, peers: Peers, after: Peers, s: Sighting, now: int) {
    && (forall k | IsOf(lower, peers, s, k) :: k in after && Refreshed(Entry(peers, k), after[k], s, now))
    && (forall j | !IsOf(lower, peers, s, j) ::
          if Replaces(lower, s, j) && IsAccepted(s) then j !in after else Entry(after, j) == Entry(peers, j))
  }

  ghost predicate IsAccepted(s: Sighting) { s.addr.ip.Some? && (s.addr.port != 0 ==> GoodName(s.name)) }

  lemma ValidNameMeans(name: string)
    ensures ValidName(name) <==> GoodName(name)
  {
    if ValidName(name) {
      forall c | c in name ensures c as int >= 32 && c as int != 127 {
        var i :| 0 <= i < |name| && name[i] == c;
      }
    }
    if GoodName(name) {
      forall i | 0 <= i < |name| ensures name[i] as int >= 0x20 && name[i] as int != 0x7F { assert name[i] in name; }
    }
  }

  lemma ValidNotEmpty()
    ensures !Valid("")
  {
  }

  lemma TargetMeans(lower: Lower, peers: Peers, s: Sighting, k: string)
    ensures Target(lower, peers.Keys, s) == Some(k) <==> IsOf(lower, peers, s, k)
  {
    ValidNameMeans(s.name);
    ValidNotEmpty();
  }

  /** A sighting with a port stores the peer's name, system and address as announced; one without a port changes the IP only.
      Either way the peer is online and was seen now. Nothing else changes, but that an ID takes over what its name had. */
  lemma SightingMeans(lower: Lower, peers: Peers, s: Sighting, now: int)
    ensures Sighted(lower, peers, Observed(lower, peers, s, now), s, now)
  {
    var after := Observed(lower, peers, s, now);
    KeysApart();
    ValidNameMeans(s.name);
    ValidNotEmpty();
    forall k | IsOf(lower, peers, s, k) ensures k in after && Refreshed(Entry(peers, k), after[k], s, now) {
      TargetMeans(lower, peers, s, k);
    }
    forall j | !IsOf(lower, peers, s, j)
      ensures if Replaces(lower, s, j) && IsAccepted(s) then j !in after else Entry(after, j) == Entry(peers, j)
    {
      TargetMeans(lower, peers, s, j);
    }
  }

  // ---- ticks and loads ----

  /** A tick takes offline whoever was last seen more than 90 seconds ago, and changes nothing else. */
  lemma TickMeans(peers: Peers, now: int)
    ensures Ticked(peers, now).Keys == peers.Keys
    ensures forall k | k in peers ::
              Ticked(peers, now)[k] == peers[k].(online := peers[k].online && now - peers[k].lastSeen <= 90_000_000_000)
  {
  }

  /** The i-th entry of a file counts for k: it has a good name and an IP, and k is its ID, or its name without a valid one. */
  ghost predicate CountsFor(lower: Lower, list: seq<Peer>, i: nat, k: string) {
    && i < |list| && GoodName(list[i].name) && list[i].addr.ip.Some?
    && k == if Valid(list[i].id) then "id:" + list[i].id else "name:" + lower(list[i].name)
  }

  ghost predicate LastFor(lower: Lower, list: seq<Peer>, i: nat, k: string) {
    CountsFor(lower, list, i, k) && forall j | i < j < |list| :: !CountsFor(lower, list, j, k)
  }

  /** A load takes for every key the last entry that counts for it, offline and without an invalid ID. */
  lemma {:induction false} LoadMeans(lower: Lower, list: seq<Peer>, k: string)
    ensures k in Loaded(lower, list) <==> exists i: nat :: LastFor(lower, list, i, k)
    ensures forall i: nat | LastFor(lower, list, i, k) ::
              k in Loaded(lower, list)
              && Loaded(lower, list)[k] == list[i].(id := if Valid(list[i].id) then list[i].id else "", online := false)
  {
    if list != [] {
      var n := |list| - 1;
      LoadMeans(lower, list[..n], k);
      OneMoreLoaded(lower, list, k);
      if CountsFor(lower, list, n, k) {
        assert LastFor(lower, list, n, k);
      } else {
        LastForStays(lower, list, k);
        assert forall i: nat | i < n :: list[..n][i] == list[i];
        if i: nat :| LastFor(lower, list[..n], i, k) {
          assert LastFor(lower, list, i, k);
        }
      }
    }
  }

  lemma OneMoreLoaded(lower: Lower, list: seq<Peer>, k: string)
    requires list != []
    ensures var n := |list| - 1;
            Entry(Loaded(lower, list), k) ==
            if CountsFor(lower, list, n, k) then
              Some(list[n].(id := if Valid(list[n].id) then list[n].id else "", online := false))
            else Entry(Loaded(lower, list[..n]), k)
  {
    ValidNameMeans(list[|list| - 1].name);
    ValidNotEmpty();
  }

  lemma LastForStays(lower: Lower, list: seq<Peer>, k: string)
    requires list != [] && !CountsFor(lower, list, |list| - 1, k)
    ensures forall i: nat :: LastFor(lower, list, i, k) <==> LastFor(lower, list[..|list| - 1], i, k)
  {
    var n := |list| - 1;
    forall i: nat ensures CountsFor(lower, list, i, k) <==> CountsFor(lower, list[..n], i, k) {
      if i < n { assert list[..n][i] == list[i]; }
    }
  }

  // ---- over a run ----

  /** The j-th call is a sighting of k, with a port if asked for. */
  ghost predicate SeenAt(lower: Lower, states: seq<State>, ops: seq<Op>, j: nat, k: string, ported: bool) {
    && j < |ops| && j < |states| && ops[j].Observe? && IsOf(lower, states[j].peers, ops[j].s, k)
    && (ported ==> ops[j].s.addr.port != 0)
  }

  /** The j-th call is the last of these before the i-th, and nothing was loaded since. */
  ghost predicate LastSeenAt(lower: Lower, states: seq<State>, ops: seq<Op>, j: nat, i: nat, k: string, ported: bool) {
    && j < i <= |ops| && SeenAt(lower, states, ops, j, k, ported)
    && forall m | j < m < i :: !ops[m].Load? && !SeenAt(lower, states, ops, m, k, ported)
  }

  /** What stays of an entry until the next such sighting. */
  ghost predicate Shows(p: Peer, s: Sighting, now: int, ported: bool) {
    if ported then p.name == s.name && p.os == s.os && p.addr.port == s.addr.port
    else p.addr.ip == s.addr.ip && p.lastSeen == now
  }

  lemma StepShows(lower: Lower, st: State, op: Op, k: string, s: Sighting, now: int, ported: bool)
    requires !op.Load? && (k in st.peers ==> Shows(st.peers[k], s, now, ported))
    requires op.Observe? && IsOf(lower, st.peers, op.s, k) ==> ported && op.s.addr.port == 0
    ensures k in Apply(lower, st, op).peers ==> Shows(Apply(lower, st, op).peers[k], s, now, ported)
  {
    match op
    case Observe(t, at) =>
      SightingMeans(lower, st.peers, t, at);
      var after := Observed(lower, st.peers, t, at);
      if k in after && !IsOf(lower, st.peers, t, k) {
        assert Entry(after, k) == Entry(st.peers, k);
      }
    case Tick(at) => TickMeans(st.peers, at);
  }

  lemma FirstShows(lower: Lower, st: State, op: Op, k: string, ported: bool)
    requires op.Observe? && IsOf(lower, st.peers, op.s, k) && (ported ==> op.s.addr.port != 0)
    ensures k in Apply(lower, st, op).peers && Shows(Apply(lower, st, op).peers[k], op.s, op.now, ported)
  {
    SightingMeans(lower, st.peers, op.s, op.now);
  }

  /** In every run: an entry has the IP and the time of its last sighting since the last load, and the name, the system and
      the port of its last sighting with a port. */
  lemma {:induction false} EntryShowsLastSighting(lower: Lower, states: seq<State>, ops: seq<Op>, j: nat, i: nat, k: string,
                                                  ported: bool)
    requires IsRun(Step(lower), states, ops) && LastSeenAt(lower, states, ops, j, i, k, ported)
    ensures k in states[i].peers ==> Shows(states[i].peers[k], ops[j].s, ops[j].now, ported)
    decreases i
  {
    if i == j + 1 {
      StepAt(Step(lower), states, ops, j);
      FirstShows(lower, states[j], ops[j], k, ported);
    } else {
      EntryShowsLastSighting(lower, states, ops, j, i - 1, k, ported);
      CallShows(lower, states, ops, i, k, ops[j].s, ops[j].now, ported);
    }
  }

  lemma CallShows(lower: Lower, states: seq<State>, ops: seq<Op>, i: nat, k: string, s: Sighting, now: int, ported: bool)
    requires IsRun(Step(lower), states, ops) && 0 < i <= |ops| && !ops[i - 1].Load?
    requires !SeenAt(lower, states, ops, i - 1, k, ported)
    requires k in states[i - 1].peers ==> Shows(states[i - 1].peers[k], s, now, ported)
    ensures k in states[i].peers ==> Shows(states[i].peers[k], s, now, ported)
  {
    StepAt(Step(lower), states, ops, i - 1);
    StepShows(lower, states[i - 1], ops[i - 1], k, s, now, ported);
  }
}
