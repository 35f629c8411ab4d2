/** The registry as it runs. */
module RegistryClass {
  import opened Wrappers
  import opened DeviceId
  import opened Registry
  import opened RegistryRuns

  /** What reading the peers file gives. */
  datatype PeersFile = Missing | Unreadable | Garbled | Listing(list: seq<Peer>)

  datatype Outcome = Done | Corrupt | ReadError

  /** The entries outside `todo` are aged, and the others are as they were. */
  ghost predicate AgedBut(peers: Peers, was: Peers, todo: set<string>, now: int) {
    peers.Keys == was.Keys && forall k | k in peers :: peers[k] == if k in todo then was[k] else Aged(was[k], now)
  }

  ghost predicate MissedBut(was: Peers, todo: set<string>, now: int) {
    exists k :: k in was && k !in todo && Missed(was[k], now)
  }

  lemma AgeOne(peers: Peers, was: Peers, todo: set<string>, now: int, k: string)
    requires AgedBut(peers, was, todo, now) && k in todo && k in peers
    ensures peers[k] == was[k] && AgedBut(peers[k := Aged(was[k], now)], was, todo - {k}, now)
    ensures !Missed(was[k], now) ==> AgedBut(peers, was, todo - {k}, now)
  {
  }

  lemma MissOne(was: Peers, todo: set<string>, now: int, k: string)
    requires k in todo && k in was
    ensures MissedBut(was, todo - {k}, now) <==> MissedBut(was, todo, now) || Missed(was[k], now)
  {
  }

  lemma AllAged(peers: Peers, was: Peers, now: int)
    requires AgedBut(peers, was, {}, now)
    ensures peers == Ticked(was, now)
    ensures MissedBut(was, {}, now) <==> Timeless(peers) != Timeless(was)
  {
    TickChangesExactly(was, now);
  }

  class PeerRegistry {
    const lower: Lower
    const path: string
    var peers: Peers

    constructor (lower: Lower, path: string)
      ensures this.lower == lower && this.path == path && peers == map[]
    {
      this.lower, this.path, peers := lower, path, map[];
    }

    /** Records a sighting and says whether anything besides the time of the last sighting changed. */
    method Observe(s: Sighting, now: int) returns (changed: bool)
      modifies this
      ensures peers == Observed(lower, old(peers), s, now) && Sighted(lower, old(peers), peers, s, now)
      ensures changed <==> Timeless(peers) != Timeless(old(peers))
    {
      SightingMeans(lower, peers, s, now);
      ChangesExactly(lower, peers, s, now);
      if s.addr.ip.None? { return false; }
      if s.addr.port != 0 && !ValidName(s.name) { return false; }
      var id := Cleaned(s.id);
      if s.addr.port == 0 {
        if id == "" || IdKey(id) !in peers { return false; }
        changed := Refresh(IdKey(id), s, now);
      } else {
        changed := Announce(id, s, now);
      }
    }

    method Refresh(k: string, s: Sighting, now: int) returns (changed: bool)
      requires k in peers && s.addr.port == 0 && Target(lower, peers.Keys, s) == Some(k)
      modifies this
      ensures peers == Observed(lower, old(peers), s, now) && changed == Changes(lower, old(peers), s)
    {
      var p := peers[k];
      var addr := AddrPort(s.addr.ip, p.addr.port);
      changed := p.addr != addr || !p.online;
      peers := peers[k := p.(addr := addr, lastSeen := now, online := true)];
    }

    method Announce(id: string, s: Sighting, now: int) returns (changed: bool)
      requires s.addr.port != 0 && s.addr.ip.Some? && ValidName(s.name) && id == Cleaned(s.id)
      modifies this
      ensures peers == Observed(lower, old(peers), s, now) && changed == Changes(lower, old(peers), s)
    {
      changed := false;
      var legacy := NameKey(lower, s.name);
      KeysApart();
      if id != "" && legacy in peers {
        peers := peers - {legacy};
        changed := true;
      }
      assert peers == old(peers) - Replaced(lower, s);
      if changed {
        assert legacy in Replaced(lower, s) * old(peers).Keys;
      } else {
        assert Replaced(lower, s) * old(peers).Keys == {};
      }
      var key := if id != "" then IdKey(id) else legacy;
      if key !in peers {
        peers := peers[key := Peer(id, s.name, s.os, s.addr, now, true)];
        return true;
      }
      var p := peers[key];
      if p.name != s.name || p.os != s.os || p.addr != s.addr || !p.online {
        changed := true;
      }
      peers := peers[key := p.(name := s.name, os := s.os, addr := s.addr, lastSeen := now, online := true)];
    }

    /** Marks peers offline that were last seen too long ago. */
    method Tick(now: int) returns (changed: bool)
      modifies this
      ensures peers == Ticked(old(peers), now)
      ensures changed <==> Timeless(peers) != Timeless(old(peers))
    {
      changed := false;
      var todo := peers.Keys;
      while todo != {}
        invariant todo <= peers.Keys && AgedBut(peers, old(peers), todo, now)
        invariant changed <==> MissedBut(old(peers), todo, now)
        decreases |todo|
      {
        var k :| k in todo;
        AgeOne(peers, old(peers), todo, now, k);
        MissOne(old(peers), todo, now, k);
        if Missed(peers[k], now) {
          peers := peers[k := peers[k].(online := false)];
          changed := true;
        }
        todo := todo - {k};
      }
      AllAged(peers, old(peers), now);
    }

    /** Replaces the list by what the file holds: nothing when there is no file, and nothing, with an error, when it cannot
        be parsed. When it cannot be read, or there is no path, the list stays as it is. */
    method Load(file: PeersFile) returns (outcome: Outcome)
      modifies this
      ensures outcome == (if path == "" then Done
                          else match file case Unreadable => ReadError case Garbled => Corrupt case _ => Done)
      ensures peers == if path == "" || file.Unreadable? then old(peers)
                       else if file.Listing? then Loaded(lower, file.list) else map[]
    {
      if path == "" { return Done; }
      if file.Unreadable? { return ReadError; }
      outcome := if file.Garbled? then Corrupt else Done;
      var loaded: Peers := map[];
      if file.Listing? {
        loaded := Keep(file.list);
      }
      peers := loaded;
    }

    method Keep(list: seq<Peer>) returns (loaded: Peers)
      ensures loaded == Loaded(lower, list)
    {
      loaded := map[];
      for i := 0 to |list|
        invariant loaded == Loaded(lower, list[..i])
      {
        assert list[..i + 1][..i] == list[..i];
        var p := list[i];
        if !ValidName(p.name) || p.addr.ip.None? { continue; }
        if p.id != "" && !Valid(p.id) { p := p.(id := ""); }
        p := p.(online := false);
        loaded := loaded[KeyOf(lower, p) := p];
      }
      assert list[..|list|] == list;
    }
  }
}
