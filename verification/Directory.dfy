/** The peer list and the rule that assigns a history entry to a chat. */
module Directory {
  import opened Wrappers
  import opened KeyOrder

  /** One line of the history; `content` stands for the fields that no chat operation looks at. */
  datatype Entry = Entry(time: int, incoming: bool, peerID: string, peerName: string, peerAddr: string, content: string)

  /** `ip` is the canonical text of the unmapped address, or None when the peer has no valid one. */
  datatype Peer = Peer(id: string, name: string, ip: Option<string>, lastSeen: int, online: bool)

  /** What the platform supplies: lowercasing, and the canonical text of an address that parses. */
  datatype Rules = Rules(lower: string -> string, canon: string -> Option<string>)
  {
    function NameKey(name: string): Key { "name:" + lower(name) }

    function PeerKey(p: Peer): Key {
      if p.id != "" then IdKey(p.id) else NameKey(p.name)
    }

    function NormAddr(addr: string): string {
      match canon(addr)
      case Some(text) => text
      case None => addr
    }

    /** Online first, then most recently seen, then the smaller key. */
    predicate Better(a: Peer, b: Peer) {
      if a.online != b.online then a.online
      else if a.lastSeen != b.lastSeen then a.lastSeen > b.lastSeen
      else Less(PeerKey(a), PeerKey(b))
    }
  }

  function IdKey(id: string): Key { "id:" + id }

  function AddrKey(addr: string): Key { "addr:" + addr }

  /** Chats that are regrouped: those filed under a name or an address. */
  predicate Scanned(k: Key) { "name:" <= k || "addr:" <= k }

  /** The lookup tables. `atAddr` and `named` hold the preferred peer for an address and for a lowercased name. */
  datatype Index = Index(byID: map<string, Peer>, byKey: map<Key, Peer>, atAddr: map<string, Peer>, named: map<string, Peer>)

  const EmptyIndex := Index(map[], map[], map[], map[])

  function Prefer<K(==)>(r: Rules, best: map<K, Peer>, k: K, p: Peer): map<K, Peer> {
    if k !in best || r.Better(p, best[k]) then best[k := p] else best
  }

  function Insert(r: Rules, ix: Index, p: Peer): Index {
    Index(
      if p.id != "" then ix.byID[p.id := p] else ix.byID,
      if p.id == "" then ix.byKey[r.PeerKey(p) := p] else ix.byKey,
      if p.ip.Some? then Prefer(r, ix.atAddr, p.ip.value, p) else ix.atAddr,
      Prefer(r, ix.named, r.lower(p.name), p))
  }

  function IndexOf(r: Rules, peers: seq<Peer>): Index {
    if peers == [] then EmptyIndex
    else Insert(r, IndexOf(r, peers[..|peers| - 1]), peers[|peers| - 1])
  }

  /** The directory that entries are classified under. */
  datatype Book = Book(rules: Rules, index: Index)
  {
    /** The chat of an entry: its device ID, else the peer at its address, else the peer with its name, else its own
        name or address. */
    function ChatOf(e: Entry): Key {
      if e.peerID != "" then IdKey(e.peerID)
      else if e.peerAddr != "" && rules.canon(e.peerAddr).Some? && rules.canon(e.peerAddr).value in index.atAddr then
        rules.PeerKey(index.atAddr[rules.canon(e.peerAddr).value])
      else if e.peerName != "" then
        if rules.lower(e.peerName) in index.named then rules.PeerKey(index.named[rules.lower(e.peerName)])
        else rules.NameKey(e.peerName)
      else AddrKey(rules.NormAddr(e.peerAddr))
    }
  }

  lemma IdKeysNotScanned(id: string)
    ensures !Scanned(IdKey(id))
  {
    assert IdKey(id)[0] == 'i' && "name:"[0] == 'n' && "addr:"[0] == 'a';
  }

  // ---- the index is an argmax ----

  ghost predicate DistinctKeys(r: Rules, peers: seq<Peer>) {
    forall i, j | 0 <= i < j < |peers| :: r.PeerKey(peers[i]) != r.PeerKey(peers[j])
  }

  lemma BetterStrictTotal(r: Rules, a: Peer, b: Peer)
    ensures !(r.Better(a, b) && r.Better(b, a))
    ensures r.PeerKey(a) != r.PeerKey(b) ==> r.Better(a, b) || r.Better(b, a)
  {
    LessTotal(r.PeerKey(a), r.PeerKey(b));
  }

  lemma BetterTransitive(r: Rules, a: Peer, b: Peer, c: Peer)
    requires r.Better(a, b) && r.Better(b, c)
    ensures r.Better(a, c)
  {
    if a.online == b.online == c.online && a.lastSeen == b.lastSeen == c.lastSeen {
      LessTransitive(r.PeerKey(a), r.PeerKey(b), r.PeerKey(c));
    }
  }

  /** A table that holds exactly the listed peers with a property, under the key it gives them. */
  ghost predicate Lists<K(!new)>(peers: seq<Peer>, table: map<K, Peer>, at: Peer -> Option<K>) {
    && (forall p | p in peers && at(p).Some? :: at(p).value in table)
    && (forall k | k in table :: table[k] in peers && at(table[k]) == Some(k))
  }

  /** A table that holds, for every key some listed peer has, the best peer with that key. */
  ghost predicate Chooses<K(!new)>(r: Rules, peers: seq<Peer>, table: map<K, Peer>, at: Peer -> Option<K>) {
    && Lists(peers, table, at)
    && (forall p | p in peers && at(p).Some? && p != table[at(p).value] :: r.Better(table[at(p).value], p))
  }

  ghost predicate IndexMeans(r: Rules, peers: seq<Peer>, ix: Index) {
    && Lists(peers, ix.byID, ByID())
    && Lists(peers, ix.byKey, ByKey(r))
    && Chooses(r, peers, ix.atAddr, ByAddr())
    && Chooses(r, peers, ix.named, ByName(r))
  }

  function ByID(): Peer -> Option<string> { (p: Peer) => if p.id != "" then Some(p.id) else None }

  function ByKey(r: Rules): Peer -> Option<Key> { (p: Peer) => if p.id == "" then Some(r.PeerKey(p)) else None }

  function ByAddr(): Peer -> Option<string> { (p: Peer) => p.ip }

  function ByName(r: Rules): Peer -> Option<string> { (p: Peer) => Some(r.lower(p.name)) }

  lemma {:induction false} IndexIsArgmax(r: Rules, peers: seq<Peer>)
    requires DistinctKeys(r, peers)
    ensures IndexMeans(r, peers, IndexOf(r, peers))
  {
    if peers != [] {
      var n := |peers| - 1;
      var init, p := peers[..n], peers[n];
      IndexIsArgmax(r, init);
      assert peers == init + [p];
      forall q | q in init ensures r.PeerKey(q) != r.PeerKey(p) {
        var i :| 0 <= i < n && peers[i] == q;
      }
      var ix := IndexOf(r, init);
      ListsAfterInsert(init, ix.byID, ByID(), p);
      ListsAfterInsert(init, ix.byKey, ByKey(r), p);
      ChoosesAfterInsert(r, init, ix.atAddr, ByAddr(), p);
      ChoosesAfterInsert(r, init, ix.named, ByName(r), p);
    }
  }

  lemma ListsAfterInsert<K(!new)>(init: seq<Peer>, table: map<K, Peer>, at: Peer -> Option<K>, p: Peer)
    requires Lists(init, table, at)
    ensures Lists(init + [p], if at(p).Some? then table[at(p).value := p] else table, at)
  {
  }

  lemma ChoosesAfterInsert<K(!new)>(r: Rules, init: seq<Peer>, table: map<K, Peer>, at: Peer -> Option<K>, p: Peer)
    requires Chooses(r, init, table, at)
    requires forall q | q in init :: r.PeerKey(q) != r.PeerKey(p)
    ensures Chooses(r, init + [p], if at(p).Some? then Prefer(r, table, at(p).value, p) else table, at)
  {
    if at(p).Some? && at(p).value in table {
      var cur := table[at(p).value];
      BetterStrictTotal(r, p, cur);
      forall q | q in init && at(q) == at(p) && q != cur && r.Better(p, cur) ensures r.Better(p, q) {
        BetterTransitive(r, p, cur, q);
      }
    }
  }

  lemma ListsUnique<K(!new)>(r: Rules, peers: seq<Peer>, peers': seq<Peer>, t: map<K, Peer>, t': map<K, Peer>, at: Peer -> Option<K>)
    requires forall q :: q in peers <==> q in peers'
    requires Lists(peers, t, at) && Lists(peers', t', at)
    requires forall p, q | p in peers && q in peers && at(p) == at(q) && at(p).Some? :: p == q
    ensures t == t'
  {
    forall k | k in t ensures k in t' && t[k] == t'[k] {}
    forall k | k in t' ensures k in t { assert t'[k] in peers; }
  }

  lemma ChoosesUnique<K(!new)>(r: Rules, peers: seq<Peer>, peers': seq<Peer>, t: map<K, Peer>, t': map<K, Peer>, at: Peer -> Option<K>)
    requires forall q :: q in peers <==> q in peers'
    requires Chooses(r, peers, t, at) && Chooses(r, peers', t', at)
    ensures t == t'
  {
    forall k | k in t ensures k in t' && t[k] == t'[k] {
      assert t[k] in peers';
      assert t'[k] in peers;
      BetterStrictTotal(r, t[k], t'[k]);
    }
    forall k | k in t' ensures k in t { assert t'[k] in peers; }
  }

  /** The order in which peers with distinct keys are listed does not affect the index. */
  lemma IndexIgnoresOrder(r: Rules, peers: seq<Peer>, peers': seq<Peer>)
    requires DistinctKeys(r, peers) && multiset(peers) == multiset(peers')
    ensures IndexOf(r, peers) == IndexOf(r, peers')
  {
    SameMembers(peers, peers');
    PermutedKeysDistinct(r, peers, peers');
    IndexIsArgmax(r, peers);
    IndexIsArgmax(r, peers');
    SameIndex(r, peers, peers', IndexOf(r, peers), IndexOf(r, peers'));
  }

  lemma SameMembers(peers: seq<Peer>, peers': seq<Peer>)
    requires multiset(peers) == multiset(peers')
    ensures forall q :: q in peers <==> q in peers'
  {
    forall q ensures q in peers <==> q in peers' {
      assert q in peers <==> q in multiset(peers);
      assert q in peers' <==> q in multiset(peers');
    }
  }

  lemma SameIndex(r: Rules, peers: seq<Peer>, peers': seq<Peer>, ix: Index, ix': Index)
    requires DistinctKeys(r, peers) && forall q :: q in peers <==> q in peers'
    requires IndexMeans(r, peers, ix) && IndexMeans(r, peers', ix')
    ensures ix == ix'
  {
    assert ix.byID == ix'.byID by {
      OnePerKey(r, peers, ByID());
      ListsUnique(r, peers, peers', ix.byID, ix'.byID, ByID());
    }
    assert ix.byKey == ix'.byKey by {
      OnePerKey(r, peers, ByKey(r));
      ListsUnique(r, peers, peers', ix.byKey, ix'.byKey, ByKey(r));
    }
    assert ix.atAddr == ix'.atAddr by { ChoosesUnique(r, peers, peers', ix.atAddr, ix'.atAddr, ByAddr()); }
    assert ix.named == ix'.named by { ChoosesUnique(r, peers, peers', ix.named, ix'.named, ByName(r)); }
  }

  lemma OnePerKey(r: Rules, peers: seq<Peer>, at: Peer -> Option<string>)
    requires DistinctKeys(r, peers)
    requires forall p, q | at(p) == at(q) && at(p).Some? :: r.PeerKey(p) == r.PeerKey(q)
    ensures forall p, q | p in peers && q in peers && at(p) == at(q) && at(p).Some? :: p == q
  {
    forall p, q | p in peers && q in peers && at(p) == at(q) && at(p).Some? ensures p == q {
      SameKeySamePeer(r, peers, p, q);
    }
  }

  lemma SameKeySamePeer(r: Rules, peers: seq<Peer>, p: Peer, q: Peer)
    requires DistinctKeys(r, peers) && p in peers && q in peers && r.PeerKey(p) == r.PeerKey(q)
    ensures p == q
  {
    var i :| 0 <= i < |peers| && peers[i] == p;
    var j :| 0 <= j < |peers| && peers[j] == q;
  }

  lemma {:induction false} ListedOnce(r: Rules, peers: seq<Peer>, p: Peer)
    requires DistinctKeys(r, peers)
    ensures multiset(peers)[p] <= 1
  {
    if peers != [] {
      var n := |peers| - 1;
      assert peers == peers[..n] + [peers[n]];
      ListedOnce(r, peers[..n], p);
      forall q | q in peers[..n] ensures q != peers[n] {
        var i :| 0 <= i < n && peers[i] == q;
      }
    }
  }

  lemma PermutedKeysDistinct(r: Rules, peers: seq<Peer>, peers': seq<Peer>)
    requires DistinctKeys(r, peers) && multiset(peers) == multiset(peers')
    ensures DistinctKeys(r, peers')
  {
    forall i, j | 0 <= i < j < |peers'| ensures r.PeerKey(peers'[i]) != r.PeerKey(peers'[j]) {
      var p, q := peers'[i], peers'[j];
      assert p in multiset(peers') && q in multiset(peers');
      ListedOnce(r, peers, p);
      assert peers' == peers'[..i] + [p] + peers'[i + 1..j] + [q] + peers'[j + 1..];
      if r.PeerKey(p) == r.PeerKey(q) {
        SameKeySamePeer(r, peers, p, q);
        assert false;
      }
    }
  }
}
