/** Which chat an entry belongs to, told from the list of peers alone. */
module Classification {
  import opened Wrappers
  import opened KeyOrder
  import opened Directory

  /** The chat key of a peer: of its ID, or of its lowercased name when it has none. */
  ghost predicate KeyedAs(r: Rules, p: Peer, k: Key) {
    k == if p.id != "" then "id:" + p.id else "name:" + r.lower(p.name)
  }

  /** p comes before q: online before offline, then the one seen later, then the one with the smaller key. */
  ghost predicate Ahead(r: Rules, p: Peer, q: Peer) {
    && (q.online ==> p.online)
    && (p.online == q.online ==> p.lastSeen >= q.lastSeen)
    && (p.online == q.online && p.lastSeen == q.lastSeen ==>
          forall j, k | KeyedAs(r, p, j) && KeyedAs(r, q, k) :: Less(j, k))
  }

  /** Of the listed peers in a group, p is the one to use. */
  ghost predicate Favourite(r: Rules, peers: seq<Peer>, p: Peer, group: Peer -> bool) {
    p in peers && group(p) && forall q | q in peers && group(q) && q != p :: Ahead(r, p, q)
  }

  function AtAddr(a: string): Peer -> bool { (p: Peer) => p.ip == Some(a) }

  function NamedAs(r: Rules, n: string): Peer -> bool { (p: Peer) => r.lower(p.name) == n }

  ghost predicate Any(peers: seq<Peer>, group: Peer -> bool) { exists p :: p in peers && group(p) }

  /** Some peer of the group is the one to use, and k is its chat. */
  ghost predicate Picks(r: Rules, peers: seq<Peer>, group: Peer -> bool, k: Key) {
    exists p :: Favourite(r, peers, p, group) && KeyedAs(r, p, k)
  }

  lemma BetterIsAhead(r: Rules, p: Peer, q: Peer)
    requires r.Better(p, q)
    ensures Ahead(r, p, q)
  {
  }

  lemma TableHoldsFavourites(r: Rules, peers: seq<Peer>, table: map<string, Peer>, at: Peer -> Option<string>, k: string,
                             group: Peer -> bool)
    requires Chooses(r, peers, table, at) && forall p :: group(p) <==> at(p) == Some(k)
    ensures k in table <==> Any(peers, group)
    ensures k in table ==> Favourite(r, peers, table[k], group)
  {
    if k in table {
      forall q | q in peers && group(q) && q != table[k] ensures Ahead(r, table[k], q) {
        BetterIsAhead(r, table[k], q);
      }
    }
  }

  /** The lookup tables hold, for every address and every name that a listed peer has, the peer to use. */
  lemma TablesHoldFavourites(r: Rules, peers: seq<Peer>, k: string)
    requires DistinctKeys(r, peers)
    ensures var ix := IndexOf(r, peers);
            && (k in ix.atAddr <==> Any(peers, AtAddr(k)))
            && (k in ix.atAddr ==> Favourite(r, peers, ix.atAddr[k], AtAddr(k)))
            && (k in ix.named <==> Any(peers, NamedAs(r, k)))
            && (k in ix.named ==> Favourite(r, peers, ix.named[k], NamedAs(r, k)))
  {
    IndexIsArgmax(r, peers);
    TableHoldsFavourites(r, peers, IndexOf(r, peers).atAddr, ByAddr(), k, AtAddr(k));
    TableHoldsFavourites(r, peers, IndexOf(r, peers).named, ByName(r), k, NamedAs(r, k));
  }

  /** The chat of an entry, for peers with distinct keys: the device ID decides; else the peer to use at the entry's address,
      if the address parses and a peer is there; else the peer to use of that name, if the entry has a name and a peer has it;
      else the name, or without one the address. */
  lemma ClassifiedByPeers(r: Rules, peers: seq<Peer>, e: Entry)
    requires DistinctKeys(r, peers)
    ensures var k := Book(r, IndexOf(r, peers)).ChatOf(e);
            var a := r.canon(e.peerAddr);
            if e.peerID != "" then k == "id:" + e.peerID
            else if e.peerAddr != "" && a.Some? && Any(peers, AtAddr(a.value)) then Picks(r, peers, AtAddr(a.value), k)
            else if e.peerName == "" then k == "addr:" + (if a.Some? then a.value else e.peerAddr)
            else if Any(peers, NamedAs(r, r.lower(e.peerName))) then Picks(r, peers, NamedAs(r, r.lower(e.peerName)), k)
            else k == "name:" + r.lower(e.peerName)
  {
    var ix := IndexOf(r, peers);
    if r.canon(e.peerAddr).Some? {
      var a := r.canon(e.peerAddr).value;
      TablesHoldFavourites(r, peers, a);
      if a in ix.atAddr { assert KeyedAs(r, ix.atAddr[a], r.PeerKey(ix.atAddr[a])); }
    }
    var n := r.lower(e.peerName);
    TablesHoldFavourites(r, peers, n);
    if n in ix.named { assert KeyedAs(r, ix.named[n], r.PeerKey(ix.named[n])); }
  }

  lemma NotBothAhead(r: Rules, p: Peer, q: Peer)
    requires Ahead(r, p, q)
    ensures !Ahead(r, q, p)
  {
    var j := if p.id != "" then "id:" + p.id else "name:" + r.lower(p.name);
    var k := if q.id != "" then "id:" + q.id else "name:" + r.lower(q.name);
    assert KeyedAs(r, p, j) && KeyedAs(r, q, k);
    LessTotal(j, k);
  }

  /** There is at most one peer to use, so the chat is determined. */
  lemma FavouriteIsOne(r: Rules, peers: seq<Peer>, p: Peer, q: Peer, group: Peer -> bool)
    requires Favourite(r, peers, p, group) && Favourite(r, peers, q, group)
    ensures p == q
  {
    if Ahead(r, p, q) { NotBothAhead(r, p, q); }
  }
}
