/** The chat store as the program keeps it: chat objects in a map, updated in place. */
module ChatStore {
  import opened Wrappers
  import opened KeyOrder
  import opened Directory
  import opened Sequences
  import opened Merging
  import opened Regroup
  import opened RegroupFacts
  import opened RegroupInvariants
  import opened AliasChains
  import opened Loading
  import opened StoreRuns

  class ChatObject {
    var items: seq<Item>
    var unread: int

    constructor ()
      ensures Value() == NoChat
    {
      items, unread := [], 0;
    }

    function Value(): Chat
      reads this
    {
      Chat(items, unread)
    }

    method Push(it: Item)
      modifies this
      ensures Value() == Appended(old(Value()), it)
    {
      items := items + [it];
      if it.unread {
        unread := unread + 1;
      }
    }

    method Replace(kept: seq<Item>)
      modifies this
      ensures Value() == Chat(kept, Unread(kept))
    {
      items, unread := kept, 0;
      for i := 0 to |kept|
        invariant items == kept && unread == Unread(kept[..i])
      {
        UnreadStep(kept, i);
        if kept[i].unread {
          unread := unread + 1;
        }
      }
      assert kept[..|kept|] == kept;
    }

    /** A batch arrives; in the open chat it counts as read. */
    method Receive(batch: seq<Item>, isOpen: bool)
      requires unread == Unread(items)
      modifies this
      ensures Value() == Received(old(Value()), batch, isOpen)
    {
      UnreadMerge(items, batch);
      UnreadConcat(items, batch);
      items := MergeLists(items, batch);
      for i := 0 to |batch|
        invariant items == MergeByTime(old(items), batch) && unread == old(unread) + Unread(batch[..i])
      {
        UnreadStep(batch, i);
        if batch[i].unread {
          unread := unread + 1;
        }
      }
      assert batch[..|batch|] == batch;
      if isOpen {
        ClearUnread();
      }
    }

    /** Walks back from the newest item and stops once the count has been used up. */
    method ClearUnread()
      requires unread == Unread(items)
      modifies this
      ensures Value() == Chat(Cleared(old(items)), 0)
    {
      ghost var was := items;
      var i := |items| - 1;
      assert was[..i + 1] == was;
      while i >= 0 && unread > 0
        invariant -1 <= i < |was| && |items| == |was|
        invariant forall j | 0 <= j <= i :: items[j] == was[j]
        invariant forall j | i < j < |was| :: items[j] == Item(was[j].e, false)
        invariant unread == Unread(was[..i + 1])
        decreases i
      {
        UnreadStep(was, i);
        if items[i].unread {
          items := items[i := items[i].(unread := false)];
          unread := unread - 1;
        }
        i := i - 1;
      }
      NoneUnreadBelow(was, i + 1);
      assert items == Cleared(was);
      unread := 0;
    }
  }

  lemma UnreadStep(items: seq<Item>, i: nat)
    requires i < |items|
    ensures Unread(items[..i + 1]) == Unread(items[..i]) + if items[i].unread then 1 else 0
  {
    assert items[..i + 1] == items[..i] + [items[i]];
    UnreadConcat(items[..i], [items[i]]);
  }

  lemma NoneUnreadBelow(items: seq<Item>, n: nat)
    requires n <= |items| && Unread(items[..n]) == 0
    ensures forall j | 0 <= j < n :: !items[j].unread
  {
    UnreadNone(items[..n]);
    forall j | 0 <= j < n ensures !items[j].unread {
      assert items[..n][j] in items[..n];
    }
  }

  datatype Batch = Batch(to: Key, items: seq<Item>)

  /** A chat that some entries leave: what it keeps, and what goes where. */
  datatype Source = Source(chat: ChatObject, kept: seq<Item>, batches: seq<Batch>, lastTo: Key)

  type Memo = map<(string, string), Key>

  ghost function Batches(b: Book, items: seq<Item>, ts: seq<Key>): (bs: seq<Batch>)
    ensures |bs| == |ts|
  {
    seq(|ts|, i requires 0 <= i < |ts| => Batch(ts[i], Part(b, items, ts[i])))
  }

  /** What is remembered about a name and an address is what an entry without an ID is classified as. */
  ghost predicate MemoRight(b: Book, memo: Memo) {
    forall e: Entry | e.peerID == "" && (e.peerName, e.peerAddr) in memo :: memo[(e.peerName, e.peerAddr)] == b.ChatOf(e)
  }

  /** What the scan of chat k has found in `items`. */
  ghost predicate ScanFound(b: Book, items: seq<Item>, k: Key, moved: bool, kept: seq<Item>, batches: seq<Batch>, lastTo: Key) {
    && (moved <==> Targets(b, items, k) != [])
    && (if moved then kept == Part(b, items, k) else Part(b, items, k) == items)
    && batches == Batches(b, items, Targets(b, items, k))
    && lastTo == LastTo(b, items, k)
  }

  ghost predicate Indexes(idx: map<Key, nat>, batches: seq<Batch>) {
    && (forall t | t in idx :: idx[t] < |batches| && batches[idx[t]].to == t)
    && (forall j | 0 <= j < |batches| :: batches[j].to in idx && idx[batches[j].to] == j)
  }

  lemma IndexJoined(idx: map<Key, nat>, batches: seq<Batch>, j: nat, batch: Batch)
    requires Indexes(idx, batches) && j < |batches| && batch.to == batches[j].to
    ensures Indexes(idx, batches[j := batch])
  {
  }

  lemma IndexStarted(idx: map<Key, nat>, batches: seq<Batch>, batch: Batch)
    requires Indexes(idx, batches) && batch.to !in idx
    ensures Indexes(idx[batch.to := |batches|], batches + [batch])
    ensures forall j | 0 <= j < |batches| :: batches[j].to != batch.to
  {
  }

  lemma PartStep(b: Book, items: seq<Item>, i: nat, t: Key)
    requires i < |items|
    ensures Part(b, items[..i + 1], t) == Part(b, items[..i], t) + if b.ChatOf(items[i].e) == t then [items[i]] else []
    ensures items[..i + 1] == items[..i] + [items[i]]
  {
    assert items[..i + 1] == items[..i] + [items[i]];
    FilterConcat(items[..i], [items[i]], To(b, t));
  }

  lemma ScanNext(b: Book, items: seq<Item>, i: nat, k: Key)
    requires i < |items|
    ensures var ts, t := Targets(b, items[..i], k), b.ChatOf(items[i].e);
            && Targets(b, items[..i + 1], k) == (if t == k || t in ts then ts else ts + [t])
            && LastTo(b, items[..i + 1], k) == (if t != k then t else LastTo(b, items[..i], k))
            && k !in ts && forall x, y | 0 <= x < y < |ts| :: ts[x] != ts[y]
  {
    assert items[..i + 1][..i] == items[..i];
    TargetsMeaning(b, items[..i], k);
  }

  lemma Stays(b: Book, items: seq<Item>, i: nat, k: Key, moved: bool, kept: seq<Item>, bs: seq<Batch>, lastTo: Key)
    requires i < |items| && ScanFound(b, items[..i], k, moved, kept, bs, lastTo)
    requires b.ChatOf(items[i].e) == k
    ensures ScanFound(b, items[..i + 1], k, moved, if moved then kept + [items[i]] else kept, bs, lastTo)
  {
    ScanNext(b, items, i, k);
    PartStep(b, items, i, k);
    SameBatches(b, items, i, Targets(b, items[..i], k));
  }

  /** An entry that belongs to none of the targets changes no batch. */
  lemma SameBatches(b: Book, items: seq<Item>, i: nat, ts: seq<Key>)
    requires i < |items| && b.ChatOf(items[i].e) !in ts
    ensures Batches(b, items[..i + 1], ts) == Batches(b, items[..i], ts)
  {
    forall j | 0 <= j < |ts| ensures Part(b, items[..i + 1], ts[j]) == Part(b, items[..i], ts[j]) {
      PartStep(b, items, i, ts[j]);
    }
  }

  lemma Joins(b: Book, items: seq<Item>, i: nat, k: Key, moved: bool, kept: seq<Item>, bs: seq<Batch>, lastTo: Key, j: nat)
    requires i < |items| && ScanFound(b, items[..i], k, moved, kept, bs, lastTo)
    requires b.ChatOf(items[i].e) != k && j < |bs| && bs[j].to == b.ChatOf(items[i].e)
    ensures moved
    ensures ScanFound(b, items[..i + 1], k, true, kept, bs[j := Batch(bs[j].to, bs[j].items + [items[i]])], bs[j].to)
  {
    var ts := Targets(b, items[..i], k);
    ScanNext(b, items, i, k);
    PartStep(b, items, i, k);
    assert Batches(b, items[..i], ts)[j].to == ts[j] && ts[j] in ts;
    GrownBatch(b, items, i, ts, j);
  }

  /** An entry that belongs to one target goes to the end of its batch. */
  lemma GrownBatch(b: Book, items: seq<Item>, i: nat, ts: seq<Key>, j: nat)
    requires i < |items| && j < |ts| && ts[j] == b.ChatOf(items[i].e)
    requires forall x, y | 0 <= x < y < |ts| :: ts[x] != ts[y]
    ensures var bs := Batches(b, items[..i], ts);
            Batches(b, items[..i + 1], ts) == bs[j := Batch(ts[j], bs[j].items + [items[i]])]
  {
    var bs := Batches(b, items[..i], ts);
    var bs', now := bs[j := Batch(ts[j], bs[j].items + [items[i]])], Batches(b, items[..i + 1], ts);
    forall x | 0 <= x < |ts| ensures now[x] == bs'[x] {
      PartStep(b, items, i, ts[x]);
    }
  }

  lemma Starts(b: Book, items: seq<Item>, i: nat, k: Key, moved: bool, kept: seq<Item>, bs: seq<Batch>, lastTo: Key)
    requires i < |items| && ScanFound(b, items[..i], k, moved, kept, bs, lastTo)
    requires b.ChatOf(items[i].e) != k && forall j | 0 <= j < |bs| :: bs[j].to != b.ChatOf(items[i].e)
    ensures var t := b.ChatOf(items[i].e);
            ScanFound(b, items[..i + 1], k, true, if moved then kept else items[..i], bs + [Batch(t, [items[i]])], t)
  {
    var ts, t := Targets(b, items[..i], k), b.ChatOf(items[i].e);
    assert forall j | 0 <= j < |ts| :: ts[j] == Batches(b, items[..i], ts)[j].to == bs[j].to;
    assert t !in ts;
    assert items[..i + 1][..i] == items[..i];
    TargetsMeaning(b, items[..i], k);
    PartStep(b, items, i, k);
    FirstOfPart(b, items, i);
    MoreBatches(b, items, i, ts, bs);
  }

  /** No entry before the one at i belongs to its chat. */
  lemma FirstOfPart(b: Book, items: seq<Item>, i: nat)
    requires i < |items| && forall it | it in items[..i] :: b.ChatOf(it.e) != b.ChatOf(items[i].e)
    ensures Part(b, items[..i + 1], b.ChatOf(items[i].e)) == [items[i]]
  {
    var t := b.ChatOf(items[i].e);
    FilterNone(items[..i], To(b, t));
    PartStep(b, items, i, t);
  }

  /** The batches found so far and a new one for the entry at i, which belongs to none of them. */
  lemma MoreBatches(b: Book, items: seq<Item>, i: nat, ts: seq<Key>, bs: seq<Batch>)
    requires i < |items| && b.ChatOf(items[i].e) !in ts && bs == Batches(b, items[..i], ts)
    requires Part(b, items[..i + 1], b.ChatOf(items[i].e)) == [items[i]]
    ensures var t := b.ChatOf(items[i].e);
            Batches(b, items[..i + 1], ts + [t]) == bs + [Batch(t, [items[i]])]
  {
    var t := b.ChatOf(items[i].e);
    var now, bs' := Batches(b, items[..i + 1], ts + [t]), bs + [Batch(t, [items[i]])];
    forall x | 0 <= x < |ts| ensures now[x] == bs'[x] {
      PartStep(b, items, i, ts[x]);
      assert (ts + [t])[x] == ts[x] && ts[x] in ts;
    }
    assert (ts + [t])[|ts|] == t && now[|ts|] == bs'[|ts|];
  }

  lemma DepositInSteps(s: State, to: Key, items: seq<Item>)
    ensures var s1 := State(s.chats[to := ChatAt(s, to)], s.open, s.alias - {to});
            s1.(chats := s1.chats[to := Received(s1.chats[to], items, to == s1.open)]) == Deposit(s, to, items)
    ensures Counted(s) ==> ChatAt(s, to).unread == Unread(ChatAt(s, to).items)
  {
  }

  lemma DepositNext(b: Book, items: seq<Item>, st: State, ts: seq<Key>, j: nat)
    requires Counted(st) && j < |ts|
    ensures Counted(DepositAll(b, items, st, ts[..j]))
    ensures DepositAll(b, items, st, ts[..j + 1]) == Deposit(DepositAll(b, items, st, ts[..j]), ts[j], Part(b, items, ts[j]))
  {
    DepositAllCounted(b, items, st, ts[..j]);
    assert ts[..j + 1][..j] == ts[..j];
  }

  lemma PhaseOneNext(b: Book, s: State, ks: seq<Key>, i: nat)
    requires i < |ks| && forall k | k in ks :: k in s.chats
    ensures ks[i] in ks && PhaseOne(b, s, ks[..i + 1]) == Shrink(b, s, PhaseOne(b, s, ks[..i]), ks[i])
  {
    assert ks[..i + 1][..i] == ks[..i];
  }

  lemma NoDeviceIDs(s: State, k: Key)
    requires Anchored(s) && k in s.chats && Scanned(k)
    ensures forall it | it in s.chats[k].items :: it.e.peerID == ""
  {
    BagMember(s.chats[k].items);
    forall it | it in s.chats[k].items ensures it.e.peerID == "" {
      ScannedEntriesHaveNoID(s, k, it.e);
    }
  }

  lemma MemoExtend(b: Book, memo: Memo, e: Entry)
    requires MemoRight(b, memo) && e.peerID == ""
    ensures MemoRight(b, memo[(e.peerName, e.peerAddr) := b.ChatOf(e)])
  {
  }

  class Store {
    const rules: Rules
    var chats: map<Key, ChatObject>
    var open: Key
    var alias: map<Key, Key>
    var byID: map<string, Peer>
    var byKey: map<Key, Peer>
    var bestAddr: map<string, Key>
    var bestName: map<string, Key>
    ghost var index: Index

    ghost var view: State
    ghost var objects: set<ChatObject>

    /** Distinct chats are distinct objects, and `view` is the value of the store. */
    ghost predicate Mirrored()
      reads this, objects
    {
      && (forall k | k in chats :: chats[k] in objects)
      && (forall j, k | j in chats && k in chats && j != k :: chats[j] != chats[k])
      && view.open == open && view.alias == alias && view.chats.Keys == chats.Keys
      && forall k | k in chats :: chats[k].Value() == view.chats[k]
    }

    ghost predicate TablesMatch()
      reads this
    {
      && byID == index.byID && byKey == index.byKey
      && bestAddr == KeysOf(rules, index.atAddr) && bestName == KeysOf(rules, index.named)
    }

    ghost function Dir(): Book
      reads this
    {
      Book(rules, index)
    }

    ghost predicate Valid()
      reads this, objects
    {
      Mirrored() && TablesMatch() && Sound(Dir(), view)
    }

    constructor (rules: Rules)
      ensures Valid() && Snapshot(index, view) == Empty && this.rules == rules
    {
      this.rules := rules;
      chats, open, alias := map[], "", map[];
      byID, byKey, bestAddr, bestName := map[], map[], map[], map[];
      index, view, objects := EmptyIndex, Empty.st, {};
      new;
      assert Ranked(view, map[]);
    }

    /** Rebuilds the lookup tables in one pass over the peers. */
    method IndexPeers(peers: seq<Peer>)
      requires Mirrored()
      modifies this`byID, this`byKey, this`bestAddr, this`bestName, this`index
      ensures Mirrored() && TablesMatch() && index == IndexOf(rules, peers)
    {
      byID, byKey, bestAddr, bestName := map[], map[], map[], map[];
      index := EmptyIndex;
      var addrPeer: map<string, Peer>, namePeer: map<string, Peer> := map[], map[];
      for i := 0 to |peers|
        invariant TablesMatch() && index == IndexOf(rules, peers[..i])
        invariant addrPeer == index.atAddr && namePeer == index.named
      {
        var p := peers[i];
        IndexNext(rules, peers, i);
        if p.id != "" {
          byID := byID[p.id := p];
        } else {
          byKey := byKey[rules.PeerKey(p) := p];
        }
        if p.ip.Some? {
          addrPeer, bestAddr := Note(addrPeer, bestAddr, p.ip.value, p);
        }
        namePeer, bestName := Note(namePeer, bestName, rules.lower(p.name), p);
        index := Index(byID, byKey, addrPeer, namePeer);
      }
      assert peers[..|peers|] == peers;
    }

    /** A peer is noted under an address or a name unless the one noted there is better. */
    method Note(best: map<string, Peer>, keys: map<string, Key>, k: string, p: Peer)
      returns (best': map<string, Peer>, keys': map<string, Key>)
      requires keys == KeysOf(rules, best)
      ensures best' == Prefer(rules, best, k, p) && keys' == KeysOf(rules, best')
    {
      KeysOfPrefer(rules, best, k, p);
      if k !in best || rules.Better(p, best[k]) {
        return best[k := p], keys[k := rules.PeerKey(p)];
      }
      return best, keys;
    }

    function Classify(e: Entry): (k: Key)
      requires TablesMatch()
      reads this
      ensures k == Dir().ChatOf(e)
    {
      if e.peerID != "" then IdKey(e.peerID)
      else if e.peerAddr != "" && rules.canon(e.peerAddr).Some? && rules.canon(e.peerAddr).value in bestAddr then
        bestAddr[rules.canon(e.peerAddr).value]
      else if e.peerName != "" then
        if rules.lower(e.peerName) in bestName then bestName[rules.lower(e.peerName)] else rules.NameKey(e.peerName)
      else AddrKey(rules.NormAddr(e.peerAddr))
    }

    method ResolveKey(key: Key) returns (k: Key)
      requires Mirrored()
      ensures k == Resolve(view, key)
    {
      k := key;
      for i := 0 to |alias| + 1
        invariant Follow(view, k, |alias| + 1 - i) == Resolve(view, key)
      {
        if k in chats {
          return;
        }
        if k !in alias {
          return;
        }
        k := alias[k];
      }
    }

    method ChatFor(k: Key) returns (c: ChatObject)
      requires Mirrored()
      modifies this`chats, this`view, this`objects
      ensures Mirrored() && k in chats && c == chats[k]
      ensures objects == old(objects) + {c} && (c in old(objects) || fresh(c))
      ensures view == old(view).(chats := old(view).chats[k := ChatAt(old(view), k)])
    {
      if k !in chats {
        c := new ChatObject();
        chats, objects := chats[k := c], objects + {c};
      } else {
        c := chats[k];
      }
      view := view.(chats := view.chats[k := ChatAt(view, k)]);
    }

    method Append(k: Key, it: Item)
      requires Mirrored()
      modifies this`chats, this`view, this`objects, objects
      ensures Mirrored() && fresh(objects - old(objects))
      ensures view == old(view).(chats := old(view).chats[k := Appended(ChatAt(old(view), k), it)])
    {
      var c := ChatFor(k);
      PushAt(k, it);
    }

    method PushAt(k: Key, it: Item)
      requires Mirrored() && k in chats
      modifies this`view, chats[k]
      ensures Mirrored() && view == old(view).(chats := old(view).chats[k := Appended(old(view).chats[k], it)])
    {
      var c := chats[k];
      c.Push(it);
      view := view.(chats := view.chats[k := c.Value()]);
    }

    /** Files items one by one. */
    method PutItems(items: seq<Item>)
      requires Mirrored() && TablesMatch()
      modifies this`chats, this`view, this`objects, objects
      ensures Mirrored() && TablesMatch() && fresh(objects - old(objects))
      ensures view == PutAll(Dir(), old(view), items)
    {
      for i := 0 to |items|
        invariant Mirrored() && TablesMatch() && fresh(objects - old(objects))
        invariant view == PutAll(Dir(), old(view), items[..i])
      {
        assert items[..i + 1][..i] == items[..i];
        Append(Classify(items[i].e), items[i]);
      }
      assert items[..|items|] == items;
    }

    /** Starts over with the loaded entries, and files what was there behind them, in whatever order the map yields it. */
    method Load(entries: seq<Entry>) returns (ghost order: seq<Key>)
      requires Valid()
      modifies this`chats, this`view, this`objects
      ensures Mirrored() && TablesMatch() && fresh(objects)
      ensures Visits(order, old(view)) && view == Loaded(Dir(), old(view), entries, order)
      ensures AtHome(Dir(), old(view)) ==> Valid()
    {
      ghost var s := view;
      var was := StartOver();
      order := Reload(s, was, entries);
      LoadedSound(Dir(), s, entries, order);
    }

    method StartOver() returns (was: map<Key, ChatObject>)
      requires Mirrored()
      modifies this`chats, this`view, this`objects
      ensures Mirrored() && objects == {} && view == old(view).(chats := map[])
      ensures was.Keys == old(view).chats.Keys && forall k | k in was :: was[k].Value() == old(view).chats[k]
    {
      was := chats;
      chats, objects, view := map[], {}, view.(chats := map[]);
    }

    method Reload(ghost s: State, was: map<Key, ChatObject>, entries: seq<Entry>) returns (ghost order: seq<Key>)
      requires Mirrored() && TablesMatch() && objects == {} && view == s.(chats := map[])
      requires was.Keys == s.chats.Keys && forall k | k in was :: was[k].Value() == s.chats[k]
      modifies this`chats, this`view, this`objects
      ensures Mirrored() && TablesMatch() && fresh(objects)
      ensures Visits(order, s) && view == Loaded(Dir(), s, entries, order)
    {
      PutItems(AsRead(entries));
      order := Refile(s, was);
    }

    method Refile(ghost s: State, was: map<Key, ChatObject>) returns (ghost order: seq<Key>)
      requires Mirrored() && TablesMatch() && was.Keys == s.chats.Keys
      requires forall k | k in was :: was[k] !in objects && was[k].Value() == s.chats[k]
      modifies this`chats, this`view, this`objects, objects
      ensures Mirrored() && TablesMatch() && fresh(objects - old(objects))
      ensures Visits(order, s) && view == Refiled(Dir(), s, old(view), order)
    {
      order := [];
      var rest := was.Keys;
      while rest != {}
        invariant Mirrored() && TablesMatch() && fresh(objects - old(objects))
        invariant rest <= was.Keys && Visited(order, was.Keys - rest)
        invariant forall k | k in was :: was[k] !in objects && was[k].Value() == s.chats[k]
        invariant view == Refiled(Dir(), s, old(view), order)
        decreases |rest|
      {
        var k :| k in rest;
        VisitOne(order, was.Keys, rest, k);
        order := order + [k];
        rest := rest - {k};
        PutItems(was[k].items);
      }
    }

    method Add(e: Entry) returns (k: Key)
      requires Valid()
      modifies this`chats, this`view, this`objects, objects
      ensures Valid() && fresh(objects - old(objects))
      ensures k == Dir().ChatOf(e)
      ensures view == Added(Dir(), old(view), e)
    {
      PutKeepsInv(Dir(), view, Item(e, e.incoming && Dir().ChatOf(e) != view.open));
      k := Classify(e);
      Append(k, Item(e, e.incoming && k != open));
    }

    method Open(key: Key)
      requires Valid()
      modifies this`open, this`view, objects
      ensures Valid()
      ensures view == Opened(old(view), key)
    {
      OpenedSound(Dir(), view, key);
      var k := ResolveKey(key);
      SetOpen(k);
    }

    method SetOpen(k: Key)
      requires Mirrored() && Counted(view)
      modifies this`open, this`view, objects
      ensures Mirrored() && view == OpenedAt(old(view), k)
    {
      if k in chats {
        ClearChat(k);
      }
      open, view := k, view.(open := k);
    }

    // ---- SetPeers ----

    method Recall(e: Entry, memo: Memo) returns (to: Key, memo': Memo)
      requires TablesMatch() && MemoRight(Dir(), memo) && e.peerID == ""
      ensures to == Dir().ChatOf(e) && MemoRight(Dir(), memo')
    {
      var p := (e.peerName, e.peerAddr);
      memo' := memo;
      if p in memo {
        to := memo[p];
      } else {
        to := Classify(e);
        MemoExtend(Dir(), memo, e);
        memo' := memo[p := to];
      }
    }

    /** Sorts the items of one chat that is scanned into those it keeps and a batch for each chat they move to. The memo
        spares classifying the same name and address twice; that is right because no entry here has a device ID. */
    method Scan(k: Key, items: seq<Item>, memo: Memo)
      returns (moved: bool, kept: seq<Item>, batches: seq<Batch>, lastTo: Key, memo': Memo)
      requires TablesMatch() && MemoRight(Dir(), memo)
      requires forall it | it in items :: it.e.peerID == ""
      ensures MemoRight(Dir(), memo')
      ensures ScanFound(Dir(), items, k, moved, kept, batches, lastTo)
    {
      moved, kept, batches, lastTo, memo' := false, [], [], k, memo;
      var idx: map<Key, nat> := map[];
      for i := 0 to |items|
        invariant MemoRight(Dir(), memo')
        invariant ScanFound(Dir(), items[..i], k, moved, kept, batches, lastTo)
        invariant Indexes(idx, batches)
      {
        var it := items[i];
        assert it in items;
        var to;
        to, memo' := Recall(it.e, memo');
        if to == k {
          Stays(Dir(), items, i, k, moved, kept, batches, lastTo);
          if moved {
            kept := kept + [it];
          }
        } else {
          kept, batches, idx := Place(items, i, k, to, moved, kept, batches, lastTo, idx);
          moved, lastTo := true, to;
        }
      }
      assert items[..|items|] == items;
    }

    /** The item at i moves to the chat `to`. */
    method Place(items: seq<Item>, i: nat, k: Key, to: Key, moved: bool, kept: seq<Item>, batches: seq<Batch>,
                 ghost lastTo: Key, idx: map<Key, nat>)
      returns (kept': seq<Item>, batches': seq<Batch>, idx': map<Key, nat>)
      requires i < |items| && to == Dir().ChatOf(items[i].e) && to != k
      requires ScanFound(Dir(), items[..i], k, moved, kept, batches, lastTo) && Indexes(idx, batches)
      ensures ScanFound(Dir(), items[..i + 1], k, true, kept', batches', to) && Indexes(idx', batches')
    {
      kept' := if moved then kept else items[..i];
      if to in idx {
        var j := idx[to];
        Joins(Dir(), items, i, k, moved, kept, batches, lastTo, j);
        IndexJoined(idx, batches, j, Batch(to, batches[j].items + [items[i]]));
        batches', idx' := batches[j := Batch(to, batches[j].items + [items[i]])], idx;
      } else {
        IndexStarted(idx, batches, Batch(to, [items[i]]));
        Starts(Dir(), items, i, k, moved, kept, batches, lastTo);
        batches', idx' := batches + [Batch(to, [items[i]])], idx[to := |batches|];
      }
    }

    /** What the scan of the chat k found, if entries leave it. */
    ghost predicate IsSourceOf(s: State, k: Key, src: Source)
      reads this
      requires k in s.chats
    {
      && src.kept == Part(Dir(), s.chats[k].items, k)
      && src.batches == Batches(Dir(), s.chats[k].items, Targets(Dir(), s.chats[k].items, k))
      && src.lastTo == LastTo(Dir(), s.chats[k].items, k)
    }

    /** Scans the chats in whatever order the map yields them. */
    method Collect() returns (sources: map<Key, Source>)
      requires Mirrored() && TablesMatch() && Anchored(view)
      ensures sources.Keys == Sources(Dir(), view)
      ensures forall k | k in sources :: sources[k].chat == chats[k] && IsSourceOf(view, k, sources[k])
    {
      sources := map[];
      var memo: Memo := map[];
      var rest := chats.Keys;
      while rest != {}
        invariant rest <= chats.Keys && MemoRight(Dir(), memo)
        invariant sources.Keys == set k | k in chats.Keys - rest && IsSource(Dir(), view, k)
        invariant forall k | k in sources :: sources[k].chat == chats[k] && IsSourceOf(view, k, sources[k])
        decreases rest
      {
        var k :| k in rest;
        rest := rest - {k};
        if Scanned(k) {
          var c := chats[k];
          assert c.Value() == view.chats[k];
          NoDeviceIDs(view, k);
          var moved, kept, batches, lastTo;
          moved, kept, batches, lastTo, memo := Scan(k, c.items, memo);
          if moved {
            sources := sources[k := Source(c, kept, batches, lastTo)];
          }
        }
      }
    }

    method ShrinkSource(ghost s: State, k: Key, src: Source)
      requires Mirrored() && k in chats && chats[k] == src.chat
      requires k in s.chats && IsSourceOf(s, k, src)
      modifies this`chats, this`alias, this`open, this`view, src.chat
      ensures Mirrored() && view == Shrink(Dir(), s, old(view), k)
      ensures forall j | j in old(chats) && j != k :: j in chats && chats[j] == old(chats)[j]
    {
      if |src.kept| == 0 {
        Remove(k, src.lastTo);
      } else {
        ReplaceAt(k, src.kept);
      }
    }

    method Remove(k: Key, to: Key)
      requires Mirrored()
      modifies this`chats, this`alias, this`open, this`view
      ensures Mirrored() && chats == old(chats) - {k}
      ensures view == State(old(view).chats - {k}, if old(view).open == k then to else old(view).open, old(view).alias[k := to])
    {
      chats := chats - {k};
      alias := alias[k := to];
      if open == k {
        open := to;
      }
      view := State(view.chats - {k}, open, alias);
    }

    method ReplaceAt(k: Key, kept: seq<Item>)
      requires Mirrored() && k in chats
      modifies this`view, chats[k]
      ensures Mirrored() && view == old(view).(chats := old(view).chats[k := Chat(kept, Unread(kept))])
    {
      var c := chats[k];
      c.Replace(kept);
      view := view.(chats := view.chats[k := c.Value()]);
    }

    /** Merges a batch into its target. A target that was emptied is a chat again, so its alias goes. */
    method DepositBatch(b: Batch)
      requires Mirrored() && Counted(view)
      modifies this`chats, this`alias, this`view, this`objects, objects
      ensures Mirrored() && fresh(objects - old(objects)) && objects >= old(objects)
      ensures view == Deposit(old(view), b.to, b.items)
    {
      DepositInSteps(view, b.to, b.items);
      alias, view := alias - {b.to}, view.(alias := alias - {b.to});
      var c := ChatFor(b.to);
      ReceiveAt(b.to, b.items);
    }

    method ReceiveAt(k: Key, batch: seq<Item>)
      requires Mirrored() && k in chats && view.chats[k].unread == Unread(view.chats[k].items)
      modifies this`view, chats[k]
      ensures Mirrored()
      ensures view == old(view).(chats := old(view).chats[k := Received(old(view).chats[k], batch, k == old(view).open)])
    {
      var c := chats[k];
      c.Receive(batch, k == open);
      view := view.(chats := view.chats[k := c.Value()]);
    }

    method ShrinkSources(ghost s: State, ks: seq<Key>, sources: map<Key, Source>)
      requires Mirrored() && view == s && DistinctSources(Dir(), s, ks)
      requires forall k | k in ks :: k in sources && sources[k].chat == chats[k] && IsSourceOf(s, k, sources[k])
      modifies this`chats, this`alias, this`open, this`view, objects
      ensures Mirrored() && view == PhaseOne(Dir(), s, ks)
    {
      assert forall k | k in ks :: k in s.chats;
      for i := 0 to |ks|
        invariant Mirrored()
        invariant view == PhaseOne(Dir(), s, ks[..i])
        invariant forall j | i <= j < |ks| :: ks[j] in chats && chats[ks[j]] == sources[ks[j]].chat
      {
        PhaseOneNext(Dir(), s, ks, i);
        ShrinkSource(s, ks[i], sources[ks[i]]);
      }
      assert ks[..|ks|] == ks;
    }

    method DepositBatches(ghost items: seq<Item>, ghost ts: seq<Key>, batches: seq<Batch>)
      requires Mirrored() && Counted(view) && batches == Batches(Dir(), items, ts)
      modifies this`chats, this`alias, this`view, this`objects, objects
      ensures Mirrored() && fresh(objects - old(objects)) && objects >= old(objects)
      ensures view == DepositAll(Dir(), items, old(view), ts)
    {
      ghost var st := view;
      for j := 0 to |batches|
        invariant Mirrored() && fresh(objects - old(objects)) && objects >= old(objects)
        invariant view == DepositAll(Dir(), items, st, ts[..j])
      {
        DepositNext(Dir(), items, st, ts, j);
        assert batches[j] == Batch(ts[j], Part(Dir(), items, ts[j]));
        DepositBatch(batches[j]);
      }
      assert ts[..|ts|] == ts;
    }

    method MergeSources(ghost s: State, ks: seq<Key>, sources: map<Key, Source>)
      requires Mirrored() && Counted(view)
      requires forall k | k in ks :: k in sources && k in s.chats && IsSourceOf(s, k, sources[k])
      modifies this`chats, this`alias, this`view, this`objects, objects
      ensures Mirrored() && fresh(objects - old(objects)) && view == PhaseTwo(Dir(), s, old(view), ks)
    {
      ghost var st := view;
      for i := 0 to |ks|
        invariant Mirrored() && fresh(objects - old(objects)) && objects >= old(objects)
        invariant view == PhaseTwo(Dir(), s, st, ks[..i])
      {
        assert ks[i] in ks && ks[..i + 1][..i] == ks[..i];
        PhaseTwoCounted(Dir(), s, st, ks[..i]);
        ghost var items := s.chats[ks[i]].items;
        DepositBatches(items, Targets(Dir(), items, ks[i]), sources[ks[i]].batches);
      }
      assert ks[..|ks|] == ks;
    }

    method Move(ghost s: State, ks: seq<Key>, sources: map<Key, Source>)
      requires Mirrored() && view == s && Counted(s) && DistinctSources(Dir(), s, ks)
      requires forall k | k in ks :: k in sources && sources[k].chat == chats[k] && IsSourceOf(s, k, sources[k])
      modifies this`chats, this`alias, this`open, this`view, this`objects, objects
      ensures Mirrored() && fresh(objects - old(objects))
      ensures forall k | k in ks :: k in s.chats
      ensures view == PhaseTwo(Dir(), s, PhaseOne(Dir(), s, ks), ks)
    {
      ShrinkSources(s, ks, sources);
      PhaseOneCounted(Dir(), s, ks);
      MergeSources(s, ks, sources);
    }

    method Regroup()
      requires Mirrored() && TablesMatch() && Anchored(view) && Counted(view)
      modifies this`chats, this`alias, this`open, this`view, this`objects, objects
      ensures Mirrored() && fresh(objects - old(objects)) && view == Regrouped(Dir(), old(view))
    {
      var sources := Collect();
      MoveInOrder(sources);
      Settle();
    }

    method MoveInOrder(sources: map<Key, Source>)
      requires Mirrored() && Counted(view) && sources.Keys == Sources(Dir(), view)
      requires forall k | k in sources :: sources[k].chat == chats[k] && IsSourceOf(view, k, sources[k])
      modifies this`chats, this`alias, this`open, this`view, this`objects, objects
      ensures Mirrored() && fresh(objects - old(objects)) && view == Merged(Dir(), old(view))
    {
      var ks := Sort(sources.Keys);
      SourcesDistinct(Dir(), view);
      Move(view, ks, sources);
    }

    method Settle()
      requires Mirrored()
      modifies this`open, this`view
      ensures Mirrored() && view == old(view).(open := Resolve(old(view), old(view).open))
    {
      var to := ResolveKey(open);
      open, view := to, view.(open := to);
    }

    /** Replaces the peer list and regroups the chats. The result does not depend on the order in which the map of chats
        was scanned. */
    method SetPeers(peers: seq<Peer>)
      requires Valid()
      modifies this, objects
      ensures Valid() && fresh(objects - old(objects))
      ensures index == IndexOf(rules, peers) && view == Regrouped(Dir(), old(view))
    {
      RegroupedSound(rules, index, view, peers);
      IndexPeers(peers);
      Regroup();
    }

    method ClearChat(k: Key)
      requires Mirrored() && k in chats && view.chats[k].unread == Unread(view.chats[k].items)
      modifies this`view, chats[k]
      ensures Mirrored()
      ensures view == old(view).(chats := old(view).chats[k := Chat(Cleared(old(view).chats[k].items), 0)])
    {
      var c := chats[k];
      c.ClearUnread();
      view := view.(chats := view.chats[k := c.Value()]);
    }
  }

  lemma LoadedSound(b: Book, s: State, entries: seq<Entry>, order: seq<Key>)
    requires Visits(order, s) && Sound(b, s)
    ensures AtHome(b, s) ==> Sound(b, Loaded(b, s, entries, order))
  {
    if AtHome(b, s) {
      LoadKeepsInv(b, s, entries, order);
    }
  }

  ghost predicate Visited(order: seq<Key>, keys: set<Key>) {
    (forall k :: k in order <==> k in keys) && forall i, j | 0 <= i < j < |order| :: order[i] != order[j]
  }

  lemma VisitOne(order: seq<Key>, keys: set<Key>, rest: set<Key>, k: Key)
    requires Visited(order, keys - rest) && k in rest && rest <= keys
    ensures Visited(order + [k], keys - (rest - {k}))
    ensures (order + [k])[..|order|] == order
  {
  }

  lemma RegroupedSound(r: Rules, ix: Index, s: State, peers: seq<Peer>)
    requires Sound(Book(r, ix), s)
    ensures var b := Book(r, IndexOf(r, peers)); Sound(b, Regrouped(b, s))
  {
    SetPeersKeepsInv(Book(r, IndexOf(r, peers)), s);
  }

  lemma OpenedSound(b: Book, s: State, key: Key)
    requires Sound(b, s)
    ensures Sound(b, OpenedAt(s, Resolve(s, key)))
  {
    OpenKeepsInv(b, s, key);
  }

  lemma IndexNext(r: Rules, peers: seq<Peer>, i: nat)
    requires i < |peers|
    ensures IndexOf(r, peers[..i + 1]) == Insert(r, IndexOf(r, peers[..i]), peers[i])
  {
    assert peers[..i + 1][..i] == peers[..i];
  }

  lemma KeysOfPrefer(r: Rules, best: map<string, Peer>, k: string, p: Peer)
    ensures KeysOf(r, Prefer(r, best, k, p)) ==
            if k !in best || r.Better(p, best[k]) then KeysOf(r, best)[k := r.PeerKey(p)] else KeysOf(r, best)
  {
  }

  function KeysOf(r: Rules, best: map<string, Peer>): map<string, Key> {
    map a | a in best :: r.PeerKey(best[a])
  }
}
