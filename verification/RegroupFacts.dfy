/** What one call of SetPeers keeps. */
module RegroupFacts {
  import opened KeyOrder
  import opened Directory
  import opened Sequences
  import opened Merging
  import opened Regroup

  // ---- which chats and aliases exist afterwards ----

  ghost predicate DistinctSources(b: Book, s: State, ks: seq<Key>) {
    && (forall k | k in ks :: IsSource(b, s, k))
    && (forall i, j | 0 <= i < j < |ks| :: ks[i] != ks[j])
  }

  ghost function EmptiedIn(b: Book, s: State, ks: seq<Key>): set<Key> {
    set k | k in ks && Empties(b, s, k)
  }

  /** The keys that receive a batch from one of the sources ks. */
  ghost function Receivers(b: Book, s: State, ks: seq<Key>): set<Key>
    requires forall k | k in ks :: k in s.chats
  {
    set k, t | k in ks && t in Targets(b, s.chats[k].items, k) :: t
  }

  /** The chat k once the sources ks have shrunk. */
  ghost function Shrunk(b: Book, s: State, ks: seq<Key>, k: Key): Chat
    requires k in s.chats
  {
    var kept := Part(b, s.chats[k].items, k);
    if k in ks then Chat(kept, Unread(kept)) else s.chats[k]
  }

  /** The alias of k once the sources ks have shrunk. */
  ghost function Forward(b: Book, s: State, ks: seq<Key>, k: Key): Key
    requires k in s.alias || k in EmptiedIn(b, s, ks)
  {
    if k in EmptiedIn(b, s, ks) then LastTo(b, s.chats[k].items, k) else s.alias[k]
  }

  lemma SourcesDistinct(b: Book, s: State)
    ensures DistinctSources(b, s, Ascending(Sources(b, s)))
  {
    var ks := Ascending(Sources(b, s));
    forall i, j | 0 <= i < j < |ks| ensures ks[i] != ks[j] {
      AscendsDistinct(ks, i, j);
    }
  }

  lemma DistinctPrefix(b: Book, s: State, ks: seq<Key>)
    requires ks != [] && DistinctSources(b, s, ks)
    ensures var n := |ks| - 1;
            DistinctSources(b, s, ks[..n]) && ks[n] !in ks[..n] && IsSource(b, s, ks[n])
    ensures var n := |ks| - 1;
            EmptiedIn(b, s, ks) ==
            EmptiedIn(b, s, ks[..n]) + if Part(b, s.chats[ks[n]].items, ks[n]) == [] then {ks[n]} else {}
  {
    assert ks == ks[..|ks| - 1] + [ks[|ks| - 1]];
  }

  lemma {:induction false} PhaseOneShape(b: Book, s: State, ks: seq<Key>)
    requires DistinctSources(b, s, ks)
    ensures var st := PhaseOne(b, s, ks);
      && st.chats.Keys == s.chats.Keys - EmptiedIn(b, s, ks)
      && st.alias.Keys == s.alias.Keys + EmptiedIn(b, s, ks)
      && (forall k | k in st.chats :: st.chats[k] == Shrunk(b, s, ks, k))
      && (forall k | k in st.alias :: st.alias[k] == Forward(b, s, ks, k))
  {
    if ks != [] {
      var n := |ks| - 1;
      DistinctPrefix(b, s, ks);
      assert forall k :: k in ks <==> k in ks[..n] || k == ks[n];
      PhaseOneShape(b, s, ks[..n]);
    }
  }

  lemma DepositShape(st: State, to: Key, items: seq<Item>)
    ensures var st' := Deposit(st, to, items);
      && st'.chats.Keys == st.chats.Keys + {to} && st'.alias == st.alias - {to} && st'.open == st.open
      && (forall k | k in st.chats && k != to :: st'.chats[k] == st.chats[k])
  {
  }

  lemma {:induction false} DepositAllShape(b: Book, items: seq<Item>, st: State, ts: seq<Key>)
    ensures var st' := DepositAll(b, items, st, ts);
      && st'.chats.Keys == st.chats.Keys + (set t | t in ts)
      && st'.alias == st.alias - (set t | t in ts)
      && st'.open == st.open
      && (forall k | k in st.chats && k !in ts :: st'.chats[k] == st.chats[k])
  {
    if ts != [] {
      var n := |ts| - 1;
      assert ts == ts[..n] + [ts[n]];
      var mid := DepositAll(b, items, st, ts[..n]);
      DepositAllShape(b, items, st, ts[..n]);
      DepositShape(mid, ts[n], Part(b, items, ts[n]));
      assert (set t | t in ts) == (set t | t in ts[..n]) + {ts[n]};
      MinusTwice(st.alias, set t | t in ts[..n], {ts[n]});
    }
  }

  lemma {:induction false} PhaseTwoShape(b: Book, s: State, st: State, ks: seq<Key>)
    requires forall k | k in ks :: k in s.chats
    ensures var st' := PhaseTwo(b, s, st, ks);
      && st'.chats.Keys == st.chats.Keys + Receivers(b, s, ks)
      && st'.alias == st.alias - Receivers(b, s, ks)
      && st'.open == st.open
      && (forall k | k in st.chats && k !in Receivers(b, s, ks) :: st'.chats[k] == st.chats[k])
  {
    if ks != [] {
      var n := |ks| - 1;
      assert ks == ks[..n] + [ks[n]];
      PhaseTwoShape(b, s, st, ks[..n]);
      var items := s.chats[ks[n]].items;
      var ts := Targets(b, items, ks[n]);
      DepositAllShape(b, items, PhaseTwo(b, s, st, ks[..n]), ts);
      ReceiversStep(b, s, ks);
      MinusTwice(st.alias, Receivers(b, s, ks[..n]), set t | t in ts);
    }
  }

  lemma MinusTwice<K, V>(m: map<K, V>, x: set<K>, y: set<K>)
    ensures m - x - y == m - (x + y)
  {
  }

  lemma ReceiversStep(b: Book, s: State, ks: seq<Key>)
    requires forall k | k in ks :: k in s.chats
    requires ks != []
    ensures var n := |ks| - 1;
            Receivers(b, s, ks) == Receivers(b, s, ks[..n]) + set t | t in Targets(b, s.chats[ks[n]].items, ks[n])
  {
    var n := |ks| - 1;
    forall k ensures k in ks <==> k in ks[..n] || k == ks[n] {
      assert ks == ks[..n] + [ks[n]];
    }
  }

  /** A chat survives unless every entry in it moved and none moved in; an emptied chat that is not
      refilled leaves an alias to the chat its last entry moved to. */
  lemma RegroupedShape(b: Book, s: State)
    ensures var ks := Ascending(Sources(b, s));
            var s' := Regrouped(b, s);
      && (forall k | k in ks :: k in s.chats)
      && s'.chats.Keys == s.chats.Keys - EmptiedIn(b, s, ks) + Receivers(b, s, ks)
      && s'.alias.Keys == s.alias.Keys + EmptiedIn(b, s, ks) - Receivers(b, s, ks)
      && (forall k | k in s'.alias :: s'.alias[k] == Forward(b, s, ks, k))
      && (forall k | k in EmptiedIn(b, s, ks) :: LastTo(b, s.chats[k].items, k) in Receivers(b, s, ks))
  {
    var ks := Ascending(Sources(b, s));
    SourcesDistinct(b, s);
    PhaseOneShape(b, s, ks);
    PhaseTwoShape(b, s, PhaseOne(b, s, ks), ks);
    forall k | k in EmptiedIn(b, s, ks) ensures LastTo(b, s.chats[k].items, k) in Receivers(b, s, ks) {
      LastToMeaning(b, s.chats[k].items, k);
    }
  }

  // ---- conservation ----

  ghost function Bag(items: seq<Item>): multiset<Entry> { multiset(Entries(items)) }

  /** Every entry of every chat, with multiplicity. */
  ghost function Total(chats: map<Key, Chat>): multiset<Entry> {
    if chats == map[] then multiset{}
    else
      var k :| k in chats;
      Bag(chats[k].items) + Total(chats - {k})
  }

  lemma {:induction false} TotalSplit(chats: map<Key, Chat>, k: Key)
    requires k in chats
    ensures Total(chats) == Bag(chats[k].items) + Total(chats - {k})
    decreases |chats|
  {
    var j :| j in chats && Total(chats) == Bag(chats[j].items) + Total(chats - {j});
    if j != k {
      TotalSplit(chats - {j}, k);
      TotalSplit(chats - {k}, j);
      assert chats - {j} - {k} == chats - {k} - {j};
    }
  }

  lemma TotalUpdate(chats: map<Key, Chat>, k: Key, c: Chat)
    ensures Total(chats[k := c]) == Total(chats - {k}) + Bag(c.items)
  {
    TotalSplit(chats[k := c], k);
    assert chats[k := c] - {k} == chats - {k};
  }

  /** The entries that leave `items` for the chats ts. */
  ghost function MovedOut(b: Book, items: seq<Item>, ts: seq<Key>): multiset<Entry> {
    if ts == [] then multiset{}
    else MovedOut(b, items, ts[..|ts| - 1]) + Bag(Part(b, items, ts[|ts| - 1]))
  }

  lemma BagConcat(a: seq<Item>, b: seq<Item>)
    ensures Bag(a + b) == Bag(a) + Bag(b)
  {
    assert Entries(a + b) == Entries(a) + Entries(b);
  }

  lemma PartAppend(b: Book, items: seq<Item>, x: Item, t: Key)
    ensures Bag(Part(b, items + [x], t)) ==
            Bag(Part(b, items, t)) + if b.ChatOf(x.e) == t then multiset{x.e} else multiset{}
  {
    FilterConcat(items, [x], To(b, t));
    BagConcat(Part(b, items, t), Part(b, [x], t));
    PartOne(b, x, t);
  }

  lemma PartOne(b: Book, x: Item, t: Key)
    ensures Bag(Part(b, [x], t)) == if b.ChatOf(x.e) == t then multiset{x.e} else multiset{}
  {
    var p := To(b, t);
    assert [x][1..] == [] && Filter([], p) == [];
    assert Filter([x], p) == (if p(x) then [x] else []) + Filter([x][1..], p);
    assert Entries([x]) == [x.e];
    assert Entries([]) == [];
  }

  lemma {:induction false} MovedOutStep(b: Book, items: seq<Item>, x: Item, ts: seq<Key>)
    requires forall i, j | 0 <= i < j < |ts| :: ts[i] != ts[j]
    ensures MovedOut(b, items + [x], ts) ==
            MovedOut(b, items, ts) + if b.ChatOf(x.e) in ts then multiset{x.e} else multiset{}
  {
    if ts != [] {
      var n := |ts| - 1;
      assert ts == ts[..n] + [ts[n]];
      MovedOutStep(b, items, x, ts[..n]);
      PartAppend(b, items, x, ts[n]);
    }
  }

  /** Every entry of a chat is kept or goes into exactly one batch. */
  lemma {:induction false} PartsCover(b: Book, items: seq<Item>, k: Key)
    ensures Bag(items) == Bag(Part(b, items, k)) + MovedOut(b, items, Targets(b, items, k))
  {
    if items == [] {
      assert Entries(items) == [];
    } else {
      var n := |items| - 1;
      var init, x := items[..n], items[n];
      assert items == init + [x];
      PartsCover(b, init, k);
      BagConcat(init, [x]);
      assert Entries([x]) == [x.e];
      PartAppend(b, init, x, k);
      MovedOutAppend(b, init, x, k);
    }
  }

  lemma MovedOutAppend(b: Book, init: seq<Item>, x: Item, k: Key)
    ensures MovedOut(b, init + [x], Targets(b, init + [x], k)) ==
            MovedOut(b, init, Targets(b, init, k)) + if b.ChatOf(x.e) == k then multiset{} else multiset{x.e}
  {
    TargetsMeaning(b, init + [x], k);
    MovedOutStep(b, init, x, Targets(b, init + [x], k));
    TargetsGrow(b, init, x, k);
  }

  lemma TargetsGrow(b: Book, init: seq<Item>, x: Item, k: Key)
    ensures MovedOut(b, init, Targets(b, init + [x], k)) == MovedOut(b, init, Targets(b, init, k))
    ensures b.ChatOf(x.e) == k <==> b.ChatOf(x.e) !in Targets(b, init + [x], k)
  {
    assert (init + [x])[..|init|] == init;
    TargetsMeaning(b, init, k);
    TargetsMeaning(b, init + [x], k);
    var t := b.ChatOf(x.e);
    var ts := Targets(b, init, k);
    if t != k && t !in ts {
      assert (ts + [t])[..|ts|] == ts;
      FilterNone(init, To(b, t));
      assert Entries(Part(b, init, t)) == [];
    }
  }

  ghost function MovedBy(b: Book, s: State, ks: seq<Key>): multiset<Entry>
    requires forall k | k in ks :: k in s.chats
  {
    if ks == [] then multiset{}
    else
      var k := ks[|ks| - 1];
      MovedBy(b, s, ks[..|ks| - 1]) + MovedOut(b, s.chats[k].items, Targets(b, s.chats[k].items, k))
  }

  lemma ShrinkTotal(b: Book, s: State, st: State, k: Key)
    requires k in s.chats && k in st.chats && st.chats[k] == s.chats[k]
    ensures Total(st.chats) ==
            Total(Shrink(b, s, st, k).chats) + MovedOut(b, s.chats[k].items, Targets(b, s.chats[k].items, k))
  {
    var kept := Part(b, s.chats[k].items, k);
    TotalSplit(st.chats, k);
    PartsCover(b, s.chats[k].items, k);
    if kept == [] {
      assert Entries(kept) == [];
    } else {
      TotalUpdate(st.chats, k, Chat(kept, Unread(kept)));
    }
  }

  lemma {:induction false} PhaseOneTotal(b: Book, s: State, ks: seq<Key>)
    requires DistinctSources(b, s, ks)
    ensures Total(s.chats) == Total(PhaseOne(b, s, ks).chats) + MovedBy(b, s, ks)
  {
    if ks != [] {
      var n := |ks| - 1;
      assert ks == ks[..n] + [ks[n]];
      PhaseOneTotal(b, s, ks[..n]);
      PhaseOneShape(b, s, ks[..n]);
      assert ks[n] in ks && ks[n] !in ks[..n];
      ShrinkTotal(b, s, PhaseOne(b, s, ks[..n]), ks[n]);
    }
  }

  lemma ClearedKeepsEntries(items: seq<Item>)
    ensures Entries(Cleared(items)) == Entries(items)
  {
  }

  lemma DepositBag(c: Chat, items: seq<Item>)
    ensures Bag(MergeByTime(c.items, items)) == Bag(c.items) + Bag(items)
    ensures Bag(Cleared(MergeByTime(c.items, items))) == Bag(c.items) + Bag(items)
  {
    var out := MergeByTime(c.items, items);
    MergeByTimeInterleaves(c.items, items);
    InterleavesParts(Entries(c.items), Entries(items), Entries(out));
    ClearedKeepsEntries(out);
  }

  lemma DepositTotal(st: State, to: Key, items: seq<Item>)
    ensures Total(Deposit(st, to, items).chats) == Total(st.chats) + Bag(items)
  {
    var c := if to in st.chats then st.chats[to] else NoChat;
    DepositBag(c, items);
    TotalUpdate(st.chats, to, Deposit(st, to, items).chats[to]);
    if to in st.chats {
      TotalSplit(st.chats, to);
    } else {
      assert st.chats - {to} == st.chats;
      assert Entries(c.items) == [];
    }
  }

  lemma {:induction false} DepositAllTotal(b: Book, items: seq<Item>, st: State, ts: seq<Key>)
    ensures Total(DepositAll(b, items, st, ts).chats) == Total(st.chats) + MovedOut(b, items, ts)
  {
    if ts != [] {
      var n := |ts| - 1;
      DepositAllTotal(b, items, st, ts[..n]);
      DepositTotal(DepositAll(b, items, st, ts[..n]), ts[n], Part(b, items, ts[n]));
    }
  }

  lemma {:induction false} PhaseTwoTotal(b: Book, s: State, st: State, ks: seq<Key>)
    requires forall k | k in ks :: k in s.chats
    ensures Total(PhaseTwo(b, s, st, ks).chats) == Total(st.chats) + MovedBy(b, s, ks)
  {
    if ks != [] {
      var n := |ks| - 1;
      var items := s.chats[ks[n]].items;
      PhaseTwoTotal(b, s, st, ks[..n]);
      DepositAllTotal(b, items, PhaseTwo(b, s, st, ks[..n]), Targets(b, items, ks[n]));
    }
  }

  /** SetPeers loses no entry and duplicates none, whatever the store and the directory. */
  lemma RegroupedConserves(b: Book, s: State)
    ensures Total(Regrouped(b, s).chats) == Total(s.chats)
  {
    var ks := Ascending(Sources(b, s));
    SourcesDistinct(b, s);
    PhaseOneTotal(b, s, ks);
    PhaseTwoTotal(b, s, PhaseOne(b, s, ks), ks);
  }
}
