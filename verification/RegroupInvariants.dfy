/** The invariants that SetPeers re-establishes for a new directory. */
module RegroupInvariants {
  import opened KeyOrder
  import opened Directory
  import opened Sequences
  import opened Merging
  import opened Regroup
  import opened RegroupFacts

  // ---- every entry is in the right chat ----

  /** Entries with a device ID are in the chat of that ID. */
  ghost predicate Anchored(s: State) {
    forall k, e | k in s.chats && e in Bag(s.chats[k].items) && e.peerID != "" :: k == IdKey(e.peerID)
  }

  /** Entries in a name or address chat belong there under the directory b. */
  ghost predicate Classified(b: Book, s: State) {
    forall k, e | k in s.chats && Scanned(k) && e in Bag(s.chats[k].items) :: b.ChatOf(e) == k
  }

  ghost predicate Fits(b: Book, k: Key, bag: multiset<Entry>) {
    forall e | e in bag :: (e.peerID != "" ==> k == IdKey(e.peerID)) && (Scanned(k) ==> b.ChatOf(e) == k)
  }

  ghost predicate Filed(b: Book, s: State) {
    forall k | k in s.chats :: Fits(b, k, Bag(s.chats[k].items))
  }

  lemma FiledMeaning(b: Book, s: State)
    ensures Filed(b, s) <==> Anchored(s) && Classified(b, s)
  {
    if Anchored(s) && Classified(b, s) {
      forall k | k in s.chats ensures Fits(b, k, Bag(s.chats[k].items)) {}
    }
  }

  lemma BagMember(items: seq<Item>)
    ensures forall e :: e in Bag(items) <==> exists it :: it in items && it.e == e
  {
    forall it | it in items ensures it.e in Bag(items) {
      var i :| 0 <= i < |items| && items[i] == it;
      assert Entries(items)[i] == it.e;
    }
    forall e | e in Bag(items) ensures exists it :: it in items && it.e == e {
      var i :| 0 <= i < |items| && Entries(items)[i] == e;
      assert items[i] in items;
    }
  }

  lemma PartBag(b: Book, items: seq<Item>, t: Key)
    ensures forall e | e in Bag(Part(b, items, t)) :: e in Bag(items) && b.ChatOf(e) == t
  {
    PartMeaning(b, items, t);
    BagMember(items);
    BagMember(Part(b, items, t));
  }

  lemma DepositFiled(b: Book, st: State, to: Key, items: seq<Item>)
    requires Filed(b, st) && Fits(b, to, Bag(items))
    ensures Filed(b, Deposit(st, to, items))
  {
    var c := if to in st.chats then st.chats[to] else NoChat;
    assert Entries(NoChat.items) == [];
    assert Fits(b, to, Bag(c.items));
    FitsAdd(b, to, Bag(c.items), Bag(items));
    DepositBag(c, items);
  }

  lemma FitsAdd(b: Book, k: Key, x: multiset<Entry>, y: multiset<Entry>)
    requires Fits(b, k, x) && Fits(b, k, y)
    ensures Fits(b, k, x + y)
  {
  }

  lemma {:induction false} DepositAllFiled(b: Book, items: seq<Item>, st: State, ts: seq<Key>)
    requires Filed(b, st)
    ensures Filed(b, DepositAll(b, items, st, ts))
  {
    if ts != [] {
      var n := |ts| - 1;
      DepositAllFiled(b, items, st, ts[..n]);
      PartBag(b, items, ts[n]);
      DepositFiled(b, DepositAll(b, items, st, ts[..n]), ts[n], Part(b, items, ts[n]));
    }
  }

  lemma {:induction false} PhaseTwoFiled(b: Book, s: State, st: State, ks: seq<Key>)
    requires forall k | k in ks :: k in s.chats
    requires Filed(b, st)
    ensures Filed(b, PhaseTwo(b, s, st, ks))
  {
    if ks != [] {
      var n := |ks| - 1;
      PhaseTwoFiled(b, s, st, ks[..n]);
      var items := s.chats[ks[n]].items;
      DepositAllFiled(b, items, PhaseTwo(b, s, st, ks[..n]), Targets(b, items, ks[n]));
    }
  }

  lemma PhaseOneFiled(b: Book, s: State)
    requires Anchored(s)
    ensures Filed(b, PhaseOne(b, s, Ascending(Sources(b, s))))
  {
    var ks := Ascending(Sources(b, s));
    SourcesDistinct(b, s);
    PhaseOneShape(b, s, ks);
    var st := PhaseOne(b, s, ks);
    forall k | k in st.chats ensures Fits(b, k, Bag(st.chats[k].items)) {
      if k in ks {
        PartBag(b, s.chats[k].items, k);
      } else if Scanned(k) {
        UnmovedBag(b, s.chats[k].items, k);
      }
    }
  }

  lemma UnmovedBag(b: Book, items: seq<Item>, k: Key)
    requires Targets(b, items, k) == []
    ensures forall e | e in Bag(items) :: b.ChatOf(e) == k
  {
    BagMember(items);
    TargetsMeaning(b, items, k);
    forall it | it in items ensures b.ChatOf(it.e) == k {
      assert b.ChatOf(it.e) !in Targets(b, items, k);
    }
  }

  /** Entries with a device ID stay in the chat of that ID, and whatever is still in a name or
      address chat belongs there under the new directory. */
  lemma RegroupedFiled(b: Book, s: State)
    requires Anchored(s)
    ensures Anchored(Regrouped(b, s)) && Classified(b, Regrouped(b, s))
  {
    var ks := Ascending(Sources(b, s));
    SourcesDistinct(b, s);
    PhaseOneFiled(b, s);
    PhaseTwoFiled(b, s, PhaseOne(b, s, ks), ks);
    FiledMeaning(b, Regrouped(b, s));
  }

  /** Entries in a chat that is scanned carry no device ID, so their name and address decide where they belong. */
  lemma ScannedEntriesHaveNoID(s: State, k: Key, e: Entry)
    requires Anchored(s) && k in s.chats && Scanned(k) && e in Bag(s.chats[k].items)
    ensures e.peerID == ""
  {
    IdKeysNotScanned(e.peerID);
  }

  // ---- order within a chat ----

  /** Every chat of st is still there in st', with its entries in the same order, perhaps among others. */
  ghost predicate Grows(st: State, st': State) {
    forall t | t in st.chats :: t in st'.chats && Subsequence(Entries(st.chats[t].items), Entries(st'.chats[t].items))
  }

  /** Chat t exists and has the entries of `items` in their order, perhaps among others. */
  ghost predicate Carries(st: State, t: Key, items: seq<Item>) {
    t in st.chats && Subsequence(Entries(items), Entries(st.chats[t].items))
  }

  lemma GrowsCarries(st: State, st': State, t: Key, items: seq<Item>)
    requires Grows(st, st') && Carries(st, t, items)
    ensures Carries(st', t, items)
  {
    SubsequenceTransitive(Entries(items), Entries(st.chats[t].items), Entries(st'.chats[t].items));
  }

  lemma GrowsRefl(st: State)
    ensures Grows(st, st)
  {
    forall t | t in st.chats ensures Subsequence(Entries(st.chats[t].items), Entries(st.chats[t].items)) {
      SubsequenceRefl(Entries(st.chats[t].items));
    }
  }

  lemma GrowsTransitive(x: State, y: State, z: State)
    requires Grows(x, y) && Grows(y, z)
    ensures Grows(x, z)
  {
    forall t | t in x.chats ensures t in z.chats && Subsequence(Entries(x.chats[t].items), Entries(z.chats[t].items)) {
      SubsequenceTransitive(Entries(x.chats[t].items), Entries(y.chats[t].items), Entries(z.chats[t].items));
    }
  }

  lemma DepositOrder(st: State, to: Key, items: seq<Item>)
    ensures Grows(st, Deposit(st, to, items))
    ensures Carries(Deposit(st, to, items), to, items)
  {
    var c := if to in st.chats then st.chats[to] else NoChat;
    var out := MergeByTime(c.items, items);
    MergeByTimeInterleaves(c.items, items);
    InterleavesParts(Entries(c.items), Entries(items), Entries(out));
    ClearedKeepsEntries(out);
    GrowsRefl(st);
  }

  lemma {:induction false} DepositAllOrder(b: Book, items: seq<Item>, st: State, ts: seq<Key>)
    ensures Grows(st, DepositAll(b, items, st, ts))
    ensures forall t | t in ts :: Carries(DepositAll(b, items, st, ts), t, Part(b, items, t))
  {
    if ts == [] {
      GrowsRefl(st);
    } else {
      var n := |ts| - 1;
      assert ts == ts[..n] + [ts[n]];
      var mid, out := DepositAll(b, items, st, ts[..n]), DepositAll(b, items, st, ts);
      DepositAllOrder(b, items, st, ts[..n]);
      DepositOrder(mid, ts[n], Part(b, items, ts[n]));
      GrowsTransitive(st, mid, out);
      forall t | t in ts[..n] ensures Carries(out, t, Part(b, items, t)) {
        GrowsCarries(mid, out, t, Part(b, items, t));
      }
    }
  }

  lemma {:induction false} PhaseTwoOrder(b: Book, s: State, st: State, ks: seq<Key>)
    requires forall k | k in ks :: k in s.chats
    ensures Grows(st, PhaseTwo(b, s, st, ks))
    ensures forall k, t | k in ks && t in Targets(b, s.chats[k].items, k) ::
              Carries(PhaseTwo(b, s, st, ks), t, Part(b, s.chats[k].items, t))
  {
    if ks == [] {
      GrowsRefl(st);
    } else {
      var n := |ks| - 1;
      assert ks == ks[..n] + [ks[n]];
      var mid, out := PhaseTwo(b, s, st, ks[..n]), PhaseTwo(b, s, st, ks);
      var items := s.chats[ks[n]].items;
      PhaseTwoOrder(b, s, st, ks[..n]);
      DepositAllOrder(b, items, mid, Targets(b, items, ks[n]));
      GrowsTransitive(st, mid, out);
      forall k, t | k in ks[..n] && t in Targets(b, s.chats[k].items, k)
        ensures Carries(out, t, Part(b, s.chats[k].items, t))
      {
        GrowsCarries(mid, out, t, Part(b, s.chats[k].items, t));
      }
    }
  }

  /** The entries that one chat sends to another, or keeps, end up there in their old order, even when the
      chat they come from was emptied and is itself a target. */
  lemma RegroupedKeepsOrder(b: Book, s: State, k: Key, t: Key)
    requires k in s.chats
    ensures Scanned(k) ==>
              Part(b, s.chats[k].items, t) == [] || Carries(Regrouped(b, s), t, Part(b, s.chats[k].items, t))
    ensures !Scanned(k) ==> Carries(Regrouped(b, s), k, s.chats[k].items)
  {
    var ks := Ascending(Sources(b, s));
    var st := PhaseOne(b, s, ks);
    SourcesDistinct(b, s);
    PhaseOneShape(b, s, ks);
    PhaseTwoOrder(b, s, st, ks);
    var items := s.chats[k].items;
    assert Grows(st, Regrouped(b, s));
    if !Scanned(k) {
      assert k !in ks;
    } else if Part(b, items, t) != [] {
      if t == k {
        KeptOrder(b, s, k);
        GrowsCarries(st, Regrouped(b, s), k, Part(b, items, k));
      } else {
        SentIsTarget(b, items, k, t);
        assert k in ks;
      }
    }
  }

  lemma SentIsTarget(b: Book, items: seq<Item>, k: Key, t: Key)
    requires t != k && Part(b, items, t) != []
    ensures t in Targets(b, items, k)
  {
    PartMeaning(b, items, t);
    assert Part(b, items, t)[0] in Part(b, items, t);
    TargetsMeaning(b, items, k);
  }

  lemma KeptOrder(b: Book, s: State, k: Key)
    requires k in s.chats && Scanned(k) && Part(b, s.chats[k].items, k) != []
    ensures Carries(PhaseOne(b, s, Ascending(Sources(b, s))), k, Part(b, s.chats[k].items, k))
  {
    var ks := Ascending(Sources(b, s));
    SourcesDistinct(b, s);
    PhaseOneShape(b, s, ks);
    var items := s.chats[k].items;
    SubsequenceRefl(Entries(Part(b, items, k)));
    if k !in ks {
      TargetsMeaning(b, items, k);
      forall it | it in items ensures b.ChatOf(it.e) == k {
        assert b.ChatOf(it.e) !in Targets(b, items, k);
      }
      FilterAll(items, To(b, k));
    }
  }

  // ---- unread counts ----

  /** Every chat's count is the number of its unread items. */
  ghost predicate Counted(s: State) {
    forall k | k in s.chats :: s.chats[k].unread == Unread(s.chats[k].items)
  }

  ghost predicate OpenRead(s: State) {
    s.open in s.chats ==> s.chats[s.open].unread == 0
  }

  lemma DepositCounted(st: State, to: Key, items: seq<Item>)
    requires Counted(st)
    ensures Counted(Deposit(st, to, items))
    ensures OpenRead(st) || to == st.open ==> OpenRead(Deposit(st, to, items))
  {
    var c := if to in st.chats then st.chats[to] else NoChat;
    UnreadMerge(c.items, items);
    UnreadConcat(c.items, items);
    UnreadNone(Cleared(MergeByTime(c.items, items)));
  }

  lemma {:induction false} DepositAllCounted(b: Book, items: seq<Item>, st: State, ts: seq<Key>)
    requires Counted(st)
    ensures Counted(DepositAll(b, items, st, ts))
    ensures DepositAll(b, items, st, ts).open == st.open
    ensures OpenRead(st) || st.open in ts ==> OpenRead(DepositAll(b, items, st, ts))
  {
    if ts != [] {
      var n := |ts| - 1;
      assert ts == ts[..n] + [ts[n]];
      DepositAllCounted(b, items, st, ts[..n]);
      DepositCounted(DepositAll(b, items, st, ts[..n]), ts[n], Part(b, items, ts[n]));
    }
  }

  lemma {:induction false} PhaseTwoCounted(b: Book, s: State, st: State, ks: seq<Key>)
    requires forall k | k in ks :: k in s.chats
    requires Counted(st)
    ensures Counted(PhaseTwo(b, s, st, ks))
    ensures PhaseTwo(b, s, st, ks).open == st.open
    ensures OpenRead(st) || st.open in Receivers(b, s, ks) ==> OpenRead(PhaseTwo(b, s, st, ks))
  {
    if ks != [] {
      var n := |ks| - 1;
      PhaseTwoCounted(b, s, st, ks[..n]);
      ReceiversStep(b, s, ks);
      var items := s.chats[ks[n]].items;
      DepositAllCounted(b, items, PhaseTwo(b, s, st, ks[..n]), Targets(b, items, ks[n]));
    }
  }

  /** Where phase one takes the open key: it stays unless its chat is emptied, and then it is a key that receives a batch. */
  lemma {:induction false} PhaseOneOpen(b: Book, s: State, ks: seq<Key>)
    requires DistinctSources(b, s, ks)
    ensures if s.open in EmptiedIn(b, s, ks) then PhaseOne(b, s, ks).open in Receivers(b, s, ks)
            else PhaseOne(b, s, ks).open == s.open
  {
    if ks != [] {
      var n := |ks| - 1;
      assert ks == ks[..n] + [ks[n]];
      assert ks[n] in ks && ks[n] !in ks[..n];
      PhaseOneOpen(b, s, ks[..n]);
      ShrinkOpen(b, s, PhaseOne(b, s, ks[..n]), ks[n]);
      ReceiversStep(b, s, ks);
    }
  }

  lemma ShrinkOpen(b: Book, s: State, st: State, k: Key)
    requires IsSource(b, s, k)
    ensures if Empties(b, s, k) && st.open == k then Shrink(b, s, st, k).open in Targets(b, s.chats[k].items, k)
            else Shrink(b, s, st, k).open == st.open
  {
    LastToMeaning(b, s.chats[k].items, k);
  }

  lemma {:induction false} UnreadFilter(items: seq<Item>, p: Item -> bool)
    ensures Unread(Filter(items, p)) <= Unread(items)
  {
    if items != [] {
      UnreadFilter(items[1..], p);
      var head := if p(items[0]) then [items[0]] else [];
      UnreadConcat(head, Filter(items[1..], p));
    }
  }

  lemma PhaseOneCounted(b: Book, s: State, ks: seq<Key>)
    requires DistinctSources(b, s, ks) && Counted(s)
    ensures Counted(PhaseOne(b, s, ks))
  {
    PhaseOneShape(b, s, ks);
  }

  lemma RegroupedCounted(b: Book, s: State)
    requires Counted(s) && OpenRead(s)
    ensures Counted(Merged(b, s)) && OpenRead(Merged(b, s))
    ensures Counted(Regrouped(b, s))
  {
    var ks := Ascending(Sources(b, s));
    var st := PhaseOne(b, s, ks);
    SourcesDistinct(b, s);
    PhaseOneShape(b, s, ks);
    PhaseOneOpen(b, s, ks);
    if st.open in s.chats {
      UnreadFilter(s.chats[st.open].items, To(b, st.open));
    }
    PhaseTwoCounted(b, s, st, ks);
  }

  // ---- time order ----

  ghost predicate TimeSorted(s: State) {
    forall k | k in s.chats :: Sorted(s.chats[k].items)
  }

  lemma {:induction false} FilterSorted(items: seq<Item>, p: Item -> bool)
    requires Sorted(items)
    ensures Sorted(Filter(items, p))
  {
    if items != [] {
      FilterSorted(items[1..], p);
      FilterMembers(items[1..], p);
      var rest := Filter(items[1..], p);
      forall i | 0 <= i < |rest| ensures items[0].e.time <= rest[i].e.time {
        assert rest[i] in rest;
      }
    }
  }

  lemma DepositSorted(st: State, to: Key, items: seq<Item>)
    requires TimeSorted(st) && Sorted(items)
    ensures TimeSorted(Deposit(st, to, items))
  {
    var c := if to in st.chats then st.chats[to] else NoChat;
    MergeIsStableSort(c.items, items, 0);
  }

  lemma {:induction false} DepositAllSorted(b: Book, items: seq<Item>, st: State, ts: seq<Key>)
    requires TimeSorted(st) && Sorted(items)
    ensures TimeSorted(DepositAll(b, items, st, ts))
  {
    if ts != [] {
      var n := |ts| - 1;
      DepositAllSorted(b, items, st, ts[..n]);
      FilterSorted(items, To(b, ts[n]));
      DepositSorted(DepositAll(b, items, st, ts[..n]), ts[n], Part(b, items, ts[n]));
    }
  }

  lemma {:induction false} PhaseTwoSorted(b: Book, s: State, st: State, ks: seq<Key>)
    requires forall k | k in ks :: k in s.chats
    requires TimeSorted(s) && TimeSorted(st)
    ensures TimeSorted(PhaseTwo(b, s, st, ks))
  {
    if ks != [] {
      var n := |ks| - 1;
      PhaseTwoSorted(b, s, st, ks[..n]);
      var items := s.chats[ks[n]].items;
      DepositAllSorted(b, items, PhaseTwo(b, s, st, ks[..n]), Targets(b, items, ks[n]));
    }
  }

  lemma RegroupedSorted(b: Book, s: State)
    requires TimeSorted(s)
    ensures TimeSorted(Regrouped(b, s))
  {
    var ks := Ascending(Sources(b, s));
    var st := PhaseOne(b, s, ks);
    SourcesDistinct(b, s);
    PhaseOneShape(b, s, ks);
    forall k | k in st.chats ensures Sorted(st.chats[k].items) {
      FilterSorted(s.chats[k].items, To(b, k));
    }
    PhaseTwoSorted(b, s, st, ks);
  }
}
