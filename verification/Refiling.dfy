/** What SetPeers leaves in every chat: each entry is where the new directory puts it, and only there. */
module Refiling {
  import opened KeyOrder
  import opened Directory
  import opened Sequences
  import opened Merging
  import opened Regroup
  import opened RegroupFacts
  import opened RegroupInvariants
  import opened AliasChains
  import opened Loading

  /** Where an entry of chat k goes: a name or address chat gives it to the chat it is classified into, and any other chat
      keeps it. */
  function Destination(b: Book, k: Key, e: Entry): Key {
    if "name:" <= k || "addr:" <= k then b.ChatOf(e) else k
  }

  function Goes(b: Book, k: Key, t: Key): Item -> bool { (it: Item) => Destination(b, k, it.e) == t }

  /** The items that go to t from the chats ks, with their unread flags. */
  ghost function GoingFrom(b: Book, s: State, ks: seq<Key>, t: Key): seq<Item>
    requires forall k | k in ks :: k in s.chats
  {
    if ks == [] then []
    else
      var n := |ks| - 1;
      GoingFrom(b, s, ks[..n], t) + Filter(s.chats[ks[n]].items, Goes(b, ks[n], t))
  }

  /** The items that go to t from any chat. */
  ghost function Going(b: Book, s: State, t: Key): seq<Item> { GoingFrom(b, s, Ascending(s.chats.Keys), t) }

  lemma {:induction false} FilterSame(items: seq<Item>, p: Item -> bool, q: Item -> bool)
    requires forall it | it in items :: p(it) == q(it)
    ensures Filter(items, p) == Filter(items, q)
  {
    if items != [] {
      FilterSame(items[1..], p, q);
    }
  }

  // ---- what the batches bring ----

  /** What the sources ks send to t. */
  ghost function Brought(b: Book, s: State, ks: seq<Key>, t: Key): seq<Item>
    requires forall k | k in ks :: k in s.chats
  {
    if ks == [] then []
    else
      var k := ks[|ks| - 1];
      Brought(b, s, ks[..|ks| - 1], t) + if k == t then [] else Part(b, s.chats[k].items, t)
  }

  /** The second list has what the first has and more, in some order. */
  ghost predicate More(x: seq<Item>, y: seq<Item>, more: seq<Item>) { multiset(y) == multiset(x) + multiset(more) }

  /** So it is as far as entries go. */
  ghost predicate MoreEntries(x: seq<Item>, y: seq<Item>, more: seq<Item>) { Bag(y) == Bag(x) + Bag(more) }

  /** t has in st' what it has in st and more; unread flags count unless it is the open chat, where nothing is unread. */
  ghost predicate Gained(st: State, st': State, t: Key, more: seq<Item>) {
    && st'.open == st.open
    && (t != st.open ==> More(ChatAt(st, t).items, ChatAt(st', t).items, more))
    && MoreEntries(ChatAt(st, t).items, ChatAt(st', t).items, more)
  }

  lemma MoreTwice(x: seq<Item>, y: seq<Item>, z: seq<Item>, p: seq<Item>, q: seq<Item>)
    ensures More(x, y, p) && More(y, z, q) ==> More(x, z, p + q)
    ensures MoreEntries(x, y, p) && MoreEntries(y, z, q) ==> MoreEntries(x, z, p + q)
  {
    BagConcat(p, q);
  }

  lemma GainedTwice(x: State, y: State, z: State, t: Key, p: seq<Item>, q: seq<Item>)
    requires Gained(x, y, t, p) && Gained(y, z, t, q)
    ensures Gained(x, z, t, p + q)
  {
    MoreTwice(ChatAt(x, t).items, ChatAt(y, t).items, ChatAt(z, t).items, p, q);
  }

  lemma GainedNothing(x: State, t: Key)
    ensures Gained(x, x, t, [])
  {
    assert Entries([]) == [];
  }

  lemma MergedIsMore(dst: seq<Item>, add: seq<Item>)
    ensures More(dst, MergeByTime(dst, add), add) && MoreEntries(dst, MergeByTime(dst, add), add)
    ensures MoreEntries(dst, Cleared(MergeByTime(dst, add)), add)
  {
    MergeByTimeInterleaves(dst, add);
    DepositBag(Chat(dst, 0), add);
  }

  lemma DepositGains(st: State, to: Key, items: seq<Item>, t: Key)
    ensures Gained(st, Deposit(st, to, items), t, if t == to then items else [])
  {
    if t == to {
      MergedIsMore(ChatAt(st, to).items, items);
    } else {
      assert Entries([]) == [];
    }
  }

  lemma {:induction false} DepositAllGains(b: Book, items: seq<Item>, st: State, ts: seq<Key>, t: Key)
    requires forall i, j | 0 <= i < j < |ts| :: ts[i] != ts[j]
    ensures Gained(st, DepositAll(b, items, st, ts), t, if t in ts then Part(b, items, t) else [])
  {
    if ts == [] {
      GainedNothing(st, t);
    } else {
      var n := |ts| - 1;
      var mid := DepositAll(b, items, st, ts[..n]);
      assert ts == ts[..n] + [ts[n]];
      DepositAllGains(b, items, st, ts[..n], t);
      DepositGains(mid, ts[n], Part(b, items, ts[n]), t);
      JoinParts(b, items, st, mid, DepositAll(b, items, st, ts), t, t in ts[..n], t == ts[n]);
    }
  }

  lemma JoinParts(b: Book, items: seq<Item>, x: State, y: State, z: State, t: Key, before: bool, now: bool)
    requires !(before && now)
    requires Gained(x, y, t, if before then Part(b, items, t) else [])
    requires Gained(y, z, t, if now then Part(b, items, t) else [])
    ensures Gained(x, z, t, if before || now then Part(b, items, t) else [])
  {
    var part, none := Part(b, items, t), [];
    AddNothing(part);
    if before {
      GainedTwice(x, y, z, t, part, none);
    } else {
      AddNothing(none);
      GainedTwice(x, y, z, t, none, if now then part else none);
    }
  }

  lemma AddNothing(items: seq<Item>)
    ensures items + [] == items && [] + items == items
  {
  }

  lemma TargetsBring(b: Book, items: seq<Item>, k: Key, t: Key)
    requires t != k
    ensures t !in Targets(b, items, k) ==> Part(b, items, t) == []
  {
    if Part(b, items, t) != [] {
      SentIsTarget(b, items, k, t);
    }
  }

  lemma {:induction false} PhaseTwoGains(b: Book, s: State, st: State, ks: seq<Key>, t: Key)
    requires forall k | k in ks :: k in s.chats
    ensures Gained(st, PhaseTwo(b, s, st, ks), t, Brought(b, s, ks, t))
  {
    if ks == [] {
      GainedNothing(st, t);
    } else {
      var n := |ks| - 1;
      var mid := PhaseTwo(b, s, st, ks[..n]);
      PhaseTwoGains(b, s, st, ks[..n], t);
      SourceGains(b, s, mid, ks[n], t);
      GainedTwice(st, mid, PhaseTwo(b, s, st, ks), t, Brought(b, s, ks[..n], t),
                  if ks[n] == t then [] else Part(b, s.chats[ks[n]].items, t));
    }
  }

  lemma SourceGains(b: Book, s: State, st: State, k: Key, t: Key)
    requires k in s.chats
    ensures var items := s.chats[k].items;
            Gained(st, DepositAll(b, items, st, Targets(b, items, k)), t, if k == t then [] else Part(b, items, t))
  {
    var items := s.chats[k].items;
    TargetsMeaning(b, items, k);
    DepositAllGains(b, items, st, Targets(b, items, k), t);
    if t != k { TargetsBring(b, items, k, t); }
  }

  // ---- what goes to a chat ----

  /** From a chat that is scanned goes the part that is classified as t. */
  lemma ScannedGoes(b: Book, items: seq<Item>, k: Key, t: Key)
    requires Scanned(k)
    ensures Filter(items, Goes(b, k, t)) == Part(b, items, t)
  {
    FilterSame(items, Goes(b, k, t), To(b, t));
  }

  /** A chat that no entry leaves keeps everything. */
  lemma QuietGoes(b: Book, s: State, k: Key, t: Key)
    requires k in s.chats && !IsSource(b, s, k)
    ensures Filter(s.chats[k].items, Goes(b, k, t)) == if k == t then s.chats[k].items else []
  {
    var items := s.chats[k].items;
    if Scanned(k) {
      TargetsMeaning(b, items, k);
      forall it | it in items ensures b.ChatOf(it.e) == k {
        assert b.ChatOf(it.e) !in Targets(b, items, k);
      }
    }
    if k == t {
      FilterAll(items, Goes(b, k, t));
    } else {
      FilterNone(items, Goes(b, k, t));
    }
  }

  function ThatMove(b: Book, s: State): Key -> bool { (k: Key) => IsSource(b, s, k) }

  /** What is left of chat t by phase one, if its key is among ks. */
  ghost function KeptOf(b: Book, s: State, ks: seq<Key>, t: Key): seq<Item>
    requires forall k | k in ks :: k in s.chats
  {
    if t !in ks then [] else if IsSource(b, s, t) then Part(b, s.chats[t].items, t) else s.chats[t].items
  }

  lemma FilterLast<T>(s: seq<T>, p: T -> bool)
    requires s != []
    ensures Filter(s, p) == Filter(s[..|s| - 1], p) + if p(s[|s| - 1]) then [s[|s| - 1]] else []
  {
    var n := |s| - 1;
    assert s == s[..n] + [s[n]];
    FilterConcat(s[..n], [s[n]], p);
    assert [s[n]][1..] == [] && Filter([], p) == [];
  }

  lemma OneGoes(b: Book, s: State, k: Key, t: Key)
    requires k in s.chats
    ensures Filter(s.chats[k].items, Goes(b, k, t)) ==
            if !IsSource(b, s, k) then (if k == t then s.chats[k].items else []) else Part(b, s.chats[k].items, t)
  {
    if IsSource(b, s, k) { ScannedGoes(b, s.chats[k].items, k, t); } else { QuietGoes(b, s, k, t); }
  }

  lemma MoreOnBoth(kept: seq<Item>, going: seq<Item>, brought: seq<Item>, add: seq<Item>)
    requires More(kept, going, brought)
    ensures More(kept, going + add, brought + add)
    ensures kept == [] ==> More(add, going + add, brought)
    ensures going + [] == going && brought + [] == brought
  {
  }

  /** From some of the chats goes to t: what it keeps, if it is among them, and what the sources among them send. */
  ghost predicate Parted(b: Book, s: State, ks: seq<Key>, t: Key)
    requires forall k | k in ks :: k in s.chats
  {
    && (forall k | k in Filter(ks, ThatMove(b, s)) :: k in s.chats)
    && More(KeptOf(b, s, ks, t), GoingFrom(b, s, ks, t), Brought(b, s, Filter(ks, ThatMove(b, s)), t))
  }

  lemma {:induction false} GoingParts(b: Book, s: State, ks: seq<Key>, t: Key)
    requires (forall k | k in ks :: k in s.chats) && forall i, j | 0 <= i < j < |ks| :: ks[i] != ks[j]
    ensures Parted(b, s, ks, t)
  {
    if ks != [] {
      var n := |ks| - 1;
      assert ks == ks[..n] + [ks[n]];
      GoingParts(b, s, ks[..n], t);
      GoingOneMore(b, s, ks[..n], ks[n], t);
    }
  }

  lemma GoingOneMore(b: Book, s: State, ks: seq<Key>, k: Key, t: Key)
    requires (forall j | j in ks :: j in s.chats) && k in s.chats && k !in ks && Parted(b, s, ks, t)
    ensures (forall j | j in ks + [k] :: j in s.chats) && Parted(b, s, ks + [k], t)
  {
    var sources, add := Filter(ks, ThatMove(b, s)), Filter(s.chats[k].items, Goes(b, k, t));
    OneGoes(b, s, k, t);
    BroughtLast(b, s, sources, k, t);
    OneMoreChat(b, s, ks, k, t);
    MoreOnBoth(KeptOf(b, s, ks, t), GoingFrom(b, s, ks, t), Brought(b, s, sources, t), add);
    if k == t {
      assert KeptOf(b, s, ks, t) == [];
    }
  }

  lemma OneMoreChat(b: Book, s: State, ks: seq<Key>, k: Key, t: Key)
    requires (forall j | j in ks :: j in s.chats) && k in s.chats && k !in ks
    ensures forall j | j in ks + [k] :: j in s.chats
    ensures Filter(ks + [k], ThatMove(b, s)) ==
            if IsSource(b, s, k) then Filter(ks, ThatMove(b, s)) + [k] else Filter(ks, ThatMove(b, s))
    ensures GoingFrom(b, s, ks + [k], t) == GoingFrom(b, s, ks, t) + Filter(s.chats[k].items, Goes(b, k, t))
    ensures KeptOf(b, s, ks + [k], t) ==
            if k == t then (if IsSource(b, s, k) then Part(b, s.chats[k].items, t) else s.chats[k].items)
            else KeptOf(b, s, ks, t)
  {
    assert (ks + [k])[..|ks|] == ks;
    FilterLast(ks + [k], ThatMove(b, s));
    assert Filter(ks, ThatMove(b, s)) + [] == Filter(ks, ThatMove(b, s));
  }

  lemma BroughtLast(b: Book, s: State, ks: seq<Key>, k: Key, t: Key)
    requires (forall j | j in ks :: j in s.chats) && k in s.chats
    ensures forall j | j in ks + [k] :: j in s.chats
    ensures Brought(b, s, ks + [k], t) == Brought(b, s, ks, t) + if k == t then [] else Part(b, s.chats[k].items, t)
    ensures ks + [] == ks
  {
    assert (ks + [k])[..|ks|] == ks;
  }

  lemma SourcesInOrder(b: Book, s: State)
    ensures Filter(Ascending(s.chats.Keys), ThatMove(b, s)) == Ascending(Sources(b, s))
  {
    var all := Ascending(s.chats.Keys);
    FilterAscends(all, ThatMove(b, s));
    FilterMembers(all, ThatMove(b, s));
    AscendsUnique(Filter(all, ThatMove(b, s)), Ascending(Sources(b, s)));
  }

  lemma {:induction false} FilterAscends(ks: seq<Key>, p: Key -> bool)
    requires Ascends(ks)
    ensures Ascends(Filter(ks, p))
  {
    if ks != [] {
      FilterAscends(ks[1..], p);
      FilterMembers(ks[1..], p);
      var rest := Filter(ks[1..], p);
      forall i | 0 <= i < |rest| ensures Less(ks[0], rest[i]) {
        assert rest[i] in rest;
        FirstOnce(ks, rest[i]);
      }
    }
  }

  /** What goes to t: what phase one leaves there, and what the sources send. */
  lemma GoingIsKeptAndBrought(b: Book, s: State, t: Key)
    ensures var ks := Ascending(Sources(b, s));
            && (forall k | k in ks :: k in s.chats)
            && More(ChatAt(PhaseOne(b, s, ks), t).items, Going(b, s, t), Brought(b, s, ks, t))
  {
    var all, ks := Ascending(s.chats.Keys), Ascending(Sources(b, s));
    forall i, j | 0 <= i < j < |all| ensures all[i] != all[j] { AscendsDistinct(all, i, j); }
    GoingParts(b, s, all, t);
    SourcesInOrder(b, s);
    SourcesDistinct(b, s);
    PhaseOneShape(b, s, ks);
  }

  lemma MoreMeansEntries(x: seq<Item>, y: seq<Item>, more: seq<Item>)
    requires More(x, y, more)
    ensures MoreEntries(x, y, more)
  {
    BagConcat(x, more);
    SameBag(y, x + more);
  }

  lemma {:induction false} SameBag(x: seq<Item>, y: seq<Item>)
    requires multiset(x) == multiset(y)
    ensures Bag(x) == Bag(y)
  {
    if x == [] {
      assert |multiset(y)| == 0 == |y|;
    } else {
      var j := WithoutLast(x, y);
      SameBag(x[..|x| - 1], y[..j] + y[j + 1..]);
      BagLast(x);
      BagWithout(y, j);
    }
  }

  lemma WithoutLast(x: seq<Item>, y: seq<Item>) returns (j: nat)
    requires x != [] && multiset(x) == multiset(y)
    ensures j < |y| && y[j] == x[|x| - 1] && multiset(x[..|x| - 1]) == multiset(y[..j] + y[j + 1..])
  {
    var n := |x| - 1;
    assert x[n] in multiset(x);
    j :| 0 <= j < |y| && y[j] == x[n];
    Without(x, n);
    Without(y, j);
    assert x[..n] + x[n + 1..] == x[..n];
  }

  lemma Without(y: seq<Item>, j: nat)
    requires j < |y|
    ensures multiset(y[..j] + y[j + 1..]) == multiset(y) - multiset{y[j]}
  {
    assert y == y[..j] + [y[j]] + y[j + 1..];
  }

  lemma BagWithout(y: seq<Item>, j: nat)
    requires j < |y|
    ensures Bag(y) == Bag(y[..j] + y[j + 1..]) + multiset{y[j].e}
  {
    BagConcat(y[..j], y[j + 1..]);
    BagConcat(y[..j + 1], y[j + 1..]);
    BagLast(y[..j + 1]);
    assert y[..j + 1][..j] == y[..j] && y == y[..j + 1] + y[j + 1..];
  }

  /** After SetPeers a chat holds, with their unread flags, exactly the items that go to it, from it or from any other chat;
      in the open chat the entries are those, and none is unread. */
  lemma RefiledExactly(b: Book, s: State, t: Key)
    requires OpenSettled(s) && Counted(s) && OpenRead(s)
    ensures var s' := Regrouped(b, s);
            && (t != s'.open ==> multiset(ChatAt(s', t).items) == multiset(Going(b, s, t)))
            && Bag(ChatAt(s', t).items) == Bag(Going(b, s, t))
            && (t == s'.open ==> forall it | it in ChatAt(s', t).items :: !it.unread)
  {
    var ks := Ascending(Sources(b, s));
    var st, s' := PhaseOne(b, s, ks), Regrouped(b, s);
    GoingIsKeptAndBrought(b, s, t);
    MoreMeansEntries(ChatAt(st, t).items, Going(b, s, t), Brought(b, s, ks, t));
    PhaseTwoGains(b, s, st, ks, t);
    MergedOpen(b, s);
    OpenHasNoneUnread(b, s, t);
  }

  lemma OpenHasNoneUnread(b: Book, s: State, t: Key)
    requires OpenSettled(s) && Counted(s) && OpenRead(s)
    ensures t == Regrouped(b, s).open ==> forall it | it in ChatAt(Regrouped(b, s), t).items :: !it.unread
  {
    RegroupedOpenRead(b, s);
    UnreadNone(ChatAt(Regrouped(b, s), t).items);
  }

  // ---- which chats there are ----

  ghost predicate NoneEmpty(s: State) { forall k | k in s.chats :: s.chats[k].items != [] }

  lemma ShrinkNoneEmpty(b: Book, s: State, st: State, k: Key)
    requires k in s.chats && NoneEmpty(st)
    ensures NoneEmpty(Shrink(b, s, st, k))
  {
  }

  lemma {:induction false} PhaseOneNoneEmpty(b: Book, s: State, ks: seq<Key>)
    requires NoneEmpty(s) && forall k | k in ks :: k in s.chats
    ensures NoneEmpty(PhaseOne(b, s, ks))
  {
    if ks != [] {
      PhaseOneNoneEmpty(b, s, ks[..|ks| - 1]);
      ShrinkNoneEmpty(b, s, PhaseOne(b, s, ks[..|ks| - 1]), ks[|ks| - 1]);
    }
  }

  lemma DepositNoneEmpty(st: State, to: Key, items: seq<Item>)
    requires NoneEmpty(st) && items != []
    ensures NoneEmpty(Deposit(st, to, items))
  {
    var c := ChatAt(st, to);
    MergeByTimeInterleaves(c.items, items);
    assert |multiset(MergeByTime(c.items, items))| == |c.items| + |items|;
  }

  lemma {:induction false} DepositAllNoneEmpty(b: Book, items: seq<Item>, st: State, ts: seq<Key>)
    requires NoneEmpty(st) && forall t | t in ts :: Part(b, items, t) != []
    ensures NoneEmpty(DepositAll(b, items, st, ts))
  {
    if ts != [] {
      var n := |ts| - 1;
      DepositAllNoneEmpty(b, items, st, ts[..n]);
      DepositNoneEmpty(DepositAll(b, items, st, ts[..n]), ts[n], Part(b, items, ts[n]));
    }
  }

  lemma TargetsGetSome(b: Book, items: seq<Item>, k: Key)
    ensures forall t | t in Targets(b, items, k) :: Part(b, items, t) != []
  {
    TargetsMeaning(b, items, k);
    forall t | t in Targets(b, items, k) ensures Part(b, items, t) != [] {
      var it :| it in items && b.ChatOf(it.e) == t;
      PartMeaning(b, items, t);
      assert it in Part(b, items, t);
    }
  }

  lemma {:induction false} PhaseTwoNoneEmpty(b: Book, s: State, st: State, ks: seq<Key>)
    requires NoneEmpty(st) && forall k | k in ks :: k in s.chats
    ensures NoneEmpty(PhaseTwo(b, s, st, ks))
  {
    if ks != [] {
      var n := |ks| - 1;
      var items := s.chats[ks[n]].items;
      PhaseTwoNoneEmpty(b, s, st, ks[..n]);
      TargetsGetSome(b, items, ks[n]);
      DepositAllNoneEmpty(b, items, PhaseTwo(b, s, st, ks[..n]), Targets(b, items, ks[n]));
    }
  }

  /** SetPeers leaves no empty chat behind: exactly the chats exist that something goes to. */
  lemma RefiledChats(b: Book, s: State, t: Key)
    requires OpenSettled(s) && Counted(s) && OpenRead(s) && NoneEmpty(s)
    ensures NoneEmpty(Regrouped(b, s))
    ensures t in Regrouped(b, s).chats <==> Going(b, s, t) != []
  {
    var ks := Ascending(Sources(b, s));
    RefiledExactly(b, s, t);
    GoingIsKeptAndBrought(b, s, t);
    PhaseOneNoneEmpty(b, s, ks);
    PhaseTwoNoneEmpty(b, s, PhaseOne(b, s, ks), ks);
    assert |Bag(ChatAt(Regrouped(b, s), t).items)| == |ChatAt(Regrouped(b, s), t).items|;
    assert |Bag(Going(b, s, t))| == |Going(b, s, t)|;
  }

  /** A chat that is gone leaves an alias to the chat its last entry went to; other aliases stay until their key is a chat
      again that something was moved to. */
  lemma RefiledAliases(b: Book, s: State, k: Key)
    requires NoneEmpty(s)
    ensures var s' := Regrouped(b, s);
            && (k in s.chats && k !in s'.chats ==>
                  k in s'.alias && s'.alias[k] == b.ChatOf(s.chats[k].items[|s.chats[k].items| - 1].e))
            && (k !in s.chats && k in s.alias ==>
                  if k in s'.chats then k !in s'.alias else k in s'.alias && s'.alias[k] == s.alias[k])
            && (k !in s.chats && k !in s.alias ==> k !in s'.alias)
  {
    var s' := Regrouped(b, s);
    EmptiedOrReceives(b, s, k);
    if Empties(b, s, k) {
      LastIsLastTo(b, s.chats[k].items, k);
    }
  }

  lemma EmptiedOrReceives(b: Book, s: State, k: Key)
    ensures var s' := Regrouped(b, s);
            && (k in s'.chats <==> (k in s.chats && !Empties(b, s, k)) || Refilled(b, s, k))
            && (k in s'.alias <==> (k in s.alias || Empties(b, s, k)) && !Refilled(b, s, k))
            && (k in s'.alias ==> s'.alias[k] == if Empties(b, s, k) then LastTo(b, s.chats[k].items, k) else s.alias[k])
  {
    RegroupedShape(b, s);
    ReceivesMeans(b, s, k);
  }

  lemma LastIsLastTo(b: Book, items: seq<Item>, k: Key)
    requires items != [] && Part(b, items, k) == []
    ensures LastTo(b, items, k) == b.ChatOf(items[|items| - 1].e)
  {
    PartMeaning(b, items, k);
    assert items[|items| - 1] in items;
  }

  /** Every chat holds exactly the items that belong to it, whatever chat they were in, with their unread flags unless it is
      the open chat; a chat exists exactly if something belongs to it; and a chat that is gone leaves an alias to the chat
      its last entry went to. */
  ghost predicate RefiledTo(b: Book, s: State, s': State, t: Key) {
    && multiset(Entries(ChatAt(s', t).items)) == multiset(Entries(Going(b, s, t)))
    && (t != s'.open ==> multiset(ChatAt(s', t).items) == multiset(Going(b, s, t)))
    && (t == s'.open ==> forall it | it in ChatAt(s', t).items :: !it.unread)
    && (t in s'.chats <==> Going(b, s, t) != [])
    && (t in s.chats && t !in s'.chats ==> LeavesAlias(b, s.chats[t].items, s', t))
  }

  ghost predicate LeavesAlias(b: Book, items: seq<Item>, s': State, t: Key) {
    items != [] && t in s'.alias && s'.alias[t] == b.ChatOf(items[|items| - 1].e)
  }

  lemma RefiledAsTold(b: Book, s: State, t: Key)
    requires OpenSettled(s) && Counted(s) && OpenRead(s) && NoneEmpty(s)
    ensures RefiledTo(b, s, Regrouped(b, s), t)
  {
    RefiledExactly(b, s, t);
    RefiledChats(b, s, t);
    RefiledAliases(b, s, t);
  }
}
