/** What SetPeers does to the chats: the two phases as functions of the store's value. */
module Regroup {
  import opened KeyOrder
  import opened Directory
  import opened Sequences
  import opened Merging

  datatype Chat = Chat(items: seq<Item>, unread: int)

  const NoChat := Chat([], 0)

  /** `alias` maps a chat whose entries all moved to the chat they moved to. */
  datatype State = State(chats: map<Key, Chat>, open: Key, alias: map<Key, Key>)

  function Unread(items: seq<Item>): nat {
    if items == [] then 0 else (if items[0].unread then 1 else 0) + Unread(items[1..])
  }

  function Cleared(items: seq<Item>): (out: seq<Item>)
    ensures |out| == |items|
  {
    seq(|items|, i requires 0 <= i < |items| => Item(items[i].e, false))
  }

  /** Follow aliases from k, at most `fuel` of them, until a chat that exists or a key that has no alias. */
  function Follow(s: State, k: Key, fuel: nat): Key
    decreases fuel
  {
    if k in s.chats || k !in s.alias || fuel == 0 then k else Follow(s, s.alias[k], fuel - 1)
  }

  function Resolve(s: State, k: Key): Key { Follow(s, k, |s.alias| + 1) }

  // ---- scanning one chat ----

  function To(b: Book, t: Key): Item -> bool { (it: Item) => b.ChatOf(it.e) == t }

  function Part(b: Book, items: seq<Item>, t: Key): seq<Item> { Filter(items, To(b, t)) }

  /** The other chats that entries of chat k now belong to, in order of first appearance. */
  function Targets(b: Book, items: seq<Item>, k: Key): seq<Key> {
    if items == [] then []
    else
      var ts := Targets(b, items[..|items| - 1], k);
      var t := b.ChatOf(items[|items| - 1].e);
      if t == k || t in ts then ts else ts + [t]
  }

  /** The chat that the last entry to leave chat k belongs to, or k when none leaves. */
  function LastTo(b: Book, items: seq<Item>, k: Key): Key {
    if items == [] then k
    else if b.ChatOf(items[|items| - 1].e) != k then b.ChatOf(items[|items| - 1].e)
    else LastTo(b, items[..|items| - 1], k)
  }

  predicate IsSource(b: Book, s: State, k: Key) {
    k in s.chats && Scanned(k) && Targets(b, s.chats[k].items, k) != []
  }

  function Sources(b: Book, s: State): set<Key> { set k | k in s.chats && IsSource(b, s, k) }

  predicate Empties(b: Book, s: State, k: Key) {
    IsSource(b, s, k) && Part(b, s.chats[k].items, k) == []
  }

  // ---- phase one: every source shrinks to what it keeps ----

  function Shrink(b: Book, s: State, st: State, k: Key): State
    requires k in s.chats
  {
    var items := s.chats[k].items;
    var kept := Part(b, items, k);
    if kept == [] then
      State(st.chats - {k}, if st.open == k then LastTo(b, items, k) else st.open, st.alias[k := LastTo(b, items, k)])
    else st.(chats := st.chats[k := Chat(kept, Unread(kept))])
  }

  function PhaseOne(b: Book, s: State, ks: seq<Key>): State
    requires forall k | k in ks :: k in s.chats
  {
    if ks == [] then s else Shrink(b, s, PhaseOne(b, s, ks[..|ks| - 1]), ks[|ks| - 1])
  }

  // ---- phase two: every batch is merged into its target ----

  /** A batch arrives in a chat; in the open chat it counts as read. */
  function Received(c: Chat, items: seq<Item>, isOpen: bool): Chat {
    var merged := MergeByTime(c.items, items);
    if isOpen then Chat(Cleared(merged), 0) else Chat(merged, c.unread + Unread(items))
  }

  function Deposit(st: State, to: Key, items: seq<Item>): State {
    var c := if to in st.chats then st.chats[to] else NoChat;
    State(st.chats[to := Received(c, items, to == st.open)], st.open, st.alias - {to})
  }

  function DepositAll(b: Book, items: seq<Item>, st: State, ts: seq<Key>): State {
    if ts == [] then st
    else
      var t := ts[|ts| - 1];
      Deposit(DepositAll(b, items, st, ts[..|ts| - 1]), t, Part(b, items, t))
  }

  function PhaseTwo(b: Book, s: State, st: State, ks: seq<Key>): State
    requires forall k | k in ks :: k in s.chats
  {
    if ks == [] then st
    else
      var k := ks[|ks| - 1];
      DepositAll(b, s.chats[k].items, PhaseTwo(b, s, st, ks[..|ks| - 1]), Targets(b, s.chats[k].items, k))
  }

  ghost function Merged(b: Book, s: State): State {
    var ks := Ascending(Sources(b, s));
    PhaseTwo(b, s, PhaseOne(b, s, ks), ks)
  }

  /** The store after SetPeers, once the directory is b. */
  ghost function Regrouped(b: Book, s: State): State {
    var st := Merged(b, s);
    st.(open := Resolve(st, st.open))
  }

  // ---- facts about one scan ----

  lemma {:induction false} TargetsMeaning(b: Book, items: seq<Item>, k: Key)
    ensures forall t :: t in Targets(b, items, k) <==> t != k && exists it :: it in items && b.ChatOf(it.e) == t
    ensures forall i, j | 0 <= i < j < |Targets(b, items, k)| :: Targets(b, items, k)[i] != Targets(b, items, k)[j]
  {
    if items != [] {
      var n := |items| - 1;
      assert items == items[..n] + [items[n]];
      TargetsMeaning(b, items[..n], k);
    }
  }

  /** More entries add targets behind those there are, so targets stand in the order in which their first entries come. */
  lemma {:induction false} TargetsInOrder(b: Book, items: seq<Item>, k: Key, n: nat)
    requires n <= |items|
    ensures Targets(b, items[..n], k) <= Targets(b, items, k)
  {
    if n < |items| {
      var init := items[..|items| - 1];
      TargetsInOrder(b, init, k, n);
      assert init[..n] == items[..n];
      assert Targets(b, init, k) <= Targets(b, items, k);
    } else {
      assert items[..n] == items;
    }
  }

  /** The entry at m is the last one to leave chat k. */
  ghost predicate LastToLeave(b: Book, items: seq<Item>, k: Key, m: nat) {
    && m < |items| && b.ChatOf(items[m].e) != k
    && forall j | m < j < |items| :: b.ChatOf(items[j].e) == k
  }

  lemma {:induction false} LastToMeaning(b: Book, items: seq<Item>, k: Key)
    ensures if Targets(b, items, k) == [] then LastTo(b, items, k) == k
            else LastTo(b, items, k) in Targets(b, items, k)
    ensures if LastTo(b, items, k) == k then forall it | it in items :: b.ChatOf(it.e) == k
            else exists m: nat :: LastToLeave(b, items, k, m) && LastTo(b, items, k) == b.ChatOf(items[m].e)
  {
    if items != [] {
      var n := |items| - 1;
      assert items == items[..n] + [items[n]];
      LastToMeaning(b, items[..n], k);
      if b.ChatOf(items[n].e) != k {
        assert LastToLeave(b, items, k, n);
      } else if LastTo(b, items[..n], k) != k {
        var m: nat :| LastToLeave(b, items[..n], k, m) && LastTo(b, items[..n], k) == b.ChatOf(items[..n][m].e);
        assert LastToLeave(b, items, k, m);
      }
    }
  }

  lemma PartMeaning(b: Book, items: seq<Item>, t: Key)
    ensures forall it :: it in Part(b, items, t) <==> it in items && b.ChatOf(it.e) == t
  {
    FilterMembers(items, To(b, t));
  }

  lemma {:induction false} UnreadConcat(a: seq<Item>, b: seq<Item>)
    ensures Unread(a + b) == Unread(a) + Unread(b)
  {
    if a == [] {
      assert a + b == b;
    } else {
      assert (a + b)[1..] == a[1..] + b;
      UnreadConcat(a[1..], b);
    }
  }

  lemma {:induction false} UnreadMerge(dst: seq<Item>, add: seq<Item>)
    ensures Unread(Merge(dst, add)) == Unread(dst) + Unread(add)
    decreases |dst| + |add|
  {
    if dst != [] && add != [] {
      UnreadMerge(dst, add[1..]);
      UnreadMerge(dst[1..], add);
    }
  }

  /** The count is the number of unread items. */
  lemma {:induction false} UnreadCounts(items: seq<Item>)
    ensures Unread(items) == |set i | 0 <= i < |items| && items[i].unread|
  {
    if items != [] {
      var n := |items| - 1;
      var last := set i | 0 <= i < |items| && items[i].unread;
      var init := set i | 0 <= i < n && items[..n][i].unread;
      assert items == items[..n] + [items[n]] && items[n..] == [items[n]];
      UnreadConcat(items[..n], [items[n]]);
      UnreadCounts(items[..n]);
      assert last == init + if items[n].unread then {n} else {};
      assert Unread([items[n]]) == if items[n].unread then 1 else 0 by { assert [items[n]][1..] == []; }
    }
  }

  lemma {:induction false} UnreadNone(items: seq<Item>)
    ensures Unread(items) == 0 <==> forall it | it in items :: !it.unread
  {
    if items != [] {
      assert items == [items[0]] + items[1..];
      UnreadNone(items[1..]);
    }
  }
}
