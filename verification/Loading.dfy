/** Filing entries one by one, and loading a history into a store that may already hold entries. */
module Loading {
  import opened KeyOrder
  import opened Directory
  import opened Sequences
  import opened Merging
  import opened Regroup
  import opened RegroupFacts
  import opened RegroupInvariants
  import opened AliasChains

  function ChatAt(s: State, k: Key): Chat {
    if k in s.chats then s.chats[k] else NoChat
  }

  function Appended(c: Chat, it: Item): Chat {
    Chat(c.items + [it], c.unread + if it.unread then 1 else 0)
  }

  /** An item goes to the end of the chat that its entry belongs to. */
  function Put(b: Book, s: State, it: Item): State {
    var k := b.ChatOf(it.e);
    s.(chats := s.chats[k := Appended(ChatAt(s, k), it)])
  }

  function PutAll(b: Book, s: State, items: seq<Item>): State {
    if items == [] then s else Put(b, PutAll(b, s, items[..|items| - 1]), items[|items| - 1])
  }

  function AsRead(entries: seq<Entry>): (items: seq<Item>)
    ensures |items| == |entries|
  {
    seq(|entries|, i requires 0 <= i < |entries| => Item(entries[i], false))
  }

  /** The chats of s are filed again, in the given order. */
  function Refiled(b: Book, s: State, st: State, order: seq<Key>): State
    requires forall k | k in order :: k in s.chats
  {
    if order == [] then st
    else PutAll(b, Refiled(b, s, st, order[..|order| - 1]), s.chats[order[|order| - 1]].items)
  }

  /** Load: the entries in file order, none of them unread, and then what was there, chat by chat. */
  function Loaded(b: Book, s: State, entries: seq<Entry>, order: seq<Key>): State
    requires forall k | k in order :: k in s.chats
  {
    Refiled(b, s, PutAll(b, s.(chats := map[]), AsRead(entries)), order)
  }

  /** An order in which a loop over the map can meet the chats. */
  ghost predicate Visits(order: seq<Key>, s: State) {
    && (forall k :: k in order <==> k in s.chats)
    && forall i, j | 0 <= i < j < |order| :: order[i] != order[j]
  }

  // ---- what a chat holds afterwards ----

  /** k has in t what it has in s and then the items. */
  ghost predicate Gains(s: State, t: State, k: Key, items: seq<Item>) {
    && ChatAt(t, k) == Chat(ChatAt(s, k).items + items, ChatAt(s, k).unread + Unread(items))
    && (k in t.chats <==> k in s.chats || items != [])
    && t.open == s.open && t.alias == s.alias
  }

  lemma GainsTwice(s: State, t: State, u: State, k: Key, x: seq<Item>, y: seq<Item>)
    requires Gains(s, t, k, x) && Gains(t, u, k, y)
    ensures Gains(s, u, k, x + y)
  {
    UnreadConcat(x, y);
    assert ChatAt(s, k).items + (x + y) == ChatAt(s, k).items + x + y;
  }

  lemma PutAt(b: Book, s: State, it: Item, k: Key)
    ensures Gains(s, Put(b, s, it), k, Part(b, [it], k))
  {
    assert Part(b, [it], k) == if b.ChatOf(it.e) == k then [it] else [] by {
      assert [it][1..] == [] && Filter([], To(b, k)) == [];
    }
    assert Unread([it]) == if it.unread then 1 else 0 by {
      assert [it][1..] == [] && Unread([]) == 0;
    }
    assert ChatAt(s, k).items + [] == ChatAt(s, k).items;
  }

  lemma {:induction false} PutAllAt(b: Book, s: State, items: seq<Item>, k: Key)
    ensures Gains(s, PutAll(b, s, items), k, Part(b, items, k))
  {
    if items == [] {
      assert ChatAt(s, k).items + [] == ChatAt(s, k).items;
    } else {
      var n := |items| - 1;
      var before := PutAll(b, s, items[..n]);
      PutAllAt(b, s, items[..n], k);
      PutAt(b, before, items[n], k);
      GainsTwice(s, before, Put(b, before, items[n]), k, Part(b, items[..n], k), Part(b, [items[n]], k));
      FilterConcat(items[..n], [items[n]], To(b, k));
      assert items[..n] + [items[n]] == items;
    }
  }

  /** What belongs to k among the items of the chats, in the given order. */
  function PartsOf(b: Book, s: State, order: seq<Key>, k: Key): seq<Item>
    requires forall j | j in order :: j in s.chats
  {
    if order == [] then []
    else PartsOf(b, s, order[..|order| - 1], k) + Part(b, s.chats[order[|order| - 1]].items, k)
  }

  lemma {:induction false} RefiledAt(b: Book, s: State, st: State, order: seq<Key>, k: Key)
    requires forall j | j in order :: j in s.chats
    ensures Gains(st, Refiled(b, s, st, order), k, PartsOf(b, s, order, k))
  {
    if order == [] {
      assert ChatAt(st, k).items + [] == ChatAt(st, k).items;
    } else {
      var n := |order| - 1;
      var before := Refiled(b, s, st, order[..n]);
      var items := s.chats[order[n]].items;
      RefiledAt(b, s, st, order[..n], k);
      PutAllAt(b, before, items, k);
      GainsTwice(st, before, PutAll(b, before, items), k, PartsOf(b, s, order[..n], k), Part(b, items, k));
    }
  }

  /** Whatever the store held and in whatever order its chats are met: a chat holds the loaded entries that belong to it, and
      after them, as read or unread as they were, the earlier ones that do. */
  lemma LoadedAt(b: Book, s: State, entries: seq<Entry>, order: seq<Key>, k: Key)
    requires Visits(order, s)
    ensures var loaded, kept := Part(b, AsRead(entries), k), PartsOf(b, s, order, k);
            && ChatAt(Loaded(b, s, entries, order), k) == Chat(loaded + kept, Unread(kept))
            && (k in Loaded(b, s, entries, order).chats <==> loaded + kept != [])
    ensures Loaded(b, s, entries, order).open == s.open && Loaded(b, s, entries, order).alias == s.alias
  {
    var none := s.(chats := map[]);
    var st := PutAll(b, none, AsRead(entries));
    PutAllAt(b, none, AsRead(entries), k);
    RefiledAt(b, s, st, order, k);
    GainsTwice(none, st, Loaded(b, s, entries, order), k, Part(b, AsRead(entries), k), PartsOf(b, s, order, k));
    NoneUnread(b, entries, k);
    UnreadConcat(Part(b, AsRead(entries), k), PartsOf(b, s, order, k));
    assert [] + (Part(b, AsRead(entries), k) + PartsOf(b, s, order, k)) ==
           Part(b, AsRead(entries), k) + PartsOf(b, s, order, k);
  }

  lemma NoneUnread(b: Book, entries: seq<Entry>, k: Key)
    ensures Unread(Part(b, AsRead(entries), k)) == 0
  {
    PartMeaning(b, AsRead(entries), k);
    UnreadNone(Part(b, AsRead(entries), k));
  }

  // ---- nothing is lost ----

  lemma PutTotal(b: Book, s: State, it: Item)
    ensures Total(Put(b, s, it).chats) == Total(s.chats) + multiset{it.e}
  {
    var k := b.ChatOf(it.e);
    BagConcat(ChatAt(s, k).items, [it]);
    assert Entries([it]) == [it.e];
    TotalUpdate(s.chats, k, Appended(ChatAt(s, k), it));
    if k in s.chats {
      TotalSplit(s.chats, k);
    } else {
      assert s.chats - {k} == s.chats;
      assert Entries(NoChat.items) == [];
    }
  }

  lemma {:induction false} PutAllTotal(b: Book, s: State, items: seq<Item>)
    ensures Total(PutAll(b, s, items).chats) == Total(s.chats) + Bag(items)
  {
    if items == [] {
      assert Entries(items) == [];
    } else {
      var n := |items| - 1;
      PutAllTotal(b, s, items[..n]);
      PutTotal(b, PutAll(b, s, items[..n]), items[n]);
      BagLast(items);
    }
  }

  lemma BagLast(items: seq<Item>)
    requires items != []
    ensures Bag(items) == Bag(items[..|items| - 1]) + multiset{items[|items| - 1].e}
  {
    var es := Entries(items);
    assert Entries(items[..|items| - 1]) == es[..|items| - 1];
    assert es == es[..|items| - 1] + [es[|items| - 1]];
  }

  lemma {:induction false} RefiledTotal(b: Book, s: State, st: State, order: seq<Key>, rest: map<Key, Chat>)
    requires (forall k | k in order :: k in s.chats) && (forall i, j | 0 <= i < j < |order| :: order[i] != order[j])
    requires rest.Keys == (set k | k in order) && forall k | k in order :: rest[k] == s.chats[k]
    ensures Total(Refiled(b, s, st, order).chats) == Total(st.chats) + Total(rest)
  {
    if order == [] {
      assert rest == map[];
    } else {
      var n := |order| - 1;
      assert order == order[..n] + [order[n]];
      RefiledTotal(b, s, st, order[..n], rest - {order[n]});
      PutAllTotal(b, Refiled(b, s, st, order[..n]), s.chats[order[n]].items);
      TotalSplit(rest, order[n]);
    }
  }

  /** A load neither loses nor duplicates what was there. */
  lemma LoadedConserves(b: Book, s: State, entries: seq<Entry>, order: seq<Key>)
    requires Visits(order, s)
    ensures Total(Loaded(b, s, entries, order).chats) == multiset(entries) + Total(s.chats)
  {
    PutAllTotal(b, s.(chats := map[]), AsRead(entries));
    assert Entries(AsRead(entries)) == entries;
    RefiledTotal(b, s, PutAll(b, s.(chats := map[]), AsRead(entries)), order, s.chats);
  }

  // ---- a store in which every entry is where it belongs ----

  /** No chat is empty, and no entry would be filed elsewhere. */
  ghost predicate AtHome(b: Book, s: State) {
    forall k | k in s.chats :: s.chats[k].items != [] && forall it | it in s.chats[k].items :: b.ChatOf(it.e) == k
  }

  lemma PutAtHome(b: Book, s: State, it: Item)
    requires AtHome(b, s)
    ensures AtHome(b, Put(b, s, it))
  {
  }

  lemma {:induction false} PartsAtHome(b: Book, s: State, order: seq<Key>, k: Key)
    requires AtHome(b, s) && (forall j | j in order :: j in s.chats)
    requires forall i, j | 0 <= i < j < |order| :: order[i] != order[j]
    ensures PartsOf(b, s, order, k) == if k in order then s.chats[k].items else []
  {
    if order != [] {
      var n := |order| - 1;
      assert order == order[..n] + [order[n]];
      PartsAtHome(b, s, order[..n], k);
      if order[n] == k {
        FilterAll(s.chats[k].items, To(b, k));
      } else {
        FilterNone(s.chats[order[n]].items, To(b, k));
      }
    }
  }

  /** There every chat keeps its items behind the loaded ones, whatever the order, and all is at home again. */
  lemma LoadedAtHome(b: Book, s: State, entries: seq<Entry>, order: seq<Key>, k: Key)
    requires AtHome(b, s) && Visits(order, s)
    ensures ChatAt(Loaded(b, s, entries, order), k) ==
            Chat(Part(b, AsRead(entries), k) + ChatAt(s, k).items, Unread(ChatAt(s, k).items))
    ensures k in Loaded(b, s, entries, order).chats <==> k in s.chats || Part(b, AsRead(entries), k) != []
  {
    LoadedAt(b, s, entries, order, k);
    PartsAtHome(b, s, order, k);
  }

  lemma LoadedStaysHome(b: Book, s: State, entries: seq<Entry>, order: seq<Key>)
    requires AtHome(b, s) && Visits(order, s)
    ensures AtHome(b, Loaded(b, s, entries, order))
  {
    var s' := Loaded(b, s, entries, order);
    forall k | k in s'.chats
      ensures s'.chats[k].items != [] && forall it | it in s'.chats[k].items :: b.ChatOf(it.e) == k
    {
      LoadedAtHome(b, s, entries, order, k);
      PartMeaning(b, AsRead(entries), k);
    }
  }
}
