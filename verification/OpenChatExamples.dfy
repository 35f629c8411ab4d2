/** Two stores in which SetPeers leaves the open key elsewhere than where Resolve now takes it. */
module OpenChatExamples {
  import opened Wrappers
  import opened KeyOrder
  import opened Directory
  import opened Sequences
  import opened Merging
  import opened Regroup
  import opened AliasChains
  import opened Loading
  import opened StoreRuns

  const Plain := Rules((s: string) => s, (s: string) => Some(s))

  function From(name: string, addr: string): Item {
    Item(Entry(0, true, "", name, addr, ""), false)
  }

  /** The chats "name:a" (open) and "name:b", each with one entry from its own address. */
  const TwoChats := State(
    map["name:a" := Chat([From("a", "1")], 0), "name:b" := Chat([From("b", "2")], 0)], "name:a", map[])

  /** A program comes there when it loads a history of two entries while no peer is known, and one chat is opened. */
  lemma TwoChatsReached()
    ensures var load := Load([From("a", "1").e, From("b", "2").e], []);
            && Allowed(Plain, Empty, load)
            && Step(Plain, Step(Plain, Empty, load), Op.Open("name:a")).st == TwoChats
  {
    var a, b := From("a", "1"), From("b", "2");
    var book := Book(Plain, EmptyIndex);
    assert book.ChatOf(a.e) == "name:a" && book.ChatOf(b.e) == "name:b" by {
      assert "name:" + "a" == "name:a" && "name:" + "b" == "name:b";
    }
    var s0 := Empty.st;
    assert AsRead([a.e, b.e]) == [a, b] && [a, b][..1] == [a] && [a][..0] == [];
    assert Put(book, s0, a).chats == map["name:a" := Chat([a], 0)] by {
      assert [] + [a] == [a];
    }
    assert PutAll(book, s0, []) == s0 && PutAll(book, s0, [a]) == Put(book, s0, a);
    assert PutAll(book, s0, [a, b]).chats == map["name:a" := Chat([a], 0), "name:b" := Chat([b], 0)] by {
      assert [] + [b] == [b];
    }
    assert Cleared([a]) == [a];
  }

  /** The peer at address 1 has the given ID or name, and so has the peer at address 2. */
  function Peers(id1: string, name1: string, id2: string, name2: string): seq<Peer> {
    [Peer(id1, name1, Some("1"), 0, true), Peer(id2, name2, Some("2"), 0, true)]
  }

  lemma SingleEntry(b: Book, it: Item, k: Key)
    ensures b.ChatOf(it.e) != k ==> Targets(b, [it], k) == [b.ChatOf(it.e)] && Part(b, [it], k) == []
    ensures b.ChatOf(it.e) != k ==> LastTo(b, [it], k) == b.ChatOf(it.e)
  {
    assert Targets(b, [], k) == [];
    assert [it][..0] == [];
    if b.ChatOf(it.e) != k {
      FilterNone([it], To(b, k));
    }
  }

  lemma BookByAddr(peers: seq<Peer>, e1: Entry, e2: Entry)
    requires |peers| == 2 && peers[0].ip == Some("1") && peers[1].ip == Some("2")
    requires e1.peerID == e2.peerID == "" && e1.peerAddr == "1" && e2.peerAddr == "2"
    ensures var b := Book(Plain, IndexOf(Plain, peers));
      b.ChatOf(e1) == Plain.PeerKey(peers[0]) && b.ChatOf(e2) == Plain.PeerKey(peers[1])
  {
    assert peers[..1][..0] == [] && peers[..1][0] == peers[0];
    var ix1 := IndexOf(Plain, peers[..1]);
    assert ix1 == Insert(Plain, IndexOf(Plain, []), peers[0]);
    assert IndexOf(Plain, peers) == Insert(Plain, ix1, peers[1]);
  }

  /** Both chats empty: the entry of "name:a" moves to x and that of "name:b" to y. */
  lemma BothMove(b: Book, x: Key, y: Key)
    requires b.ChatOf(From("a", "1").e) == x != "name:a" && b.ChatOf(From("b", "2").e) == y != "name:b"
    ensures Regrouped(b, TwoChats).open == if x == "name:b" then y else x
    ensures Resolve(Regrouped(b, TwoChats), "name:a") == if y == "name:a" then "name:a" else x
  {
    BothMoveOpen(b, x, y);
    BothMoveKey(b, x, y);
  }

  lemma BothMoveOpen(b: Book, x: Key, y: Key)
    requires b.ChatOf(From("a", "1").e) == x != "name:a" && b.ChatOf(From("b", "2").e) == y != "name:b"
    ensures Regrouped(b, TwoChats).open == if x == "name:b" then y else x
  {
    BothEmptied(b);
    SourceOrder();
    AscendsUnique(["name:a", "name:b"], Ascending(Sources(b, TwoChats)));
    SingleEntry(b, From("a", "1"), "name:a");
    SingleEntry(b, From("b", "2"), "name:b");
    HopsTwice(b, x, y);
    MergedOpen(b, TwoChats);
  }

  lemma BothMoveKey(b: Book, x: Key, y: Key)
    requires b.ChatOf(From("a", "1").e) == x != "name:a" && b.ChatOf(From("b", "2").e) == y != "name:b"
    ensures Resolve(Regrouped(b, TwoChats), "name:a") == if y == "name:a" then "name:a" else x
  {
    BothEmptied(b);
    SingleEntry(b, From("a", "1"), "name:a");
    RefilledFromB(b, x, y);
    ResolveEmptied(b, TwoChats, "name:a");
  }

  lemma RefilledFromB(b: Book, x: Key, y: Key)
    requires b.ChatOf(From("a", "1").e) == x != "name:a" && b.ChatOf(From("b", "2").e) == y != "name:b"
    ensures Refilled(b, TwoChats, "name:a") <==> y == "name:a"
  {
    BothEmptied(b);
    SingleEntry(b, From("a", "1"), "name:a");
    SingleEntry(b, From("b", "2"), "name:b");
    assert "name:b" in TwoChats.chats && TwoChats.chats["name:b"].items == [From("b", "2")];
    assert TwoChats.chats["name:a"].items == [From("a", "1")];
    assert TwoChats.chats.Keys == {"name:a", "name:b"};
  }

  lemma BothEmptied(b: Book)
    requires b.ChatOf(From("a", "1").e) != "name:a" && b.ChatOf(From("b", "2").e) != "name:b"
    ensures Empties(b, TwoChats, "name:a") && Empties(b, TwoChats, "name:b")
    ensures forall k :: k in ["name:a", "name:b"] <==> k in Sources(b, TwoChats)
  {
    SingleEntry(b, From("a", "1"), "name:a");
    SingleEntry(b, From("b", "2"), "name:b");
  }

  lemma HopsTwice(b: Book, x: Key, y: Key)
    requires Empties(b, TwoChats, "name:a") && Empties(b, TwoChats, "name:b")
    requires LastTo(b, [From("a", "1")], "name:a") == x != "name:a"
    requires LastTo(b, [From("b", "2")], "name:b") == y
    ensures Hops(b, TwoChats, ["name:a", "name:b"], "name:a") == if x == "name:b" then y else x
  {
    assert ["name:a", "name:b"][1..] == ["name:b"];
    assert Hops(b, TwoChats, ["name:a", "name:b"], "name:a") == Hops(b, TwoChats, ["name:b"], x);
    assert ["name:b"][1..] == [];
  }

  lemma SourceOrder()
    ensures Ascends(["name:a", "name:b"])
  {
    assert Less("a", "b");
    LessAfter("name:", "a", "b");
    assert "name:" + "a" == "name:a" && "name:" + "b" == "name:b";
  }

  lemma {:induction false} LessAfter(prefix: string, x: string, y: string)
    requires Less(x, y)
    ensures Less(prefix + x, prefix + y)
  {
    if prefix != "" {
      assert (prefix + x)[1..] == prefix[1..] + x && (prefix + y)[1..] == prefix[1..] + y;
      LessAfter(prefix[1..], x, y);
    } else {
      assert prefix + x == x && prefix + y == y;
    }
  }

  /** The entry of the open chat moves to "name:b", and the entry of "name:b" moves on to "id:c". The open key takes
      both hops; the entry it showed took one. */
  lemma SecondHop()
    ensures var b := Book(Plain, IndexOf(Plain, Peers("", "b", "c", "z")));
            && Regrouped(b, TwoChats).open == "id:c"
            && Resolve(Regrouped(b, TwoChats), TwoChats.open) == "name:b"
  {
    var peers := Peers("", "b", "c", "z");
    BookByAddr(peers, From("a", "1").e, From("b", "2").e);
    BothMove(Book(Plain, IndexOf(Plain, peers)), "name:b", "id:c");
  }

  /** The entry of the open chat moves to "id:c" while the entry of "name:b" moves into the open chat: the open key
      follows the entry, and Resolve stays with the key. */
  lemma EmptiedAndRefilled()
    ensures var b := Book(Plain, IndexOf(Plain, Peers("c", "z", "", "a")));
            && Regrouped(b, TwoChats).open == "id:c"
            && Resolve(Regrouped(b, TwoChats), TwoChats.open) == "name:a"
  {
    var peers := Peers("c", "z", "", "a");
    BookByAddr(peers, From("a", "1").e, From("b", "2").e);
    BothMove(Book(Plain, IndexOf(Plain, peers)), "id:c", "name:a");
  }
}
