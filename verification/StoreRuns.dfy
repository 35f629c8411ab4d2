/** The calls on a chat store as functions of its value, and what holds after any sequence of them. */
module StoreRuns {
  import opened Wrappers
  import opened KeyOrder
  import opened Directory
  import opened Runs
  import opened Merging
  import opened Regroup
  import opened RegroupFacts
  import opened RegroupInvariants
  import opened AliasChains
  import opened Loading

  datatype Snapshot = Snapshot(index: Index, st: State)

  const Empty := Snapshot(EmptyIndex, State(map[], "", map[]))

  /** Add: an incoming entry is unread unless its chat is the open one. */
  function Added(b: Book, s: State, e: Entry): State {
    Put(b, s, Item(e, e.incoming && b.ChatOf(e) != s.open))
  }

  function OpenedAt(s: State, k: Key): State {
    State(if k in s.chats then s.chats[k := Chat(Cleared(s.chats[k].items), 0)] else s.chats, k, s.alias)
  }

  /** Open: the chat the key leads to is the open one, and all of it counts as read. */
  function Opened(s: State, key: Key): State { OpenedAt(s, Resolve(s, key)) }

  /** The order of a load is the one in which it meets the chats that are there. */
  datatype Op = Load(entries: seq<Entry>, order: seq<Key>) | Add(e: Entry) | Open(key: Key) | SetPeers(peers: seq<Peer>)

  /** A load comes while every entry is where it belongs, as it is until the directory first changes. */
  ghost predicate Allowed(r: Rules, snap: Snapshot, op: Op) {
    op.Load? ==> Visits(op.order, snap.st) && AtHome(Book(r, snap.index), snap.st)
  }

  ghost function Step(r: Rules, snap: Snapshot, op: Op): Snapshot
    requires op.Load? ==> Visits(op.order, snap.st)
  {
    var b := Book(r, snap.index);
    match op
    case Load(entries, order) => snap.(st := Loaded(b, snap.st, entries, order))
    case Add(e) => snap.(st := Added(b, snap.st, e))
    case Open(key) => snap.(st := Opened(snap.st, key))
    case SetPeers(peers) =>
      var b' := Book(r, IndexOf(r, peers));
      Snapshot(b'.index, Regrouped(b', snap.st))
  }

  /** What a call does, if it is allowed. */
  ghost function Calls(r: Rules): (Snapshot, Op) -> Option<Snapshot> {
    (snap: Snapshot, op: Op) => if Allowed(r, snap, op) then Some(Step(r, snap, op)) else None
  }

  /** The states of a run from the empty store, one more than there are calls. */
  ghost predicate FromEmpty(r: Rules, ops: seq<Op>, run: seq<Snapshot>) { IsRun(Calls(r), run, ops) && run[0] == Empty }

  /** What holds after every call. */
  ghost predicate Sound(b: Book, s: State) {
    && Anchored(s) && Classified(b, s)
    && Counted(s) && OpenRead(s)
    && OpenSettled(s) && Routed(s)
  }

  ghost predicate Inv(r: Rules, snap: Snapshot) { Sound(Book(r, snap.index), snap.st) }

  // ---- one call ----

  lemma AppendedFacts(c: Chat, it: Item)
    ensures Bag(Appended(c, it).items) == Bag(c.items) + multiset{it.e}
    ensures c.unread == Unread(c.items) ==> Appended(c, it).unread == Unread(Appended(c, it).items)
  {
    BagConcat(c.items, [it]);
    assert Entries([it]) == [it.e];
    UnreadConcat(c.items, [it]);
  }

  /** A key that gets a chat leaves every chain of aliases ending at a chat. */
  lemma MoreChatsRouted(s: State, s': State)
    requires Routed(s) && s'.alias == s.alias && s.chats.Keys <= s'.chats.Keys
    ensures Routed(s')
  {
    var rank :| Ranked(s, rank);
    assert Ranked(s', rank);
  }

  lemma PutFiled(b: Book, s: State, it: Item)
    requires Filed(b, s)
    ensures Filed(b, Put(b, s, it))
  {
    var k := b.ChatOf(it.e);
    assert Entries(NoChat.items) == [];
    assert Fits(b, k, Bag(ChatAt(s, k).items)) && Fits(b, k, multiset{it.e});
    FitsAdd(b, k, Bag(ChatAt(s, k).items), multiset{it.e});
    AppendedFacts(ChatAt(s, k), it);
  }

  lemma PutCounted(b: Book, s: State, it: Item)
    requires Counted(s) && OpenRead(s) && (it.unread ==> b.ChatOf(it.e) != s.open)
    ensures Counted(Put(b, s, it)) && OpenRead(Put(b, s, it))
  {
    AppendedFacts(ChatAt(s, b.ChatOf(it.e)), it);
  }

  lemma PutKeepsInv(b: Book, s: State, it: Item)
    requires Sound(b, s) && (it.unread ==> b.ChatOf(it.e) != s.open)
    ensures Sound(b, Put(b, s, it))
  {
    FiledMeaning(b, s);
    FiledMeaning(b, Put(b, s, it));
    PutFiled(b, s, it);
    PutCounted(b, s, it);
    MoreChatsRouted(s, Put(b, s, it));
  }

  lemma AtHomeIsFiled(b: Book, s: State)
    requires AtHome(b, s)
    ensures Anchored(s) && Classified(b, s)
  {
    forall k | k in s.chats ensures Fits(b, k, Bag(s.chats[k].items)) {
      BagMember(s.chats[k].items);
    }
    FiledMeaning(b, s);
  }

  lemma LoadCounted(b: Book, s: State, entries: seq<Entry>, order: seq<Key>, k: Key)
    requires AtHome(b, s) && Visits(order, s) && Counted(s) && OpenRead(s)
    ensures var c := ChatAt(Loaded(b, s, entries, order), k); c.unread == Unread(c.items) && (k == s.open ==> c.unread == 0)
  {
    LoadedAtHome(b, s, entries, order, k);
    NoneUnread(b, entries, k);
    UnreadConcat(Part(b, AsRead(entries), k), ChatAt(s, k).items);
  }

  lemma LoadKeepsInv(b: Book, s: State, entries: seq<Entry>, order: seq<Key>)
    requires AtHome(b, s) && Visits(order, s) && Sound(b, s)
    ensures Sound(b, Loaded(b, s, entries, order))
  {
    var s' := Loaded(b, s, entries, order);
    LoadedStaysHome(b, s, entries, order);
    AtHomeIsFiled(b, s');
    LoadedAt(b, s, entries, order, s.open);
    forall k | k in s'.chats || k in s.chats
      ensures k in s.chats ==> k in s'.chats
      ensures k in s'.chats ==> s'.chats[k].unread == Unread(s'.chats[k].items) && (k == s.open ==> s'.chats[k].unread == 0)
    {
      LoadedAtHome(b, s, entries, order, k);
      LoadCounted(b, s, entries, order, k);
    }
    MoreChatsRouted(s, s');
  }

  lemma OpenFiled(b: Book, s: State, k: Key)
    requires Filed(b, s)
    ensures Filed(b, OpenedAt(s, k))
  {
    if k in s.chats {
      ClearedKeepsEntries(s.chats[k].items);
    }
  }

  lemma OpenCounted(s: State, k: Key)
    requires Counted(s)
    ensures Counted(OpenedAt(s, k)) && OpenRead(OpenedAt(s, k))
  {
    if k in s.chats {
      UnreadNone(Cleared(s.chats[k].items));
    }
  }

  lemma OpenKeepsInv(b: Book, s: State, key: Key)
    requires Sound(b, s)
    ensures Sound(b, Opened(s, key))
  {
    FiledMeaning(b, s);
    FiledMeaning(b, Opened(s, key));
    OpenFiled(b, s, Resolve(s, key));
    OpenCounted(s, Resolve(s, key));
    ResolveReachesChat(s, key, |s.alias|);
    MoreChatsRouted(s, Opened(s, key));
  }

  lemma StepKeepsInv(r: Rules, snap: Snapshot, op: Op)
    requires Inv(r, snap) && Allowed(r, snap, op)
    ensures Inv(r, Step(r, snap, op))
  {
    var b := Book(r, snap.index);
    match op
    case Load(entries, order) => LoadKeepsInv(b, snap.st, entries, order);
    case Add(e) => PutKeepsInv(b, snap.st, Item(e, e.incoming && b.ChatOf(e) != snap.st.open));
    case Open(key) => OpenKeepsInv(b, snap.st, key);
    case SetPeers(peers) => SetPeersKeepsInv(Book(r, IndexOf(r, peers)), snap.st);
  }

  lemma SetPeersKeepsInv(b: Book, s: State)
    requires Anchored(s) && Counted(s) && OpenRead(s) && OpenSettled(s) && Routed(s)
    ensures Sound(b, Regrouped(b, s))
  {
    RegroupedFiled(b, s);
    RegroupedOpenRead(b, s);
    RegroupedRouted(b, s);
    OpenFollowsResolve(b, s);
  }

  lemma EmptyKeepsInv(r: Rules)
    ensures Inv(r, Empty)
  {
    assert Ranked(Empty.st, map[]);
  }

  lemma CallKeepsInv(r: Rules, ops: seq<Op>, run: seq<Snapshot>, i: nat)
    requires FromEmpty(r, ops, run) && 0 < i <= |ops| && Inv(r, run[i - 1])
    ensures Inv(r, run[i])
  {
    StepAt(Calls(r), run, ops, i - 1);
    StepKeepsInv(r, run[i - 1], ops[i - 1]);
  }

  lemma {:induction false} RunKeepsInv(r: Rules, ops: seq<Op>, run: seq<Snapshot>, i: nat)
    requires FromEmpty(r, ops, run) && i <= |ops|
    ensures Inv(r, run[i])
  {
    if i == 0 {
      EmptyKeepsInv(r);
    } else {
      RunKeepsInv(r, ops, run, i - 1);
      CallKeepsInv(r, ops, run, i);
    }
  }

  lemma {:induction false} HomeUntilSetPeers(r: Rules, ops: seq<Op>, run: seq<Snapshot>, i: nat)
    requires FromEmpty(r, ops, run) && i <= |ops| && forall j | 0 <= j < i :: !ops[j].SetPeers?
    ensures AtHome(Book(r, run[i].index), run[i].st)
  {
    if i > 0 {
      HomeUntilSetPeers(r, ops, run, i - 1);
      CallStaysHome(r, ops, run, i);
    }
  }

  lemma CallStaysHome(r: Rules, ops: seq<Op>, run: seq<Snapshot>, i: nat)
    requires FromEmpty(r, ops, run) && 0 < i <= |ops| && !ops[i - 1].SetPeers?
    requires AtHome(Book(r, run[i - 1].index), run[i - 1].st)
    ensures AtHome(Book(r, run[i].index), run[i].st)
  {
    StepAt(Calls(r), run, ops, i - 1);
    StepStaysHome(r, run[i - 1], ops[i - 1]);
  }

  /** Until the directory first changes every entry is where it belongs, so a load may come at any time before that. */
  lemma LoadableUntilSetPeers(r: Rules, ops: seq<Op>, run: seq<Snapshot>, i: nat, entries: seq<Entry>, order: seq<Key>)
    requires FromEmpty(r, ops, run) && i <= |ops| && forall j | 0 <= j < i :: !ops[j].SetPeers?
    ensures Allowed(r, run[i], Load(entries, order)) <==> Visits(order, run[i].st)
  {
    HomeUntilSetPeers(r, ops, run, i);
  }

  lemma StepStaysHome(r: Rules, snap: Snapshot, op: Op)
    requires AtHome(Book(r, snap.index), snap.st) && Allowed(r, snap, op) && !op.SetPeers?
    ensures AtHome(Book(r, snap.index), Step(r, snap, op).st)
  {
    var b := Book(r, snap.index);
    match op
    case Load(entries, order) => LoadedStaysHome(b, snap.st, entries, order);
    case Add(e) => PutAtHome(b, snap.st, Item(e, e.incoming && b.ChatOf(e) != snap.st.open));
    case Open(key) =>
      var k := Resolve(snap.st, key);
      if k in snap.st.chats {
        ClearedHome(b, snap.st.chats[k].items, k);
      }
  }

  lemma ClearedHome(b: Book, items: seq<Item>, k: Key)
    requires items != [] && forall it | it in items :: b.ChatOf(it.e) == k
    ensures Cleared(items) != [] && forall it | it in Cleared(items) :: b.ChatOf(it.e) == k
  {
  }

  // ---- nothing is lost ----

  lemma OpenTotal(s: State, key: Key)
    ensures Total(Opened(s, key).chats) == Total(s.chats)
  {
    var k := Resolve(s, key);
    if k in s.chats {
      ClearedKeepsEntries(s.chats[k].items);
      TotalSplit(s.chats, k);
      TotalUpdate(s.chats, k, Chat(Cleared(s.chats[k].items), 0));
    }
  }

  /** All that has arrived, once the call has: what a load brings counts as earlier than what was there. */
  function Arrived(before: seq<Entry>, op: Op): seq<Entry> {
    match op
    case Load(entries, _) => entries + before
    case Add(e) => before + [e]
    case _ => before
  }

  lemma StepTotal(r: Rules, snap: Snapshot, op: Op, before: seq<Entry>)
    requires Allowed(r, snap, op) && Total(snap.st.chats) == multiset(before)
    ensures Total(Step(r, snap, op).st.chats) == multiset(Arrived(before, op))
  {
    var b := Book(r, snap.index);
    match op
    case Load(entries, order) => LoadedConserves(b, snap.st, entries, order);
    case Add(e) => PutTotal(b, snap.st, Item(e, e.incoming && b.ChatOf(e) != snap.st.open));
    case Open(key) => OpenTotal(snap.st, key);
    case SetPeers(peers) => RegroupedConserves(Book(r, IndexOf(r, peers)), snap.st);
  }

  function Arrivals(ops: seq<Op>): seq<Entry> {
    if ops == [] then [] else Arrived(Arrivals(ops[..|ops| - 1]), ops[|ops| - 1])
  }

  lemma RunPrefix(r: Rules, ops: seq<Op>, run: seq<Snapshot>)
    requires FromEmpty(r, ops, run) && ops != []
    ensures FromEmpty(r, ops[..|ops| - 1], run[..|ops|])
    ensures Allowed(r, run[|ops| - 1], ops[|ops| - 1])
    ensures Step(r, run[|ops| - 1], ops[|ops| - 1]) == run[|ops|]
  {
    var n := |ops| - 1;
    StepAt(Calls(r), run, ops, n);
    forall i | 0 <= i < n ensures Calls(r)(run[..n + 1][i], ops[..n][i]) == Some(run[..n + 1][i + 1]) {
      StepAt(Calls(r), run, ops, i);
    }
  }

  /** After any run the chats hold exactly the entries that arrived, each as often as it arrived. */
  lemma {:induction false} RunConserves(r: Rules, ops: seq<Op>, run: seq<Snapshot>)
    requires FromEmpty(r, ops, run)
    ensures Total(run[|ops|].st.chats) == multiset(Arrivals(ops))
  {
    if ops != [] {
      var n := |ops| - 1;
      RunPrefix(r, ops, run);
      RunConserves(r, ops[..n], run[..n + 1]);
      StepTotal(r, run[n], ops[n], Arrivals(ops[..n]));
    }
  }

  // ---- old keys keep working ----

  lemma StepKeepsKeys(r: Rules, snap: Snapshot, op: Op, k: Key)
    requires Inv(r, snap) && Allowed(r, snap, op) && (k in snap.st.chats || k in snap.st.alias)
    ensures k in Step(r, snap, op).st.chats || k in Step(r, snap, op).st.alias
  {
    match op
    case Load(entries, order) =>
      LoadedAt(Book(r, snap.index), snap.st, entries, order, k);
      LoadedAtHome(Book(r, snap.index), snap.st, entries, order, k);
    case Add(e) =>
    case Open(key) =>
    case SetPeers(peers) => RegroupedRouted(Book(r, IndexOf(r, peers)), snap.st);
  }

  lemma KeyKept(r: Rules, ops: seq<Op>, run: seq<Snapshot>, k: Key, i: nat)
    requires FromEmpty(r, ops, run) && i < |ops| && (k in run[i].st.chats || k in run[i].st.alias)
    ensures k in run[i + 1].st.chats || k in run[i + 1].st.alias
  {
    RunKeepsInv(r, ops, run, i);
    StepAt(Calls(r), run, ops, i);
    StepKeepsKeys(r, run[i], ops[i], k);
  }

  lemma {:induction false} KeysKept(r: Rules, ops: seq<Op>, run: seq<Snapshot>, k: Key, i: nat, j: nat)
    requires FromEmpty(r, ops, run) && i <= j <= |ops| && k in run[i].st.chats
    ensures k in run[j].st.chats || k in run[j].st.alias
    decreases j
  {
    if i < j {
      KeysKept(r, ops, run, k, i, j - 1);
      KeyKept(r, ops, run, k, j - 1);
    }
  }

  /** Every key that ever had a chat resolves to a live chat, however often its entries were regrouped since. */
  lemma EverLiveKeysResolve(r: Rules, ops: seq<Op>, run: seq<Snapshot>, k: Key, i: nat, j: nat)
    requires FromEmpty(r, ops, run) && i <= j <= |ops| && k in run[i].st.chats
    ensures Resolve(run[j].st, k) in run[j].st.chats
  {
    KeysKept(r, ops, run, k, i, j);
    RunKeepsInv(r, ops, run, j);
    ResolveReachesChat(run[j].st, k, |run[j].st.alias|);
  }

  // ---- time order ----

  ghost predicate NoLaterThan(s: State, t: int) {
    forall e | e in Total(s.chats) :: e.time <= t
  }

  ghost predicate Nondecreasing(es: seq<Entry>) {
    forall i, j | 0 <= i < j < |es| :: es[i].time <= es[j].time
  }

  lemma ItemsInTotal(s: State, k: Key)
    requires k in s.chats
    ensures forall it | it in s.chats[k].items :: it.e in Total(s.chats)
  {
    TotalSplit(s.chats, k);
    BagMember(s.chats[k].items);
  }

  lemma PutSorted(b: Book, s: State, it: Item)
    requires TimeSorted(s) && NoLaterThan(s, it.e.time)
    ensures TimeSorted(Put(b, s, it))
  {
    var k := b.ChatOf(it.e);
    if k in s.chats {
      ItemsInTotal(s, k);
    }
  }

  lemma LoadSorted(b: Book, s: State, entries: seq<Entry>, order: seq<Key>, before: seq<Entry>)
    requires AtHome(b, s) && Visits(order, s) && TimeSorted(s)
    requires Total(s.chats) == multiset(before) && Nondecreasing(entries + before)
    ensures TimeSorted(Loaded(b, s, entries, order))
  {
    var s' := Loaded(b, s, entries, order);
    NondecreasingParts(entries, before);
    forall k | k in s'.chats ensures Sorted(s'.chats[k].items) {
      LoadedAtHome(b, s, entries, order, k);
      PartSorted(b, entries, k);
      if k in s.chats { ItemsInTotal(s, k); }
      JoinSorted(Part(b, AsRead(entries), k), ChatAt(s, k).items, entries, before);
    }
  }

  lemma PartSorted(b: Book, entries: seq<Entry>, k: Key)
    requires Nondecreasing(entries)
    ensures Sorted(Part(b, AsRead(entries), k))
    ensures forall it | it in Part(b, AsRead(entries), k) :: it.e in entries
  {
    assert Sorted(AsRead(entries));
    FilterSorted(AsRead(entries), To(b, k));
    PartMeaning(b, AsRead(entries), k);
  }

  lemma JoinSorted(x: seq<Item>, y: seq<Item>, early: seq<Entry>, late: seq<Entry>)
    requires Sorted(x) && Sorted(y) && forall e, d | e in early && d in late :: e.time <= d.time
    requires (forall it | it in x :: it.e in early) && (forall it | it in y :: it.e in late)
    ensures Sorted(x + y)
  {
    forall i, j | 0 <= i < |x| && 0 <= j < |y| ensures x[i].e.time <= y[j].e.time {
      assert x[i] in x && y[j] in y;
    }
  }

  /** When entries arrive in nondecreasing time, with what is loaded before what was there, every chat is in time order
      after any run. */
  lemma {:induction false} RunSorted(r: Rules, ops: seq<Op>, run: seq<Snapshot>)
    requires FromEmpty(r, ops, run) && Nondecreasing(Arrivals(ops))
    ensures TimeSorted(run[|ops|].st)
  {
    if ops != [] {
      var n := |ops| - 1;
      var before := Arrivals(ops[..n]);
      RunPrefix(r, ops, run);
      EarlierNondecreasing(before, ops[n]);
      RunSorted(r, ops[..n], run[..n + 1]);
      RunConserves(r, ops[..n], run[..n + 1]);
      StepSorted(r, run[n], ops[n], before);
    }
  }

  lemma EarlierNondecreasing(before: seq<Entry>, op: Op)
    requires Nondecreasing(Arrived(before, op))
    ensures Nondecreasing(before)
  {
    match op
    case Load(entries, _) => NondecreasingParts(entries, before);
    case Add(e) => NondecreasingParts(before, [e]);
    case _ =>
  }

  lemma NondecreasingParts(a: seq<Entry>, b: seq<Entry>)
    requires Nondecreasing(a + b)
    ensures Nondecreasing(a) && Nondecreasing(b)
    ensures forall x, y | x in a && y in b :: x.time <= y.time
  {
    forall i, j | 0 <= i < j < |a| ensures a[i].time <= a[j].time {
      assert a[i] == (a + b)[i] && a[j] == (a + b)[j];
    }
    forall i, j | 0 <= i < j < |b| ensures b[i].time <= b[j].time {
      assert b[i] == (a + b)[|a| + i] && b[j] == (a + b)[|a| + j];
    }
    forall x, y | x in a && y in b ensures x.time <= y.time {
      var i :| 0 <= i < |a| && a[i] == x;
      var j :| 0 <= j < |b| && b[j] == y;
      assert a[i] == (a + b)[i] && b[j] == (a + b)[|a| + j];
    }
  }

  lemma StepSorted(r: Rules, snap: Snapshot, op: Op, before: seq<Entry>)
    requires TimeSorted(snap.st) && Allowed(r, snap, op)
    requires Total(snap.st.chats) == multiset(before) && Nondecreasing(Arrived(before, op))
    ensures TimeSorted(Step(r, snap, op).st)
  {
    var b := Book(r, snap.index);
    match op
    case Load(entries, order) => LoadSorted(b, snap.st, entries, order, before);
    case Add(e) =>
      NondecreasingParts(before, [e]);
      assert e in [e];
      PutSorted(b, snap.st, Item(e, e.incoming && b.ChatOf(e) != snap.st.open));
    case Open(key) =>
    case SetPeers(peers) => RegroupedSorted(Book(r, IndexOf(r, peers)), snap.st);
  }

  // ---- SetPeers depends on the peers, not on how they are listed or how often they are given ----

  lemma SetPeersIgnoresListOrder(r: Rules, snap: Snapshot, peers: seq<Peer>, peers': seq<Peer>)
    requires DistinctKeys(r, peers) && multiset(peers) == multiset(peers')
    ensures Step(r, snap, SetPeers(peers)) == Step(r, snap, SetPeers(peers'))
  {
    IndexIgnoresOrder(r, peers, peers');
  }

  lemma SetPeersTwice(r: Rules, snap: Snapshot, peers: seq<Peer>)
    requires Inv(r, snap)
    ensures var snap' := Step(r, snap, SetPeers(peers)); Step(r, snap', SetPeers(peers)) == snap'
  {
    RegroupedIdempotent(Book(r, IndexOf(r, peers)), snap.st);
  }
}
