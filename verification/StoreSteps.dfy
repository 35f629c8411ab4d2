/** What each call does to a store, chat by chat and item by item. */
module StoreSteps {
  import opened Wrappers
  import opened KeyOrder
  import opened Directory
  import opened Runs
  import opened Merging
  import opened Regroup
  import opened RegroupFacts
  import opened RegroupInvariants
  import opened AliasChains
  import opened Loading
  import opened StoreRuns
  import opened Refiling

  /** Chats, open key and aliases are as before, but for the chat k. */
  ghost predicate OthersStay(s: State, s': State, k: Key) {
    && s'.alias == s.alias
    && forall j | j != k :: (j in s'.chats <==> j in s.chats) && (j in s.chats ==> s'.chats[j] == s.chats[j])
  }

  /** Add: the entry goes to the end of its chat. It is unread if it came in and its chat is not the open one. */
  lemma AddMeans(b: Book, s: State, e: Entry)
    ensures var k := b.ChatOf(e);
            var s', was := Added(b, s, e), if k in s.chats then s.chats[k] else Chat([], 0);
            var added := if e.incoming && k != s.open then 1 else 0;
            && OthersStay(s, s', k) && s'.open == s.open && k in s'.chats
            && s'.chats[k] == Chat(was.items + [Item(e, added == 1)], was.unread + added)
  {
  }

  /** Open: the chat that the key leads to is the open one, its entries are the same, and none of them is unread. */
  lemma OpenMeans(s: State, key: Key)
    ensures var s', k := Opened(s, key), Resolve(s, key);
            && OthersStay(s, s', k) && s'.open == k && (k in s'.chats <==> k in s.chats)
            && (k in s.chats ==>
                  && s'.chats[k].unread == 0 && Entries(s'.chats[k].items) == Entries(s.chats[k].items)
                  && forall it | it in s'.chats[k].items :: !it.unread)
  {
    var k := Resolve(s, key);
    if k in s.chats {
      ClearedKeepsEntries(s.chats[k].items);
    }
  }

  // ---- no chat is ever empty ----

  lemma StepNoneEmpty(r: Rules, snap: Snapshot, op: Op)
    requires Inv(r, snap) && NoneEmpty(snap.st) && Allowed(r, snap, op)
    ensures NoneEmpty(Step(r, snap, op).st)
  {
    var b := Book(r, snap.index);
    match op
    case Load(entries, order) => LoadedStaysHome(b, snap.st, entries, order);
    case Add(e) =>
    case Open(key) =>
    case SetPeers(peers) => RefiledChats(Book(r, IndexOf(r, peers)), snap.st, "");
  }

  lemma {:induction false} NeverEmpty(r: Rules, ops: seq<Op>, run: seq<Snapshot>, i: nat)
    requires FromEmpty(r, ops, run) && i <= |ops|
    ensures NoneEmpty(run[i].st)
  {
    if i > 0 {
      NeverEmpty(r, ops, run, i - 1);
      RunKeepsInv(r, ops, run, i - 1);
      StepAt(Calls(r), run, ops, i - 1);
      StepNoneEmpty(r, run[i - 1], ops[i - 1]);
    }
  }

  /** SetPeers, in any run, refiles every chat by the peers just given. */
  lemma SetPeersMeans(r: Rules, ops: seq<Op>, run: seq<Snapshot>, i: nat, peers: seq<Peer>, t: Key)
    requires FromEmpty(r, ops, run) && i < |ops| && ops[i] == SetPeers(peers)
    ensures RefiledTo(Book(r, IndexOf(r, peers)), run[i].st, run[i + 1].st, t)
    ensures run[i + 1].index == IndexOf(r, peers)
  {
    RunKeepsInv(r, ops, run, i);
    NeverEmpty(r, ops, run, i);
    StepAt(Calls(r), run, ops, i);
    RefiledAsTold(Book(r, IndexOf(r, peers)), run[i].st, t);
  }

  // ---- what is unread ----

  /** The item at p in chat k. */
  ghost predicate ItemAt(s: State, k: Key, p: nat, it: Item) { p < |ChatAt(s, k).items| && ChatAt(s, k).items[p] == it }

  /** How many items a call puts in front of those of chat k. */
  ghost function InFront(r: Rules, snap: Snapshot, op: Op, k: Key): nat {
    if op.Load? then |Part(Book(r, snap.index), AsRead(op.entries), k)| else 0
  }

  /** Between changes of the directory an item moves only behind what is loaded, and is read once its chat is opened. */
  lemma StepMovesItem(r: Rules, snap: Snapshot, op: Op, k: Key, p: nat, it: Item)
    requires Allowed(r, snap, op) && !op.SetPeers? && ItemAt(snap.st, k, p, it) && (k == snap.st.open ==> !it.unread)
    ensures var s' := Step(r, snap, op).st;
            ItemAt(s', k, p + InFront(r, snap, op, k), Item(it.e, it.unread && s'.open != k))
    ensures Step(r, snap, op).index == snap.index
  {
    var b := Book(r, snap.index);
    match op
    case Load(entries, order) =>
      LoadedAt(b, snap.st, entries, order, k);
      LoadedAtHome(b, snap.st, entries, order, k);
    case Add(e) => AddMeans(b, snap.st, e);
    case Open(key) =>
      OpenMeans(snap.st, key);
      assert k in snap.st.chats;
  }

  /** How many items the calls from i to j put in front of those of chat k. */
  ghost function AllInFront(r: Rules, ops: seq<Op>, run: seq<Snapshot>, i: nat, j: nat, k: Key): nat
    requires i <= j <= |ops| < |run|
  {
    if i == j then 0 else AllInFront(r, ops, run, i, j - 1, k) + InFront(r, run[j - 1], ops[j - 1], k)
  }

  ghost predicate OpenSince(run: seq<Snapshot>, i: nat, j: nat, k: Key)
    requires i <= j < |run|
  {
    exists m :: i <= m <= j && run[m].st.open == k
  }

  /** The entry that the i-th call added stands at j where it then must, and is unread if it came in and its chat has not
      been the open one from i to j. */
  ghost predicate Stands(r: Rules, ops: seq<Op>, run: seq<Snapshot>, i: nat, j: nat, e: Entry)
    requires i < j <= |ops| < |run|
  {
    var k := Book(r, run[i].index).ChatOf(e);
    run[j].index == run[i].index
    && ItemAt(run[j].st, k, Spot(r, ops, run, i, j, k), Item(e, e.incoming && !OpenSince(run, i, j, k)))
  }

  /** Where in chat k the entry stands that the i-th call put at its end. */
  ghost function Spot(r: Rules, ops: seq<Op>, run: seq<Snapshot>, i: nat, j: nat, k: Key): nat
    requires i < j <= |ops| < |run|
  {
    |ChatAt(run[i].st, k).items| + AllInFront(r, ops, run, i + 1, j, k)
  }

  /** Until the directory changes, an entry that came with Add is unread exactly if it came in and its chat has not been the
      open one from its arrival on. */
  lemma {:induction false} UnreadUntilOpened(r: Rules, ops: seq<Op>, run: seq<Snapshot>, i: nat, j: nat, e: Entry)
    requires FromEmpty(r, ops, run) && i < j <= |ops| && ops[i] == Add(e) && forall m | i <= m < j :: !ops[m].SetPeers?
    ensures Stands(r, ops, run, i, j, e)
    decreases j
  {
    if j == i + 1 {
      AddedStands(r, ops, run, i, e);
    } else {
      UnreadUntilOpened(r, ops, run, i, j - 1, e);
      StillStands(r, ops, run, i, j, e);
    }
  }

  lemma AddedStands(r: Rules, ops: seq<Op>, run: seq<Snapshot>, i: nat, e: Entry)
    requires FromEmpty(r, ops, run) && i < |ops| && ops[i] == Add(e)
    ensures Stands(r, ops, run, i, i + 1, e)
  {
    AddedItem(r, ops, run, i, e);
    OpenSinceStep(run, i, i + 1, Book(r, run[i].index).ChatOf(e));
  }

  lemma StillStands(r: Rules, ops: seq<Op>, run: seq<Snapshot>, i: nat, j: nat, e: Entry)
    requires FromEmpty(r, ops, run) && i + 1 < j <= |ops| && !ops[j - 1].SetPeers? && Stands(r, ops, run, i, j - 1, e)
    ensures Stands(r, ops, run, i, j, e)
  {
    var k := Book(r, run[i].index).ChatOf(e);
    var was := e.incoming && !OpenSince(run, i, j - 1, k);
    OpenSinceStep(run, i, j, k);
    MovedItem(r, ops, run, j, k, Spot(r, ops, run, i, j - 1, k), Item(e, was));
    SpotMoves(r, ops, run, i, j, k);
    assert (e.incoming && !OpenSince(run, i, j, k)) == (was && run[j].st.open != k);
  }

  lemma SpotMoves(r: Rules, ops: seq<Op>, run: seq<Snapshot>, i: nat, j: nat, k: Key)
    requires i + 1 < j <= |ops| < |run|
    ensures Spot(r, ops, run, i, j, k) == Spot(r, ops, run, i, j - 1, k) + InFront(r, run[j - 1], ops[j - 1], k)
  {
  }

  lemma MovedItem(r: Rules, ops: seq<Op>, run: seq<Snapshot>, j: nat, k: Key, p: nat, it: Item)
    requires FromEmpty(r, ops, run) && 0 < j <= |ops| && !ops[j - 1].SetPeers? && ItemAt(run[j - 1].st, k, p, it)
    requires k == run[j - 1].st.open ==> !it.unread
    ensures run[j].index == run[j - 1].index
    ensures ItemAt(run[j].st, k, p + InFront(r, run[j - 1], ops[j - 1], k), Item(it.e, it.unread && run[j].st.open != k))
  {
    StepAt(Calls(r), run, ops, j - 1);
    StepMovesItem(r, run[j - 1], ops[j - 1], k, p, it);
  }

  lemma AddedItem(r: Rules, ops: seq<Op>, run: seq<Snapshot>, i: nat, e: Entry)
    requires FromEmpty(r, ops, run) && i < |ops| && ops[i] == Add(e)
    ensures run[i + 1].index == run[i].index && run[i + 1].st.open == run[i].st.open
    ensures var k := Book(r, run[i].index).ChatOf(e);
            ItemAt(run[i + 1].st, k, |ChatAt(run[i].st, k).items|, Item(e, e.incoming && run[i].st.open != k))
  {
    StepAt(Calls(r), run, ops, i);
    AddMeans(Book(r, run[i].index), run[i].st, e);
  }

  lemma OpenSinceStep(run: seq<Snapshot>, i: nat, j: nat, k: Key)
    requires i < j < |run|
    ensures OpenSince(run, i, j, k) <==> OpenSince(run, i, j - 1, k) || run[j].st.open == k
    ensures run[j - 1].st.open == k ==> OpenSince(run, i, j - 1, k)
    ensures j == i + 1 ==> (OpenSince(run, i, j - 1, k) <==> run[i].st.open == k)
  {
  }
}
