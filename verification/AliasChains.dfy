/** The aliases that regrouping leaves behind: they lead to live chats, and where they take the open chat. */
module AliasChains {
  import opened KeyOrder
  import opened Directory
  import opened Merging
  import opened Regroup
  import opened RegroupFacts
  import opened RegroupInvariants

  // ---- chains of aliases end at a chat ----

  /** The alias of a key without a chat names a chat, or a key without a chat that has a smaller rank. */
  ghost predicate Ranked(s: State, rank: map<Key, nat>) {
    forall k | k in s.alias && k !in s.chats ::
      && k in rank
      && (s.alias[k] in s.chats || (s.alias[k] in s.alias && s.alias[k] in rank && rank[s.alias[k]] < rank[k]))
  }

  /** Chains through keys without a chat are acyclic. */
  ghost predicate Routed(s: State) {
    exists rank :: Ranked(s, rank)
  }

  /** The open key is a chat, or a key that no alias redirects. */
  ghost predicate OpenSettled(s: State) {
    s.open in s.chats || s.open !in s.alias
  }

  ghost function Below(s: State, rank: map<Key, nat>, k: Key): set<Key>
    requires k in rank
  {
    set j | j in s.alias.Keys && j !in s.chats && j in rank && rank[j] < rank[k]
  }

  lemma {:induction false} FollowEnds(s: State, rank: map<Key, nat>, k: Key, fuel: nat)
    requires Ranked(s, rank) && k in s.alias && k !in s.chats
    requires fuel > |Below(s, rank, k)|
    ensures Follow(s, k, fuel) in s.chats
    decreases fuel
  {
    var n := s.alias[k];
    if n !in s.chats {
      assert Below(s, rank, n) < Below(s, rank, k) by {
        assert n in Below(s, rank, k) && n !in Below(s, rank, n);
      }
      SmallerSet(Below(s, rank, n), Below(s, rank, k));
      FollowEnds(s, rank, n, fuel - 1);
    }
  }

  lemma SmallerSet(a: set<Key>, b: set<Key>)
    requires a < b
    ensures |a| < |b|
  {
    assert b == a + (b - a);
    var x :| x in b - a;
    assert a <= b - {x};
    SubsetSize(a, b - {x});
  }

  lemma {:induction false} SubsetSize(a: set<Key>, b: set<Key>)
    requires a <= b
    ensures |a| <= |b|
  {
    if a != {} {
      var x :| x in a;
      SubsetSize(a - {x}, b - {x});
    }
  }

  /** Resolve takes every key that has a chat or an alias to a live chat. The length bound of its loop is never what
      ends it: |alias| hops suffice, and no larger bound would give another answer. */
  lemma ResolveReachesChat(s: State, k: Key, bound: nat)
    requires Routed(s) && bound >= |s.alias|
    ensures k in s.chats || k in s.alias ==> Resolve(s, k) in s.chats
    ensures k !in s.chats && k !in s.alias ==> Resolve(s, k) == k
    ensures Follow(s, k, bound) == Resolve(s, k)
  {
    if k in s.alias && k !in s.chats {
      var rank :| Ranked(s, rank);
      var below := Below(s, rank, k);
      assert k !in below && below < s.alias.Keys;
      SmallerSet(below, s.alias.Keys);
      FollowEnds(s, rank, k, bound);
      MoreFuel(s, k, |s.alias|, bound);
      FollowEnds(s, rank, k, |s.alias|);
      MoreFuel(s, k, |s.alias|, |s.alias| + 1);
    }
  }

  /** Resolve follows one alias at a time, and only for keys without a chat. */
  lemma ResolveFollows(s: State, k: Key)
    requires Routed(s)
    ensures Resolve(s, k) == if k in s.chats || k !in s.alias then k else Resolve(s, s.alias[k])
  {
    if k !in s.chats && k in s.alias {
      ResolveReachesChat(s, s.alias[k], |s.alias|);
    }
  }

  lemma {:induction false} MoreFuel(s: State, k: Key, less: nat, more: nat)
    requires less <= more && Follow(s, k, less) in s.chats
    ensures Follow(s, k, more) == Follow(s, k, less)
    decreases less
  {
    if k !in s.chats && k in s.alias && less > 0 {
      MoreFuel(s, s.alias[k], less - 1, more - 1);
    }
  }

  /** Regrouping keeps alias chains acyclic, though it deletes, redirects and revives keys. */
  lemma RegroupedRouted(b: Book, s: State)
    requires Routed(s)
    ensures Routed(Merged(b, s)) && Routed(Regrouped(b, s))
    ensures forall k | k in s.chats || k in s.alias :: k in Regrouped(b, s).chats || k in Regrouped(b, s).alias
  {
    RegroupedShape(b, s);
    var ks := Ascending(Sources(b, s));
    RoutedAfter(s, Regrouped(b, s), EmptiedIn(b, s, ks), Receivers(b, s, ks));
    var rank :| Ranked(Regrouped(b, s), rank);
    assert Ranked(Merged(b, s), rank);
  }

  lemma RoutedAfter(s: State, s': State, emptied: set<Key>, received: set<Key>)
    requires Routed(s)
    requires emptied <= s.chats.Keys && s'.chats.Keys == s.chats.Keys - emptied + received
    requires s'.alias.Keys == s.alias.Keys + emptied - received
    requires forall k | k in s'.alias :: if k in emptied then s'.alias[k] in received else s'.alias[k] == s.alias[k]
    ensures Routed(s')
  {
    var rank :| Ranked(s, rank);
    var rank' := map k | k in s'.alias.Keys :: if k in emptied || k !in rank then 0 else rank[k] + 1;
    forall k | k in s'.alias && k !in s'.chats
      ensures s'.alias[k] in s'.chats || (s'.alias[k] in s'.alias && rank'[s'.alias[k]] < rank'[k])
    {
      if k !in emptied {
        assert k !in s.chats && k in s.alias;
      }
    }
    assert Ranked(s', rank');
  }

  /** Once regrouped, every key that had a chat leads to a live one. */
  lemma RegroupedReachable(b: Book, s: State, k: Key)
    requires Routed(s) && (k in s.chats || k in s.alias)
    ensures Resolve(Regrouped(b, s), k) in Regrouped(b, s).chats
  {
    RegroupedRouted(b, s);
    ResolveReachesChat(Regrouped(b, s), k, |Regrouped(b, s).alias|);
  }

  // ---- the open chat ----

  /** Where the loop over the sources, in key order, takes the open key: each emptied chat passes it on. */
  ghost function Hops(b: Book, s: State, ks: seq<Key>, open: Key): Key
    requires forall k | k in ks :: k in s.chats
  {
    if ks == [] then open
    else Hops(b, s, ks[1..], if Empties(b, s, ks[0]) && ks[0] == open then LastTo(b, s.chats[open].items, open) else open)
  }

  lemma {:induction false} PhaseOneHops(b: Book, s: State, st: State, done: seq<Key>, rest: seq<Key>)
    requires DistinctSources(b, s, done + rest)
    requires forall k | k in done :: k in s.chats
    requires st == PhaseOne(b, s, done)
    ensures forall k | k in rest :: k in s.chats
    ensures forall k | k in done + rest :: k in s.chats
    ensures PhaseOne(b, s, done + rest).open == Hops(b, s, rest, st.open)
    decreases |rest|
  {
    forall k | k in rest ensures k in s.chats { assert k in done + rest; }
    forall k | k in done + rest ensures k in s.chats { assert IsSource(b, s, k); }
    if rest == [] {
      assert done + rest == done;
    } else {
      var done' := done + [rest[0]];
      assert done' + rest[1..] == done + rest;
      assert done'[..|done'| - 1] == done;
      assert rest[0] in done + rest && rest[0] in rest;
      PhaseOneHops(b, s, PhaseOne(b, s, done'), done', rest[1..]);
    }
  }

  /** A source refills k: one of its entries now belongs to k. */
  ghost predicate Refilled(b: Book, s: State, k: Key) {
    exists j :: j in s.chats && IsSource(b, s, j) && k in Targets(b, s.chats[j].items, j)
  }

  ghost function FinalOpen(b: Book, s: State): Key {
    var ks := Ascending(Sources(b, s));
    Hops(b, s, ks, s.open)
  }

  /** The open key after SetPeers follows Resolve exactly when its chat was not emptied, or the hops of the first loop
      end where a reader of the old key now ends: at the old key if another source refilled it, else at the chat its
      last entry moved to. */
  lemma OpenFollowsResolve(b: Book, s: State)
    requires Routed(s) && OpenSettled(s)
    ensures Regrouped(b, s).open == Resolve(Regrouped(b, s), s.open)
      <==> (Empties(b, s, s.open) ==>
              FinalOpen(b, s) == if Refilled(b, s, s.open) then s.open else LastTo(b, s.chats[s.open].items, s.open))
    ensures !Empties(b, s, s.open) ==> Regrouped(b, s).open == s.open
    ensures OpenSettled(Regrouped(b, s))
    ensures Regrouped(b, s) == Merged(b, s)
  {
    MergedOpen(b, s);
    if Empties(b, s, s.open) {
      ResolveEmptied(b, s, s.open);
    }
  }

  lemma MergedOpen(b: Book, s: State)
    requires OpenSettled(s)
    ensures Merged(b, s).open == FinalOpen(b, s)
    ensures !Empties(b, s, s.open) ==> Merged(b, s).open == s.open
    ensures OpenSettled(Merged(b, s))
    ensures Regrouped(b, s) == Merged(b, s)
  {
    var ks := Ascending(Sources(b, s));
    SourcesDistinct(b, s);
    RegroupedShape(b, s);
    PhaseOneOpen(b, s, ks);
    MergedHops(b, s);
    assert s.open in EmptiedIn(b, s, ks) <==> Empties(b, s, s.open);
  }

  lemma MergedHops(b: Book, s: State)
    ensures Merged(b, s).open == FinalOpen(b, s)
    ensures forall k | k in Ascending(Sources(b, s)) :: k in s.chats
    ensures Merged(b, s).open == PhaseOne(b, s, Ascending(Sources(b, s))).open
  {
    var ks := Ascending(Sources(b, s));
    SourcesDistinct(b, s);
    PhaseTwoShape(b, s, PhaseOne(b, s, ks), ks);
    assert [] + ks == ks;
    PhaseOneHops(b, s, s, [], ks);
  }

  /** A reader of the key of an emptied chat stays there if it was refilled, and else goes where its last entry went. */
  lemma ResolveEmptied(b: Book, s: State, k: Key)
    requires Empties(b, s, k)
    ensures Resolve(Regrouped(b, s), k) == if Refilled(b, s, k) then k else LastTo(b, s.chats[k].items, k)
  {
    var ks := Ascending(Sources(b, s));
    var s' := Regrouped(b, s);
    RegroupedShape(b, s);
    ReceivesMeans(b, s, k);
    if k !in s'.chats {
      FollowOnce(s', k);
    }
  }

  lemma ReceivesMeans(b: Book, s: State, k: Key)
    ensures (forall j | j in Ascending(Sources(b, s)) :: j in s.chats)
    ensures k in Receivers(b, s, Ascending(Sources(b, s))) <==> Refilled(b, s, k)
    ensures k in EmptiedIn(b, s, Ascending(Sources(b, s))) <==> Empties(b, s, k)
  {
  }

  lemma FollowOnce(s: State, k: Key)
    requires k !in s.chats && k in s.alias && s.alias[k] in s.chats
    ensures Resolve(s, k) == s.alias[k]
  {
    assert Follow(s, k, |s.alias| + 1) == Follow(s, s.alias[k], |s.alias|);
  }

  /** The case a caller meets: an emptied open chat that no other chat refills, whose last target is not itself
      emptied later in key order. */
  lemma OpenFollowsResolveSimply(b: Book, s: State)
    requires Routed(s) && OpenSettled(s)
    requires Empties(b, s, s.open) ==>
               var to := LastTo(b, s.chats[s.open].items, s.open);
               !Refilled(b, s, s.open) && !(Empties(b, s, to) && Less(s.open, to))
    ensures Regrouped(b, s).open == Resolve(Regrouped(b, s), s.open)
  {
    OpenFollowsResolve(b, s);
    if Empties(b, s, s.open) {
      var ks := Ascending(Sources(b, s));
      assert s.open in ks;
      HopsOnce(b, s, ks);
    }
  }

  lemma {:induction false} HopsNowhere(b: Book, s: State, ks: seq<Key>, open: Key)
    requires forall k | k in ks :: k in s.chats
    requires open in ks ==> !Empties(b, s, open)
    ensures Hops(b, s, ks, open) == open
  {
    if ks != [] {
      HopsNowhere(b, s, ks[1..], open);
    }
  }

  lemma {:induction false} HopsOnce(b: Book, s: State, ks: seq<Key>)
    requires Ascends(ks) && (forall k | k in ks :: k in s.chats)
    requires s.open in ks && Empties(b, s, s.open)
    requires var to := LastTo(b, s.chats[s.open].items, s.open); !(Empties(b, s, to) && Less(s.open, to))
    ensures Hops(b, s, ks, s.open) == LastTo(b, s.chats[s.open].items, s.open)
  {
    if ks[0] == s.open {
      var to := LastTo(b, s.chats[s.open].items, s.open);
      HopsNowhere(b, s, ks[1..], to);
    } else {
      HopsOnce(b, s, ks[1..]);
    }
  }

  /** No emptied chat other than the open one passes its key on to the open chat or to where the open chat's key goes. */
  ghost predicate NoneJoins(b: Book, s: State)
    requires s.open in s.chats
  {
    forall j | j in s.chats && j != s.open && Empties(b, s, j) :: PassesElsewhere(b, s, j)
  }

  ghost predicate PassesElsewhere(b: Book, s: State, j: Key)
    requires j in s.chats && s.open in s.chats
  {
    LastTo(b, s.chats[j].items, j) !in {s.open, LastTo(b, s.chats[s.open].items, s.open)}
  }

  /** In the ordinary case the open key follows Resolve exactly when its chat is not emptied, or is not refilled and its last
      target is not itself emptied later in key order. */
  lemma OpenFollowsResolveIff(b: Book, s: State)
    requires Routed(s) && OpenSettled(s) && (Empties(b, s, s.open) ==> NoneJoins(b, s))
    ensures Regrouped(b, s).open == Resolve(Regrouped(b, s), s.open)
      <==> (Empties(b, s, s.open) ==>
              var to := LastTo(b, s.chats[s.open].items, s.open);
              !Refilled(b, s, s.open) && !(Empties(b, s, to) && Less(s.open, to)))
  {
    OpenFollowsResolve(b, s);
    if Empties(b, s, s.open) {
      var ks := Ascending(Sources(b, s));
      LastToMeaning(b, s.chats[s.open].items, s.open);
      TargetsMeaning(b, s.chats[s.open].items, s.open);
      HopsFromOpen(b, s, ks);
    }
  }

  lemma {:induction false} HopsAvoid(b: Book, s: State, ks: seq<Key>, open: Key, avoid: set<Key>)
    requires (forall k | k in ks :: k in s.chats) && open !in avoid
    requires forall k | k in ks && Empties(b, s, k) :: LastTo(b, s.chats[k].items, k) !in avoid
    ensures Hops(b, s, ks, open) !in avoid
  {
    if ks != [] {
      HopsAvoid(b, s, ks[1..], if Empties(b, s, ks[0]) && ks[0] == open then LastTo(b, s.chats[open].items, open) else open, avoid);
    }
  }

  /** Once it went to `to`, the open key stays there exactly when that chat is not emptied later. */
  lemma {:induction false} HopsFromTarget(b: Book, s: State, ks: seq<Key>, to: Key)
    requires (forall k | k in ks :: k in s.chats) && s.open in s.chats && to != s.open
    requires forall k | k in ks && Empties(b, s, k) :: LastTo(b, s.chats[k].items, k) !in {s.open, to}
    ensures Hops(b, s, ks, to) == to <==> !(to in ks && Empties(b, s, to))
    ensures Hops(b, s, ks, to) != s.open
  {
    if ks != [] {
      if ks[0] == to && Empties(b, s, to) {
        HopsAvoid(b, s, ks[1..], LastTo(b, s.chats[to].items, to), {s.open, to});
      } else {
        HopsFromTarget(b, s, ks[1..], to);
      }
    }
  }

  lemma {:induction false} HopsFromOpen(b: Book, s: State, ks: seq<Key>)
    requires Ascends(ks) && (forall k | k in ks :: k in s.chats)
    requires s.open in ks && Empties(b, s, s.open) && NoneJoins(b, s)
    requires var to := LastTo(b, s.chats[s.open].items, s.open);
             to != s.open && (Empties(b, s, to) && Less(s.open, to) ==> to in ks)
    ensures var to := LastTo(b, s.chats[s.open].items, s.open);
            Hops(b, s, ks, s.open) == to <==> !(Empties(b, s, to) && Less(s.open, to))
    ensures Hops(b, s, ks, s.open) != s.open
  {
    var to := LastTo(b, s.chats[s.open].items, s.open);
    if to in ks {
      FirstIsLeast(ks, to);
      LessTotal(s.open, to);
    }
    FirstIsLeast(ks, s.open);
    if ks[0] == s.open {
      forall k | k in ks[1..] ensures k != s.open { FirstOnce(ks, k); }
      forall k | k in ks[1..] && Empties(b, s, k) ensures LastTo(b, s.chats[k].items, k) !in {s.open, to} {
        assert PassesElsewhere(b, s, k);
      }
      HopsFromTarget(b, s, ks[1..], to);
    } else {
      if Empties(b, s, to) && Less(s.open, to) {
        LessTransitive(ks[0], s.open, to);
        LessTotal(ks[0], to);
      }
      HopsFromOpen(b, s, ks[1..]);
    }
  }

  lemma FirstOnce(ks: seq<Key>, k: Key)
    requires Ascends(ks) && ks != [] && k in ks[1..]
    ensures k != ks[0] && Less(ks[0], k)
  {
    var i :| 0 <= i < |ks| - 1 && ks[1..][i] == k;
    AscendsDistinct(ks, 0, i + 1);
    FirstIsLeast(ks, k);
  }

  /** The counts hold for the store that SetPeers leaves: exact, and none for the open chat. */
  lemma RegroupedOpenRead(b: Book, s: State)
    requires Counted(s) && OpenRead(s) && OpenSettled(s)
    ensures Counted(Regrouped(b, s)) && OpenRead(Regrouped(b, s))
  {
    RegroupedCounted(b, s);
    MergedOpen(b, s);
  }

  // ---- a second call with the same directory ----

  /** Once every entry is where the directory puts it, regrouping again changes nothing. */
  lemma RegroupedIdempotent(b: Book, s: State)
    requires Anchored(s) && Routed(s) && OpenSettled(s)
    ensures Regrouped(b, Regrouped(b, s)) == Regrouped(b, s)
  {
    var s' := Regrouped(b, s);
    RegroupedFiled(b, s);
    OpenFollowsResolve(b, s);
    forall k | k in s'.chats && Scanned(k) ensures Targets(b, s'.chats[k].items, k) == [] {
      TargetsMeaning(b, s'.chats[k].items, k);
      BagMember(s'.chats[k].items);
      NoTargets(b, s'.chats[k].items, k);
    }
    assert Sources(b, s') == {};
    assert Ascending({}) == [];
  }

  lemma {:induction false} NoTargets(b: Book, items: seq<Item>, k: Key)
    requires forall it | it in items :: b.ChatOf(it.e) == k
    ensures Targets(b, items, k) == []
  {
    if items != [] {
      NoTargets(b, items[..|items| - 1], k);
    }
  }
}
