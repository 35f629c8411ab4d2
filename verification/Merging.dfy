/** Merging two lists of chat items by time. */
module Merging {
  import opened Directory
  import opened Sequences

  datatype Item = Item(e: Entry, unread: bool)

  function Entries(items: seq<Item>): (es: seq<Entry>)
    ensures |es| == |items|
  {
    seq(|items|, i requires 0 <= i < |items| => items[i].e)
  }

  /** Earliest first; on a tie the item of dst comes first. */
  function Merge(dst: seq<Item>, add: seq<Item>): seq<Item> {
    if dst == [] then add
    else if add == [] then dst
    else if add[0].e.time < dst[0].e.time then [add[0]] + Merge(dst, add[1..])
    else [dst[0]] + Merge(dst[1..], add)
  }

  /** The merge with its shortcut for an addition that starts no earlier than the list ends. */
  function MergeByTime(dst: seq<Item>, add: seq<Item>): seq<Item> {
    if add == [] then dst
    else if dst == [] || add[0].e.time >= dst[|dst| - 1].e.time then dst + add
    else Merge(dst, add)
  }

  method MergeLists(dst: seq<Item>, add: seq<Item>) returns (out: seq<Item>)
    ensures out == MergeByTime(dst, add)
  {
    if |add| == 0 {
      return dst;
    }
    if |dst| == 0 || !(add[0].e.time < dst[|dst| - 1].e.time) {
      return dst + add;
    }
    out := [];
    var i, j := 0, 0;
    while i < |dst| && j < |add|
      invariant i <= |dst| && j <= |add|
      invariant out + Merge(dst[i..], add[j..]) == Merge(dst, add)
      decreases |dst| - i + |add| - j
    {
      MergeStep(dst, add, i, j);
      if add[j].e.time < dst[i].e.time {
        assert out + ([add[j]] + Merge(dst[i..], add[j + 1..])) == out + [add[j]] + Merge(dst[i..], add[j + 1..]);
        out, j := out + [add[j]], j + 1;
      } else {
        assert out + ([dst[i]] + Merge(dst[i + 1..], add[j..])) == out + [dst[i]] + Merge(dst[i + 1..], add[j..]);
        out, i := out + [dst[i]], i + 1;
      }
    }
    out := out + dst[i..];
    out := out + add[j..];
  }

  lemma MergeStep(dst: seq<Item>, add: seq<Item>, i: nat, j: nat)
    requires i < |dst| && j < |add|
    ensures Merge(dst[i..], add[j..]) ==
            if add[j].e.time < dst[i].e.time then [add[j]] + Merge(dst[i..], add[j + 1..])
            else [dst[i]] + Merge(dst[i + 1..], add[j..])
  {
    assert dst[i..][1..] == dst[i + 1..] && add[j..][1..] == add[j + 1..];
  }

  lemma {:induction false} MergeInterleaves(dst: seq<Item>, add: seq<Item>)
    ensures Interleaves(Entries(dst), Entries(add), Entries(Merge(dst, add)))
    decreases |dst| + |add|
  {
    if dst != [] && add != [] {
      var out := Merge(dst, add);
      assert Entries(dst)[1..] == Entries(dst[1..]);
      assert Entries(add)[1..] == Entries(add[1..]);
      assert Entries(out)[1..] == Entries(out[1..]);
      if add[0].e.time < dst[0].e.time {
        MergeInterleaves(dst, add[1..]);
        assert out[1..] == Merge(dst, add[1..]);
      } else {
        MergeInterleaves(dst[1..], add);
        assert out[1..] == Merge(dst[1..], add);
      }
    }
  }

  /** Nothing is lost, added or reordered within either input, whatever their times. */
  lemma MergeByTimeInterleaves(dst: seq<Item>, add: seq<Item>)
    ensures Interleaves(Entries(dst), Entries(add), Entries(MergeByTime(dst, add)))
    ensures multiset(MergeByTime(dst, add)) == multiset(dst) + multiset(add)
  {
    MergeInterleaves(dst, add);
    MergeCounts(dst, add);
    if add != [] && (dst == [] || add[0].e.time >= dst[|dst| - 1].e.time) {
      assert Entries(dst + add) == Entries(dst) + Entries(add);
      InterleavesConcat(Entries(dst), Entries(add));
    }
    if add == [] {
      assert Entries(add) == [];
    }
  }

  lemma {:induction false} MergeCounts(dst: seq<Item>, add: seq<Item>)
    ensures multiset(Merge(dst, add)) == multiset(dst) + multiset(add)
    decreases |dst| + |add|
  {
    if dst != [] && add != [] {
      assert dst == [dst[0]] + dst[1..] && add == [add[0]] + add[1..];
      MergeCounts(dst, add[1..]);
      MergeCounts(dst[1..], add);
    }
  }

  ghost predicate Sorted(items: seq<Item>) {
    forall i, j | 0 <= i < j < |items| :: items[i].e.time <= items[j].e.time
  }

  function At(t: int): Item -> bool { (it: Item) => it.e.time == t }

  /** On time-sorted lists the shortcut gives what the general merge gives. */
  lemma {:induction false} ShortcutAgrees(dst: seq<Item>, add: seq<Item>)
    requires Sorted(dst) && Sorted(add)
    ensures MergeByTime(dst, add) == Merge(dst, add)
  {
    if dst != [] && add != [] && add[0].e.time >= dst[|dst| - 1].e.time {
      assert add[0].e.time >= dst[0].e.time;
      if |dst| > 1 {
        ShortcutAgrees(dst[1..], add);
      }
      assert dst + add == [dst[0]] + (dst[1..] + add);
    }
  }

  lemma {:induction false} MergeSorted(dst: seq<Item>, add: seq<Item>)
    requires Sorted(dst) && Sorted(add)
    ensures Sorted(Merge(dst, add))
    decreases |dst| + |add|
  {
    if dst != [] && add != [] {
      if add[0].e.time < dst[0].e.time {
        MergeSorted(dst, add[1..]);
        MergeCounts(dst, add[1..]);
        SortedPrepend(add[0], dst, add[1..], Merge(dst, add[1..]));
      } else {
        MergeSorted(dst[1..], add);
        MergeCounts(dst[1..], add);
        SortedPrepend(dst[0], dst[1..], add, Merge(dst[1..], add));
      }
    }
  }

  lemma SortedPrepend(head: Item, a: seq<Item>, b: seq<Item>, out: seq<Item>)
    requires Sorted(out) && multiset(out) == multiset(a) + multiset(b)
    requires forall k | 0 <= k < |a| :: head.e.time <= a[k].e.time
    requires forall k | 0 <= k < |b| :: head.e.time <= b[k].e.time
    ensures Sorted([head] + out)
  {
    forall k | 0 <= k < |out| ensures head.e.time <= out[k].e.time {
      assert out[k] in multiset(out);
      assert out[k] in a || out[k] in b;
    }
  }

  /** On time-sorted lists the merge is the stable sort of their concatenation: it is sorted, and
      the items of any one time are those of dst followed by those of add. */
  lemma MergeIsStableSort(dst: seq<Item>, add: seq<Item>, t: int)
    requires Sorted(dst) && Sorted(add)
    ensures Sorted(MergeByTime(dst, add))
    ensures Filter(MergeByTime(dst, add), At(t)) == Filter(dst + add, At(t))
  {
    ShortcutAgrees(dst, add);
    MergeSorted(dst, add);
    MergeStable(dst, add, t);
    FilterConcat(dst, add, At(t));
  }

  lemma {:induction false} MergeStable(dst: seq<Item>, add: seq<Item>, t: int)
    requires Sorted(dst) && Sorted(add)
    ensures Filter(Merge(dst, add), At(t)) == Filter(dst, At(t)) + Filter(add, At(t))
    decreases |dst| + |add|
  {
    if dst != [] && add != [] {
      if add[0].e.time < dst[0].e.time {
        MergeStable(dst, add[1..], t);
        if add[0].e.time == t {
          FilterNone(dst, At(t));
        }
      } else {
        MergeStable(dst[1..], add, t);
      }
    }
  }
}
