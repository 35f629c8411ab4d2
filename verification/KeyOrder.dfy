/** Chat keys and their order: strings compared character by character. */
module KeyOrder {
  type Key = string

  predicate Less(a: Key, b: Key) {
    if b == "" then false
    else if a == "" then true
    else a[0] < b[0] || (a[0] == b[0] && Less(a[1..], b[1..]))
  }

  /** The keys agree before i, and there the first has the smaller character. */
  ghost predicate DiffersAt(a: Key, b: Key, i: nat) {
    i < |a| && i < |b| && a[i] < b[i] && forall j | 0 <= j < i :: a[j] == b[j]
  }

  ghost predicate Begins(a: Key, b: Key) { |a| < |b| && forall j | 0 <= j < |a| :: a[j] == b[j] }

  /** A key comes before another that it begins, or that has the larger character where they first differ. */
  lemma {:induction false} LessMeans(a: Key, b: Key)
    ensures Less(a, b) <==> Begins(a, b) || exists i: nat :: DiffersAt(a, b, i)
  {
    if a != "" && b != "" {
      if a[0] == b[0] {
        LessMeans(a[1..], b[1..]);
        DiffersInTails(a, b);
      } else if a[0] < b[0] {
        assert DiffersAt(a, b, 0);
      }
    }
  }

  lemma DiffersInTails(a: Key, b: Key)
    requires a != "" && b != "" && a[0] == b[0]
    ensures Begins(a, b) <==> Begins(a[1..], b[1..])
    ensures (exists i: nat :: DiffersAt(a, b, i)) <==> exists i: nat :: DiffersAt(a[1..], b[1..], i)
  {
    if Begins(a[1..], b[1..]) {
      forall j | 0 < j < |a| ensures a[j] == b[j] { assert a[1..][j - 1] == b[1..][j - 1]; }
    }
    if i: nat :| DiffersAt(a, b, i) {
      assert DiffersAt(a[1..], b[1..], i - 1);
    }
    if i: nat :| DiffersAt(a[1..], b[1..], i) {
      forall j | 0 < j < i + 1 ensures a[j] == b[j] { assert a[1..][j - 1] == b[1..][j - 1]; }
      assert DiffersAt(a, b, i + 1);
    }
  }

  lemma {:induction false} LessTotal(a: Key, b: Key)
    ensures !(Less(a, b) && Less(b, a))
    ensures a != b <==> Less(a, b) || Less(b, a)
  {
    if a != "" && b != "" {
      LessTotal(a[1..], b[1..]);
      assert a == [a[0]] + a[1..] && b == [b[0]] + b[1..];
    }
  }

  lemma {:induction false} LessTransitive(a: Key, b: Key, c: Key)
    requires Less(a, b) && Less(b, c)
    ensures Less(a, c)
  {
    if a != "" && a[0] == b[0] == c[0] {
      LessTransitive(a[1..], b[1..], c[1..]);
    }
  }

  ghost predicate Ascends(ks: seq<Key>) {
    forall i, j | 0 <= i < j < |ks| :: Less(ks[i], ks[j])
  }

  lemma AscendsDistinct(ks: seq<Key>, i: nat, j: nat)
    requires Ascends(ks) && i < j < |ks|
    ensures ks[i] != ks[j]
  {
    LessTotal(ks[i], ks[j]);
  }

  /** A set of keys can be listed in ascending order in one way only. */
  lemma {:induction false} AscendsUnique(a: seq<Key>, b: seq<Key>)
    requires Ascends(a) && Ascends(b)
    requires forall k :: k in a <==> k in b
    ensures a == b
  {
    if b != [] {
      assert b[0] in a;
    }
    if a != [] {
      assert a[0] in b;
      FirstIsLeast(a, b[0]);
      FirstIsLeast(b, a[0]);
      LessTotal(a[0], b[0]);
      forall k ensures k in a[1..] <==> k in b[1..] {
        if k in a[1..] {
          var i :| 1 <= i < |a| && a[i] == k;
          AscendsDistinct(a, 0, i);
          assert k in b;
        }
        if k in b[1..] {
          var i :| 1 <= i < |b| && b[i] == k;
          AscendsDistinct(b, 0, i);
          assert k in a;
        }
      }
      AscendsUnique(a[1..], b[1..]);
    }
  }

  lemma FirstIsLeast(ks: seq<Key>, k: Key)
    requires Ascends(ks) && k in ks
    ensures k == ks[0] || Less(ks[0], k)
  {
    var i :| 0 <= i < |ks| && ks[i] == k;
  }

  /** The keys of a set in ascending order. */
  ghost function Ascending(s: set<Key>): (ks: seq<Key>)
    ensures Ascends(ks)
    ensures forall k :: k in ks <==> k in s
  {
    if s == {} then []
    else
      HasLeast(s);
      var m :| IsLeast(s, m);
      [m] + Ascending(s - {m})
  }

  ghost predicate IsLeast(s: set<Key>, m: Key) {
    m in s && forall k | k in s && k != m :: Less(m, k)
  }

  lemma {:induction false} HasLeast(s: set<Key>)
    requires s != {}
    ensures exists m :: IsLeast(s, m)
  {
    var x :| x in s;
    if s == {x} {
      assert IsLeast(s, x);
    } else {
      HasLeast(s - {x});
      var m :| IsLeast(s - {x}, m);
      LessTotal(m, x);
      if Less(x, m) {
        forall k | k in s && k != x ensures Less(x, k) {
          if k != m {
            assert k in s - {x};
            LessTransitive(x, m, k);
          }
        }
        assert IsLeast(s, x);
      } else {
        assert IsLeast(s, m);
      }
    }
  }

  /** Selection sort of distinct keys; it stands for the library sort. */
  method Sort(s: set<Key>) returns (ks: seq<Key>)
    ensures ks == Ascending(s)
  {
    ks := [];
    var rest := s;
    while rest != {}
      invariant rest <= s
      invariant Ascends(ks) && forall k :: k in ks <==> k in s - rest
      invariant forall k, r :: k in ks && r in rest ==> Less(k, r)
      decreases rest
    {
      var m := Least(rest);
      ks, rest := ks + [m], rest - {m};
    }
    AscendsUnique(ks, Ascending(s));
  }

  method Least(s: set<Key>) returns (m: Key)
    requires s != {}
    ensures IsLeast(s, m)
  {
    m :| m in s;
    var rest := s - {m};
    while rest != {}
      invariant rest <= s && m in s - rest
      invariant forall k | k in s - rest && k != m :: Less(m, k)
      decreases rest
    {
      var x :| x in rest;
      LessTotal(m, x);
      if Less(x, m) {
        forall k | k in s - rest && k != m ensures Less(x, k) {
          LessTransitive(x, m, k);
        }
        m := x;
      }
      rest := rest - {x};
    }
  }
}
