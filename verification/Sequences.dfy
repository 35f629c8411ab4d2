/** Filtering, subsequences and interleavings. */
module Sequences {
  function Filter<T>(s: seq<T>, p: T -> bool): seq<T> {
    if s == [] then [] else (if p(s[0]) then [s[0]] else []) + Filter(s[1..], p)
  }

  lemma {:induction false} FilterConcat<T>(a: seq<T>, b: seq<T>, p: T -> bool)
    ensures Filter(a + b, p) == Filter(a, p) + Filter(b, p)
  {
    if a == [] {
      assert a + b == b;
    } else {
      assert (a + b)[0] == a[0] && (a + b)[1..] == a[1..] + b;
      FilterConcat(a[1..], b, p);
      var head := if p(a[0]) then [a[0]] else [];
      assert head + (Filter(a[1..], p) + Filter(b, p)) == head + Filter(a[1..], p) + Filter(b, p);
    }
  }

  lemma {:induction false} FilterMembers<T>(s: seq<T>, p: T -> bool)
    ensures forall x :: x in Filter(s, p) <==> x in s && p(x)
  {
    if s != [] {
      FilterMembers(s[1..], p);
    }
  }

  lemma {:induction false} FilterAll<T>(s: seq<T>, p: T -> bool)
    requires forall x | x in s :: p(x)
    ensures Filter(s, p) == s
  {
    if s != [] {
      FilterAll(s[1..], p);
    }
  }

  lemma {:induction false} FilterNone<T>(s: seq<T>, p: T -> bool)
    requires forall x | x in s :: !p(x)
    ensures Filter(s, p) == []
  {
    if s != [] {
      FilterNone(s[1..], p);
    }
  }

  /** f lists, in increasing order, the positions in b at which the elements of a are found. */
  ghost predicate Embeds<T>(f: seq<nat>, a: seq<T>, b: seq<T>) {
    && |f| == |a|
    && (forall i | 0 <= i < |f| :: f[i] < |b| && b[f[i]] == a[i])
    && (forall i, j | 0 <= i < j < |f| :: f[i] < f[j])
  }

  ghost predicate Subsequence<T>(a: seq<T>, b: seq<T>) {
    exists f :: Embeds(f, a, b)
  }

  lemma SubsequenceRefl<T>(a: seq<T>)
    ensures Subsequence(a, a)
  {
    assert Embeds(seq(|a|, i requires 0 <= i < |a| => i as nat), a, a);
  }

  lemma SubsequenceTransitive<T>(a: seq<T>, b: seq<T>, c: seq<T>)
    requires Subsequence(a, b) && Subsequence(b, c)
    ensures Subsequence(a, c)
  {
    var f :| Embeds(f, a, b);
    var g :| Embeds(g, b, c);
    assert Embeds(seq(|a|, i requires 0 <= i < |a| => g[f[i]]), a, c);
  }

  /** c is a and b shuffled together, each in its own order. */
  ghost predicate Interleaves<T>(a: seq<T>, b: seq<T>, c: seq<T>) {
    if a == [] then c == b
    else if b == [] then c == a
    else
      && c != []
      && ((c[0] == a[0] && Interleaves(a[1..], b, c[1..])) || (c[0] == b[0] && Interleaves(a, b[1..], c[1..])))
  }

  lemma {:induction false} InterleavesConcat<T>(a: seq<T>, b: seq<T>)
    ensures Interleaves(a, b, a + b)
  {
    if a != [] && b != [] {
      assert (a + b)[1..] == a[1..] + b;
      InterleavesConcat(a[1..], b);
    }
  }

  lemma {:induction false} InterleavesParts<T>(a: seq<T>, b: seq<T>, c: seq<T>)
    requires Interleaves(a, b, c)
    ensures multiset(c) == multiset(a) + multiset(b)
    ensures Subsequence(a, c) && Subsequence(b, c)
    decreases |a| + |b|
  {
    if a == [] {
      assert Embeds([], a, c);
      SubsequenceRefl(b);
    } else if b == [] {
      assert Embeds([], b, c);
      SubsequenceRefl(a);
    } else {
      assert a == [a[0]] + a[1..] && b == [b[0]] + b[1..] && c == [c[0]] + c[1..];
      if c[0] == a[0] && Interleaves(a[1..], b, c[1..]) {
        InterleavesParts(a[1..], b, c[1..]);
        SubsequencePrepend(a[1..], c[1..], c[0]);
        SubsequencePrepend(b, c[1..], c[0]);
      } else {
        InterleavesParts(a, b[1..], c[1..]);
        SubsequencePrepend(b[1..], c[1..], c[0]);
        SubsequencePrepend(a, c[1..], c[0]);
      }
    }
  }

  lemma SubsequencePrepend<T>(a: seq<T>, c: seq<T>, x: T)
    requires Subsequence(a, c)
    ensures Subsequence([x] + a, [x] + c) && Subsequence(a, [x] + c)
  {
    var f :| Embeds(f, a, c);
    var g: seq<nat> := seq(|f|, i requires 0 <= i < |f| => f[i] + 1);
    assert Embeds([0] + g, [x] + a, [x] + c);
    assert Embeds(g, a, [x] + c);
  }
}
