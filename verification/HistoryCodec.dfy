/** An encoding that meets what the log asks of its encoding: the lemmas about the log speak of something. */
module HistoryCodec {
  import opened Wrappers
  import opened HistoryLog

  // ---- an entry as a list of numbers ----

  function Codes(s: string): (ns: seq<nat>)
    ensures |ns| == |s| && forall i | 0 <= i < |s| :: ns[i] == s[i] as int
  {
    seq(|s|, i requires 0 <= i < |s| => s[i] as int)
  }

  /** A string in front of more numbers; its length says where it ends. */
  function WithText(s: string, rest: seq<nat>): seq<nat> { [|s|] + Codes(s) + rest }

  function Folded(n: int): nat { if n >= 0 then 2 * n else -2 * n - 1 }

  function Numbers(e: Entry): seq<nat> {
    [Folded(e.v), if e.time.None? then 0 else 1, if e.time.None? then 0 else Folded(e.time.value)]
    + WithText(e.dir, WithText(e.kind, WithText(e.status, WithText(e.text, Codes(e.rest)))))
  }

  lemma CodesInjective(a: string, b: string)
    requires Codes(a) == Codes(b)
    ensures a == b
  {
    forall i | 0 <= i < |a| ensures a[i] == b[i] {
      assert Codes(a)[i] == Codes(b)[i];
    }
  }

  lemma WithTextInjective(a: string, x: seq<nat>, b: string, y: seq<nat>)
    requires WithText(a, x) == WithText(b, y)
    ensures a == b && x == y
  {
    var ns := WithText(a, x);
    assert ns[0] == |a| == |b|;
    assert ns[1..1 + |a|] == Codes(a) == Codes(b);
    assert ns[1 + |a|..] == x == y;
    CodesInjective(a, b);
  }

  lemma NumbersInjective(a: Entry, b: Entry)
    requires Numbers(a) == Numbers(b)
    ensures a == b
  {
    var x, y := Numbers(a), Numbers(b);
    assert x[0] == y[0] && x[1] == y[1] && x[2] == y[2];
    var p, q := WithText(a.text, Codes(a.rest)), WithText(b.text, Codes(b.rest));
    assert x[3..] == WithText(a.dir, WithText(a.kind, WithText(a.status, p)));
    assert y[3..] == WithText(b.dir, WithText(b.kind, WithText(b.status, q)));
    WithTextInjective(a.dir, WithText(a.kind, WithText(a.status, p)), b.dir, WithText(b.kind, WithText(b.status, q)));
    WithTextInjective(a.kind, WithText(a.status, p), b.kind, WithText(b.status, q));
    WithTextInjective(a.status, p, b.status, q);
    WithTextInjective(a.text, Codes(a.rest), b.text, Codes(b.rest));
    CodesInjective(a.rest, b.rest);
  }

  // ---- a list of numbers as an object ----

  function Ones(n: nat): (s: string)
    ensures |s| == n && forall i | 0 <= i < n :: s[i] == '1'
  {
    seq(n, i requires 0 <= i < n => '1')
  }

  function Body(ns: seq<nat>): (s: string)
    ensures forall c | c in s :: c == '1' || c == ','
  {
    if ns == [] then "" else Ones(ns[0]) + "," + Body(ns[1..])
  }

  lemma {:induction false} BodyInjective(a: seq<nat>, b: seq<nat>)
    requires Body(a) == Body(b)
    ensures a == b
  {
    BodyEmpty(a);
    BodyEmpty(b);
    if a != [] && b != [] {
      var s := Body(a);
      assert s[a[0]] == ',' && s[b[0]] == ',';
      assert a[0] == b[0];
      assert s[a[0] + 1..] == Body(a[1..]) == Body(b[1..]);
      BodyInjective(a[1..], b[1..]);
      assert a == [a[0]] + a[1..] && b == [b[0]] + b[1..];
    }
  }

  lemma BodyEmpty(ns: seq<nat>)
    ensures Body(ns) == "" <==> ns == []
  {
    if ns != [] {
      assert Body(ns)[ns[0]] == ',';
    }
  }

  function Enc(e: Entry): string { "{" + Body(Numbers(e)) + "}" }

  /** Braces stand at both ends and nowhere else, and there is no other kind of character but these two. */
  lemma EncShape(e: Entry)
    ensures var s := Enc(e);
            && |s| >= 2 && s[0] == '{' && s[|s| - 1] == '}'
            && forall i | 0 < i < |s| - 1 :: s[i] == '1' || s[i] == ','
  {
    var s, body := Enc(e), Body(Numbers(e));
    forall i | 0 < i < |s| - 1 ensures s[i] == '1' || s[i] == ',' {
      assert s[i] == body[i - 1] && body[i - 1] in body;
    }
  }

  lemma EncInjective(a: Entry, b: Entry)
    requires Enc(a) == Enc(b)
    ensures a == b
  {
    var s := Enc(a);
    assert s[1..|s| - 1] == Body(Numbers(a)) == Body(Numbers(b));
    BodyInjective(Numbers(a), Numbers(b));
    NumbersInjective(a, b);
  }

  // ---- decoding ----

  /** A line without its line break and the white space in front. */
  function Stripped(s: string): string {
    if s != "" && s[|s| - 1] == '\n' then DropBlank(s[..|s| - 1]) else DropBlank(s)
  }

  function DropBlank(s: string): string {
    if s != "" && s[0] in " \t\r" then DropBlank(s[1..]) else s
  }

  ghost predicate Encodes(e: Entry, line: string) { Enc(e) == Stripped(line) }

  ghost function Dec(line: string): Option<Entry> {
    if e :| Encodes(e, line) then Some(e) else None
  }

  lemma DecodesTo(e: Entry, line: string)
    requires Encodes(e, line)
    ensures Dec(line) == Some(e)
  {
    var d := Dec(line).value;
    assert Encodes(d, line);
    EncInjective(d, e);
  }

  lemma SameStripped(a: string, b: string)
    requires Stripped(a) == Stripped(b)
    ensures Dec(a) == Dec(b)
  {
    if e :| Encodes(e, a) {
      assert Encodes(e, b);
      DecodesTo(e, a);
      DecodesTo(e, b);
    } else {
      assert forall e :: !Encodes(e, a);
      assert forall e :: Encodes(e, b) ==> Encodes(e, a);
    }
  }

  lemma LineBreakIgnored(s: string)
    requires '\n' !in s
    ensures Dec(s + "\n") == Dec(s)
  {
    assert (s + "\n")[..|s|] == s;
    SameStripped(s + "\n", s);
  }

  lemma {:induction false} DropBlankFront(s: string, t: string)
    requires Blank(s) && (t != "" ==> t[0] !in " \t\r")
    ensures DropBlank(s + t) == t
  {
    if s == "" {
      assert s + t == t;
    } else {
      assert (s + t)[0] == s[0] && (s + t)[1..] == s[1..] + t;
      DropBlankFront(s[1..], t);
    }
  }

  lemma BlankIsNothing(s: string)
    requires Blank(s)
    ensures Dec(s) == None
  {
    assert s + "" == s;
    DropBlankFront(s, "");
    forall e ensures !Encodes(e, s) {
      EncShape(e);
    }
  }

  lemma BlankInFront(s: string, e: Entry)
    requires Blank(s)
    ensures Dec(s + Enc(e)) == Some(e)
  {
    EncShape(e);
    DropBlankFront(s, Enc(e));
    assert (s + Enc(e))[|s + Enc(e)| - 1] == '}';
    DecodesTo(e, s + Enc(e));
  }

  lemma {:induction false} DropBlankOf(s: string, t: string)
    requires !Blank(s)
    ensures DropBlank(s) != "" && DropBlank(s + t) == DropBlank(s) + t
  {
    assert (s + t)[0] == s[0] && (s + t)[1..] == s[1..] + t;
    if s[0] in " \t\r" {
      DropBlankOf(s[1..], t);
    }
  }

  /** What stands behind other text is not an object. */
  lemma NothingBehindText(s: string, e: Entry)
    requires '\n' !in s && !Blank(s)
    ensures Dec(s + Enc(e)) == None
  {
    EncShape(e);
    DropBlankOf(s, Enc(e));
    var t := DropBlank(s);
    assert (s + Enc(e))[|s + Enc(e)| - 1] == '}';
    assert Stripped(s + Enc(e)) == t + Enc(e);
    forall d ensures !Encodes(d, s + Enc(e)) {
      EncShape(d);
      assert (t + Enc(e))[|t|] == '{' && 0 < |t| < |t + Enc(e)| - 1;
    }
  }

  /** Nor is an object that was cut short. */
  lemma NothingCutShort(e: Entry, n: nat)
    requires n < |Enc(e)|
    ensures Dec(Enc(e)[..n]) == None
  {
    EncShape(e);
    var cut := Enc(e)[..n];
    assert Stripped(cut) == cut;
    forall d ensures !Encodes(d, cut) {
      EncShape(d);
    }
  }

  /** The encoding of entries as objects of numbers is one the log can use. */
  lemma SuchACodecExists()
    ensures ObjectPerLine(Codec(Enc, Dec))
  {
    var c := Codec(Enc, Dec);
    forall e ensures c.enc(e) != "" && '\n' !in c.enc(e) { EncShape(e); }
    forall s | '\n' !in s ensures c.dec(s + "\n") == c.dec(s) { LineBreakIgnored(s); }
    forall s | Blank(s) ensures c.dec(s) == None { BlankIsNothing(s); }
    forall s, e | Blank(s) ensures c.dec(s + c.enc(e)) == Some(e) { BlankInFront(s, e); }
    forall s, e | '\n' !in s && !Blank(s) ensures c.dec(s + c.enc(e)) == None { NothingBehindText(s, e); }
    forall e, n | 0 <= n < |c.enc(e)| ensures c.dec(c.enc(e)[..n]) == None { NothingCutShort(e, n); }
  }
}
