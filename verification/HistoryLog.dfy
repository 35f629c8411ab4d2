/** An append-only file of lines that several writers share and that a crash can leave with a torn line. Each character of
    the file stands for one byte. */
module HistoryLog {
  import opened Wrappers

  const VERSION := 1
  const MAX_TEXT := 0x10_0000

  /** `rest` stands for the fields that are only carried. */
  datatype Entry = Entry(v: int, time: Option<int>, dir: string, kind: string, status: string, text: string, rest: string)

  datatype Codec = Codec(enc: Entry -> string, dec: string -> Option<Entry>)

  predicate Valid(e: Entry) {
    && e.v == VERSION && e.dir in {"in", "out"} && e.kind in {"text", "file", "folder"}
    && e.status in {"ok", "failed", "cancelled"} && |e.text| <= MAX_TEXT
  }

  function Stamped(e: Entry, now: int): Entry {
    e.(v := VERSION, time := if e.time.None? then Some(now) else e.time)
  }

  /** White space that can stand on a line. */
  predicate Blank(s: string) { forall i | 0 <= i < |s| :: s[i] in " \t\r" }

  /** What the log needs of its encoding, JSON objects (RFC 8259): no raw line break in a string (section 7), white space
      around a text does not count (section 2), and neither a text cut short nor one behind other text is a text. */
  ghost predicate ObjectPerLine(c: Codec) {
    && (forall e :: c.enc(e) != "" && '\n' !in c.enc(e))
    && (forall s | '\n' !in s :: c.dec(s + "\n") == c.dec(s))
    && (forall s | Blank(s) :: c.dec(s) == None)
    && (forall s, e | Blank(s) :: c.dec(s + c.enc(e)) == Some(e))
    && (forall s, e | '\n' !in s && !Blank(s) :: c.dec(s + c.enc(e)) == None)
    && (forall e, n | 0 <= n < |c.enc(e)| :: c.dec(c.enc(e)[..n]) == None)
  }

  // ---- reading ----

  /** The end of the first line, with its line break. */
  function LineEnd(f: string): (n: nat)
    ensures n <= |f| && (f != "" ==> n > 0)
  {
    if f == "" then 0 else if f[0] == '\n' then 1 else 1 + LineEnd(f[1..])
  }

  /** The line break that ends the line is its only one. */
  lemma {:induction false} LineEndIsFirst(f: string)
    ensures var n := LineEnd(f);
            && (forall i | 0 <= i < n - 1 :: f[i] != '\n')
            && (n < |f| ==> n > 0 && f[n - 1] == '\n')
  {
    if f != "" && f[0] != '\n' {
      LineEndIsFirst(f[1..]);
    }
  }

  function Decoded(c: Codec, line: string): seq<Entry> {
    match c.dec(line)
    case Some(e) => if e.v == VERSION then [e] else []
    case None => []
  }

  /** The entries of a file, oldest first; lines that do not decode are skipped. */
  function Readable(c: Codec, f: string): seq<Entry> {
    if f == "" then [] else Decoded(c, f[..LineEnd(f)]) + Readable(c, f[LineEnd(f)..])
  }

  /** What follows the last line break. */
  function Tail(f: string): (t: string)
    ensures |t| <= |f| && f[|f| - |t|..] == t && '\n' !in t
    ensures |t| < |f| ==> f[|f| - |t| - 1] == '\n'
  {
    if f == "" || f[|f| - 1] == '\n' then "" else Tail(f[..|f| - 1]) + [f[|f| - 1]]
  }

  predicate Clean(f: string) { f == "" || f[|f| - 1] == '\n' }

  lemma OneLine(c: Codec, s: string)
    requires '\n' !in s && c.dec("") == None
    ensures Readable(c, s) == Decoded(c, s) && Readable(c, s + "\n") == Decoded(c, s + "\n")
  {
    var n, m := LineEnd(s), LineEnd(s + "\n");
    LineEndIsFirst(s);
    LineEndIsFirst(s + "\n");
    assert m > 0 && (s + "\n")[m - 1] == '\n';
    assert n == |s| && m == |s| + 1;
    assert s[..n] == s && s[n..] == "" && (s + "\n")[..m] == s + "\n" && (s + "\n")[m..] == "";
  }

  lemma LineEndOfMore(f: string, g: string)
    requires '\n' in f
    ensures LineEnd(f + g) == LineEnd(f) && f[LineEnd(f) - 1] == '\n'
    decreases |f|
  {
    if f[0] != '\n' {
      assert (f + g)[1..] == f[1..] + g;
      LineEndOfMore(f[1..], g);
    }
  }

  lemma FirstLine(c: Codec, f: string, g: string)
    requires '\n' in f
    ensures Readable(c, f + g) == Decoded(c, f[..LineEnd(f)]) + Readable(c, f[LineEnd(f)..] + g)
  {
    LineEndOfMore(f, g);
    assert (f + g)[..LineEnd(f)] == f[..LineEnd(f)] && (f + g)[LineEnd(f)..] == f[LineEnd(f)..] + g;
  }

  lemma Chain(a: seq<Entry>, b: seq<Entry>, c: seq<Entry>)
    ensures a + (b + c) == a + b + c
  {
  }

  /** Behind whole lines, more text reads on its own. */
  lemma {:induction false} ReadsOn(c: Codec, f: string, g: string)
    requires Clean(f)
    ensures Readable(c, f + g) == Readable(c, f) + Readable(c, g)
    decreases |f|
  {
    if f == "" {
      assert f + g == g;
    } else {
      var n := LineEnd(f);
      FirstLine(c, f, g);
      ReadsOn(c, f[n..], g);
      Chain(Decoded(c, f[..n]), Readable(c, f[n..]), Readable(c, g));
    }
  }

  lemma TailSplits(f: string)
    ensures f == f[..|f| - |Tail(f)|] + Tail(f) && Clean(f[..|f| - |Tail(f)|])
  {
  }

  /** A line break closes a torn line without changing what can be read. */
  lemma CloseLine(c: Codec, f: string)
    requires ObjectPerLine(c)
    ensures Readable(c, f + "\n") == Readable(c, f)
  {
    var t := Tail(f);
    var h := f[..|f| - |t|];
    TailSplits(f);
    assert f + "\n" == h + (t + "\n");
    ReadsOn(c, h, t);
    ReadsOn(c, h, t + "\n");
    assert Blank("");
    OneLine(c, t);
  }

  // ---- appending ----

  /** What goes out in one write; the line break in front keeps off a torn line. */
  function Line(c: Codec, e: Entry, apart: bool): string { (if apart then "\n" else "") + c.enc(e) + "\n" }

  /** What the encoding promises about one entry and about what stands before it. */
  lemma EncodedDecodes(c: Codec, e: Entry, t: string)
    requires ObjectPerLine(c) && '\n' !in t
    ensures c.dec("") == None && '\n' !in c.enc(e)
    ensures c.dec(t + c.enc(e) + "\n") == c.dec(t + c.enc(e)) == if Blank(t) then Some(e) else None
    ensures Blank(t) ==> c.dec(t) == None
  {
    assert Blank("");
    assert '\n' !in t + c.enc(e);
  }

  lemma EncodedReads(c: Codec, e: Entry)
    requires c.dec("") == None && c.dec(c.enc(e) + "\n") == c.dec(c.enc(e)) == Some(e)
    requires '\n' !in c.enc(e) && e.v == VERSION
    ensures Readable(c, c.enc(e) + "\n") == [e] && Readable(c, c.enc(e)) == [e]
  {
    OneLine(c, c.enc(e));
  }

  lemma OneEntry(c: Codec, e: Entry)
    requires ObjectPerLine(c) && e.v == VERSION
    ensures Readable(c, c.enc(e) + "\n") == [e] && Readable(c, c.enc(e)) == [e]
  {
    assert "" + c.enc(e) == c.enc(e);
    EncodedDecodes(c, e, "");
    EncodedReads(c, e);
  }

  /** An entry is added, and nothing else changes, if the write starts on a line of its own. */
  lemma AppendsOne(c: Codec, f: string, e: Entry, apart: bool)
    requires ObjectPerLine(c) && e.v == VERSION && (apart || Clean(f))
    ensures Readable(c, f + Line(c, e, apart)) == Readable(c, f) + [e] && Clean(f + Line(c, e, apart))
  {
    OneEntry(c, e);
    if apart { CloseLine(c, f); }
    AppendsBehind(c, f, e, apart);
  }

  lemma LineBehind(c: Codec, f: string, e: Entry, apart: bool)
    ensures f + Line(c, e, apart) == (if apart then f + "\n" else f) + (c.enc(e) + "\n")
  {
    if apart {
      Associate(f, "\n", c.enc(e), "\n");
    } else {
      assert "" + c.enc(e) == c.enc(e);
    }
  }

  lemma Associate(a: string, b: string, c: string, d: string)
    ensures (a + b) + (c + d) == a + (b + c + d)
  {
  }

  lemma AppendsBehind(c: Codec, f: string, e: Entry, apart: bool)
    requires Readable(c, c.enc(e) + "\n") == [e]
    requires if apart then Readable(c, f + "\n") == Readable(c, f) else Clean(f)
    ensures Readable(c, f + Line(c, e, apart)) == Readable(c, f) + [e]
  {
    LineBehind(c, f, e, apart);
    ReadsOn(c, if apart then f + "\n" else f, c.enc(e) + "\n");
  }

  /** Without a line of its own, an entry is added exactly when what stands on the last line is blank. */
  lemma AddsIffTailBlank(c: Codec, f: string, e: Entry)
    requires ObjectPerLine(c) && e.v == VERSION
    ensures Readable(c, f + Line(c, e, false)) == Readable(c, f) + [e] <==> Blank(Tail(f))
  {
    EncodedDecodes(c, e, Tail(f));
    GluedReads(c, f, e);
  }

  lemma GluedReads(c: Codec, f: string, e: Entry)
    requires c.dec("") == None && '\n' !in c.enc(e)
    ensures var t := Tail(f);
            var h := f[..|f| - |t|];
            && Readable(c, f) == Readable(c, h) + Decoded(c, t)
            && Readable(c, f + Line(c, e, false)) == Readable(c, h) + Decoded(c, t + c.enc(e) + "\n")
  {
    var t := Tail(f);
    var h := f[..|f| - |t|];
    ReadsOn(c, h, t);
    OneLine(c, t);
    LineGlued(c, f, e);
    ReadsOn(c, h, t + c.enc(e) + "\n");
    OneLine(c, t + c.enc(e));
  }

  lemma LineGlued(c: Codec, f: string, e: Entry)
    ensures var t := Tail(f);
            var h := f[..|f| - |t|];
            Clean(h) && f == h + t && f + Line(c, e, false) == h + (t + c.enc(e) + "\n")
  {
    var t := Tail(f);
    TailSplits(f);
    assert "" + c.enc(e) == c.enc(e);
    Associate(f[..|f| - |t|], t, c.enc(e), "\n");
  }

  /** What a write leaves that is cut short behind its leading line break. */
  lemma CutBehind(c: Codec, f: string, e: Entry, apart: bool, n: nat)
    requires n < |Line(c, e, apart)| && (apart ==> n > 0)
    ensures f + Line(c, e, apart)[..n] ==
            (if apart then f + "\n" else f) + c.enc(e)[..if apart then n - 1 else n]
  {
    if apart {
      CutJoined("\n", c.enc(e), n);
      assert f + ("\n" + c.enc(e)[..n - 1]) == f + "\n" + c.enc(e)[..n - 1];
    } else {
      CutJoined("", c.enc(e), n);
      assert "" + c.enc(e)[..n] == c.enc(e)[..n];
    }
  }

  lemma CutJoined(a: string, b: string, n: nat)
    requires |a| <= n <= |a| + |b|
    ensures (a + b + "\n")[..n] == a + b[..n - |a|]
  {
  }

  /** A write cut short adds the entry if only its last line break is missing, and otherwise nothing. */
  lemma TornAdds(c: Codec, f: string, e: Entry, apart: bool, n: nat)
    requires ObjectPerLine(c) && e.v == VERSION && (apart || Clean(f)) && n < |Line(c, e, apart)|
    ensures Readable(c, f + Line(c, e, apart)[..n]) ==
            Readable(c, f) + if n == |Line(c, e, apart)| - 1 then [e] else []
  {
    var line := Line(c, e, apart);
    if apart && n == 0 {
      assert f + line[..n] == f;
    } else {
      var k := if apart then n - 1 else n;
      var f' := if apart then f + "\n" else f;
      CutBehind(c, f, e, apart, n);
      if apart { CloseLine(c, f); }
      ReadsOn(c, f', c.enc(e)[..k]);
      TornEncoding(c, e, k);
    }
  }

  lemma TornEncoding(c: Codec, e: Entry, k: nat)
    requires ObjectPerLine(c) && e.v == VERSION && k <= |c.enc(e)|
    ensures Readable(c, c.enc(e)[..k]) == if k == |c.enc(e)| then [e] else []
  {
    assert Blank("");
    assert '\n' !in c.enc(e)[..k];
    OneLine(c, c.enc(e)[..k]);
    if k == |c.enc(e)| {
      assert c.enc(e)[..k] == c.enc(e);
      OneEntry(c, e);
    }
  }

  // ---- what is written and what is read ----

  /** What Append makes of an entry: the current version, and the time if it has none. It can be written exactly if its
      direction, kind and status are known and its text has at most a mebibyte. */
  lemma StampedMeans(e: Entry, now: int)
    ensures var s := Stamped(e, now);
            && s.v == 1 && s.time == (if e.time == None then Some(now) else e.time) && s.dir == e.dir && s.kind == e.kind
            && s.status == e.status && s.text == e.text && s.rest == e.rest
    ensures Valid(Stamped(e, now)) <==>
            && (e.dir == "in" || e.dir == "out") && (e.kind == "text" || e.kind == "file" || e.kind == "folder")
            && (e.status == "ok" || e.status == "failed" || e.status == "cancelled") && |e.text| <= 1048576
  {
  }

  /** Lines, each with its line break. */
  function Lines(lines: seq<string>): string { if lines == [] then "" else lines[0] + "\n" + Lines(lines[1..]) }

  /** What a line stands for: what it decodes to, if its version is 1, and nothing if it does not decode. */
  function EntryOf(c: Codec, line: string): seq<Entry> {
    match c.dec(line)
    case Some(e) => if e.v == 1 then [e] else []
    case None => []
  }

  function EntriesOf(c: Codec, lines: seq<string>): seq<Entry> {
    if lines == [] then [] else EntryOf(c, lines[0]) + EntriesOf(c, lines[1..])
  }

  lemma FirstLineReads(c: Codec, line: string, rest: string)
    requires '\n' !in line && c.dec("") == None && c.dec(line + "\n") == c.dec(line)
    ensures Readable(c, line + "\n" + rest) == EntryOf(c, line) + Readable(c, rest)
  {
    ReadsOn(c, line + "\n", rest);
    OneLine(c, line);
  }

  lemma LastLineReads(c: Codec, last: string)
    requires '\n' !in last && c.dec("") == None
    ensures Readable(c, last) == EntriesOf(c, [last])
  {
    OneLine(c, last);
    assert [last][1..] == [] && EntriesOf(c, []) == [];
  }

  lemma LinesFirst(lines: seq<string>, last: string)
    requires lines != []
    ensures Lines(lines) + last == lines[0] + "\n" + (Lines(lines[1..]) + last)
    ensures (lines + [last])[0] == lines[0] && (lines + [last])[1..] == lines[1..] + [last]
  {
    assert lines[0] + "\n" + Lines(lines[1..]) + last == lines[0] + "\n" + (Lines(lines[1..]) + last);
  }

  /** A file of lines reads line by line; a last line without its line break counts like the others. */
  lemma {:induction false} ReadsLineByLine(c: Codec, lines: seq<string>, last: string)
    requires ObjectPerLine(c) && '\n' !in last && forall i | 0 <= i < |lines| :: '\n' !in lines[i]
    ensures Readable(c, Lines(lines) + last) == EntriesOf(c, lines + [last])
    decreases |lines|
  {
    assert Blank("");
    if lines == [] {
      LastLineReads(c, last);
      assert "" + last == last && lines + [last] == [last];
    } else {
      LinesFirst(lines, last);
      FirstLineReads(c, lines[0], Lines(lines[1..]) + last);
      ReadsLineByLine(c, lines[1..], last);
    }
  }
}
