/** Paths inside a folder that is transferred: from the name in the stream to its components and back. */
module FolderPaths {
  import opened Wrappers
  import opened Filenames

  type Path = seq<string>

  const MAX_ENTRY_DEPTH := 64
  const MAX_ENTRY_PATH_LEN := 4096

  datatype Error =
    | InvalidPath | BothKinds | Repeated | Folded | TooManyFolders | TooLarge
    | SparseFile | NotFileOrFolder | BadHeader | ReadFailed | Refused | Incomplete
    | CannotSend | Changed

  /** The parts between slashes: never none, and one more than there are slashes. */
  function Split(s: string): (parts: seq<string>)
    ensures parts != [] && Join(parts) == s
  {
    if s == "" then [""] else Push(s[0], Split(s[1..]))
  }

  /** The parts of a string with one more character in front. */
  function Push(c: char, parts: seq<string>): seq<string>
    requires parts != []
  {
    if c == '/' then [""] + parts else [[c] + parts[0]] + parts[1..]
  }

  lemma PushAppend(c: char, x: seq<string>, y: seq<string>)
    requires x != []
    ensures Push(c, x + y) == Push(c, x) + y
  {
  }

  function Join(parts: seq<string>): string {
    if parts == [] then ""
    else if |parts| == 1 then parts[0] else parts[0] + "/" + Join(parts[1..])
  }

  function TrimSuffix(s: string, suffix: string): string {
    if EndsWith(s, suffix) then s[..|s| - |suffix|] else s
  }

  function TrimPrefix(s: string, prefix: string): string {
    if prefix <= s then s[|prefix|..] else s
  }

  predicate AllValid(pf: Platform, parts: Path) {
    forall i | 0 <= i < |parts| :: ValidFilename(pf, parts[i])
  }

  /** The components of an entry's name, or none for the folder itself. */
  function EntryPath(pf: Platform, name: string): Result<Path, Error> {
    var p := TrimPrefix(TrimSuffix(name, "/"), "./");
    if p == "" || p == "." then Ok([])
    else if |p| > MAX_ENTRY_PATH_LEN then Err(InvalidPath)
    else if |Split(p)| > MAX_ENTRY_DEPTH then Err(InvalidPath)
    else if !AllValid(pf, Split(p)) then Err(InvalidPath)
    else Ok(Split(p))
  }

  /** A path that both sides accept. */
  ghost predicate Sendable(pf: Platform, rel: Path) {
    rel != [] && AllValid(pf, rel) && |rel| <= MAX_ENTRY_DEPTH && |Join(rel)| <= MAX_ENTRY_PATH_LEN
  }

  // ---- splitting undoes joining ----

  lemma {:induction false} SplitPlain(s: string)
    requires '/' !in s
    ensures Split(s) == [s]
  {
    if s != "" {
      SplitPlain(s[1..]);
      assert [s[0]] + s[1..] == s;
    }
  }

  lemma {:induction false} SplitAt(a: string, b: string)
    requires '/' !in a
    ensures Split(a + "/" + b) == [a] + Split(b)
  {
    var s := a + "/" + b;
    if a == "" {
      assert s[1..] == b;
    } else {
      assert s[1..] == a[1..] + "/" + b;
      SplitAt(a[1..], b);
      assert [a[0]] + a[1..] == a;
    }
  }

  lemma {:induction false} SplitJoin(parts: Path)
    requires parts != [] && forall i | 0 <= i < |parts| :: '/' !in parts[i]
    ensures Split(Join(parts)) == parts
  {
    if |parts| == 1 {
      SplitPlain(parts[0]);
    } else {
      SplitJoin(parts[1..]);
      SplitAt(parts[0], Join(parts[1..]));
    }
  }

  lemma ValidHasNoSlash(pf: Platform, name: string)
    requires ValidFilename(pf, name)
    ensures '/' !in name && name != "" && name != "."
  {
    forall k | 0 <= k < |name| ensures name[k] != '/' {
      assert '/' in "/\\" by { assert "/\\"[0] == '/'; }
    }
  }

  lemma {:induction false} JoinEnds(parts: Path)
    requires parts != [] && forall i | 0 <= i < |parts| :: parts[i] != "" && '/' !in parts[i]
    ensures Join(parts) != "" && Join(parts)[|Join(parts)| - 1] != '/'
    ensures Join(parts)[0] == parts[0][0]
    ensures "./" <= Join(parts) || Join(parts) == "." ==> parts[0] == "."
  {
    var s := Join(parts);
    assert forall k | 0 <= k < |parts[0]| :: parts[0][k] != '/';
    if |parts[0]| >= 2 {
      assert s[1] == parts[0][1];
    }
    if "./" <= s {
      assert s[1] == '/' && s[0] == '.';
    }
    if |parts| > 1 {
      JoinEnds(parts[1..]);
      assert s[|s| - 1] == Join(parts[1..])[|Join(parts[1..])| - 1];
      if "./" <= s {
        assert parts[0] == [parts[0][0]];
      }
    }
  }

  lemma TrimNothing(s: string)
    requires s != "" && s[|s| - 1] != '/' && !("./" <= s)
    ensures TrimPrefix(TrimSuffix(s, "/"), "./") == s
    ensures TrimPrefix(TrimSuffix(s + "/", "/"), "./") == s
  {
    assert s[|s| - 1..][0] == s[|s| - 1];
    var t := s + "/";
    assert t[|t| - 1..] == "/" && t[..|t| - 1] == s;
  }

  /** The receiver reads a header's name, with the slash that marks a folder or without, as the path it was made from. */
  lemma EntryPathOfJoin(pf: Platform, rel: Path)
    requires Sendable(pf, rel)
    ensures EntryPath(pf, Join(rel)) == Ok(rel) && EntryPath(pf, Join(rel) + "/") == Ok(rel)
  {
    forall i | 0 <= i < |rel| ensures '/' !in rel[i] && rel[i] != "" && rel[i] != "." {
      ValidHasNoSlash(pf, rel[i]);
    }
    SplitJoin(rel);
    JoinEnds(rel);
    TrimNothing(Join(rel));
  }

  lemma EntryPathSendable(pf: Platform, name: string)
    requires EntryPath(pf, name).Ok? && EntryPath(pf, name).value != []
    ensures Sendable(pf, EntryPath(pf, name).value)
  {
  }

  // ---- which names denote a path ----

  /** The names that stand for the path p: with or without "./" in front and a slash behind. */
  function NamesOf(p: string): set<string> { {p, p + "/", "./" + p, "./" + p + "/"} }

  lemma TrimmedFrom(name: string)
    ensures var p := TrimPrefix(TrimSuffix(name, "/"), "./"); name in NamesOf(p)
  {
    var q := TrimSuffix(name, "/");
    if EndsWith(name, "/") {
      assert name == name[..|name| - 1] + name[|name| - 1..];
    }
    assert name == q || name == q + "/";
    if "./" <= q {
      assert q == "./" + q[2..];
    }
  }

  lemma TrimSlash(q: string)
    ensures TrimSuffix(q + "/", "/") == q
    ensures q != "" && q[|q| - 1] != '/' ==> TrimSuffix(q, "/") == q
  {
    var t := q + "/";
    assert t[|t| - 1..] == "/" && t[..|t| - 1] == q;
    if q != "" { assert q[|q| - 1..][0] == q[|q| - 1]; }
  }

  lemma TrimDot(p: string)
    ensures TrimPrefix("./" + p, "./") == p
  {
    var d := "./" + p;
    assert d[2..] == p;
  }

  lemma TrimOne(p: string, name: string)
    requires p != "" && p[|p| - 1] != '/' && !("./" <= p) && name in NamesOf(p)
    ensures TrimPrefix(TrimSuffix(name, "/"), "./") == p
  {
    if name == p || name == p + "/" {
      TrimSlash(p);
    } else {
      var d := "./" + p;
      assert d[|d| - 1] == p[|p| - 1];
      TrimSlash(d);
      TrimDot(p);
    }
  }

  lemma ReadAs(pf: Platform, name: string, rel: Path)
    requires Sendable(pf, rel) && name in NamesOf(Join(rel))
    ensures EntryPath(pf, name) == Ok(rel)
  {
    forall i | 0 <= i < |rel| ensures '/' !in rel[i] && rel[i] != "" && rel[i] != "." {
      ValidHasNoSlash(pf, rel[i]);
    }
    SplitJoin(rel);
    JoinEnds(rel);
    TrimOne(Join(rel), name);
  }

  /** A name is read as a path exactly if it stands for that path and the path is within the limits: each component a valid
      file name, at most 64 of them, at most 4096 bytes. */
  lemma EntryPathMeans(pf: Platform, name: string, rel: Path)
    requires rel != []
    ensures EntryPath(pf, name) == Ok(rel) <==>
            AllValid(pf, rel) && |rel| <= 64 && |Join(rel)| <= 4096 && name in NamesOf(Join(rel))
  {
    if EntryPath(pf, name) == Ok(rel) {
      TrimmedFrom(name);
    } else if Sendable(pf, rel) && name in NamesOf(Join(rel)) {
      ReadAs(pf, name, rel);
    }
  }

  /** These names stand for the folder itself. */
  lemma EntryPathOfFolder(pf: Platform, name: string)
    ensures EntryPath(pf, name) == Ok([]) <==> name in {"", "/", ".", "./", ".//", "./.", "././"}
  {
    TrimmedFrom(name);
    assert NamesOf("") == {"", "/", "./", ".//"} by {
      assert "" + "/" == "/" && "./" + "" == "./" && "./" + "" + "/" == ".//";
    }
    assert NamesOf(".") == {".", "./", "./.", "././"} by {
      assert "." + "/" == "./" && "./" + "." == "./." && "./" + "." + "/" == "././";
    }
    if name in {"", "/", ".", "./", ".//", "./.", "././"} {
      FolderNames(name);
    }
  }

  lemma FolderNames(name: string)
    requires name in {"", "/", ".", "./", ".//", "./.", "././"}
    ensures TrimPrefix(TrimSuffix(name, "/"), "./") in {"", "."}
  {
    if |name| > 0 {
      assert name[|name| - 1..] == [name[|name| - 1]];
    }
    assert "././"[..3] == "./." && "./."[2..] == "." && ".//"[..2] == "./" && "./"[..1] == ".";
  }
}
