/** Names of received files and folders. A name is a string of bytes; each character stands for one byte. */
module Filenames {

  datatype OS = Linux | Darwin | Windows

  /** What the platform supplies: the system, the length in UTF-16 units, and upper-casing. */
  datatype Platform = Platform(os: OS, units: string -> nat, upper: string -> string)

  const WINDOWS_RESERVED: set<string> :=
    { "CON", "PRN", "AUX", "NUL",
      "COM1", "COM2", "COM3", "COM4", "COM5", "COM6", "COM7", "COM8", "COM9",
      "LPT1", "LPT2", "LPT3", "LPT4", "LPT5", "LPT6", "LPT7", "LPT8", "LPT9" }

  const PART_PREFIX := ".lanxfer-"
  const PART_SUFFIX := ".part"

  predicate EndsWith(s: string, suffix: string) {
    |suffix| <= |s| && s[|s| - |suffix|..] == suffix
  }

  predicate ContainsAny(s: string, chars: string) {
    exists i | 0 <= i < |s| :: s[i] in chars
  }

  /** The names of temporary files: ".lanxfer-", any characters but a separator, ".part". */
  predicate IsPart(name: string) {
    && PART_PREFIX <= name && EndsWith(name, PART_SUFFIX)
    && |name| >= |PART_PREFIX| + |PART_SUFFIX| && '/' !in name
  }

  predicate FitsLength(pf: Platform, name: string) {
    if pf.os.Linux? then |name| <= 255 else pf.units(name) <= 255
  }

  predicate ValidFilename(pf: Platform, name: string) {
    && name != "" && name != "." && name != ".."
    && FitsLength(pf, name)
    && !ContainsAny(name, "/\\")
    && (forall i | 0 <= i < |name| :: name[i] as int >= 0x20 && name[i] as int != 0x7F)
    && !(pf.os.Windows? && ContainsAny(name, "<>:\"|?*"))
    && !EndsWith(name, ".") && !EndsWith(name, " ")
    && pf.upper(name) !in WINDOWS_RESERVED
    && !IsPart(name)
  }

  /** The part of the name from its last dot, or nothing. */
  function Ext(name: string): (ext: string)
    ensures EndsWith(name, ext)
    ensures ext == "" <==> '.' !in name
    ensures ext != "" ==> ext[0] == '.' && '.' !in ext[1..]
  {
    if name == "" then ""
    else if Ext(name[1..]) != "" then Ext(name[1..])
    else if name[0] == '.' then name
    else ""
  }

  function Stem(name: string): string { name[..|name| - |Ext(name)|] }

  function Digit(d: nat): char
    requires d < 10
  {
    "0123456789"[d]
  }

  function Itoa(n: nat): (s: string)
    ensures s != "" && forall c | c in s :: '0' <= c <= '9'
  {
    if n < 10 then [Digit(n)] else Itoa(n / 10) + [Digit(n % 10)]
  }

  /** The temporary name that a random draw gives. */
  function TempName(draw: nat): string { PART_PREFIX + Itoa(draw) + PART_SUFFIX }

  lemma TempIsPart(draw: nat)
    ensures IsPart(TempName(draw))
  {
    var name, digits := TempName(draw), Itoa(draw);
    assert name[|name| - |PART_SUFFIX|..] == PART_SUFFIX;
    forall k | 0 <= k < |name| ensures name[k] != '/' {
      if 9 <= k < 9 + |digits| {
        assert name[k] == digits[k - 9] && digits[k - 9] in digits;
      }
    }
  }

  /** The i-th candidate for a final name: a file keeps its extension, a folder has none. */
  function NumberedName(name: string, i: nat, isDir: bool): string {
    if i == 0 then name
    else if isDir then name + " (" + Itoa(i) + ")"
    else Stem(name) + " (" + Itoa(i) + ")" + Ext(name)
  }

  lemma DigitInjective(a: nat, b: nat)
    requires a < 10 && b < 10 && Digit(a) == Digit(b)
    ensures a == b
  {
  }

  lemma {:induction false} ItoaInjective(a: nat, b: nat)
    requires Itoa(a) == Itoa(b)
    ensures a == b
  {
    var s := Itoa(a);
    assert s[|s| - 1] == Digit(a % 10) && s[|s| - 1] == Digit(b % 10);
    DigitInjective(a % 10, b % 10);
    if a >= 10 && b >= 10 {
      assert s[..|s| - 1] == Itoa(a / 10) && s[..|s| - 1] == Itoa(b / 10);
      ItoaInjective(a / 10, b / 10);
    }
  }

  lemma Middle(pre: string, a: string, b: string, post: string)
    requires pre + a + post == pre + b + post
    ensures a == b
  {
    var s := pre + a + post;
    assert |a| == |b|;
    assert a == s[|pre|..|pre| + |a|] == b;
  }

  function Suffix(name: string, isDir: bool): string { if isDir then "" else Ext(name) }

  lemma NumberedShape(name: string, i: nat, isDir: bool)
    requires i > 0
    ensures var pre := if isDir then name else Stem(name);
            NumberedName(name, i, isDir) == (pre + " (") + Itoa(i) + (")" + Suffix(name, isDir))
    ensures |NumberedName(name, i, isDir)| > |name|
  {
    assert |name| == |Stem(name)| + |Ext(name)|;
  }

  /** The candidates for one name are pairwise distinct. */
  lemma CandidatesDistinct(name: string, i: nat, j: nat, isDir: bool)
    requires NumberedName(name, i, isDir) == NumberedName(name, j, isDir)
    ensures i == j
  {
    if i > 0 { NumberedShape(name, i, isDir); }
    if j > 0 { NumberedShape(name, j, isDir); }
    if i > 0 && j > 0 {
      var pre := if isDir then name else Stem(name);
      Middle(pre + " (", Itoa(i), Itoa(j), ")" + Suffix(name, isDir));
      ItoaInjective(i, j);
    }
  }

  /** A candidate for a valid name is never the name of a temporary file. */
  lemma CandidateIsNotPart(pf: Platform, name: string, i: nat, isDir: bool)
    requires ValidFilename(pf, name)
    ensures !IsPart(NumberedName(name, i, isDir))
  {
    NumberedIsNotPart(name, i, isDir);
  }

  lemma NumberedIsNotPart(name: string, i: nat, isDir: bool)
    requires !IsPart(name)
    ensures !IsPart(NumberedName(name, i, isDir))
  {
    if i > 0 {
      NumberedParts(name, i, isDir);
      WithNumberIsNotPart(if isDir then name else Stem(name), i, Suffix(name, isDir));
    }
  }

  lemma NumberedParts(name: string, i: nat, isDir: bool)
    requires i > 0
    ensures var pre, ext := if isDir then name else Stem(name), Suffix(name, isDir);
            NumberedName(name, i, isDir) == pre + Number(i) + ext && name == pre + ext
  {
    var pre, ext := if isDir then name else Stem(name), Suffix(name, isDir);
    NumberedShape(name, i, isDir);
    assert (pre + " (") + Itoa(i) + (")" + ext) == pre + Number(i) + ext;
  }

  lemma WithNumberIsNotPart(pre: string, i: nat, ext: string)
    requires !IsPart(pre + ext) && (ext == "" || (ext[0] == '.' && '.' !in ext[1..]))
    ensures !IsPart(pre + Number(i) + ext)
  {
    var c := pre + Number(i) + ext;
    NumberHasNoDash(i);
    if ext == "" {
      assert c[|c| - 1] == ')';
      ClosedIsNotPart(c);
    } else if IsPart(c) {
      PartHasPartStem(pre, Number(i), ext);
    }
  }

  function Number(i: nat): string { " (" + Itoa(i) + ")" }

  lemma NumberHasNoDash(i: nat)
    ensures '-' !in Number(i)
  {
    forall k | 0 <= k < |Number(i)| ensures Number(i)[k] != '-' {
      if 2 <= k < 2 + |Itoa(i)| {
        assert Number(i)[k] == Itoa(i)[k - 2];
        assert Itoa(i)[k - 2] in Itoa(i);
      }
    }
  }

  lemma ClosedIsNotPart(s: string)
    requires s != "" && s[|s| - 1] == ')'
    ensures !IsPart(s)
  {
    if |s| >= 5 {
      assert s[|s| - 5..][4] == ')';
    }
  }

  /** Were a numbered name a temporary one, so would be the name without the number. */
  lemma PartHasPartStem(pre: string, number: string, ext: string)
    requires ext != "" && ext[0] == '.' && '.' !in ext[1..]
    requires IsPart(pre + number + ext) && '-' !in number
    ensures IsPart(pre + ext)
  {
    ExtOfPart(pre + number, ext);
    PrefixInStem(pre, number, ext);
    var c, name := pre + number + ext, pre + ext;
    assert name[|name| - |PART_SUFFIX|..] == ext;
    forall k | 0 <= k < |name| ensures name[k] != '/' {
      if k < |pre| { assert c[k] == name[k]; } else { assert c[k + |number|] == name[k]; }
    }
  }

  lemma ExtOfPart(s: string, ext: string)
    requires ext != "" && ext[0] == '.' && '.' !in ext[1..]
    requires EndsWith(s + ext, PART_SUFFIX)
    ensures ext == PART_SUFFIX
  {
    var c := s + ext;
    var n := |c|;
    assert c[|s|] == '.' && c[n - 5..][0] == '.';
    forall k | |s| < k < n ensures c[k] != '.' {
      assert c[k] == ext[1..][k - |s| - 1];
    }
    forall k | n - 5 < k < n ensures c[k] != '.' {
      assert c[k] == c[n - 5..][k - (n - 5)];
    }
    assert |s| == n - 5;
    assert ext == c[|s|..];
  }

  lemma PrefixInStem(stem: string, number: string, ext: string)
    requires PART_PREFIX <= stem + number + ext && ext == PART_SUFFIX && '-' !in number
    ensures PART_PREFIX <= stem
  {
    var c := stem + number + ext;
    assert c[8] == PART_PREFIX[8] == '-';
    forall k | |stem| <= k < |c| ensures c[k] != '-' {
      if k < |stem| + |number| {
        assert c[k] == number[k - |stem|];
      } else {
        assert c[k] == PART_SUFFIX[k - |stem| - |number|];
      }
    }
    assert stem[..9] == c[..9] == PART_PREFIX;
  }

  // ---- what these names look like ----

  /** Reads a decimal number. */
  function Value(digits: string): int {
    if digits == "" then 0 else 10 * Value(digits[..|digits| - 1]) + (digits[|digits| - 1] as int - '0' as int)
  }

  /** The decimal number reads back, and does not begin with a zero. */
  lemma {:induction false} ItoaReads(n: nat)
    ensures Value(Itoa(n)) == n && (n > 0 ==> Itoa(n)[0] != '0')
  {
    var s := Itoa(n);
    if n < 10 {
      assert s[..0] == "";
    } else {
      ItoaReads(n / 10);
      assert s[..|s| - 1] == Itoa(n / 10);
    }
  }

  /** The i-th name for a file is its name with the number in front of its extension; for a folder the number comes last. */
  lemma NumberedSplits(name: string, i: nat) returns (base: string)
    ensures base + Ext(name) == name
    ensures NumberedName(name, i, false) == if i == 0 then name else base + " (" + Itoa(i) + ")" + Ext(name)
    ensures NumberedName(name, i, true) == if i == 0 then name else name + " (" + Itoa(i) + ")"
  {
    base := Stem(name);
    assert name == name[..|name| - |Ext(name)|] + name[|name| - |Ext(name)|..];
  }

  /** Temporary names: ".lanxfer-", something without a slash, ".part". */
  lemma PartMeans(name: string)
    ensures IsPart(name) <==> exists mid :: name == ".lanxfer-" + mid + ".part" && '/' !in mid
  {
    if IsPart(name) {
      var mid := name[9..|name| - 5];
      assert name == name[..9] + mid + name[|name| - 5..];
      forall c | c in mid ensures c != '/' {
        var k :| 0 <= k < |mid| && mid[k] == c;
        assert name[k + 9] == c;
      }
      assert name == ".lanxfer-" + mid + ".part" && '/' !in mid;
    }
    if mid :| name == ".lanxfer-" + mid + ".part" && '/' !in mid {
      assert name[|name| - 5..] == ".part";
      forall c | c in name ensures c != '/' {
        var k :| 0 <= k < |name| && name[k] == c;
        if 9 <= k < 9 + |mid| { assert mid[k - 9] == c; }
      }
    }
  }

  /** A device name of Windows, in capitals. */
  predicate IsDevice(name: string) {
    || name == "CON" || name == "PRN" || name == "AUX" || name == "NUL"
    || (|name| == 4 && (name[..3] == "COM" || name[..3] == "LPT") && '1' <= name[3] <= '9')
  }

  lemma DevicesAreReserved(name: string)
    ensures name in WINDOWS_RESERVED <==> IsDevice(name)
  {
    if |name| == 4 && (name[..3] == "COM" || name[..3] == "LPT") && '1' <= name[3] <= '9' {
      assert name == name[..3] + [name[3]];
      if name[..3] == "COM" { Coms(name[3]); } else { Lpts(name[3]); }
    }
  }

  lemma Coms(d: char)
    requires '1' <= d <= '9'
    ensures "COM" + [d] in {"COM1", "COM2", "COM3", "COM4", "COM5", "COM6", "COM7", "COM8", "COM9"}
  {
    assert "COM" + [d] == ['C', 'O', 'M', d];
  }

  lemma Lpts(d: char)
    requires '1' <= d <= '9'
    ensures "LPT" + [d] in {"LPT1", "LPT2", "LPT3", "LPT4", "LPT5", "LPT6", "LPT7", "LPT8", "LPT9"}
  {
    assert "LPT" + [d] == ['L', 'P', 'T', d];
  }

  predicate PlainChar(os: OS, c: char) {
    && 0x20 <= c as int && c as int != 0x7F && c != '/' && c != '\\'
    && (os.Windows? ==> c != '<' && c != '>' && c != ':' && c != '"' && c != '|' && c != '?' && c != '*')
  }

  /** Which names are accepted, character by character. */
  lemma ValidFilenameMeans(pf: Platform, name: string)
    ensures ValidFilename(pf, name) <==>
              && name != "" && name != "." && name != ".."
              && (if pf.os.Linux? then |name| <= 255 else pf.units(name) <= 255)
              && (forall c | c in name :: PlainChar(pf.os, c))
              && name[|name| - 1] != '.' && name[|name| - 1] != ' '
              && !IsDevice(pf.upper(name)) && !IsPart(name)
  {
    DevicesAreReserved(pf.upper(name));
    if name != "" {
      assert name[|name| - 1..] == [name[|name| - 1]];
      CharsMean(name, "/\\");
      CharsMean(name, "<>:\"|?*");
      forall i | 0 <= i < |name| ensures name[i] in name {}
    }
  }

  lemma CharsMean(name: string, chars: string)
    ensures ContainsAny(name, chars) <==> exists c :: c in name && c in chars
  {
    if c :| c in name && c in chars {
      var i :| 0 <= i < |name| && name[i] == c;
    }
  }
}
