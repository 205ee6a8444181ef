/** The SHA256SUMS manifest of an evidence directory: the writer, and the verifier that reads it
    back. File contents and their hash are abstract; a directory maps names to contents. */
module EvidenceManifest {
  import opened Wrappers
  import opened Digests

  // ------------------------------------------------------------------ text

  /** The characters at which a text is split into lines. */
  predicate IsBreak(c: char) {
    || c in {'\n', '\r', '\U{000B}', '\U{000C}', '\U{001C}', '\U{001D}', '\U{001E}'}
    || c in {'\U{0085}', '\U{2028}', '\U{2029}'}
  }

  predicate IsSpace(c: char) {
    || IsBreak(c) || c in {' ', '\t', '\U{001F}', '\U{00A0}', '\U{1680}', '\U{202F}', '\U{205F}', '\U{3000}'}
    || '\U{2000}' <= c <= '\U{200A}'
  }

  predicate OneLine(s: string) {
    forall i | 0 <= i < |s| :: !IsBreak(s[i])
  }

  /** Where the first line of `s` ends. */
  function LineEnd(s: string): (n: nat)
    ensures n <= |s| && OneLine(s[..n]) && (n < |s| ==> IsBreak(s[n]))
  {
    if s == [] || IsBreak(s[0]) then 0 else
      assert s[1..][..LineEnd(s[1..])] == s[1..LineEnd(s[1..]) + 1];
      1 + LineEnd(s[1..])
  }

  /** Where the line after the first one begins; a carriage return and the newline after it are one
      break. */
  function NextLine(s: string): (n: nat)
    requires LineEnd(s) < |s|
    ensures LineEnd(s) < n <= |s|
  {
    var n := LineEnd(s);
    if s[n] == '\r' && n + 1 < |s| && s[n + 1] == '\n' then n + 2 else n + 1
  }

  /** The lines of a text. */
  function SplitLines(s: string): seq<string>
    decreases |s|
  {
    if s == [] then []
    else if LineEnd(s) == |s| then [s]
    else [s[..LineEnd(s)]] + SplitLines(s[NextLine(s)..])
  }

  function RStrip(s: string): string {
    if s == [] || !IsSpace(s[|s| - 1]) then s else RStrip(s[..|s| - 1])
  }

  function LStrip(s: string): string {
    if s == [] || !IsSpace(s[0]) then s else LStrip(s[1..])
  }

  function Strip(s: string): string {
    RStrip(LStrip(s))
  }

  const Separator := "  "

  /** What is before the first double space, and what is after it; all and nothing if there is none. */
  function PartitionAtSeparator(s: string): (string, string) {
    if |s| < 2 then (s, "")
    else if s[0] == ' ' && s[1] == ' ' then ("", s[2..])
    else var (head, tail) := PartitionAtSeparator(s[1..]); ([s[0]] + head, tail)
  }

  function Join(lines: seq<string>): string {
    if lines == [] then ""
    else if |lines| == 1 then lines[0]
    else lines[0] + "\n" + Join(lines[1..])
  }

  // ------------------------------------------------------------------ writer and verifier

  type Directory<B> = map<string, B>

  datatype Entry = Entry(digest: string, name: string)

  datatype Problem = ManifestMissing | FileMissing(name: string) | DigestMismatch(name: string)

  function LineFor<B>(hash: B -> Digest, dir: Directory<B>, name: string): string
    requires name in dir
  {
    hash(dir[name]) + Separator + name
  }

  function LinesFor<B>(hash: B -> Digest, dir: Directory<B>, names: seq<string>): seq<string>
    requires forall n | n in names :: n in dir
  {
    if names == [] then [] else [LineFor(hash, dir, names[0])] + LinesFor(hash, dir, names[1..])
  }

  /** The manifest of the listed files. The scripts list the whole directory in name order; nothing
      here depends on the order. */
  function Manifest<B>(hash: B -> Digest, dir: Directory<B>, names: seq<string>): string
    requires forall n | n in names :: n in dir
  {
    Join(LinesFor(hash, dir, names)) + "\n"
  }

  function EntryOf(line: string): Entry {
    var (digest, name) := PartitionAtSeparator(line);
    Entry(digest, name)
  }

  function EntriesOf(lines: seq<string>): seq<Entry> {
    if lines == [] then []
    else (if Strip(lines[0]) == "" then [] else [EntryOf(Strip(lines[0]))]) + EntriesOf(lines[1..])
  }

  function ProblemOf<B>(hash: B -> Digest, dir: Directory<B>, e: Entry): Option<Problem> {
    if e.name !in dir then Some(FileMissing(e.name))
    else if hash(dir[e.name]) != e.digest then Some(DigestMismatch(e.name))
    else None
  }

  /** One problem per failing entry, in order. */
  function ProblemsOf<B>(hash: B -> Digest, dir: Directory<B>, entries: seq<Entry>): seq<Problem> {
    if entries == [] then []
    else
      var p := ProblemOf(hash, dir, entries[0]);
      (if p.Some? then [p.value] else []) + ProblemsOf(hash, dir, entries[1..])
  }

  function LineProblems<B>(hash: B -> Digest, dir: Directory<B>, line: string): seq<Problem> {
    ProblemsOf(hash, dir, EntriesOf([line]))
  }

  lemma ProblemsOfFirst<B>(hash: B -> Digest, dir: Directory<B>, e: Entry, es: seq<Entry>)
    ensures var p := ProblemOf(hash, dir, e);
      ProblemsOf(hash, dir, [e] + es) == (if p.Some? then [p.value] else []) + ProblemsOf(hash, dir, es)
  {
    assert ([e] + es)[1..] == es;
  }

  lemma {:induction false} EntriesOfConcat(a: seq<string>, b: seq<string>)
    ensures EntriesOf(a + b) == EntriesOf(a) + EntriesOf(b)
  {
    if a == [] {
      assert a + b == b;
    } else {
      assert (a + b)[1..] == a[1..] + b;
      EntriesOfConcat(a[1..], b);
    }
  }

  lemma {:induction false} ProblemsOfEntries<B>(hash: B -> Digest, dir: Directory<B>, a: seq<Entry>, b: seq<Entry>)
    ensures ProblemsOf(hash, dir, a + b) == ProblemsOf(hash, dir, a) + ProblemsOf(hash, dir, b)
  {
    if a == [] {
      assert a + b == b;
    } else {
      assert (a + b)[1..] == a[1..] + b;
      ProblemsOfEntries(hash, dir, a[1..], b);
    }
  }

  lemma LineByLine<B>(hash: B -> Digest, dir: Directory<B>, line: string, rest: seq<string>)
    ensures ProblemsOf(hash, dir, EntriesOf([line] + rest))
            == LineProblems(hash, dir, line) + ProblemsOf(hash, dir, EntriesOf(rest))
  {
    EntriesOfConcat([line], rest);
    ProblemsOfEntries(hash, dir, EntriesOf([line]), EntriesOf(rest));
  }

  lemma OneLineProblems<B>(hash: B -> Digest, dir: Directory<B>, line: string)
    ensures LineProblems(hash, dir, line)
         == if Strip(line) == "" || ProblemOf(hash, dir, EntryOf(Strip(line))).None? then []
            else [ProblemOf(hash, dir, EntryOf(Strip(line))).value]
  {
    assert [line][1..] == [];
    if Strip(line) != "" {
      var e := EntryOf(Strip(line));
      assert EntriesOf([line]) == [e] + [];
      ProblemsOfFirst(hash, dir, e, []);
    } else {
      assert EntriesOf([line]) == [];
    }
  }

  /** The problems of the first `n` lines. */
  function UpTo<B>(hash: B -> Digest, dir: Directory<B>, lines: seq<string>, n: nat): seq<Problem>
    requires n <= |lines|
  {
    if n == 0 then [] else UpTo(hash, dir, lines, n - 1) + LineProblems(hash, dir, lines[n - 1])
  }

  lemma ProblemsOfConcat<B>(hash: B -> Digest, dir: Directory<B>, a: seq<string>, line: string)
    ensures ProblemsOf(hash, dir, EntriesOf(a + [line])) == ProblemsOf(hash, dir, EntriesOf(a))
            + LineProblems(hash, dir, line)
  {
    EntriesOfConcat(a, [line]);
    ProblemsOfEntries(hash, dir, EntriesOf(a), EntriesOf([line]));
  }

  lemma {:induction false} UpToIsPrefix<B>(hash: B -> Digest, dir: Directory<B>, lines: seq<string>, n: nat)
    requires n <= |lines|
    ensures UpTo(hash, dir, lines, n) == ProblemsOf(hash, dir, EntriesOf(lines[..n]))
  {
    if n > 0 {
      UpToIsPrefix(hash, dir, lines, n - 1);
      assert lines[..n] == lines[..n - 1] + [lines[n - 1]];
      ProblemsOfConcat(hash, dir, lines[..n - 1], lines[n - 1]);
    }
  }

  /** Read the manifest line by line and check every entry; a missing manifest is a problem too. */
  method VerifySums<B>(hash: B -> Digest, dir: Directory<B>, sums: Option<string>)
    returns (ok: bool, problems: seq<Problem>)
    ensures sums.None? ==> problems == [ManifestMissing]
    ensures sums.Some? ==> problems == ProblemsOf(hash, dir, EntriesOf(SplitLines(sums.value)))
    ensures ok <==> problems == []
  {
    if sums.None? {
      return false, [ManifestMissing];
    }
    var lines := SplitLines(sums.value);
    problems := CheckLines(hash, dir, lines);
    UpToIsPrefix(hash, dir, lines, |lines|);
    assert lines[..|lines|] == lines;
    ok := problems == [];
  }

  method CheckLine<B>(hash: B -> Digest, dir: Directory<B>, line: string) returns (found: seq<Problem>)
    ensures found == LineProblems(hash, dir, line)
  {
    OneLineProblems(hash, dir, line);
    var stripped := Strip(line);
    if stripped == "" {
      return [];
    }
    var e := EntryOf(stripped);
    if e.name !in dir {
      return [FileMissing(e.name)];
    } else if hash(dir[e.name]) != e.digest {
      return [DigestMismatch(e.name)];
    }
    return [];
  }

  method CheckLines<B>(hash: B -> Digest, dir: Directory<B>, lines: seq<string>) returns (problems: seq<Problem>)
    ensures problems == UpTo(hash, dir, lines, |lines|)
  {
    problems := [];
    for i := 0 to |lines|
      invariant problems == UpTo(hash, dir, lines, i)
    {
      var found := CheckLine(hash, dir, lines[i]);
      problems := problems + found;
    }
  }

  // ------------------------------------------------------------------ what is written is read back

  lemma {:induction false} LineEndOfConcat(line: string, rest: string)
    requires OneLine(line)
    ensures LineEnd(line + "\n" + rest) == |line|
  {
    var s := line + "\n" + rest;
    if line != [] {
      assert !IsBreak(line[0]);
      assert s[1..] == line[1..] + "\n" + rest;
      LineEndOfConcat(line[1..], rest);
    }
  }

  lemma SplitFirst(line: string, rest: string)
    requires OneLine(line)
    ensures SplitLines(line + "\n" + rest) == [line] + SplitLines(rest)
  {
    var s := line + "\n" + rest;
    LineEndOfConcat(line, rest);
    assert s[|line|] == '\n' && s[..|line|] == line && s[|line| + 1..] == rest;
  }

  /** Splitting inverts joining, for lines without breaks. */
  lemma {:induction false} SplitOfJoin(lines: seq<string>)
    requires lines != [] && forall l | l in lines :: OneLine(l)
    ensures SplitLines(Join(lines) + "\n") == lines
  {
    assert lines[0] in lines;
    if |lines| == 1 {
      SplitFirst(lines[0], "");
      assert lines[0] + "\n" + "" == Join(lines) + "\n";
    } else {
      SplitFirst(lines[0], Join(lines[1..]) + "\n");
      assert lines[0] + "\n" + (Join(lines[1..]) + "\n") == Join(lines) + "\n";
      SplitOfJoin(lines[1..]);
    }
  }

  lemma {:induction false} RStripOfConcat(a: string, b: string)
    ensures RStrip(a + b) == if RStrip(b) != "" then a + RStrip(b) else RStrip(a)
  {
    if b == [] {
      assert a + b == a;
    } else if IsSpace(b[|b| - 1]) {
      assert (a + b)[..|a + b| - 1] == a + b[..|b| - 1];
      RStripOfConcat(a, b[..|b| - 1]);
    }
  }

  lemma {:induction false} PartitionOfLine(d: string, rest: string)
    requires ' ' !in d
    ensures PartitionAtSeparator(d + Separator + rest) == (d, rest)
    ensures PartitionAtSeparator(d) == (d, "")
  {
    var s := d + Separator + rest;
    if d == [] {
      assert s[2..] == rest;
    } else {
      assert s[1..] == d[1..] + Separator + rest;
      PartitionOfLine(d[1..], rest);
      assert [d[0]] + d[1..] == d;
    }
  }

  lemma DigestHasNoSpace(d: Digest)
    ensures ' ' !in d && OneLine(d) && LStrip(d) == d && RStrip(d) == d
  {
    assert IsHex(d[0]) && IsHex(d[63]);
    assert forall i | 0 <= i < 64 :: IsHex(d[i]);
  }

  /** The entry read from a written line has the written digest, and the name without its trailing
      white space: leading or inner spaces, even double ones, do no harm. */
  lemma EntryOfLine(d: Digest, name: string)
    ensures Strip(d + Separator + name) != "" && EntryOf(Strip(d + Separator + name)) == Entry(d, RStrip(name))
  {
    DigestHasNoSpace(d);
    var s := d + Separator + name;
    assert s[0] == d[0] && IsHex(d[0]);
    assert LStrip(s) == s;
    RStripOfConcat(d + Separator, name);
    RStripOfConcat(d, Separator);
    assert RStrip(Separator) == "" by {
      assert Separator[..1] == " " && " "[..0] == "";
    }
    PartitionOfLine(d, RStrip(name));
  }

  // ------------------------------------------------------------------ any names

  lemma {:induction false} LineEndOfPrefix(t: string, rest: string)
    requires LineEnd(t) < |t|
    ensures LineEnd(t + rest) == LineEnd(t)
  {
    if !IsBreak(t[0]) {
      assert (t + rest)[1..] == t[1..] + rest;
      LineEndOfPrefix(t[1..], rest);
    }
  }

  lemma {:induction false} LineEndAfter(line: string, s: string)
    requires OneLine(line)
    ensures LineEnd(line + s) == |line| + LineEnd(s)
  {
    if line == [] {
      assert line + s == s;
    } else {
      assert !IsBreak(line[0]);
      assert (line + s)[1..] == line[1..] + s;
      LineEndAfter(line[1..], s);
    }
  }

  lemma {:induction false} LineEndBefore(t: string, n: nat)
    requires n < |t| && IsBreak(t[n])
    ensures LineEnd(t) <= n
  {
    if n > 0 && !IsBreak(t[0]) {
      LineEndBefore(t[1..], n - 1);
    }
  }

  // ------------------------------------------------------------------ what a line, a space and a break are

  /** The breaks and the white space, by code point: line feed to carriage return, the information
      separators, next line, and the line and paragraph separators break a line; these, the unit
      separator, blank and tab, and the wide blanks are white space. */
  lemma CharacterClasses(c: char)
    ensures var code := c as int;
      IsBreak(c) <==> 10 <= code <= 13 || 28 <= code <= 30 || code == 133 || 8232 <= code <= 8233
    ensures var code := c as int;
      IsSpace(c) <==> || 9 <= code <= 13 || 28 <= code <= 32 || code == 133 || code == 160 || code == 5760
                      || 8192 <= code <= 8202 || 8232 <= code <= 8233 || code == 8239 || code == 8287 || code == 12288
  {
    assert '\U{000B}' as int == 11 && '\U{000C}' as int == 12 && '\U{001C}' as int == 28 && '\U{001D}' as int == 29;
    assert '\U{001E}' as int == 30 && '\U{0085}' as int == 133 && '\U{2028}' as int == 8232
      && '\U{2029}' as int == 8233;
  }

  /** A text is its first line, one break and the rest; a carriage return with a newline after it is one
      break. A text without a break is one line, and the empty text none. */
  lemma LinesOfText(line: string, b: char, rest: string)
    requires OneLine(line) && IsBreak(b) && !(b == '\r' && rest != "" && rest[0] == '\n')
    ensures SplitLines(line + ([b] + rest)) == [line] + SplitLines(rest)
    ensures SplitLines(line + ("\r\n" + rest)) == [line] + SplitLines(rest)
    ensures SplitLines(line) == if line == "" then [] else [line]
  {
    LineThenBreak(line, [b] + rest, 1);
    LineThenBreak(line, "\r\n" + rest, 2);
    assert ([b] + rest)[1..] == rest && ("\r\n" + rest)[2..] == rest;
    LineEndAfter(line, "");
    assert line + "" == line;
  }

  /** The text after a line starts with a break of `width` characters. */
  lemma LineThenBreak(line: string, s: string, width: nat)
    requires OneLine(line) && s != "" && IsBreak(s[0])
    requires width == if s[0] == '\r' && |s| > 1 && s[1] == '\n' then 2 else 1
    ensures SplitLines(line + s) == [line] + SplitLines(s[width..])
  {
    LineEndAfter(line, s);
    var text := line + s;
    assert text[|line|] == s[0] && (|s| > 1 ==> text[|line| + 1] == s[1]);
    assert text[..|line|] == line && text[|line| + width..] == s[width..];
    SplitStep(text);
  }

  predicate AllSpace(s: string) {
    forall i | 0 <= i < |s| :: IsSpace(s[i])
  }

  /** Stripping takes white space off both ends, and all of it. */
  lemma StripMeans(s: string)
    ensures exists before, after :: AllSpace(before) && AllSpace(after) && s == before + Strip(s) + after
    ensures Strip(s) != "" ==> !IsSpace(Strip(s)[0]) && !IsSpace(Strip(s)[|Strip(s)| - 1])
    ensures Strip(s) == "" <==> AllSpace(s)
  {
    var before := LStripMeans(s);
    var after := RStripMeans(LStrip(s));
    assert s == before + Strip(s) + after;
    assert RStrip(LStrip(s)) != "" ==> RStrip(LStrip(s))[0] == LStrip(s)[0];
    if Strip(s) == "" {
      assert s == before + after;
    } else {
      assert s[|before|] == Strip(s)[0];
    }
  }

  lemma {:induction false} LStripMeans(s: string) returns (before: string)
    ensures AllSpace(before) && s == before + LStrip(s)
    ensures LStrip(s) != "" ==> !IsSpace(LStrip(s)[0])
  {
    if s == [] || !IsSpace(s[0]) {
      before := "";
    } else {
      var more := LStripMeans(s[1..]);
      before := [s[0]] + more;
    }
  }

  lemma {:induction false} RStripMeans(s: string) returns (after: string)
    ensures AllSpace(after) && s == RStrip(s) + after
    ensures RStrip(s) != "" ==> !IsSpace(RStrip(s)[|RStrip(s)| - 1])
  {
    if s == [] || !IsSpace(s[|s| - 1]) {
      after := "";
    } else {
      var more := RStripMeans(s[..|s| - 1]);
      after := more + [s[|s| - 1]];
    }
  }

  predicate Ends(t: string) {
    t != "" && t[|t| - 1] == '\n'
  }

  lemma NextOfPrefix(t: string, rest: string)
    requires Ends(t)
    ensures LineEnd(t) < |t| && LineEnd(t + rest) == LineEnd(t) && NextLine(t + rest) == NextLine(t)
    ensures (t + rest)[..LineEnd(t)] == t[..LineEnd(t)]
    ensures (t + rest)[NextLine(t)..] == t[NextLine(t)..] + rest
    ensures t[NextLine(t)..] != "" ==> Ends(t[NextLine(t)..])
  {
    LineEndBefore(t, |t| - 1);
    LineEndOfPrefix(t, rest);
  }

  /** A text that ends in a newline can be split on its own. */
  lemma {:induction false} SplitOfConcat(t: string, rest: string)
    requires Ends(t)
    ensures SplitLines(t + rest) == SplitLines(t) + SplitLines(rest)
    decreases |t|
  {
    NextOfPrefix(t, rest);
    var first, more := [t[..LineEnd(t)]], t[NextLine(t)..];
    if more == "" {
      assert more + rest == rest;
    } else {
      SplitOfConcat(more, rest);
    }
    Regroup(first, SplitLines(more), SplitLines(rest));
  }

  lemma Regroup<T>(a: seq<T>, b: seq<T>, c: seq<T>)
    ensures a + (b + c) == (a + b) + c
  {
  }

  /** The lines a file name takes up when a newline follows it: more than one if it holds a break. */
  function NameLines(name: string): (lines: seq<string>)
    ensures lines != [] && OneLine(lines[0])
  {
    SplitLines(name + "\n")
  }

  lemma OneLineName(name: string)
    requires OneLine(name)
    ensures NameLines(name) == [name]
  {
    SplitFirst(name, "");
    assert name + "\n" + "" == name + "\n";
  }

  lemma AfterPrefix<T>(a: seq<T>, b: seq<T>, n: nat)
    requires n <= |b|
    ensures (a + b)[..|a| + n] == a + b[..n] && (a + b)[|a| + n..] == b[n..]
    ensures n < |b| ==> (a + b)[|a| + n] == b[n]
  {
  }

  lemma NextAfter(prefix: string, s: string)
    requires OneLine(prefix) && LineEnd(s) < |s|
    ensures LineEnd(prefix + s) == |prefix| + LineEnd(s) && NextLine(prefix + s) == |prefix| + NextLine(s)
  {
    LineEndAfter(prefix, s);
    AfterPrefix(prefix, s, LineEnd(s));
    AfterPrefix(prefix, s, LineEnd(s) + 1);
  }

  lemma SplitStep(s: string)
    requires LineEnd(s) < |s|
    ensures SplitLines(s) == [s[..LineEnd(s)]] + SplitLines(s[NextLine(s)..])
    ensures SplitLines(s)[0] == s[..LineEnd(s)] && SplitLines(s)[1..] == SplitLines(s[NextLine(s)..])
  {
  }

  lemma SplitBeside(prefix: string, s: string, t: string)
    requires LineEnd(s) < |s| && LineEnd(t) < |t|
    requires t[..LineEnd(t)] == prefix + s[..LineEnd(s)]
    requires t[NextLine(t)..] == s[NextLine(s)..]
    ensures SplitLines(s) != [] && SplitLines(t) == [prefix + SplitLines(s)[0]] + SplitLines(s)[1..]
  {
    SplitStep(s);
    SplitStep(t);
  }

  /** What comes before the name on its line stays before the name's first line. */
  lemma SplitAfterPrefix(prefix: string, name: string)
    requires OneLine(prefix)
    ensures SplitLines(prefix + (name + "\n")) == [prefix + NameLines(name)[0]] + NameLines(name)[1..]
  {
    var s := name + "\n";
    LineEndBefore(s, |name|);
    NextAfter(prefix, s);
    AfterPrefix(prefix, s, LineEnd(s));
    AfterPrefix(prefix, s, NextLine(s));
    SplitBeside(prefix, s, prefix + s);
  }

  /** What the verifier reads of one written name: its entry, with the first line of the name less
      trailing white space, and whatever the name's further lines look like. */
  function EntriesFor<B>(hash: B -> Digest, dir: Directory<B>, name: string): seq<Entry>
    requires name in dir
  {
    [Entry(hash(dir[name]), RStrip(NameLines(name)[0]))] + EntriesOf(NameLines(name)[1..])
  }

  function WrittenEntries<B>(hash: B -> Digest, dir: Directory<B>, names: seq<string>): seq<Entry>
    requires forall n | n in names :: n in dir
  {
    if names == [] then [] else EntriesFor(hash, dir, names[0]) + WrittenEntries(hash, dir, names[1..])
  }

  lemma EntriesOfOneLine(line: string)
    requires Strip(line) != ""
    ensures EntriesOf([line]) == [EntryOf(Strip(line))]
  {
    assert [line][1..] == [];
  }

  lemma EntriesOfName<B>(hash: B -> Digest, dir: Directory<B>, name: string)
    requires name in dir
    ensures EntriesOf(SplitLines(LineFor(hash, dir, name) + "\n")) == EntriesFor(hash, dir, name)
  {
    var prefix := hash(dir[name]) + Separator;
    DigestHasNoSpace(hash(dir[name]));
    SplitAfterPrefix(prefix, name);
    assert LineFor(hash, dir, name) + "\n" == prefix + (name + "\n");
    EntryOfLine(hash(dir[name]), NameLines(name)[0]);
    EntriesOfOneLine(prefix + NameLines(name)[0]);
    EntriesOfConcat([prefix + NameLines(name)[0]], NameLines(name)[1..]);
  }

  /** What the verifier reads from a manifest of any names. */
  lemma {:induction false} ManifestIsReadBack<B>(hash: B -> Digest, dir: Directory<B>, names: seq<string>)
    requires forall n | n in names :: n in dir
    ensures EntriesOf(SplitLines(Manifest(hash, dir, names))) == WrittenEntries(hash, dir, names)
  {
    if names == [] {
      assert Manifest(hash, dir, names) == "\n" == "" + "\n" + "";
      SplitFirst("", "");
      assert [""][1..] == [];
    } else {
      var first := LineFor(hash, dir, names[0]) + "\n";
      var rest := if |names| == 1 then "" else Manifest(hash, dir, names[1..]);
      assert LinesFor(hash, dir, names)[1..] == LinesFor(hash, dir, names[1..]);
      assert Manifest(hash, dir, names) == first + rest;
      SplitOfConcat(first, rest);
      EntriesOfName(hash, dir, names[0]);
      EntriesOfConcat(SplitLines(first), SplitLines(rest));
      ManifestIsReadBack(hash, dir, names[1..]);
      assert |names| == 1 ==> names[1..] == [];
    }
  }

  /** A further line of a name does no harm: it is blank, or happens to be an entry that matches. */
  predicate Harmless<B>(hash: B -> Digest, now: Directory<B>, line: string) {
    Strip(line) == "" || ProblemOf(hash, now, EntryOf(Strip(line))).None?
  }

  /** The name still leads to the written contents: its first line, less trailing white space, names a
      file with the written digest, and its further lines do no harm. */
  predicate ReadsBack<B>(hash: B -> Digest, dir: Directory<B>, now: Directory<B>, name: string)
    requires name in dir
  {
    var lines := NameLines(name);
    && RStrip(lines[0]) in now && hash(now[RStrip(lines[0])]) == hash(dir[name])
    && forall k | 1 <= k < |lines| :: Harmless(hash, now, lines[k])
  }

  lemma HarmlessRest<B>(hash: B -> Digest, now: Directory<B>, lines: seq<string>)
    requires lines != []
    ensures (forall k | 0 <= k < |lines[1..]| :: Harmless(hash, now, lines[1..][k]))
       <==> (forall k | 1 <= k < |lines| :: Harmless(hash, now, lines[k]))
  {
    assert forall k | 0 <= k < |lines[1..]| :: lines[1..][k] == lines[k + 1];
    if forall k | 0 <= k < |lines[1..]| :: Harmless(hash, now, lines[1..][k]) {
      forall k | 1 <= k < |lines|
        ensures Harmless(hash, now, lines[k])
      {
        assert Harmless(hash, now, lines[1..][k - 1]);
      }
    }
  }

  lemma {:induction false} HarmlessLines<B>(hash: B -> Digest, now: Directory<B>, lines: seq<string>)
    ensures ProblemsOf(hash, now, EntriesOf(lines)) == []
       <==> forall k | 0 <= k < |lines| :: Harmless(hash, now, lines[k])
  {
    if lines != [] {
      assert lines == [lines[0]] + lines[1..];
      LineByLine(hash, now, lines[0], lines[1..]);
      OneLineProblems(hash, now, lines[0]);
      HarmlessLines(hash, now, lines[1..]);
      HarmlessRest(hash, now, lines);
    }
  }

  lemma NameAcceptedIff<B>(hash: B -> Digest, dir: Directory<B>, now: Directory<B>, name: string)
    requires name in dir
    ensures ProblemsOf(hash, now, EntriesFor(hash, dir, name)) == [] <==> ReadsBack(hash, dir, now, name)
  {
    var lines := NameLines(name);
    var e := Entry(hash(dir[name]), RStrip(lines[0]));
    ProblemsOfFirst(hash, now, e, EntriesOf(lines[1..]));
    HarmlessLines(hash, now, lines[1..]);
    HarmlessRest(hash, now, lines);
  }

  lemma {:induction false} AcceptedIff<B>(hash: B -> Digest, dir: Directory<B>, now: Directory<B>, names: seq<string>)
    requires forall n | n in names :: n in dir
    ensures ProblemsOf(hash, now, WrittenEntries(hash, dir, names)) == []
       <==> forall n | n in names :: ReadsBack(hash, dir, now, n)
  {
    if names != [] {
      NameAcceptedIff(hash, dir, now, names[0]);
      AcceptedIff(hash, dir, now, names[1..]);
      ProblemsOfEntries(hash, now, EntriesFor(hash, dir, names[0]), WrittenEntries(hash, dir, names[1..]));
      assert names == [names[0]] + names[1..];
    }
  }

  /** For any file names: the verifier accepts the writer's text, on the directory it was written for or
      on any other, exactly if every name reads back. */
  lemma RoundTripIff<B>(hash: B -> Digest, dir: Directory<B>, now: Directory<B>, names: seq<string>)
    requires forall n | n in names :: n in dir
    ensures ProblemsOf(hash, now, EntriesOf(SplitLines(Manifest(hash, dir, names)))) == []
       <==> forall n | n in names :: ReadsBack(hash, dir, now, n)
  {
    ManifestIsReadBack(hash, dir, names);
    AcceptedIff(hash, dir, now, names);
  }

  /** A name that survives its line: no line break and no white space at its end. */
  predicate GoodName(n: string) {
    OneLine(n) && RStrip(n) == n
  }

  lemma GoodNameReadsBackIff<B>(hash: B -> Digest, dir: Directory<B>, now: Directory<B>, name: string)
    requires name in dir && GoodName(name)
    ensures EntriesFor(hash, dir, name) == [Entry(hash(dir[name]), name)]
    ensures ReadsBack(hash, dir, now, name) <==> name in now && hash(now[name]) == hash(dir[name])
  {
    OneLineName(name);
    assert [name][1..] == [];
  }

  /** The promised round trip: good names are accepted on the directory they were written for. */
  lemma GoodNamesRoundTrip<B>(hash: B -> Digest, dir: Directory<B>, names: seq<string>)
    requires forall n | n in names :: n in dir && GoodName(n)
    ensures ProblemsOf(hash, dir, EntriesOf(SplitLines(Manifest(hash, dir, names)))) == []
  {
    RoundTripIff(hash, dir, dir, names);
    forall n | n in names
      ensures ReadsBack(hash, dir, dir, n)
    {
      GoodNameReadsBackIff(hash, dir, dir, n);
    }
  }

  /** What a later check should report, file by file: the missing and the changed ones, in order. */
  function FaultsOf<B>(hash: B -> Digest, dir: Directory<B>, now: Directory<B>, names: seq<string>): seq<Problem>
    requires forall n | n in names :: n in dir
  {
    if names == [] then []
    else
      var n := names[0];
      (if n !in now then [FileMissing(n)] else if hash(now[n]) != hash(dir[n]) then [DigestMismatch(n)] else [])
      + FaultsOf(hash, dir, now, names[1..])
  }

  /** Checking a manifest against the directory as it is now reports exactly the listed files that
      are missing or changed, one problem each, in the manifest's order. */
  lemma TamperReport<B>(hash: B -> Digest, dir: Directory<B>, now: Directory<B>, names: seq<string>)
    requires forall n | n in names :: n in dir && GoodName(n)
    ensures ProblemsOf(hash, now, EntriesOf(SplitLines(Manifest(hash, dir, names)))) == FaultsOf(hash, dir, now, names)
  {
    ManifestIsReadBack(hash, dir, names);
    FaultsAreProblems(hash, dir, now, names);
  }

  lemma {:induction false} FaultsAreProblems<B>(hash: B -> Digest, dir: Directory<B>, now: Directory<B>,
                                                names: seq<string>)
    requires forall n | n in names :: n in dir && GoodName(n)
    ensures ProblemsOf(hash, now, WrittenEntries(hash, dir, names)) == FaultsOf(hash, dir, now, names)
  {
    if names != [] {
      assert names[0] in names;
      GoodNameReadsBackIff(hash, dir, now, names[0]);
      FaultsAreProblems(hash, dir, now, names[1..]);
      ProblemsOfFirst(hash, now, Entry(hash(dir[names[0]]), names[0]), WrittenEntries(hash, dir, names[1..]));
    }
  }

  /** No file has kept its digest while its contents changed: the hash has no collision here. */
  predicate NoCollision<B(==)>(hash: B -> Digest, dir: Directory<B>, now: Directory<B>) {
    forall n | n in dir && n in now :: hash(now[n]) == hash(dir[n]) ==> now[n] == dir[n]
  }

  /** Tamper evidence: barring a collision, a manifest is accepted later exactly if every listed file
      still has its original contents. Files it does not list may come, go and change. */
  lemma AcceptedMeansUnchanged<B>(hash: B -> Digest, dir: Directory<B>, now: Directory<B>, names: seq<string>)
    requires NoCollision(hash, dir, now)
    requires forall n | n in names :: n in dir && GoodName(n)
    ensures ProblemsOf(hash, now, EntriesOf(SplitLines(Manifest(hash, dir, names)))) == []
       <==> forall n | n in names :: n in now && now[n] == dir[n]
  {
    RoundTripIff(hash, dir, now, names);
    forall n | n in names
      ensures ReadsBack(hash, dir, now, n) <==> n in now && now[n] == dir[n]
    {
      GoodNameReadsBackIff(hash, dir, now, n);
    }
  }

  lemma {:induction false} PartitionWithoutSeparator(s: string)
    requires forall i | 0 <= i < |s| - 1 :: !(s[i] == ' ' && s[i + 1] == ' ')
    ensures PartitionAtSeparator(s) == (s, "")
  {
    if |s| >= 2 {
      assert forall i | 0 <= i < |s[1..]| :: s[1..][i] == s[i + 1];
      assert !(s[0] == ' ' && s[0 + 1] == ' ');
      PartitionWithoutSeparator(s[1..]);
      assert [s[0]] + s[1..] == s;
    }
  }

  /** A name with a line break is rejected on its own directory if one of its further lines is not blank
      and has no double space inside: that line names the empty file. The other names do not matter. */
  lemma BrokenNameIsRejected<B>(hash: B -> Digest, dir: Directory<B>, names: seq<string>, name: string, k: nat)
    requires (forall n | n in names :: n in dir) && name in names && "" !in dir
    requires 1 <= k < |NameLines(name)| && Strip(NameLines(name)[k]) != ""
    requires var s := Strip(NameLines(name)[k]); forall i | 0 <= i < |s| - 1 :: !(s[i] == ' ' && s[i + 1] == ' ')
    ensures ProblemsOf(hash, dir, EntriesOf(SplitLines(Manifest(hash, dir, names)))) != []
  {
    RoundTripIff(hash, dir, dir, names);
    PartitionWithoutSeparator(Strip(NameLines(name)[k]));
    assert !Harmless(hash, dir, NameLines(name)[k]);
    assert !ReadsBack(hash, dir, dir, name);
  }

  /** Such a name exists: "a", a newline, "b". */
  lemma BrokenName()
    ensures NameLines("a\nb") == ["a", "b"] && Strip("b") == "b"
  {
    SplitFirst("a", "b" + "\n" + "");
    SplitFirst("b", "");
    assert "a\nb" + "\n" == "a" + "\n" + ("b" + "\n" + "");
    assert ["a"] + (["b"] + []) == ["a", "b"];
  }
}
