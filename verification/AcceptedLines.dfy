/** Counting the added and deleted lines of a unified diff.

    The counter is one pass over the text; the reference is a structured diff and
    its printer. */
module AcceptedLines {
  import opened Common

  datatype Counts = Counts(added: nat, deleted: nat)

  /** The scanner's state: inside a hunk or not, and the two counters. */
  datatype Scan = Scan(inHunk: bool, added: nat, deleted: nat)

  const START := Scan(false, 0, 0)

  function NextLine(s: Scan, line: string): Scan {
    if StartsWith(line, "diff --git ") then s.(inHunk := false)
    else if StartsWith(line, "@@ ") then s.(inHunk := true)
    else if !s.inHunk && (StartsWith(line, "+++ ") || StartsWith(line, "--- ")) then s
    else if StartsWith(line, "+") then s.(added := s.added + 1)
    else if StartsWith(line, "-") then s.(deleted := s.deleted + 1)
    else s
  }

  function ScanLines(s: Scan, lines: seq<string>): Scan {
    if lines == [] then s else NextLine(ScanLines(s, lines[..|lines| - 1]), lines[|lines| - 1])
  }

  // ---- Lines of a text ------------------------------------------------------------

  function DropCarriageReturn(line: string): string {
    if line != [] && line[|line| - 1] == '\r' then line[..|line| - 1] else line
  }

  /** The position of the first line feed, or the length of the text. */
  function FirstLineFeed(text: string): (i: nat)
    ensures i <= |text| && '\n' !in text[..i] && (i < |text| ==> text[i] == '\n')
  {
    if text == [] || text[0] == '\n' then 0 else 1 + FirstLineFeed(text[1..])
  }

  /** The lines of a text; a carriage return before a line feed belongs to the line ending, and
      a text that ends in a line feed has no empty last line. */
  function Lines(text: string): seq<string>
    decreases |text|
  {
    if text == [] then [] else
      var i := FirstLineFeed(text);
      if i == |text| then [text] else [DropCarriageReturn(text[..i])] + Lines(text[i + 1..])
  }

  function CountsOf(text: string): Counts {
    var s := ScanLines(START, Lines(text));
    Counts(s.added, s.deleted)
  }

  method AcceptedLineCountsFromUnifiedDiff(text: string) returns (counts: Counts)
    ensures counts == CountsOf(text)
  {
    var lines := Lines(text);
    var inHunk, added, deleted := false, 0, 0;
    for i := 0 to |lines|
      invariant Scan(inHunk, added, deleted) == ScanLines(START, lines[..i])
    {
      var line := lines[i];
      assert lines[..i + 1][..i] == lines[..i];
      if StartsWith(line, "diff --git ") {
        inHunk := false;
        continue;
      }
      if StartsWith(line, "@@ ") {
        inHunk := true;
        continue;
      }
      if !inHunk && (StartsWith(line, "+++ ") || StartsWith(line, "--- ")) {
        continue;
      }
      if StartsWith(line, "+") {
        added := added + 1;
        continue;
      }
      if StartsWith(line, "-") {
        deleted := deleted + 1;
      }
    }
    assert lines[..|lines|] == lines;
    counts := Counts(added, deleted);
  }

  // ---- Structured diffs -----------------------------------------------------------

  datatype HunkLine = Added(text: string) | Deleted(text: string) | Context(text: string) | NoNewlineMarker

  datatype Hunk = Hunk(range: string, lines: seq<HunkLine>)

  /** One file of a diff. Git writes the header line; plain unified diffs have none. */
  datatype FileDiff = FileDiff(
    gitHeader: Option<string>,
    metadata: seq<string>,
    paths: Option<(string, string)>,
    hunks: seq<Hunk>)

  predicate OneLine(text: string) {
    '\n' !in text
  }

  predicate MetadataLine(text: string) {
    && OneLine(text)
    && !StartsWith(text, "+") && !StartsWith(text, "-") && !StartsWith(text, "@@ ") && !StartsWith(text, "diff --git ")
  }

  predicate WellFormedHunk(h: Hunk) {
    && OneLine(h.range)
    && forall i :: 0 <= i < |h.lines| ==> !h.lines[i].NoNewlineMarker? ==> OneLine(h.lines[i].text)
  }

  predicate WellFormed(f: FileDiff) {
    && (f.gitHeader.Some? ==> OneLine(f.gitHeader.value))
    && (forall i :: 0 <= i < |f.metadata| ==> MetadataLine(f.metadata[i]))
    && (f.paths.Some? ==> OneLine(f.paths.value.0) && OneLine(f.paths.value.1))
    && (forall i :: 0 <= i < |f.hunks| ==> WellFormedHunk(f.hunks[i]))
  }

  function PrintLine(l: HunkLine): string {
    match l
    case Added(text) => "+" + text
    case Deleted(text) => "-" + text
    case Context(text) => " " + text
    case NoNewlineMarker => "\\ No newline at end of file"
  }

  function PrintLines(ls: seq<HunkLine>): seq<string> {
    if ls == [] then [] else PrintLines(ls[..|ls| - 1]) + [PrintLine(ls[|ls| - 1])]
  }

  function PrintHunks(hs: seq<Hunk>): seq<string> {
    if hs == [] then [] else
      var h := hs[|hs| - 1];
      PrintHunks(hs[..|hs| - 1]) + (["@@ " + h.range] + PrintLines(h.lines))
  }

  function PrintHeader(f: FileDiff): seq<string> {
    (if f.gitHeader.Some? then ["diff --git " + f.gitHeader.value] else []) + f.metadata
  }

  function PrintPaths(f: FileDiff): seq<string> {
    if f.paths.Some? then ["--- " + f.paths.value.0, "+++ " + f.paths.value.1] else []
  }

  function PrintFile(f: FileDiff): seq<string> {
    PrintHeader(f) + PrintPaths(f) + PrintHunks(f.hunks)
  }

  function PrintDiff(files: seq<FileDiff>): seq<string> {
    if files == [] then [] else PrintDiff(files[..|files| - 1]) + PrintFile(files[|files| - 1])
  }

  /** The text of a diff: every line ends in a line feed. */
  function Render(lines: seq<string>): string {
    if lines == [] then "" else lines[0] + "\n" + Render(lines[1..])
  }

  // ---- What a structured diff contains --------------------------------------------

  function AddedIn(ls: seq<HunkLine>): nat {
    if ls == [] then 0 else AddedIn(ls[..|ls| - 1]) + if ls[|ls| - 1].Added? then 1 else 0
  }

  function DeletedIn(ls: seq<HunkLine>): nat {
    if ls == [] then 0 else DeletedIn(ls[..|ls| - 1]) + if ls[|ls| - 1].Deleted? then 1 else 0
  }

  function HunkCounts(hs: seq<Hunk>): Counts {
    if hs == [] then Counts(0, 0) else
      var c := HunkCounts(hs[..|hs| - 1]);
      var ls := hs[|hs| - 1].lines;
      Counts(c.added + AddedIn(ls), c.deleted + DeletedIn(ls))
  }

  function TrueCounts(files: seq<FileDiff>): Counts {
    if files == [] then Counts(0, 0) else
      var c := TrueCounts(files[..|files| - 1]);
      var h := HunkCounts(files[|files| - 1].hunks);
      Counts(c.added + h.added, c.deleted + h.deleted)
  }

  /** Whether the lines of some earlier hunk are still open when the file at `i` begins. */
  predicate HunkOpen(files: seq<FileDiff>, i: nat)
    requires i <= |files|
  {
    i != 0 && (files[i - 1].hunks != [] || (files[i - 1].gitHeader.None? && HunkOpen(files, i - 1)))
  }

  /** The file's path lines are read as changes: it has no git header to close the hunk before it. */
  predicate Stray(files: seq<FileDiff>, i: nat)
    requires i < |files|
  {
    files[i].gitHeader.None? && files[i].paths.Some? && HunkOpen(files, i)
  }

  function Strays(files: seq<FileDiff>, n: nat): nat
    requires n <= |files|
  {
    if n == 0 then 0 else Strays(files, n - 1) + if Stray(files, n - 1) then 1 else 0
  }

  // ---- Scanning what was printed --------------------------------------------------

  lemma {:induction false} ScanConcat(s: Scan, a: seq<string>, b: seq<string>)
    ensures ScanLines(s, a + b) == ScanLines(ScanLines(s, a), b)
  {
    if b == [] {
      assert a + b == a;
    } else {
      assert (a + b)[..|a + b| - 1] == a + b[..|b| - 1];
      ScanConcat(s, a, b[..|b| - 1]);
    }
  }

  lemma ScanOne(s: Scan, line: string)
    ensures ScanLines(s, [line]) == NextLine(s, line)
  {
    assert [line][..0] == [];
  }

  lemma PrefixOfConcat(prefix: string, rest: string)
    ensures StartsWith(prefix + rest, prefix)
  {
  }

  lemma NextHunkLine(s: Scan, l: HunkLine)
    requires s.inHunk
    ensures NextLine(s, PrintLine(l)) ==
            Scan(true, s.added + (if l.Added? then 1 else 0), s.deleted + (if l.Deleted? then 1 else 0))
  {
    var p := PrintLine(l);
    assert p[0] == (match l case Added(_) => '+' case Deleted(_) => '-' case Context(_) => ' ' case NoNewlineMarker => '\\');
    assert "diff --git "[0] == 'd' && "@@ "[0] == '@' && "+"[0] == '+' && "-"[0] == '-';
    FirstCharDecides(p, "diff --git ");
    FirstCharDecides(p, "@@ ");
    FirstCharDecides(p, "+");
    FirstCharDecides(p, "-");
  }

  lemma FirstCharDecides(line: string, prefix: string)
    requires line != [] && prefix != []
    ensures line[0] != prefix[0] ==> !StartsWith(line, prefix)
    ensures |prefix| == 1 && line[0] == prefix[0] ==> StartsWith(line, prefix)
  {
    if StartsWith(line, prefix) {
      assert line[..|prefix|][0] == prefix[0];
    }
    if |prefix| == 1 && line[0] == prefix[0] {
      assert line[..1] == prefix;
    }
  }

  lemma {:induction false} ScanHunkLines(s: Scan, ls: seq<HunkLine>)
    requires s.inHunk
    ensures ScanLines(s, PrintLines(ls)) == Scan(true, s.added + AddedIn(ls), s.deleted + DeletedIn(ls))
  {
    if ls != [] {
      var init, last := ls[..|ls| - 1], ls[|ls| - 1];
      ScanHunkLines(s, init);
      ScanConcat(s, PrintLines(init), [PrintLine(last)]);
      ScanOne(ScanLines(s, PrintLines(init)), PrintLine(last));
      NextHunkLine(ScanLines(s, PrintLines(init)), last);
    }
  }

  lemma NextHunkHeader(s: Scan, range: string)
    ensures NextLine(s, "@@ " + range) == s.(inHunk := true)
  {
    PrefixOfConcat("@@ ", range);
    assert ("@@ " + range)[0] == '@';
    FirstCharDecides("@@ " + range, "diff --git ");
  }

  lemma {:induction false} ScanHunks(s: Scan, hs: seq<Hunk>)
    ensures ScanLines(s, PrintHunks(hs)) ==
            Scan(s.inHunk || hs != [], s.added + HunkCounts(hs).added, s.deleted + HunkCounts(hs).deleted)
  {
    if hs != [] {
      var init, h := hs[..|hs| - 1], hs[|hs| - 1];
      ScanHunks(s, init);
      var s1 := ScanLines(s, PrintHunks(init));
      ScanConcat(s, PrintHunks(init), ["@@ " + h.range] + PrintLines(h.lines));
      ScanConcat(s1, ["@@ " + h.range], PrintLines(h.lines));
      ScanOne(s1, "@@ " + h.range);
      NextHunkHeader(s1, h.range);
      ScanHunkLines(s1.(inHunk := true), h.lines);
    }
  }

  lemma {:induction false} ScanMetadata(s: Scan, lines: seq<string>)
    requires forall i :: 0 <= i < |lines| ==> MetadataLine(lines[i])
    ensures ScanLines(s, lines) == s
  {
    if lines != [] {
      ScanMetadata(s, lines[..|lines| - 1]);
      var last := lines[|lines| - 1];
      assert MetadataLine(last);
      LongerPrefix(last, "+++ ", "+");
      LongerPrefix(last, "--- ", "-");
    }
  }

  lemma LongerPrefix(line: string, long: string, short: string)
    requires |short| <= |long| && long[..|short|] == short
    ensures StartsWith(line, long) ==> StartsWith(line, short)
  {
    if StartsWith(line, long) {
      assert line[..|short|] == line[..|long|][..|short|];
    }
  }

  lemma ScanHeader(s: Scan, f: FileDiff)
    requires WellFormed(f)
    ensures ScanLines(s, PrintHeader(f)) == s.(inHunk := s.inHunk && f.gitHeader.None?)
  {
    if f.gitHeader.Some? {
      var line := "diff --git " + f.gitHeader.value;
      ScanConcat(s, [line], f.metadata);
      ScanOne(s, line);
      PrefixOfConcat("diff --git ", f.gitHeader.value);
      ScanMetadata(s.(inHunk := false), f.metadata);
    } else {
      assert PrintHeader(f) == f.metadata;
      ScanMetadata(s, f.metadata);
    }
  }

  lemma NextPathLine(s: Scan, mark: string, path: string)
    requires mark == "--- " || mark == "+++ "
    ensures NextLine(s, mark + path) ==
            if !s.inHunk then s
            else if mark == "+++ " then s.(added := s.added + 1)
            else s.(deleted := s.deleted + 1)
  {
    var line := mark + path;
    PrefixOfConcat(mark, path);
    assert line[0] == mark[0];
    FirstCharDecides(line, "diff --git ");
    FirstCharDecides(line, "@@ ");
    FirstCharDecides(line, "+");
    FirstCharDecides(line, "-");
  }

  lemma ScanPaths(s: Scan, f: FileDiff)
    ensures ScanLines(s, PrintPaths(f)) ==
            if s.inHunk && f.paths.Some? then Scan(true, s.added + 1, s.deleted + 1) else s
  {
    if f.paths.Some? {
      var minus, plus := "--- " + f.paths.value.0, "+++ " + f.paths.value.1;
      assert PrintPaths(f) == [minus] + [plus];
      ScanConcat(s, [minus], [plus]);
      ScanOne(s, minus);
      NextPathLine(s, "--- ", f.paths.value.0);
      ScanOne(NextLine(s, minus), plus);
      NextPathLine(NextLine(s, minus), "+++ ", f.paths.value.1);
    }
  }

  /** What scanning one printed file does to the scanner. */
  function AfterFile(s: Scan, f: FileDiff): Scan {
    var open := s.inHunk && f.gitHeader.None?;
    var stray := if open && f.paths.Some? then 1 else 0;
    var h := HunkCounts(f.hunks);
    Scan(open || f.hunks != [], s.added + stray + h.added, s.deleted + stray + h.deleted)
  }

  lemma ScanFile(s: Scan, f: FileDiff)
    requires WellFormed(f)
    ensures ScanLines(s, PrintFile(f)) == AfterFile(s, f)
  {
    var s1 := ScanLines(s, PrintHeader(f));
    ScanHeader(s, f);
    ScanConcat(s, PrintHeader(f), PrintPaths(f));
    ScanPaths(s1, f);
    ScanConcat(s, PrintHeader(f) + PrintPaths(f), PrintHunks(f.hunks));
    ScanHunks(ScanLines(s1, PrintPaths(f)), f.hunks);
  }

  function AfterFiles(files: seq<FileDiff>): Scan {
    if files == [] then START else AfterFile(AfterFiles(files[..|files| - 1]), files[|files| - 1])
  }

  lemma {:induction false} ScanFiles(files: seq<FileDiff>)
    requires forall i :: 0 <= i < |files| ==> WellFormed(files[i])
    ensures ScanLines(START, PrintDiff(files)) == AfterFiles(files)
  {
    if files != [] {
      var init, f := files[..|files| - 1], files[|files| - 1];
      ScanFiles(init);
      ScanConcat(START, PrintDiff(init), PrintFile(f));
      ScanFile(AfterFiles(init), f);
    }
  }

  lemma {:induction false} HunkOpenPrefix(files: seq<FileDiff>, n: nat, i: nat)
    requires i <= n <= |files|
    ensures HunkOpen(files[..n], i) == HunkOpen(files, i)
  {
    if i != 0 {
      HunkOpenPrefix(files, n, i - 1);
    }
  }

  lemma {:induction false} StraysPrefix(files: seq<FileDiff>, n: nat, i: nat)
    requires i <= n <= |files|
    ensures Strays(files[..n], i) == Strays(files, i)
  {
    if i != 0 {
      StraysPrefix(files, n, i - 1);
      HunkOpenPrefix(files, n, i - 1);
    }
  }

  lemma {:induction false} AfterFilesCounts(files: seq<FileDiff>)
    ensures
      var strays := Strays(files, |files|);
      AfterFiles(files) ==
        Scan(HunkOpen(files, |files|), TrueCounts(files).added + strays, TrueCounts(files).deleted + strays)
  {
    if files != [] {
      var n := |files| - 1;
      AfterFilesCounts(files[..n]);
      HunkOpenPrefix(files, n, n);
      StraysPrefix(files, n, n);
    }
  }

  // ---- From lines to text ---------------------------------------------------------

  predicate OneLines(lines: seq<string>) {
    forall i :: 0 <= i < |lines| ==> OneLine(lines[i])
  }

  function WithoutReturns(lines: seq<string>): seq<string> {
    if lines == [] then [] else [DropCarriageReturn(lines[0])] + WithoutReturns(lines[1..])
  }

  lemma {:induction false} FirstLineFeedAfter(line: string, rest: string)
    requires OneLine(line)
    ensures FirstLineFeed(line + "\n" + rest) == |line|
  {
    if line == [] {
      assert (line + "\n" + rest)[0] == '\n';
    } else {
      assert (line + "\n" + rest)[1..] == line[1..] + "\n" + rest;
      FirstLineFeedAfter(line[1..], rest);
    }
  }

  lemma {:induction false} LinesOfRender(lines: seq<string>)
    requires OneLines(lines)
    ensures Lines(Render(lines)) == WithoutReturns(lines)
  {
    if lines != [] {
      var line, rest := lines[0], Render(lines[1..]);
      var text := line + "\n" + rest;
      LinesOfRender(lines[1..]);
      FirstLineFeedAfter(line, rest);
      assert text[..|line|] == line;
      assert text[|line| + 1..] == rest;
      assert Render(lines) == text;
    }
  }

  lemma ReturnsDoNotMatter(s: Scan, line: string)
    ensures NextLine(s, DropCarriageReturn(line)) == NextLine(s, line)
  {
    ReturnKeepsPrefix(line, "diff --git ");
    ReturnKeepsPrefix(line, "@@ ");
    ReturnKeepsPrefix(line, "+++ ");
    ReturnKeepsPrefix(line, "--- ");
    ReturnKeepsPrefix(line, "+");
    ReturnKeepsPrefix(line, "-");
  }

  lemma ReturnKeepsPrefix(line: string, prefix: string)
    requires prefix != [] && prefix[|prefix| - 1] != '\r'
    ensures StartsWith(DropCarriageReturn(line), prefix) == StartsWith(line, prefix)
  {
    var n := |prefix|;
    var short := DropCarriageReturn(line);
    if n <= |short| {
      assert short[..n] == line[..n];
    } else if n == |line| && StartsWith(line, prefix) {
      assert line[..n][n - 1] == line[n - 1];
    }
  }

  lemma {:induction false} ScanWithoutReturns(s: Scan, lines: seq<string>)
    ensures ScanLines(s, WithoutReturns(lines)) == ScanLines(s, lines)
    decreases lines
  {
    if lines != [] {
      var line := lines[0];
      assert lines == [line] + lines[1..];
      ScanConcat(s, [line], lines[1..]);
      ScanConcat(s, [DropCarriageReturn(line)], WithoutReturns(lines[1..]));
      ScanOne(s, line);
      ScanOne(s, DropCarriageReturn(line));
      ReturnsDoNotMatter(s, line);
      ScanWithoutReturns(NextLine(s, line), lines[1..]);
    }
  }

  lemma {:induction false} PrintLinesOneLine(ls: seq<HunkLine>)
    requires forall i :: 0 <= i < |ls| ==> !ls[i].NoNewlineMarker? ==> OneLine(ls[i].text)
    ensures OneLines(PrintLines(ls))
  {
    if ls != [] {
      PrintLinesOneLine(ls[..|ls| - 1]);
    }
  }

  lemma {:induction false} PrintHunksOneLine(hs: seq<Hunk>)
    requires forall i :: 0 <= i < |hs| ==> WellFormedHunk(hs[i])
    ensures OneLines(PrintHunks(hs))
  {
    if hs != [] {
      PrintHunksOneLine(hs[..|hs| - 1]);
      PrintLinesOneLine(hs[|hs| - 1].lines);
    }
  }

  lemma PrintFileOneLine(f: FileDiff)
    requires WellFormed(f)
    ensures OneLines(PrintFile(f))
  {
    PrintHunksOneLine(f.hunks);
    assert OneLines(PrintHeader(f));
    assert OneLines(PrintPaths(f));
  }

  lemma {:induction false} PrintDiffOneLine(files: seq<FileDiff>)
    requires forall i :: 0 <= i < |files| ==> WellFormed(files[i])
    ensures OneLines(PrintDiff(files))
  {
    if files != [] {
      PrintDiffOneLine(files[..|files| - 1]);
      PrintFileOneLine(files[|files| - 1]);
    }
  }

  // ---- Main results ---------------------------------------------------------------

  /** Counting the text of any structured diff gives its true numbers of added and deleted lines,
      each increased by one for every file whose path lines follow an open hunk without a git header. */
  lemma CountsOfDiff(files: seq<FileDiff>)
    requires forall i :: 0 <= i < |files| ==> WellFormed(files[i])
    ensures CountsOf(Render(PrintDiff(files))) ==
            Counts(TrueCounts(files).added + Strays(files, |files|), TrueCounts(files).deleted + Strays(files, |files|))
  {
    PrintDiffOneLine(files);
    LinesOfRender(PrintDiff(files));
    ScanWithoutReturns(START, PrintDiff(files));
    ScanFiles(files);
    AfterFilesCounts(files);
  }

  /** No file's path lines follow an open hunk without a git header. */
  predicate Unambiguous(files: seq<FileDiff>) {
    forall i :: 0 <= i < |files| ==> !Stray(files, i)
  }

  lemma {:induction false} NoStraysUpTo(files: seq<FileDiff>, n: nat)
    requires n <= |files|
    ensures Strays(files, n) == 0 <==> forall i :: 0 <= i < n ==> !Stray(files, i)
  {
    if n != 0 {
      NoStraysUpTo(files, n - 1);
    }
  }

  lemma NoStraysIff(files: seq<FileDiff>)
    ensures Strays(files, |files|) == 0 <==> Unambiguous(files)
  {
    NoStraysUpTo(files, |files|);
  }

  lemma ShiftedIsSame(c: Counts, n: nat)
    ensures Counts(c.added + n, c.deleted + n) == c <==> n == 0
  {
  }

  /** The count is exact if and only if no file's path lines follow an open hunk without a git
      header. */
  lemma CountsAreExactIff(files: seq<FileDiff>)
    requires forall i :: 0 <= i < |files| ==> WellFormed(files[i])
    ensures CountsOf(Render(PrintDiff(files))) == TrueCounts(files) <==> Unambiguous(files)
  {
    CountsOfDiff(files);
    NoStraysIff(files);
    ShiftedIsSame(TrueCounts(files), Strays(files, |files|));
  }

  /** The count is exact for every diff written by git, which heads each file. */
  lemma GitCountsAreExact(files: seq<FileDiff>)
    requires forall i :: 0 <= i < |files| ==> WellFormed(files[i]) && files[i].gitHeader.Some?
    ensures CountsOf(Render(PrintDiff(files))) == TrueCounts(files)
  {
    CountsAreExactIff(files);
    assert Unambiguous(files);
  }

  /** The condition is not empty: a plain unified diff of two files, each with one empty hunk, has
      no changes, and one added and one deleted line are counted. */
  lemma PlainDiffIsMiscounted(path: string, range: string)
    requires OneLine(path) && OneLine(range)
    ensures
      var f := FileDiff(None, [], Some((path, path)), [Hunk(range, [])]);
      TrueCounts([f, f]) == Counts(0, 0) && CountsOf(Render(PrintDiff([f, f]))) == Counts(1, 1)
  {
    var f := FileDiff(None, [], Some((path, path)), [Hunk(range, [])]);
    var files := [f, f];
    assert files[..1] == [f] && [f][..0] == [] && [Hunk(range, [])][..0] == [];
    assert HunkCounts(f.hunks) == Counts(0, 0);
    assert TrueCounts([f]) == Counts(0, 0);
    assert !Stray(files, 0) && Stray(files, 1);
    assert Strays(files, 1) == 0 && Strays(files, 2) == 1;
    CountsOfDiff(files);
  }

  /** Counts add up over sections that start with a git header. */
  lemma CountsAddUp(s: Scan, before: seq<string>, header: string, after: seq<string>)
    ensures
      var whole := ScanLines(s, before + (["diff --git " + header] + after));
      var first := ScanLines(s, before);
      var second := ScanLines(START, after);
      whole == Scan(second.inHunk, first.added + second.added, first.deleted + second.deleted)
  {
    var line := "diff --git " + header;
    ScanConcat(s, before, [line] + after);
    ScanConcat(ScanLines(s, before), [line], after);
    ScanOne(ScanLines(s, before), line);
    PrefixOfConcat("diff --git ", header);
    ScanShift(ScanLines(s, before).(inHunk := false), START, after);
  }

  lemma {:induction false} ScanShift(a: Scan, b: Scan, lines: seq<string>)
    requires a.inHunk == b.inHunk
    ensures
      var x, y := ScanLines(a, lines), ScanLines(b, lines);
      x.inHunk == y.inHunk && x.added - a.added == y.added - b.added && x.deleted - a.deleted == y.deleted - b.deleted
  {
    if lines != [] {
      ScanShift(a, b, lines[..|lines| - 1]);
    }
  }
}
