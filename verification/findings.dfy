/**
 * Turning the vision model's analysis text into scored findings
 * (app/api/analyze-image/route.ts): the FINDINGS section, its dash lines,
 * the stable sort by descending score and the ordering repair loop.
 * Scores are integer percentages.
 */
module Findings {
  import opened Js
  import opened Text
  import opened Scan

  datatype Finding = Finding(name: string, score: int)

  predicate NonIncreasing(s: seq<Finding>) {
    forall i, j :: 0 <= i < j < |s| ==> s[i].score >= s[j].score
  }

  // ---------------------------------------------------------------------------
  // `results.sort((a, b) => b.score - a.score)`: a stable sort, highest first

  /** Places `x` after the entries scoring more than it and before the rest. */
  function Insert(x: Finding, t: seq<Finding>): (r: seq<Finding>)
    ensures |r| == |t| + 1
    ensures r[0] == (if t == [] || t[0].score <= x.score then x else t[0])
  {
    if t == [] || t[0].score <= x.score then [x] + t
    else [t[0]] + Insert(x, t[1..])
  }

  /** Inserting adds exactly `x`. */
  lemma {:induction false} InsertPermutes(x: Finding, t: seq<Finding>)
    ensures multiset(Insert(x, t)) == multiset(t) + multiset{x}
  {
    if !(t == [] || t[0].score <= x.score) {
      InsertPermutes(x, t[1..]);
      assert t == [t[0]] + t[1..];
    }
  }

  /** Inserting into a descending list keeps it descending. */
  lemma {:induction false} InsertSorted(x: Finding, t: seq<Finding>)
    requires NonIncreasing(t)
    ensures NonIncreasing(Insert(x, t))
  {
    if !(t == [] || t[0].score <= x.score) {
      var rest := Insert(x, t[1..]);
      InsertSorted(x, t[1..]);
      var r := [t[0]] + rest;
      assert r[0].score >= r[1].score;
      forall i, j | 0 <= i < j < |r| ensures r[i].score >= r[j].score {
        if i == 0 && j > 1 {
          assert rest[0].score >= rest[j - 1].score;
        }
      }
    }
  }

  /** The stable descending sort. */
  function SortByScore(s: seq<Finding>): (r: seq<Finding>)
    ensures |r| == |s|
  {
    if s == [] then [] else Insert(s[0], SortByScore(s[1..]))
  }

  /** The sort orders by descending score and is a permutation of its input. */
  lemma {:induction false} SortByScoreSpec(s: seq<Finding>)
    ensures NonIncreasing(SortByScore(s))
    ensures multiset(SortByScore(s)) == multiset(s)
  {
    if s != [] {
      SortByScoreSpec(s[1..]);
      InsertPermutes(s[0], SortByScore(s[1..]));
      InsertSorted(s[0], SortByScore(s[1..]));
      assert s == [s[0]] + s[1..];
    }
  }

  /** The entries scoring exactly `v`, in order. */
  function WithScore(s: seq<Finding>, v: int): seq<Finding> {
    if s == [] then []
    else (if s[0].score == v then [s[0]] else []) + WithScore(s[1..], v)
  }

  lemma {:induction false} InsertWithScore(x: Finding, t: seq<Finding>, v: int)
    ensures WithScore(Insert(x, t), v) == (if x.score == v then [x] else []) + WithScore(t, v)
  {
    if t == [] || t[0].score <= x.score {
      WithScoreCons(x, t, v);
    } else {
      var rest := Insert(x, t[1..]);
      InsertWithScore(x, t[1..], v);
      WithScoreCons(t[0], rest, v);
      WithScoreCons(t[0], t[1..], v);
      assert [t[0]] + t[1..] == t;
    }
  }

  lemma WithScoreCons(f: Finding, rest: seq<Finding>, v: int)
    ensures WithScore([f] + rest, v) == (if f.score == v then [f] else []) + WithScore(rest, v)
  {
    assert ([f] + rest)[1..] == rest;
  }

  /** Stability: entries with equal scores keep their relative order. */
  lemma {:induction false} SortIsStable(s: seq<Finding>, v: int)
    ensures WithScore(SortByScore(s), v) == WithScore(s, v)
  {
    if s != [] {
      SortIsStable(s[1..], v);
      InsertWithScore(s[0], SortByScore(s[1..]), v);
    }
  }

  /** Sorting a list that is already in descending order changes nothing. */
  lemma {:induction false} SortOfSorted(s: seq<Finding>)
    requires NonIncreasing(s)
    ensures SortByScore(s) == s
  {
    if s != [] {
      SortOfSorted(s[1..]);
      assert s == [s[0]] + s[1..];
    }
  }

  // ---------------------------------------------------------------------------
  // The repair loop: a score above its predecessor becomes 5 points below it

  /** What the repair loop leaves, defined from the front. */
  function Repaired(s: seq<Finding>): (r: seq<Finding>)
    ensures |r| == |s|
  {
    if |s| <= 1 then s
    else
      var f := Repaired(s[..|s| - 1]);
      f + [Fix(f[|f| - 1], s[|s| - 1])]
  }

  /** One step of the loop: `x` when it does not score above `prev`, else `x` at 5 below `prev`. */
  function Fix(prev: Finding, x: Finding): Finding {
    if x.score > prev.score then x.(score := prev.score - 5) else x
  }

  /** Repairing one more entry appends its fixed version. */
  lemma RepairedStep(s: seq<Finding>, i: nat)
    requires 1 <= i < |s|
    ensures Repaired(s[..i + 1]) == Repaired(s[..i]) + [Fix(Repaired(s[..i])[i - 1], s[i])]
  {
    assert s[..i + 1][..i] == s[..i];
    assert s[..i + 1][i] == s[i];
  }

  /** The repaired list is in descending order and keeps every label in place. */
  lemma {:induction false} RepairedSpec(s: seq<Finding>)
    ensures NonIncreasing(Repaired(s))
    ensures forall i :: 0 <= i < |s| ==> Repaired(s)[i].name == s[i].name
  {
    if |s| > 1 {
      RepairedSpec(s[..|s| - 1]);
    }
  }

  /** On a list already in descending order the loop changes nothing. */
  lemma {:induction false} RepairedOfSorted(s: seq<Finding>)
    requires NonIncreasing(s)
    ensures Repaired(s) == s
  {
    if |s| > 1 {
      RepairedOfSorted(s[..|s| - 1]);
      assert s == s[..|s| - 1] + [s[|s| - 1]];
    }
  }

  /**
   * The loop of the route over the result array: where an entry scores above
   * the one before it, its score becomes the predecessor's minus 5.
   */
  method RepairOrder(a: array<Finding>)
    modifies a
    ensures a[..] == Repaired(old(a[..]))
  {
    if a.Length <= 1 {
      return;
    }
    ghost var s := a[..];
    for i := 1 to a.Length
      invariant a[..i] == Repaired(s[..i])
      invariant a[i..] == s[i..]
    {
      ghost var done := a[..i];
      assert a[i] == s[i] by { assert a[i..][0] == s[i..][0]; }
      RepairedStep(s, i);
      if a[i].score > a[i - 1].score {
        a[i] := a[i].(score := a[i - 1].score - 5);
      }
      assert a[i] == Fix(done[i - 1], s[i]);
      assert a[..i + 1] == done + [a[i]];
      assert a[i + 1..] == s[i + 1..];
    }
    assert a[..] == a[..a.Length] && s == s[..a.Length];
  }

  // ---------------------------------------------------------------------------
  // The FINDINGS section and its lines

  /**
   * `text.match(/FINDINGS:\s*([\s\S]*?)(?=PRIMARY_DIAGNOSIS:|$)/i)?.[1]`:
   * after the first "FINDINGS:" in any letter case and the whitespace that
   * follows, everything up to the next "PRIMARY_DIAGNOSIS:" or the end.
   */
  function FindingsSection(text: string): (r: Option<string>)
    ensures r.Some? <==> Contains(ToLower(text), "findings:")
  {
    var low := ToLower(text);
    match FindFrom(low, "findings:", 0)
    case None => None
    case Some(i) =>
      var j := SkipSpace(text, i + 9);
      var k := match FindFrom(low, "primary_diagnosis:", j) case Some(m) => m case None => |text|;
      if k < j then None else Some(text[j..k])
  }

  /** The dash lines of a section: those whose trimmed text starts with '-'. */
  function DashLines(lines: seq<string>): (r: seq<string>)
    ensures |r| <= |lines|
    ensures forall i :: 0 <= i < |r| ==> StartsWith(Trim(r[i]), "-") && r[i] in lines
  {
    if lines == [] then []
    else (if StartsWith(Trim(lines[0]), "-") then [lines[0]] else []) + DashLines(lines[1..])
  }

  /** `\s*(\d+)%` anchored at `j`: the digits. */
  function DigitsPercentAt(line: string, j: nat): (r: Option<string>)
    requires j <= |line|
    ensures r.Some? ==> |r.value| >= 1 && AllDigits(r.value)
  {
    var a := SkipSpace(line, j);
    var b := RunEnd(line, a, IsDigitChar);
    if a < b < |line| && line[b] == '%' then Some(line[a..b]) else None
  }

  /**
   * The lazy `(.*?):\s*(\d+)%` from `q` on: the first ':' before any line
   * terminator that is followed by whitespace, digits and '%'.
   */
  function ColonFrom(line: string, q: nat): (r: Option<(nat, string)>)
    requires q <= |line|
    ensures r.Some? ==> q <= r.value.0 < |line| && |r.value.1| >= 1 && AllDigits(r.value.1)
    decreases |line| - q
  {
    if q == |line| || IsLineTerminator(line[q]) then None
    else if line[q] == ':' && DigitsPercentAt(line, q + 1).Some? then Some((q, DigitsPercentAt(line, q + 1).value))
    else ColonFrom(line, q + 1)
  }

  /** `line.match(/- (.*?):\s*(\d+)%/)`: the label and digit captures of the left-most match. */
  function DashPattern(line: string, from: nat): (r: Option<(string, string)>)
    requires from <= |line|
    ensures r.Some? ==> |r.value.1| >= 1 && AllDigits(r.value.1)
    decreases |line| - from
  {
    match FindFrom(line, "- ", from)
    case None => None
    case Some(p) =>
      if p + 2 > |line| then None
      else match ColonFrom(line, p + 2)
        case Some((q, ds)) => Some((line[p + 2..q], ds))
        case None => if p < |line| then DashPattern(line, p + 1) else None
  }

  /** `s.replace('-', '')`: the first '-' removed. */
  function RemoveFirstDash(s: string): (r: string)
    ensures '-' in s ==> |r| == |s| - 1
    ensures '-' !in s ==> r == s
  {
    match IndexOf(s, '-')
    case None => s
    case Some(k) => s[..k] + s[k + 1..]
  }

  /**
   * The fallback for a dash line the pattern misses: the line without its
   * first '-' is trimmed and split on ':'; the first piece is the label,
   * scored by the first "N%" of the second piece or by the random draw
   * `draw`; a line without ':' gives nothing.
   */
  function SplitParse(line: string, draw: int): (r: Option<Finding>)
    ensures r.Some? ==> Trimmed(r.value.name)
    ensures r.None? <==> ':' !in Trim(RemoveFirstDash(line))
  {
    var parts := SplitChar(Trim(RemoveFirstDash(line)), ':');
    if |parts| >= 2 then
      var score := match DigitsBeforePercent(parts[1], 0) case Some(ds) => DigitsValue(ds) case None => draw;
      Some(Finding(Trim(parts[0]), score))
    else
      SplitSingle(Trim(RemoveFirstDash(line)), ':');
      None
  }

  /** One dash line: "- label: N%" gives (trimmed label, N); otherwise the fallback decides. */
  function ParseLine(line: string, draw: int): (r: Option<Finding>)
    ensures r.Some? ==> Trimmed(r.value.name)
  {
    match DashPattern(line, 0)
    case Some((name, ds)) => Some(Finding(Trim(name), DigitsValue(ds)))
    case None => SplitParse(line, draw)
  }

  /** A text that `split` leaves in one piece does not contain the separator. */
  lemma SplitSingle(s: string, c: char)
    requires |SplitChar(s, c)| < 2
    ensures c !in s
  {
  }

  /** The parsed lines with the unparseable ones dropped; the `n`-th line uses the draw `draws(n)`. */
  function ParseLines(lines: seq<string>, draws: nat -> int, n: nat): (r: seq<Finding>)
    ensures |r| <= |lines|
  {
    if lines == [] then []
    else
      var head := ParseLine(lines[0], draws(n));
      (if head.Some? then [head.value] else []) + ParseLines(lines[1..], draws, n + 1)
  }

  /** The findings read from the FINDINGS section, before sorting. */
  function ParsedFindings(section: string, draws: nat -> int): (r: seq<Finding>)
    ensures |r| <= |DashLines(SplitChar(section, '\n'))|
  {
    ParseLines(DashLines(SplitChar(section, '\n')), draws, 0)
  }

  /** A line in the requested format, "- label: N%", reads as the trimmed label scored N. */
  lemma WellFormedLineParses(name: string, ds: string, draw: int)
    requires ':' !in name && forall m :: 0 <= m < |name| ==> !IsLineTerminator(name[m])
    requires |ds| >= 1 && AllDigits(ds)
    ensures ParseLine("- " + name + ": " + ds + "%", draw) == Some(Finding(Trim(name), DigitsValue(ds)))
  {
    WellFormedLineMatches(name, ds);
  }

  lemma WellFormedLineMatches(name: string, ds: string)
    requires ':' !in name && forall m :: 0 <= m < |name| ==> !IsLineTerminator(name[m])
    requires |ds| >= 1 && AllDigits(ds)
    ensures DashPattern("- " + name + ": " + ds + "%", 0) == Some((name, ds))
  {
    var line := "- " + name + ": " + ds + "%";
    var q := 2 + |name|;
    assert line[..2] == "- ";
    assert line[2..q] == name;
    assert line[q..] == ": " + ds + "%";
    DashLineMatches(line, q, name, ds);
  }

  /** The same, for a line given by its three parts. */
  lemma DashLineMatches(line: string, q: nat, name: string, ds: string)
    requires ':' !in name && forall m :: 0 <= m < |name| ==> !IsLineTerminator(name[m])
    requires |ds| >= 1 && AllDigits(ds)
    requires q == 2 + |name| && q + 3 + |ds| == |line|
    requires line[..2] == "- " && line[2..q] == name && line[q..] == ": " + ds + "%"
    ensures DashPattern(line, 0) == Some((name, ds))
  {
    DigitsPercentOfWellFormed(line, q, ds);
    forall m | 2 <= m < q ensures line[m] != ':' && !IsLineTerminator(line[m]) {
      assert line[m] == line[2..q][m - 2];
    }
    ColonFromOver(line, 2, q, ds);
    DashPatternAtStart(line, q, ds);
  }

  /** A line opening with "- " matches at once, its label running up to the colon found after it. */
  lemma DashPatternAtStart(line: string, q: nat, ds: string)
    requires 2 <= q <= |line| && line[..2] == "- "
    requires ColonFrom(line, 2) == Some((q, ds))
    ensures DashPattern(line, 0) == Some((line[2..q], ds))
  {
    assert OccursAt(line, "- ", 0);
    assert FindFrom(line, "- ", 0) == Some(0);
  }

  lemma DigitsPercentOfWellFormed(line: string, q: nat, ds: string)
    requires |ds| >= 1 && AllDigits(ds)
    requires q + 3 + |ds| == |line| && line[q..] == ": " + ds + "%"
    ensures q < |line| && line[q] == ':' && DigitsPercentAt(line, q + 1) == Some(ds)
  {
    assert line[q] == line[q..][0];
    assert line[q + 1] == line[q..][1];
    SkipSpaceOver(line, q + 1, q + 2);
    forall m | q + 2 <= m < q + 2 + |ds| ensures IsDigitChar(line[m]) {
      assert line[m] == line[q..][m - q] == ds[m - q - 2];
    }
    assert line[q + 2 + |ds|] == line[q..][2 + |ds|] == '%';
    RunEndOver(line, q + 2, q + 2 + |ds|, IsDigitChar);
    assert line[q + 2..q + 2 + |ds|] == ds;
  }

  lemma {:induction false} ColonFromOver(line: string, p: nat, q: nat, ds: string)
    requires p <= q < |line|
    requires forall m :: p <= m < q ==> line[m] != ':' && !IsLineTerminator(line[m])
    requires line[q] == ':' && DigitsPercentAt(line, q + 1) == Some(ds)
    ensures ColonFrom(line, p) == Some((q, ds))
    decreases q - p
  {
    if p < q {
      ColonFromOver(line, p + 1, q, ds);
    }
  }

  // ---------------------------------------------------------------------------
  // PRIMARY_DIAGNOSIS

  /**
   * The start of the lazy `(.*?)(?=\n|$)` capture, trying `c`, `c - 1`, ...,
   * `lo` as the greedy `\s*` gives characters back: the first start from which
   * the first line terminator (or the end) is a '\n' (or the end).
   */
  function LazyLineStart(text: string, lo: nat, c: nat): (r: Option<nat>)
    requires lo <= c <= |text|
    ensures r.Some? ==> lo <= r.value <= c
    decreases c - lo
  {
    var e := LineEnd(text, c);
    if e == |text| || text[e] == '\n' then Some(c)
    else if c == lo then None
    else LazyLineStart(text, lo, c - 1)
  }

  /** `text.match(/PRIMARY_DIAGNOSIS:\s*(.*?)(?=\n|$)/i)?.[1]`, searching occurrences from `from`. */
  function PrimaryCapture(text: string, from: nat): (r: Option<string>)
    requires from <= |text|
    ensures r.Some? ==> forall m :: 0 <= m < |r.value| ==> !IsLineTerminator(r.value[m])
    decreases |text| - from
  {
    var low := ToLower(text);
    match FindFrom(low, "primary_diagnosis:", from)
    case None => None
    case Some(i) =>
      if i + 18 > |text| then None
      else
        var j := SkipSpace(text, i + 18);
        match LazyLineStart(text, i + 18, j)
        case Some(c) =>
          var e := LineEnd(text, c);
          assert forall m :: 0 <= m < e - c ==> text[c..e][m] == text[c + m];
          Some(text[c..e])
        case None => if i < |text| then PrimaryCapture(text, i + 1) else None
  }

  /** The left-most "(N%)" from `from` on: its start, its end and its digits. */
  function ParenPercent(s: string, from: nat): (r: Option<(nat, nat, string)>)
    requires from <= |s|
    ensures r.Some? ==> from <= r.value.0 < r.value.1 <= |s| && |r.value.2| >= 1 && AllDigits(r.value.2)
    decreases |s| - from
  {
    if from == |s| then None
    else if s[from] == '(' && RunEnd(s, from + 1, IsDigitChar) > from + 1 && RunEnd(s, from + 1, IsDigitChar) + 1 < |s|
      && s[RunEnd(s, from + 1, IsDigitChar)] == '%' && s[RunEnd(s, from + 1, IsDigitChar) + 1] == ')' then
      Some((from, RunEnd(s, from + 1, IsDigitChar) + 2, s[from + 1..RunEnd(s, from + 1, IsDigitChar)]))
    else ParenPercent(s, from + 1)
  }

  /**
   * The single finding made from the primary diagnosis: the text without its
   * first "(N%)", trimmed, scored N, or 75 without one.
   */
  function PrimaryFinding(primary: string): (f: Finding)
    ensures Trimmed(f.name)
    ensures ParenPercent(primary, 0).None? ==> f == Finding(Trim(primary), 75)
  {
    match ParenPercent(primary, 0)
    case None => Finding(Trim(primary), 75)
    case Some((a, b, ds)) => Finding(Trim(primary[..a] + primary[b..]), DigitsValue(ds))
  }
}
