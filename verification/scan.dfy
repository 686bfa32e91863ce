/**
 * The handful of regular-expression shapes the image routes apply to AI
 * output, each written out as the left-most, backtracking search that the
 * JavaScript engine performs:
 *   - `KEY\s*(\w+)` and `KEY\s*(\d+)`: a key followed by a run of one class;
 *   - `KEY\s*(.+)`: a key followed by the rest of a line;
 *   - `(\d+)%`: the first digit run directly followed by a percent sign.
 */
module Scan {
  import opened Js
  import opened Text

  /** The index just past the maximal run of whitespace starting at `j`. */
  function SkipSpace(s: string, j: nat): (k: nat)
    requires j <= |s|
    ensures j <= k <= |s|
    ensures forall m :: j <= m < k ==> IsSpace(s[m])
    ensures k == |s| || !IsSpace(s[k])
    decreases |s| - j
  {
    if j < |s| && IsSpace(s[j]) then SkipSpace(s, j + 1) else j
  }

  /** The index just past the maximal run of characters satisfying `p` from `j`. */
  function RunEnd(s: string, j: nat, p: char -> bool): (k: nat)
    requires j <= |s|
    ensures j <= k <= |s|
    ensures forall m :: j <= m < k ==> p(s[m])
    ensures k == |s| || !p(s[k])
    decreases |s| - j
  {
    if j < |s| && p(s[j]) then RunEnd(s, j + 1, p) else j
  }

  /** The first line terminator at or after `j`, or the end of `s`: where `.*` stops. */
  function LineEnd(s: string, j: nat): (k: nat)
    requires j <= |s|
    ensures j <= k <= |s|
    ensures forall m :: j <= m < k ==> !IsLineTerminator(s[m])
    ensures k == |s| || IsLineTerminator(s[k])
    decreases |s| - j
  {
    if j < |s| && !IsLineTerminator(s[j]) then LineEnd(s, j + 1) else j
  }

  /** The first occurrence of `t` in `s` at or after `from`. */
  function FindFrom(s: string, t: string, from: nat): (r: Option<nat>)
    requires from <= |s|
    ensures r.Some? ==> from <= r.value <= |s| && OccursAt(s, t, r.value)
    ensures r.Some? ==> forall m :: from <= m < r.value ==> !OccursAt(s, t, m)
    ensures r.None? ==> forall m :: from <= m <= |s| ==> !OccursAt(s, t, m)
    decreases |s| - from
  {
    if OccursAt(s, t, from) then Some(from)
    else if from == |s| then None
    else FindFrom(s, t, from + 1)
  }

  function IsDigitChar(c: char): bool { IsDigit(c) }
  function IsWord(c: char): bool { IsWordChar(c) }
  function NotLineTerminator(c: char): bool { !IsLineTerminator(c) }

  predicate AllDigits(ds: string) {
    forall i :: 0 <= i < |ds| ==> IsDigit(ds[i])
  }

  /** `parseInt` of a run of decimal digits. */
  function DigitsValue(ds: string): (n: nat)
    requires AllDigits(ds)
    ensures |ds| == 1 ==> n == ds[0] as int - '0' as int
  {
    if ds == [] then 0
    else DigitsValue(ds[..|ds| - 1]) * 10 + (ds[|ds| - 1] as int - '0' as int)
  }

  /** A two-digit run denotes the number it spells. */
  lemma DigitsValueTwo(ds: string)
    requires AllDigits(ds) && |ds| == 2
    ensures DigitsValue(ds) == (ds[0] as int - '0' as int) * 10 + (ds[1] as int - '0' as int)
  {
    assert ds[..1] == [ds[0]];
  }

  /**
   * `s.match(/KEY\s*(P+)/)?.[1]` for a class `P` that contains no whitespace
   * (`\w` or `\d`): at the left-most occurrence of `KEY` whose whitespace run
   * is followed by a `P` character, the maximal run of `P` characters.
   * Giving back whitespace never helps, since `P` excludes it.
   */
  function KeyedRun(s: string, key: string, p: char -> bool, from: nat): (r: Option<string>)
    requires from <= |s|
    ensures r.Some? ==> |r.value| >= 1 && forall m :: 0 <= m < |r.value| ==> p(r.value[m])
    decreases |s| - from
  {
    match FindFrom(s, key, from)
    case None => None
    case Some(i) =>
      var j := SkipSpace(s, i + |key|);
      if j < |s| && p(s[j]) then Some(s[j..RunEnd(s, j, p)])
      else if i < |s| then KeyedRun(s, key, p, i + 1)
      else None
  }

  /** A text that starts with `key`, a whitespace run and a `P` run followed by a non-`P` character yields that run. */
  lemma {:induction false} KeyedRunAtStart(key: string, gap: string, run: string, rest: string, p: char -> bool)
    requires forall m :: 0 <= m < |gap| ==> IsSpace(gap[m])
    requires |run| >= 1 && (forall m :: 0 <= m < |run| ==> p(run[m])) && !IsSpace(run[0])
    requires rest == [] || !p(rest[0])
    ensures KeyedRun(key + gap + run + rest, key, p, 0) == Some(run)
  {
    var s := key + gap + run + rest;
    assert s[..|key|] == key;
    assert OccursAt(s, key, 0);
    var j := |key| + |gap|;
    SkipSpaceOver(s, |key|, j);
    RunEndOver(s, j, j + |run|, p);
    assert s[j..j + |run|] == run;
  }

  lemma {:induction false} SkipSpaceOver(s: string, i: nat, j: nat)
    requires i <= j <= |s|
    requires forall m :: i <= m < j ==> IsSpace(s[m])
    requires j == |s| || !IsSpace(s[j])
    ensures SkipSpace(s, i) == j
    decreases j - i
  {
    if i < j {
      SkipSpaceOver(s, i + 1, j);
    }
  }

  lemma {:induction false} RunEndOver(s: string, i: nat, j: nat, p: char -> bool)
    requires i <= j <= |s|
    requires forall m :: i <= m < j ==> p(s[m])
    requires j == |s| || !p(s[j])
    ensures RunEnd(s, i, p) == j
    decreases j - i
  {
    if i < j {
      RunEndOver(s, i + 1, j, p);
    }
  }

  /** The greatest index in `[lo, hi)` whose character `.` matches. */
  function LastDotChar(s: string, lo: nat, hi: nat): (r: Option<nat>)
    requires lo <= hi <= |s|
    ensures r.Some? ==> lo <= r.value < hi && !IsLineTerminator(s[r.value])
    ensures r.Some? ==> forall m :: r.value < m < hi ==> IsLineTerminator(s[m])
    ensures r.None? ==> forall m :: lo <= m < hi ==> IsLineTerminator(s[m])
    decreases hi - lo
  {
    if lo == hi then None
    else if !IsLineTerminator(s[hi - 1]) then Some(hi - 1)
    else LastDotChar(s, lo, hi - 1)
  }

  /**
   * `s.match(/KEY\s*(.+)/)?.[1]`: at the left-most occurrence of `KEY`, the
   * greedy `\s*` first takes the whole whitespace run; when a character
   * follows it, the capture is the rest of that line.  When the run reaches
   * the end of the text, `\s*` gives characters back until `.` can match one,
   * so the capture is a piece of whitespace; with none, the next occurrence
   * is tried.
   */
  function KeyedLine(s: string, key: string, from: nat): (r: Option<string>)
    requires from <= |s|
    ensures r.Some? ==> LinePiece(r.value)
    decreases |s| - from
  {
    match FindFrom(s, key, from)
    case None => None
    case Some(i) =>
      if i + |key| > |s| then None
      else
        var j := SkipSpace(s, i + |key|);
        if j < |s| then
          LineFromNonSpace(s, j);
          Some(s[j..LineEnd(s, j)])
        else match LastDotChar(s, i + |key|, |s|)
          case Some(c) =>
            WhitespaceTail(s, c, LineEnd(s, c));
            Some(s[c..LineEnd(s, c)])
          case None => if i < |s| then KeyedLine(s, key, i + 1) else None
  }

  /** A run of whitespace only. */
  predicate AllSpace(t: string) {
    forall m :: 0 <= m < |t| ==> IsSpace(t[m])
  }

  /** A capture of `.+` after `\s*`: a line piece that starts with a non-space character, or whitespace only. */
  predicate LinePiece(t: string) {
    && |t| >= 1
    && (forall m :: 0 <= m < |t| ==> !IsLineTerminator(t[m]))
    && (!IsSpace(t[0]) || AllSpace(t))
  }

  lemma WhitespaceTail(s: string, c: nat, e: nat)
    requires c < e <= |s|
    requires forall m :: c <= m < |s| ==> IsSpace(s[m])
    requires forall m :: c <= m < e ==> !IsLineTerminator(s[m])
    ensures LinePiece(s[c..e])
  {
    assert forall m :: 0 <= m < e - c ==> s[c..e][m] == s[c + m];
  }

  lemma LineFromNonSpace(s: string, j: nat)
    requires j < |s| && !IsSpace(s[j])
    ensures LinePiece(s[j..LineEnd(s, j)])
  {
    var e := LineEnd(s, j);
    assert forall m :: 0 <= m < e - j ==> s[j..e][m] == s[j + m];
  }

  /**
   * `s.match(/(\d+)%/)?.[1]`, searching from `from`: the left-most digit run
   * directly followed by `%`.
   */
  function DigitsBeforePercent(s: string, from: nat): (r: Option<string>)
    requires from <= |s|
    ensures r.Some? ==> |r.value| >= 1 && AllDigits(r.value)
    decreases |s| - from
  {
    if from == |s| then None
    else if IsDigit(s[from]) && RunEnd(s, from, IsDigitChar) < |s| && s[RunEnd(s, from, IsDigitChar)] == '%' then
      Some(s[from..RunEnd(s, from, IsDigitChar)])
    else DigitsBeforePercent(s, from + 1)
  }
}
