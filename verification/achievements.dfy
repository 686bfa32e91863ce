/**
 * The list form of a doctor's achievements, shared by the signup page
 * (app/auth/signup/page.tsx) and the signup route
 * (app/api/auth/signup/route.ts), which both write
 * `text.split(/\r?\n|,/).map(s => s.trim()).filter(Boolean)`.
 */
module Achievements {
  import opened Js
  import opened Text

  /** The characters that end a piece: a comma or a line feed (an `\r` before it goes too). */
  predicate IsBreak(c: char) {
    c == ',' || c == '\n'
  }

  predicate NoBreak(s: string) {
    forall i :: 0 <= i < |s| ==> !IsBreak(s[i])
  }

  /** Index of the first comma or line feed. */
  function FirstBreak(s: string): (r: Option<nat>)
    ensures r.None? <==> NoBreak(s)
    ensures r.Some? ==> r.value < |s| && IsBreak(s[r.value])
    ensures r.Some? ==> forall j :: 0 <= j < r.value ==> !IsBreak(s[j])
  {
    if s == [] then None
    else if IsBreak(s[0]) then Some(0)
    else
      match FirstBreak(s[1..])
      case None => None
      case Some(k) => Some(k + 1)
  }

  /**
   * `s.split(/\r?\n|,/)`: the left-most separator is the first comma or line
   * feed, extended one character to the left when a line feed follows `\r`.
   */
  function SplitBreaks(s: string): (r: seq<string>)
    ensures |r| >= 1
    ensures forall i :: 0 <= i < |r| ==> NoBreak(r[i])
    decreases |s|
  {
    match FirstBreak(s)
    case None => [s]
    case Some(k) =>
      var end := if s[k] == '\n' && k > 0 && s[k - 1] == '\r' then k - 1 else k;
      assert NoBreak(s[..end]) by {
        forall i | 0 <= i < end ensures !IsBreak(s[..end][i]) {
          assert s[..end][i] == s[i];
        }
      }
      [s[..end]] + SplitBreaks(s[k + 1..])
  }

  /** `.map(s => s.trim()).filter(Boolean)` */
  function TrimmedPieces(pieces: seq<string>): (r: seq<string>)
    ensures |r| <= |pieces|
    ensures forall i :: 0 <= i < |r| ==> r[i] != "" && Trimmed(r[i])
  {
    if pieces == [] then []
    else
      var t := Trim(pieces[0]);
      if t == "" then TrimmedPieces(pieces[1..]) else [t] + TrimmedPieces(pieces[1..])
  }

  /** Trimming only removes characters, so it cannot introduce a separator. */
  lemma TrimKeepsNoBreak(s: string)
    requires NoBreak(s)
    ensures NoBreak(Trim(s))
  {
    var i := TrimIsSlice(s);
    forall j | 0 <= j < |Trim(s)| ensures !IsBreak(Trim(s)[j]) {
      assert Trim(s)[j] == s[i + j];
    }
  }

  lemma {:induction false} TrimmedPiecesNoBreak(pieces: seq<string>)
    requires forall i :: 0 <= i < |pieces| ==> NoBreak(pieces[i])
    ensures forall i :: 0 <= i < |TrimmedPieces(pieces)| ==> NoBreak(TrimmedPieces(pieces)[i])
  {
    if pieces != [] {
      var rest := pieces[1..];
      forall i | 0 <= i < |rest| ensures NoBreak(rest[i]) {
        assert rest[i] == pieces[i + 1];
      }
      TrimmedPiecesNoBreak(rest);
      var t := Trim(pieces[0]);
      var r := TrimmedPieces(rest);
      if t != "" {
        TrimKeepsNoBreak(pieces[0]);
        assert TrimmedPieces(pieces) == [t] + r;
        forall i | 0 <= i < |[t] + r| ensures NoBreak(([t] + r)[i]) {
          if i > 0 {
            assert ([t] + r)[i] == r[i - 1];
          }
        }
      }
    }
  }

  /** The achievements listed in a comma- or line-separated text. */
  function Split(text: string): (r: seq<string>)
    ensures forall i :: 0 <= i < |r| ==> r[i] != "" && Trimmed(r[i]) && NoBreak(r[i])
  {
    TrimmedPiecesNoBreak(SplitBreaks(text));
    TrimmedPieces(SplitBreaks(text))
  }

  /** A separator-free first piece is cut off exactly at the comma after it. */
  lemma FirstBreakAfter(a: string, b: string)
    requires NoBreak(a)
    ensures FirstBreak(a + "," + b) == Some(|a|)
  {
    var s := a + "," + b;
    assert s[|a|] == ',';
    assert forall j :: 0 <= j < |a| ==> s[j] == a[j];
  }

  /** A separator-free first piece followed by a comma splits off as the first entry. */
  lemma SplitBreaksAfterComma(a: string, b: string)
    requires NoBreak(a)
    ensures SplitBreaks(a + "," + b) == [a] + SplitBreaks(b)
  {
    var s := a + "," + b;
    FirstBreakAfter(a, b);
    assert s[|a|] == ',';
    assert s[..|a|] == a;
    assert s[|a| + 1..] == b;
  }

  /** Splitting a comma-joined list of separator-free entries gives the entries back. */
  lemma {:induction false} SplitBreaksOfJoin(items: seq<string>)
    requires |items| >= 1
    requires forall i :: 0 <= i < |items| ==> NoBreak(items[i])
    ensures SplitBreaks(Join(items, ",")) == items
    decreases |items|
  {
    if |items| > 1 {
      var rest := items[1..];
      forall i | 0 <= i < |rest| ensures NoBreak(rest[i]) {
        assert rest[i] == items[i + 1];
      }
      SplitBreaksOfJoin(rest);
      var tail := Join(rest, ",");
      assert Join(items, ",") == items[0] + "," + tail;
      SplitBreaksAfterComma(items[0], tail);
      assert items == [items[0]] + rest;
    }
  }

  lemma {:induction false} TrimmedPiecesOfClean(items: seq<string>)
    requires forall i :: 0 <= i < |items| ==> items[i] != "" && Trimmed(items[i])
    ensures TrimmedPieces(items) == items
  {
    if items != [] {
      TrimOfTrimmed(items[0]);
      TrimmedPiecesOfClean(items[1..]);
      assert items == [items[0]] + items[1..];
    }
  }

  /**
   * Round trip: a list of non-empty, trimmed entries without commas or line
   * feeds, written out separated by commas, is read back unchanged.
   */
  lemma SplitOfJoin(items: seq<string>)
    requires forall i :: 0 <= i < |items| ==> items[i] != "" && Trimmed(items[i]) && NoBreak(items[i])
    ensures Split(Join(items, ",")) == items
  {
    if items == [] {
      assert SplitBreaks("") == [""];
    } else {
      SplitBreaksOfJoin(items);
      TrimmedPiecesOfClean(items);
    }
  }

  predicate Blank(s: string) {
    forall i :: 0 <= i < |s| ==> IsSpace(s[i])
  }

  /** Every piece of a blank text is blank. */
  lemma {:induction false} SplitBreaksOfBlank(s: string)
    requires Blank(s)
    ensures forall i :: 0 <= i < |SplitBreaks(s)| ==> Blank(SplitBreaks(s)[i])
    decreases |s|
  {
    match FirstBreak(s)
    case None =>
    case Some(k) =>
      var rest := s[k + 1..];
      assert Blank(rest) by {
        forall i | 0 <= i < |rest| ensures IsSpace(rest[i]) {
          assert rest[i] == s[k + 1 + i];
        }
      }
      SplitBreaksOfBlank(rest);
  }

  lemma {:induction false} TrimmedPiecesOfBlank(pieces: seq<string>)
    requires forall i :: 0 <= i < |pieces| ==> Blank(pieces[i])
    ensures TrimmedPieces(pieces) == []
  {
    if pieces != [] {
      TrimEmptyIffAllSpace(pieces[0]);
      TrimmedPiecesOfBlank(pieces[1..]);
    }
  }

  /** Blank text, line feeds included, lists no achievements. */
  lemma SplitOfBlank(text: string)
    requires Blank(text)
    ensures Split(text) == []
  {
    SplitBreaksOfBlank(text);
    TrimmedPiecesOfBlank(SplitBreaks(text));
  }
}
