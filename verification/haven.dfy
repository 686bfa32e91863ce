/**
 * The voice chat of components/synaptix-haven/haven-chat.tsx: the clean-up
 * applied to a recognised utterance, the shortening applied to a reply, and
 * the utterance buffer and awaiting-reply flag that enforce turn-taking.
 */
module Haven {
  import opened Js
  import opened Text
  import opened Triage

  // ---------------------------------------------------------------------------
  // Runs of characters

  /** Length of the longest prefix of `s` made of `\w` characters. */
  function WordLen(s: string): (n: nat)
    ensures n <= |s|
    ensures forall i :: 0 <= i < n ==> IsWordChar(s[i])
    ensures n < |s| ==> !IsWordChar(s[n])
  {
    if s != [] && IsWordChar(s[0]) then 1 + WordLen(s[1..]) else 0
  }

  /** Length of the longest prefix of `s` made of `\s` characters. */
  function SpaceLen(s: string): (n: nat)
    ensures n <= |s|
    ensures forall i :: 0 <= i < n ==> IsSpace(s[i])
    ensures n < |s| ==> !IsSpace(s[n])
  {
    if s != [] && IsSpace(s[0]) then 1 + SpaceLen(s[1..]) else 0
  }

  lemma {:induction false} WordLenOfWordThenOther(w: string, t: string)
    requires forall i :: 0 <= i < |w| ==> IsWordChar(w[i])
    requires t == [] || !IsWordChar(t[0])
    ensures WordLen(w + t) == |w|
    decreases |w|
  {
    if w != [] {
      assert (w + t)[1..] == w[1..] + t;
      WordLenOfWordThenOther(w[1..], t);
    }
  }

  // ---------------------------------------------------------------------------
  // cleanupTranscript

  /** `c+` from index `k` on: at least one character, all of them `c`. */
  predicate RepeatsFrom(w: string, k: nat, c: char) {
    k < |w| && forall i :: k <= i < |w| ==> w[i] == c
  }

  /**
   * A whole lower-cased word matched by `um+|uh+|hmm+|erm+|like`.  Between the
   * two `\b` anchors a partial match cannot succeed, so only whole words go.
   */
  predicate IsFiller(w: string) {
    (|w| >= 1 && w[0] == 'u' && (RepeatsFrom(w, 1, 'm') || RepeatsFrom(w, 1, 'h')))
    || (|w| >= 2 && w[..2] == "hm" && RepeatsFrom(w, 2, 'm'))
    || (|w| >= 2 && w[..2] == "er" && RepeatsFrom(w, 2, 'm'))
    || w == "like"
  }

  /** `text.replace(/\b(um+|uh+|hmm+|erm+|like)\b/gi, "")`: every filler word is deleted. */
  function RemoveFillers(s: string): (r: string)
    ensures |r| <= |s|
    ensures s == [] ==> r == []
    ensures s != [] && !IsWordChar(s[0]) ==> r != [] && r[0] == s[0]
    decreases |s|
  {
    if s == [] then []
    else if IsWordChar(s[0]) then
      var n := WordLen(s);
      (if IsFiller(ToLower(s[..n])) then [] else s[..n]) + RemoveFillers(s[n..])
    else [s[0]] + RemoveFillers(s[1..])
  }

  /** Removing the fillers from a text that has none left changes nothing. */
  lemma {:induction false} RemoveFillersIdempotent(s: string)
    ensures RemoveFillers(RemoveFillers(s)) == RemoveFillers(s)
    decreases |s|
  {
    if s == [] {
    } else if !IsWordChar(s[0]) {
      var t := RemoveFillers(s[1..]);
      RemoveFillersIdempotent(s[1..]);
      assert ([s[0]] + t)[1..] == t;
    } else {
      var n := WordLen(s);
      var w := s[..n];
      var rest := RemoveFillers(s[n..]);
      RemoveFillersIdempotent(s[n..]);
      if IsFiller(ToLower(w)) {
        assert RemoveFillers(s) == rest;
      } else {
        var u := w + rest;
        assert RemoveFillers(s) == u;
        WordLenOfWordThenOther(w, rest);
        assert u[0] == s[0];
        assert u[..n] == w && u[n..] == rest;
        assert RemoveFillers(u) == w + RemoveFillers(rest);
      }
    }
  }

  /** `.replace(/\s{2,}/g, " ")`: a run of two or more whitespace characters becomes one space. */
  function CollapseSpaces(s: string): (r: string)
    ensures |r| <= |s|
    ensures s == [] ==> r == []
    ensures s != [] && !IsSpace(s[0]) ==> r != [] && r[0] == s[0]
    decreases |s|
  {
    if s == [] then []
    else if IsSpace(s[0]) then
      var n := SpaceLen(s);
      (if n >= 2 then " " else s[..1]) + CollapseSpaces(s[n..])
    else [s[0]] + CollapseSpaces(s[1..])
  }

  predicate IsPunct(c: char) {
    c == ',' || c == '.' || c == '!' || c == '?'
  }

  /** `.replace(/\s+([,.!?])/g, "$1")`: a whitespace run followed by punctuation is deleted. */
  function DropSpaceBeforePunct(s: string): (r: string)
    ensures |r| <= |s|
    ensures s == [] ==> r == []
    ensures s != [] && !IsSpace(s[0]) ==> r != [] && r[0] == s[0]
    decreases |s|
  {
    if s == [] then []
    else if IsSpace(s[0]) then
      var n := SpaceLen(s);
      (if n < |s| && IsPunct(s[n]) then [] else s[..n]) + DropSpaceBeforePunct(s[n..])
    else [s[0]] + DropSpaceBeforePunct(s[1..])
  }

  /** A whitespace character at `i` directly followed by `,` `.` `!` or `?`. */
  predicate SpaceBeforePunctAt(s: string, i: nat)
    requires i + 1 < |s|
  {
    IsSpace(s[i]) && IsPunct(s[i + 1])
  }

  /** Whitespace characters at `i` and `i + 1`. */
  predicate DoubleSpaceAt(s: string, i: nat)
    requires i + 1 < |s|
  {
    IsSpace(s[i]) && IsSpace(s[i + 1])
  }

  predicate NoSpaceBeforePunct(s: string) {
    forall i: nat | i + 1 < |s| :: !SpaceBeforePunctAt(s, i)
  }

  predicate NoDoubleSpace(s: string) {
    forall i: nat | i + 1 < |s| :: !DoubleSpaceAt(s, i)
  }

  lemma NoSpaceBeforePunctConcat(a: string, b: string)
    requires NoSpaceBeforePunct(a) && NoSpaceBeforePunct(b)
    requires a == [] || b == [] || !IsSpace(a[|a| - 1]) || !IsPunct(b[0])
    ensures NoSpaceBeforePunct(a + b)
  {
    forall i: nat | i + 1 < |a + b| ensures !SpaceBeforePunctAt(a + b, i) {
      if i >= |a| {
        assert (a + b)[i] == b[i - |a|] && (a + b)[i + 1] == b[i - |a| + 1];
        assert !SpaceBeforePunctAt(b, i - |a|);
      } else if i + 1 < |a| {
        assert (a + b)[i] == a[i] && (a + b)[i + 1] == a[i + 1];
        assert !SpaceBeforePunctAt(a, i);
      }
    }
  }

  lemma NoDoubleSpaceConcat(a: string, b: string)
    requires NoDoubleSpace(a) && NoDoubleSpace(b)
    requires a == [] || b == [] || !IsSpace(a[|a| - 1]) || !IsSpace(b[0])
    ensures NoDoubleSpace(a + b)
  {
    forall i: nat | i + 1 < |a + b| ensures !DoubleSpaceAt(a + b, i) {
      if i >= |a| {
        assert (a + b)[i] == b[i - |a|] && (a + b)[i + 1] == b[i - |a| + 1];
        assert !DoubleSpaceAt(b, i - |a|);
      } else if i + 1 < |a| {
        assert (a + b)[i] == a[i] && (a + b)[i + 1] == a[i + 1];
        assert !DoubleSpaceAt(a, i);
      }
    }
  }

  lemma NoSpaceBeforePunctSlice(s: string, i: nat, j: nat)
    requires i <= j <= |s| && NoSpaceBeforePunct(s)
    ensures NoSpaceBeforePunct(s[i..j])
  {
    forall k: nat | k + 1 < j - i ensures !SpaceBeforePunctAt(s[i..j], k) {
      assert s[i..j][k] == s[i + k] && s[i..j][k + 1] == s[i + k + 1];
      assert !SpaceBeforePunctAt(s, i + k);
    }
  }

  lemma NoDoubleSpaceSlice(s: string, i: nat, j: nat)
    requires i <= j <= |s| && NoDoubleSpace(s)
    ensures NoDoubleSpace(s[i..j])
  {
    forall k: nat | k + 1 < j - i ensures !DoubleSpaceAt(s[i..j], k) {
      assert s[i..j][k] == s[i + k] && s[i..j][k + 1] == s[i + k + 1];
      assert !DoubleSpaceAt(s, i + k);
    }
  }

  /** After collapsing, no two whitespace characters are adjacent. */
  lemma {:induction false} CollapseSpacesNoDoubleSpace(s: string)
    ensures NoDoubleSpace(CollapseSpaces(s))
    decreases |s|
  {
    if s == [] {
    } else if IsSpace(s[0]) {
      var n := SpaceLen(s);
      CollapseSpacesNoDoubleSpace(s[n..]);
      NoDoubleSpaceConcat(if n >= 2 then " " else s[..1], CollapseSpaces(s[n..]));
    } else {
      CollapseSpacesNoDoubleSpace(s[1..]);
      NoDoubleSpaceConcat([s[0]], CollapseSpaces(s[1..]));
    }
  }

  lemma SpacesHaveNoPunct(p: string)
    requires forall k :: 0 <= k < |p| ==> IsSpace(p[k])
    ensures NoSpaceBeforePunct(p)
  {
    forall k: nat | k + 1 < |p| ensures !SpaceBeforePunctAt(p, k) {
      assert IsSpace(p[k + 1]);
    }
  }

  /** After dropping, no whitespace precedes punctuation. */
  lemma {:induction false} DropLeavesNoSpaceBeforePunct(s: string)
    ensures NoSpaceBeforePunct(DropSpaceBeforePunct(s))
    decreases |s|
  {
    if s == [] {
    } else if IsSpace(s[0]) {
      var n := SpaceLen(s);
      var rest := DropSpaceBeforePunct(s[n..]);
      DropLeavesNoSpaceBeforePunct(s[n..]);
      if n < |s| && IsPunct(s[n]) {
        assert DropSpaceBeforePunct(s) == rest;
      } else {
        SpacesHaveNoPunct(s[..n]);
        assert n < |s| ==> rest[0] == s[n];
        NoSpaceBeforePunctConcat(s[..n], rest);
      }
    } else {
      DropLeavesNoSpaceBeforePunct(s[1..]);
      NoSpaceBeforePunctConcat([s[0]], DropSpaceBeforePunct(s[1..]));
    }
  }

  /** Dropping whitespace before punctuation creates no whitespace pair. */
  lemma {:induction false} DropKeepsNoDoubleSpace(s: string)
    requires NoDoubleSpace(s)
    ensures NoDoubleSpace(DropSpaceBeforePunct(s))
    decreases |s|
  {
    if s == [] {
    } else if IsSpace(s[0]) {
      if |s| > 1 {
        assert !DoubleSpaceAt(s, 0);
      }
      var n := SpaceLen(s);
      assert n == 1;
      NoDoubleSpaceSlice(s, 1, |s|);
      assert s[1..|s|] == s[1..];
      DropKeepsNoDoubleSpace(s[1..]);
      var piece := if 1 < |s| && IsPunct(s[1]) then [] else s[..1];
      NoDoubleSpaceConcat(piece, DropSpaceBeforePunct(s[1..]));
    } else {
      NoDoubleSpaceSlice(s, 1, |s|);
      assert s[1..|s|] == s[1..];
      DropKeepsNoDoubleSpace(s[1..]);
      NoDoubleSpaceConcat([s[0]], DropSpaceBeforePunct(s[1..]));
    }
  }

  /** Trimming keeps both tidiness properties, since the result is a slice. */
  lemma TrimKeepsTidy(d: string)
    requires NoSpaceBeforePunct(d) && NoDoubleSpace(d)
    ensures NoSpaceBeforePunct(Trim(d)) && NoDoubleSpace(Trim(d))
  {
    var i := TrimIsSlice(d);
    NoSpaceBeforePunctSlice(d, i, i + |Trim(d)|);
    NoDoubleSpaceSlice(d, i, i + |Trim(d)|);
  }

  /**
   * `cleanupTranscript`: fillers removed, whitespace runs collapsed, whitespace
   * before punctuation dropped, then trimmed.
   */
  function CleanupTranscript(text: string): (r: string)
    ensures Trimmed(r)
    ensures |r| <= |text|
  {
    Trim(DropSpaceBeforePunct(CollapseSpaces(RemoveFillers(text))))
  }

  /** A cleaned transcript has no whitespace before punctuation and no whitespace pair. */
  lemma CleanupTranscriptTidy(text: string)
    ensures NoSpaceBeforePunct(CleanupTranscript(text))
    ensures NoDoubleSpace(CleanupTranscript(text))
  {
    var c := CollapseSpaces(RemoveFillers(text));
    CollapseSpacesNoDoubleSpace(RemoveFillers(text));
    DropLeavesNoSpaceBeforePunct(c);
    DropKeepsNoDoubleSpace(c);
    TrimKeepsTidy(DropSpaceBeforePunct(c));
  }

  // ---------------------------------------------------------------------------
  // shortenAI

  predicate IsSentenceEnd(c: char) {
    c == '.' || c == '!' || c == '?'
  }

  /** `(?<=[.!?])\s+` can start matching at index `q` of `s`. */
  predicate BreakAt(s: string, q: int) {
    1 <= q < |s| && IsSentenceEnd(s[q - 1]) && IsSpace(s[q])
  }

  /** `s` holds no sentence break. */
  predicate NoBreak(s: string) {
    forall q | 0 <= q < |s| :: !BreakAt(s, q)
  }

  /** The first sentence break at or after `from`. */
  function FirstBreak(s: string, from: nat): (r: Option<nat>)
    ensures r.None? ==> forall q :: from <= q ==> !BreakAt(s, q)
    ensures r.Some? ==> from <= r.value && BreakAt(s, r.value)
    ensures r.Some? ==> forall q :: from <= q < r.value ==> !BreakAt(s, q)
    decreases |s| - from
  {
    if from >= |s| then None
    else if BreakAt(s, from) then Some(from)
    else FirstBreak(s, from + 1)
  }

  /**
   * `text.split(/(?<=[.!?])\s+/)`: the pieces between the whitespace runs that
   * follow a sentence end.  Every piece but the last ends a sentence.
   */
  function SplitSentences(s: string): (r: seq<string>)
    ensures |r| >= 1
    ensures s != [] ==> r[0] != []
    ensures forall i :: 0 <= i < |r| ==> NoBreak(r[i])
    ensures forall i :: 0 <= i < |r| - 1 ==> r[i] != [] && IsSentenceEnd(r[i][|r[i]| - 1])
    ensures s != [] ==> r[0][0] == s[0]
    ensures forall i :: 1 <= i < |r| ==> r[i] == [] || !IsSpace(r[i][0])
    decreases |s|
  {
    match FirstBreak(s, 1)
    case None => [s]
    case Some(q) =>
      var n := SpaceLen(s[q..]);
      var head := s[..q];
      assert NoBreak(head) by {
        forall p ensures !BreakAt(head, p) {
          if BreakAt(head, p) { assert BreakAt(s, p); }
        }
      }
      [head] + SplitSentences(s[q + n..])
  }

  /** The one separator the source's joiner puts between sentences. */
  predicate SingleSpaced(s: string) {
    forall q | 0 <= q < |s| :: BreakAt(s, q) ==> s[q] == ' ' && (q + 1 == |s| || !IsSpace(s[q + 1]))
  }

  /** When every break is one plain space, splitting and joining with `" "` gives the text back. */
  lemma {:induction false} SplitJoinSingleSpaced(s: string)
    requires SingleSpaced(s)
    ensures Join(SplitSentences(s), " ") == s
    decreases |s|
  {
    match FirstBreak(s, 1)
    case None =>
    case Some(q) =>
      assert SpaceLen(s[q..]) == 1;
      var rest := s[q + 1..];
      assert SingleSpaced(rest) by {
        forall p | BreakAt(rest, p) ensures rest[p] == ' ' && (p + 1 == |rest| || !IsSpace(rest[p + 1])) {
          assert BreakAt(s, q + 1 + p);
        }
      }
      SplitJoinSingleSpaced(rest);
      assert s == s[..q] + " " + rest;
  }

  /** A join of the first pieces is a prefix of the join of all of them. */
  lemma {:induction false} JoinPrefix(pieces: seq<string>, m: nat, sep: string)
    requires 1 <= m <= |pieces|
    ensures StartsWith(Join(pieces, sep), Join(pieces[..m], sep))
    decreases m
  {
    if m > 1 {
      JoinPrefix(pieces[1..], m - 1, sep);
      assert pieces[..m][1..] == pieces[1..][..m - 1];
    }
  }

  lemma JoinNonEmpty(pieces: seq<string>, sep: string)
    requires |pieces| >= 1 && pieces[0] != []
    ensures Join(pieces, sep) != []
  {
  }

  /** The shape of the pieces `SplitSentences` returns. */
  predicate SentencePieces(p: seq<string>) {
    && |p| >= 1
    && (forall i :: 0 <= i < |p| ==> NoBreak(p[i]))
    && (forall i :: 0 <= i < |p| - 1 ==> p[i] != [] && IsSentenceEnd(p[i][|p[i]| - 1]))
    && (forall i :: 1 <= i < |p| ==> p[i] == [] || !IsSpace(p[i][0]))
  }

  /** The first break at or after `from` is the one before which there is none. */
  lemma FirstBreakIs(s: string, from: nat, q: nat)
    requires from <= q && BreakAt(s, q)
    requires forall p :: from <= p < q ==> !BreakAt(s, p)
    ensures FirstBreak(s, from) == Some(q)
  {
  }

  /** A text with no break is one piece. */
  lemma SplitOfNoBreak(s: string)
    requires NoBreak(s)
    ensures SplitSentences(s) == [s]
  {
    assert FirstBreak(s, 1).None?;
  }

  /** After a finished sentence, one space and a text not starting with whitespace is a split point. */
  lemma SplitAfterSentence(head: string, rest: string)
    requires head != [] && IsSentenceEnd(head[|head| - 1]) && NoBreak(head)
    requires rest == [] || !IsSpace(rest[0])
    ensures SplitSentences(head + " " + rest) == [head] + SplitSentences(rest)
  {
    var s := head + " " + rest;
    var q := |head|;
    assert BreakAt(s, q);
    forall b | 1 <= b < q ensures !BreakAt(s, b) {
      assert s[b - 1] == head[b - 1] && s[b] == head[b];
      assert !BreakAt(head, b);
    }
    FirstBreakIs(s, 1, q);
    assert s[q..] == " " + rest;
    assert (" " + rest)[1..] == rest;
    assert SpaceLen(s[q..]) == 1;
    assert s[..q] == head;
    assert s[q + 1..] == rest;
  }

  /** Dropping the first of the sentence pieces leaves sentence pieces. */
  lemma SentencePiecesTail(p: seq<string>)
    requires SentencePieces(p) && |p| >= 2
    ensures SentencePieces(p[1..])
  {
    var tail := p[1..];
    forall i | 0 <= i < |tail| ensures NoBreak(tail[i]) { assert tail[i] == p[i + 1]; }
    forall i | 0 <= i < |tail| - 1 ensures tail[i] != [] && IsSentenceEnd(tail[i][|tail[i]| - 1]) {
      assert tail[i] == p[i + 1];
    }
    forall i | 1 <= i < |tail| ensures tail[i] == [] || !IsSpace(tail[i][0]) { assert tail[i] == p[i + 1]; }
  }

  /** The first of several sentence pieces is a finished sentence, and the join of the others starts with no whitespace. */
  lemma SentencePiecesHead(p: seq<string>)
    requires SentencePieces(p) && |p| >= 2
    ensures p[0] != [] && IsSentenceEnd(p[0][|p[0]| - 1]) && NoBreak(p[0])
    ensures var rest := Join(p[1..], " "); rest == [] || !IsSpace(rest[0])
    ensures Join(p, " ") == p[0] + " " + Join(p[1..], " ")
  {
    JoinStartsWithFirst(p[1..], " ");
    assert p[1..][0] == p[1];
  }

  /** A join starts with its first piece's first character. */
  lemma JoinStartsWithFirst(p: seq<string>, sep: string)
    requires |p| >= 1 && (|p| == 1 || p[0] != [])
    ensures Join(p, sep) == [] || (p[0] != [] && Join(p, sep)[0] == p[0][0])
  {
    if |p| > 1 {
      assert Join(p, sep) == p[0] + sep + Join(p[1..], sep);
    }
  }

  /** Joining sentence pieces with one space and splitting again gives the same pieces. */
  lemma {:induction false} SplitOfSentenceJoin(p: seq<string>)
    requires SentencePieces(p)
    ensures SplitSentences(Join(p, " ")) == p
    decreases |p|
  {
    if |p| == 1 {
      SplitOfNoBreak(p[0]);
    } else {
      var tail := p[1..];
      var rest := Join(tail, " ");
      SentencePiecesHead(p);
      SentencePiecesTail(p);
      SplitAfterSentence(p[0], rest);
      SplitOfSentenceJoin(tail);
      assert p == [p[0]] + tail;
    }
  }

  const MaxReplyLength: nat := 350
  const MaxReplySentences: nat := 3

  /** The number of sentences `shortenAI` keeps out of `n`. */
  function KeptSentences(n: nat): (k: nat)
    ensures k <= n && k <= MaxReplySentences
    ensures k == n || k == MaxReplySentences
  {
    if n < MaxReplySentences then n else MaxReplySentences
  }

  /** At most the first three sentences: splitting the result gives exactly those. */
  function FirstSentences(text: string): (r: string)
    ensures text != [] ==> r != []
    ensures SplitSentences(r) == SplitSentences(text)[..KeptSentences(|SplitSentences(text)|)]
    ensures |SplitSentences(r)| <= MaxReplySentences
  {
    var pieces := SplitSentences(text);
    var first := pieces[..KeptSentences(|pieces|)];
    assert text != [] ==> Join(first, " ") != [] by {
      if text != [] { JoinNonEmpty(first, " "); }
    }
    assert SentencePieces(first);
    SplitOfSentenceJoin(first);
    Join(first, " ")
  }

  /**
   * `shortenAI`: the first three sentences, cut to 350 characters plus an
   * ellipsis.  An uncut reply holds exactly the first three sentences; a cut
   * one starts with the first 350 characters of them.
   */
  function ShortenAI(text: string): (r: string)
    ensures |r| <= MaxReplyLength + 1
    ensures text != [] ==> r != []
    ensures |r| > MaxReplyLength ==> r[MaxReplyLength] == '…'
    ensures |r| <= MaxReplyLength ==>
      SplitSentences(r) == SplitSentences(text)[..KeptSentences(|SplitSentences(text)|)]
    ensures |r| > MaxReplyLength ==> StartsWith(FirstSentences(text), r[..MaxReplyLength])
  {
    var sentences := FirstSentences(text);
    if |sentences| <= MaxReplyLength then sentences
    else sentences[..MaxReplyLength] + "…"
  }

  /**
   * A single-spaced text is shortened to a prefix of itself (with the
   * ellipsis when it was cut at 350 characters).
   */
  lemma ShortenIsPrefix(text: string)
    requires SingleSpaced(text)
    ensures var r := ShortenAI(text);
      StartsWith(text, r) || (|r| == MaxReplyLength + 1 && StartsWith(text, r[..MaxReplyLength]))
  {
    var pieces := SplitSentences(text);
    SplitJoinSingleSpaced(text);
    JoinPrefix(pieces, if |pieces| < 3 then |pieces| else 3, " ");
    var s := FirstSentences(text);
    if |s| > MaxReplyLength {
      assert ShortenAI(text)[..MaxReplyLength] == s[..MaxReplyLength];
    }
  }

  /** A single-spaced text of at most three sentences and 350 characters comes back unchanged. */
  lemma ShortTextUnchanged(text: string)
    requires SingleSpaced(text) && |SplitSentences(text)| <= 3 && |text| <= MaxReplyLength
    ensures ShortenAI(text) == text
  {
    var pieces := SplitSentences(text);
    SplitJoinSingleSpaced(text);
    assert pieces[..|pieces|] == pieces;
  }

  /** The reply used when the server sends no text. */
  const Fallback: string := "I'm here with you."

  lemma FallbackUnchanged()
    ensures ShortenAI(Fallback) == Fallback
  {
    assert NoBreak(Fallback);
    assert FirstBreak(Fallback, 1) == None;
    assert SingleSpaced(Fallback);
    ShortTextUnchanged(Fallback);
  }

  // ---------------------------------------------------------------------------
  // Recognition results

  /** One recognition result of a `SpeechRecognitionEvent` (its first alternative). */
  datatype Chunk = Chunk(isFinal: bool, transcript: string, confidence: Option<JsNumber>)

  /** `typeof alt.confidence === "number" && alt.confidence < 0.5` */
  predicate LowConfidence(c: Option<JsNumber>) {
    c.Some? && (c.value.NegInfinity? || (c.value.Finite? && c.value.v < 0.5))
  }

  /** What a chunk adds to `finalText`: its transcript when final and not dropped. */
  function KeptFinal(c: Chunk): string {
    if c.isFinal && !LowConfidence(c.confidence) then c.transcript else ""
  }

  /** What a chunk adds to `interim`. */
  function InterimPart(c: Chunk): string {
    if c.isFinal then "" else c.transcript
  }

  /** `finalText` after the loop over `chunks`. */
  function FinalText(chunks: seq<Chunk>): string {
    if chunks == [] then "" else FinalText(chunks[..|chunks| - 1]) + KeptFinal(chunks[|chunks| - 1])
  }

  /** `interim` after the loop over `chunks`. */
  function InterimText(chunks: seq<Chunk>): string {
    if chunks == [] then "" else InterimText(chunks[..|chunks| - 1]) + InterimPart(chunks[|chunks| - 1])
  }

  /** A final chunk with a confidence of at least one half reaches the final text. */
  lemma {:induction false} KeptChunkReachesFinalText(chunks: seq<Chunk>, i: nat)
    requires i < |chunks| && chunks[i].isFinal && !LowConfidence(chunks[i].confidence)
    ensures Contains(FinalText(chunks), chunks[i].transcript)
    decreases |chunks|
  {
    var init := chunks[..|chunks| - 1];
    var last := KeptFinal(chunks[|chunks| - 1]);
    if i == |chunks| - 1 {
      ContainsSelf(last);
      ContainsRight(FinalText(init), last, last);
    } else {
      assert init[i] == chunks[i];
      KeptChunkReachesFinalText(init, i);
      ContainsLeft(FinalText(init), last, chunks[i].transcript);
    }
  }

  /** When every final chunk has a low confidence, no final text is collected. */
  lemma {:induction false} DroppedChunksLeaveNoFinalText(chunks: seq<Chunk>)
    requires forall i :: 0 <= i < |chunks| && chunks[i].isFinal ==> LowConfidence(chunks[i].confidence)
    ensures FinalText(chunks) == ""
    decreases |chunks|
  {
    if chunks != [] {
      DroppedChunksLeaveNoFinalText(chunks[..|chunks| - 1]);
    }
  }

  /** The loop of `rec.onresult` over the recognition results. */
  method GatherResults(chunks: seq<Chunk>) returns (finalText: string, interim: string)
    ensures finalText == FinalText(chunks) && interim == InterimText(chunks)
  {
    finalText := "";
    interim := "";
    for i := 0 to |chunks|
      invariant finalText == FinalText(chunks[..i])
      invariant interim == InterimText(chunks[..i])
    {
      assert chunks[..i + 1][..i] == chunks[..i];
      var res := chunks[i];
      if res.isFinal {
        if LowConfidence(res.confidence) {
          // a low-confidence final chunk is dropped
        } else {
          finalText := finalText + res.transcript;
        }
      } else {
        interim := interim + res.transcript;
      }
    }
    assert chunks[..|chunks|] == chunks;
  }

  /** The buffer after `onresult`: the trimmed final text is appended when there is any. */
  function AppendFinal(buffer: string, finalText: string): (r: string)
    requires Trimmed(buffer)
    ensures Trimmed(r)
  {
    if Trim(finalText) == "" then buffer else Trim(buffer + " " + Trim(finalText))
  }

  /**
   * Appending final text to the buffer: without final text the buffer is kept;
   * otherwise the trimmed final text follows after exactly one space, or
   * becomes the buffer when it was empty.
   */
  lemma AppendFinalSpec(buffer: string, finalText: string)
    requires Trimmed(buffer)
    ensures Trim(finalText) == "" ==> AppendFinal(buffer, finalText) == buffer
    ensures Trim(finalText) != "" ==>
      AppendFinal(buffer, finalText)
        == if buffer == "" then Trim(finalText) else buffer + " " + Trim(finalText)
  {
    var t := Trim(finalText);
    if t != "" {
      if buffer == "" {
        TrimAfterSpace(t);
      } else {
        TrimOfJoined(buffer, t);
      }
    }
  }

  lemma TrimAfterSpace(t: string)
    requires t != "" && Trimmed(t)
    ensures Trim("" + " " + t) == t
  {
    var joined := "" + " " + t;
    assert joined == " " + t;
    assert TrimStart(joined) == TrimStart(t);
    TrimStartOfNonSpace(t);
    TrimEndOfNonSpace(t);
  }

  lemma TrimOfJoined(buffer: string, t: string)
    requires buffer != "" && Trimmed(buffer) && t != "" && Trimmed(t)
    ensures Trim(buffer + " " + t) == buffer + " " + t
  {
    var joined := buffer + " " + t;
    assert !IsSpace(joined[0]) && !IsSpace(joined[|joined| - 1]);
    TrimOfTrimmed(joined);
  }

  /** The text `sendToAPI` shows for a server answer: the fallback when there is none, shortened. */
  method ReplyText(response: Option<string>) returns (aiText: string)
    ensures aiText == ShortenAI(OrElse(response, Fallback))
    ensures aiText != ""
  {
    aiText := ShortenAI(OrElse(response, Fallback));
  }

  /** The body of `rec.onresult` once it is past the awaiting-reply check. */
  method Hear(buffer: string, chunks: seq<Chunk>) returns (newBuffer: string, interim: string, flushSoon: bool)
    requires Trimmed(buffer)
    ensures interim == InterimText(chunks)
    ensures newBuffer == AppendFinal(buffer, FinalText(chunks))
    ensures flushSoon == (Trim(FinalText(chunks)) != "" && Trim(InterimText(chunks)) == "")
  {
    var finalText;
    finalText, interim := GatherResults(chunks);
    newBuffer := AppendFinal(buffer, finalText);
    flushSoon := Trim(finalText) != "" && Trim(interim) == "";
  }

  // ---------------------------------------------------------------------------
  // The session


  datatype Role = User | Model

  /** A chat message; its id and timestamp come from the clock and are left out. */
  datatype Message = Message(role: Role, text: string)

  /**
   * The refs of `HavenChat` that decide whose turn it is: the message list,
   * the utterance buffer, the interim text on screen, the awaiting-reply flag,
   * the last AI reply and the session analytics.
   */
  class HavenSession {
    var messages: seq<Message>
    var utteranceBuffer: string
    var interimText: string
    var awaitingReply: bool
    var lastAIText: string
    const analytics: SessionAnalytics

    /** The utterance buffer is always kept trimmed. */
    ghost predicate Valid()
      reads this
    {
      Trimmed(utteranceBuffer)
    }

    constructor ()
      ensures Valid() && analytics.Valid() && fresh(analytics)
      ensures messages == [] && utteranceBuffer == "" && interimText == ""
      ensures !awaitingReply && lastAIText == ""
      ensures analytics.msgCount == 0 && analytics.symptoms == {} && analytics.severityScore == 0
    {
      messages := [];
      utteranceBuffer := "";
      interimText := "";
      awaitingReply := false;
      lastAIText := "";
      analytics := new SessionAnalytics();
    }

    /**
     * `rec.onresult`: ignored while a reply is awaited; otherwise the kept final
     * text is appended to the buffer.  `flushSoon` tells whether the quick
     * finalize timer is armed (final text and no interim text).
     */
    method OnResult(chunks: seq<Chunk>) returns (flushSoon: bool)
      requires Valid()
      modifies this
      ensures Valid()
      ensures old(awaitingReply) ==> !flushSoon && unchanged(this)
      ensures !old(awaitingReply) ==>
        && interimText == InterimText(chunks)
        && utteranceBuffer == AppendFinal(old(utteranceBuffer), FinalText(chunks))
        && flushSoon == (Trim(FinalText(chunks)) != "" && Trim(InterimText(chunks)) == "")
      ensures messages == old(messages) && awaitingReply == old(awaitingReply) && lastAIText == old(lastAIText)
    {
      if awaitingReply {
        return false;
      }
      var buffer, interim;
      buffer, interim, flushSoon := Hear(utteranceBuffer, chunks);
      interimText, utteranceBuffer := interim, buffer;
    }

    /**
     * `finalizeUtterance`: does nothing while a reply is awaited or when the
     * cleaned buffer is empty; otherwise the cleaned text becomes a user
     * message, the buffer is emptied and the session waits for the reply.
     */
    method FinalizeUtterance()
      requires Valid() && analytics.Valid()
      modifies this, analytics
      ensures Valid() && analytics.Valid()
      ensures old(awaitingReply) ==> unchanged(this) && unchanged(analytics)
      ensures !old(awaitingReply) && CleanupTranscript(old(utteranceBuffer)) == "" ==>
        unchanged(this) && unchanged(analytics)
      ensures var text := CleanupTranscript(old(utteranceBuffer));
        !old(awaitingReply) && text != "" ==>
          && utteranceBuffer == "" && interimText == "" && awaitingReply
          && messages == old(messages) + [Message(User, text)]
          && lastAIText == old(lastAIText)
      ensures var text := CleanupTranscript(old(utteranceBuffer));
        !old(awaitingReply) && text != "" ==>
          && analytics.msgCount == old(analytics.msgCount) + 1
          && analytics.symptoms == old(analytics.symptoms) + Elems(ExtractSymptoms(text))
          && analytics.severityScore == old(analytics.severityScore) + SeverityDelta(text)
    {
      if awaitingReply {
        return;
      }
      TrimOfTrimmed(utteranceBuffer);
      var text := CleanupTranscript(Trim(utteranceBuffer));
      if text == "" {
        return;
      }
      Submit(text);
    }

    /**
     * The second half of `finalizeUtterance`: the buffer and the interim text
     * are cleared, the analytics take in the text, the session waits for the
     * reply and the text becomes a user message.
     */
    method Submit(text: string)
      requires Valid() && analytics.Valid()
      modifies this, analytics
      ensures Valid() && analytics.Valid()
      ensures utteranceBuffer == "" && interimText == "" && awaitingReply
      ensures messages == old(messages) + [Message(User, text)]
      ensures lastAIText == old(lastAIText)
      ensures analytics.msgCount == old(analytics.msgCount) + 1
      ensures analytics.symptoms == old(analytics.symptoms) + Elems(ExtractSymptoms(text))
      ensures analytics.severityScore == old(analytics.severityScore) + SeverityDelta(text)
    {
      utteranceBuffer := "";
      interimText := "";
      analytics.UpdateFromUser(text);
      awaitingReply := true;
      messages := messages + [Message(User, text)];
    }

    /**
     * The reply handling of `sendToAPI`, as written: `response` is the server's
     * text and `canSpeak` whether speech synthesis is available.  A reply equal
     * to the previous one returns before anything is changed, the turn included.
     */
    method ReceiveReply(response: Option<string>, canSpeak: bool)
      requires Valid()
      modifies this
      ensures Valid()
      ensures var aiText := ShortenAI(OrElse(response, Fallback));
        if aiText == old(lastAIText) then
          unchanged(this)
        else
          && lastAIText == aiText
          && messages == old(messages) + [Message(Model, aiText)]
          && awaitingReply == (old(awaitingReply) && canSpeak)
      ensures utteranceBuffer == old(utteranceBuffer) && interimText == old(interimText)
    {
      var aiText := ReplyText(response);
      if aiText != "" && aiText == lastAIText {
        return;
      }
      ShowReply(aiText, canSpeak);
    }

    /**
     * The reply handling with the duplicate case ending the turn as well: a
     * repeated reply is still not shown, but the session listens again.
     */
    method ReceiveReplyEndingTurn(response: Option<string>, canSpeak: bool)
      requires Valid()
      modifies this
      ensures Valid()
      ensures var aiText := ShortenAI(OrElse(response, Fallback));
        if aiText == old(lastAIText) then
          messages == old(messages) && lastAIText == old(lastAIText) && !awaitingReply
        else
          && lastAIText == aiText
          && messages == old(messages) + [Message(Model, aiText)]
          && awaitingReply == (old(awaitingReply) && canSpeak)
      ensures !awaitingReply || (canSpeak && |messages| > 0 && messages[|messages| - 1].role == Model)
      ensures utteranceBuffer == old(utteranceBuffer) && interimText == old(interimText)
    {
      var aiText := ReplyText(response);
      if aiText != "" && aiText == lastAIText {
        awaitingReply := false;
        return;
      }
      ShowReply(aiText, canSpeak);
    }

    /** A new reply is remembered and shown; without speech synthesis the turn passes back to the user. */
    method ShowReply(aiText: string, canSpeak: bool)
      requires Valid()
      modifies this
      ensures Valid()
      ensures lastAIText == aiText && messages == old(messages) + [Message(Model, aiText)]
      ensures awaitingReply == (old(awaitingReply) && canSpeak)
      ensures utteranceBuffer == old(utteranceBuffer) && interimText == old(interimText)
    {
      lastAIText := aiText;
      messages := messages + [Message(Model, aiText)];
      if !canSpeak {
        awaitingReply := false;
      }
    }

    /** The speech synthesis `onend` handler: the turn passes back to the user. */
    method SpeechEnded()
      requires Valid()
      modifies this
      ensures Valid()
      ensures !awaitingReply
      ensures messages == old(messages) && lastAIText == old(lastAIText)
      ensures utteranceBuffer == old(utteranceBuffer) && interimText == old(interimText)
    {
      awaitingReply := false;
    }
  }

  /**
   * As written, a session waiting for a reply whose previous reply was the
   * fallback text, and that receives no text again without speech synthesis,
   * stays waiting: the user's next words are ignored and nothing is sent.
   */
  method RepeatedReplyIgnoresSpeech(s: HavenSession, chunks: seq<Chunk>)
    requires s.Valid() && s.analytics.Valid() && s.awaitingReply && s.lastAIText == Fallback
    modifies s, s.analytics
    ensures s.awaitingReply
    ensures s.messages == old(s.messages) && s.utteranceBuffer == old(s.utteranceBuffer)
  {
    FallbackUnchanged();
    s.ReceiveReply(None, false);
    var _ := s.OnResult(chunks);
    s.FinalizeUtterance();
  }

  /** With the duplicate ending the turn, the same session listens again. */
  method RepeatedReplyEndsTurn(s: HavenSession, chunks: seq<Chunk>)
    requires s.Valid() && s.awaitingReply && s.lastAIText == Fallback
    modifies s
    ensures !s.awaitingReply
    ensures s.messages == old(s.messages)
    ensures s.utteranceBuffer == AppendFinal(old(s.utteranceBuffer), FinalText(chunks))
    ensures s.interimText == InterimText(chunks)
  {
    FallbackUnchanged();
    s.ReceiveReplyEndingTurn(None, false);
    var _ := s.OnResult(chunks);
  }
}
