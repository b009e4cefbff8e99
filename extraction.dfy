/**
  The heuristic section extractor of the medical-info service (`extractSection`):
  split a summary into sentence-like spans, trim them, keep the long ones that
  mention a keyword, drop repeats and keep the first five.
*/
module Extraction {
  import opened JsText

  /** A sentence-terminal punctuation mark. */
  predicate IsTerminator(c: char) {
    c == '.' || c == '!' || c == '?'
  }

  /** The end of the maximal run of terminators that starts at `i`. */
  function RunEnd(s: string, i: nat): (j: nat)
    requires i <= |s|
    ensures i <= j <= |s|
    ensures forall k :: i <= k < j ==> IsTerminator(s[k])
    ensures j == |s| || !IsTerminator(s[j])
    decreases |s| - i
  {
    if i < |s| && IsTerminator(s[i]) then RunEnd(s, i + 1) else i
  }

  /**
    The separator `/[.!?]+(?=\s|$)/` matches at `i`: a run of terminators starts
    there and is followed by white space or by the end of the text. (A shorter
    run never matches, since the next character would be a terminator.)
  */
  predicate BreaksAt(s: string, i: nat)
    requires i < |s|
  {
    IsTerminator(s[i]) && (RunEnd(s, i) == |s| || IsSpace(s[RunEnd(s, i)]))
  }

  /**
    `s.split(separator)` scanning from `i`, the current span having started at
    `start`: a match closes the span and the scan resumes after the matched run.
  */
  function SplitFrom(s: string, start: nat, i: nat): seq<string>
    requires start <= i <= |s|
    decreases |s| - i
  {
    if i == |s| then [s[start..]]
    else if BreaksAt(s, i) then [s[start..i]] + SplitFrom(s, RunEnd(s, i), RunEnd(s, i))
    else SplitFrom(s, start, i + 1)
  }

  /** The separator matches from `i` on: each maximal terminator run that is followed by white space or the end. */
  function Separators(s: string, i: nat): (r: seq<string>)
    requires i <= |s|
    ensures forall x | x in r :: |x| > 0 && forall k | 0 <= k < |x| :: IsTerminator(x[k])
    decreases |s| - i
  {
    if i == |s| then []
    else if BreaksAt(s, i) then [s[i..RunEnd(s, i)]] + Separators(s, RunEnd(s, i))
    else Separators(s, i + 1)
  }

  /** `pieces[0] + seps[0] + pieces[1] + ... + pieces[n]`: the text a split came from. */
  function Interleave(pieces: seq<string>, seps: seq<string>): string
    requires |pieces| == |seps| + 1
    decreases |seps|
  {
    if seps == [] then pieces[0] else pieces[0] + seps[0] + Interleave(pieces[1..], seps[1..])
  }

  /** The split loses nothing: its spans, rejoined with the matched separators, give back the text from `start`. */
  lemma {:induction false} SplitFromRejoins(s: string, start: nat, i: nat)
    requires start <= i <= |s|
    ensures |SplitFrom(s, start, i)| == |Separators(s, i)| + 1
    ensures Interleave(SplitFrom(s, start, i), Separators(s, i)) == s[start..]
    decreases |s| - i
  {
    if i == |s| {
      assert SplitFrom(s, start, i) == [s[start..]];
    } else if BreaksAt(s, i) {
      SplitFromRejoins(s, RunEnd(s, i), RunEnd(s, i));
      RejoinAtBreak(s, start, i);
    } else {
      SplitFromRejoins(s, start, i + 1);
    }
  }

  /** At a match, the span before it and the separator itself go in front of the rejoined rest. */
  lemma RejoinAtBreak(s: string, start: nat, i: nat)
    requires start <= i < |s| && BreaksAt(s, i)
    requires |SplitFrom(s, RunEnd(s, i), RunEnd(s, i))| == |Separators(s, RunEnd(s, i))| + 1
    requires Interleave(SplitFrom(s, RunEnd(s, i), RunEnd(s, i)), Separators(s, RunEnd(s, i))) == s[RunEnd(s, i)..]
    ensures |SplitFrom(s, start, i)| == |Separators(s, i)| + 1
    ensures Interleave(SplitFrom(s, start, i), Separators(s, i)) == s[start..]
  {
    var e := RunEnd(s, i);
    var ps, ss := SplitFrom(s, e, e), Separators(s, e);
    assert SplitFrom(s, start, i) == [s[start..i]] + ps;
    assert Separators(s, i) == [s[i..e]] + ss;
    InterleaveCons(s[start..i], s[i..e], ps, ss);
    SliceSplit(s, start, i, e);
  }

  lemma SliceSplit(s: string, a: nat, b: nat, c: nat)
    requires a <= b <= c <= |s|
    ensures s[a..] == s[a..b] + s[b..c] + s[c..]
  {
  }

  lemma InterleaveCons(p: string, x: string, ps: seq<string>, ss: seq<string>)
    requires |ps| == |ss| + 1
    ensures Interleave([p] + ps, [x] + ss) == p + x + Interleave(ps, ss)
  {
    assert ([p] + ps)[1..] == ps && ([x] + ss)[1..] == ss;
  }

  /** The first span of a split from `i` runs from `start` to the first match at or after `i`, or to the end. */
  lemma {:induction false} FirstSpan(s: string, start: nat, i: nat) returns (j: nat)
    requires start <= i <= |s|
    ensures i <= j <= |s| && (j == |s| || BreaksAt(s, j))
    ensures |SplitFrom(s, start, i)| > 0 && SplitFrom(s, start, i)[0] == s[start..j]
    decreases |s| - i
  {
    if i == |s| || BreaksAt(s, i) {
      j := i;
    } else {
      assert SplitFrom(s, start, i) == SplitFrom(s, start, i + 1);
      j := FirstSpan(s, start, i + 1);
    }
  }

  /**
    The split cuts only where the lookahead allows: every span after the first
    starts with white space, except an empty last span after a final match.
  */
  lemma {:induction false} SplitFromCutsAtBreaks(s: string, start: nat, i: nat)
    requires start <= i <= |s|
    ensures var ps := SplitFrom(s, start, i);
      forall k | 1 <= k < |ps| :: (k == |ps| - 1 && ps[k] == []) || (|ps[k]| > 0 && IsSpace(ps[k][0]))
    decreases |s| - i
  {
    if i == |s| {
      assert SplitFrom(s, start, i) == [s[start..]];
    } else if BreaksAt(s, i) {
      var e := RunEnd(s, i);
      var rest := SplitFrom(s, e, e);
      SplitFromCutsAtBreaks(s, e, e);
      var j := FirstSpan(s, e, e);
      var ps := SplitFrom(s, start, i);
      assert ps == [s[start..i]] + rest;
      if e == |s| {
        assert rest == [[]];
      } else {
        assert IsSpace(s[e]) && !IsTerminator(s[e]);
        assert j > e;
        assert rest[0] == s[e..j];
        assert |rest[0]| > 0 && rest[0][0] == s[e];
      }
      forall k | 1 <= k < |ps|
        ensures (k == |ps| - 1 && ps[k] == []) || (|ps[k]| > 0 && IsSpace(ps[k][0]))
      {
        assert ps[k] == rest[k - 1];
      }
    } else {
      var ps := SplitFrom(s, start, i);
      assert ps == SplitFrom(s, start, i + 1);
      SplitFromCutsAtBreaks(s, start, i + 1);
      assert forall k | 1 <= k < |ps| :: (k == |ps| - 1 && ps[k] == []) || (|ps[k]| > 0 && IsSpace(ps[k][0]));
    }
  }

  /** The sentence-like spans of `text`, untrimmed, in order. */
  function Sentences(text: string): seq<string> {
    SplitFrom(text, 0, 0)
  }

  /** Every span of the split after the first starts with white space, or is the empty span after a final match. */
  lemma SentencesCutAtBreaks(text: string)
    ensures var ps := Sentences(text);
      forall k | 1 <= k < |ps| :: (k == |ps| - 1 && ps[k] == []) || (|ps[k]| > 0 && IsSpace(ps[k][0]))
  {
    assert Sentences(text) == SplitFrom(text, 0, 0);
    SplitFromCutsAtBreaks(text, 0, 0);
  }

  /** `text.split(separator)` loses nothing: the spans, rejoined with the separator matches between them, give back the text. */
  lemma SentencesRejoin(text: string)
    ensures |Sentences(text)| == |Separators(text, 0)| + 1
    ensures Interleave(Sentences(text), Separators(text, 0)) == text
  {
    SplitFromRejoins(text, 0, 0);
  }

  /**
    A span with no sentence break in it: no terminator is followed by white
    space, and it does not end with a terminator.
  */
  predicate HasNoBreak(x: string) {
    && (forall k :: 0 <= k < |x| - 1 ==> !(IsTerminator(x[k]) && IsSpace(x[k + 1])))
    && (|x| > 0 ==> !IsTerminator(x[|x| - 1]))
  }

  lemma PieceHasNoBreak(s: string, start: nat, end: nat)
    requires start <= end <= |s|
    requires forall k :: start <= k < end ==> !BreaksAt(s, k)
    requires end == |s| || BreaksAt(s, end)
    ensures HasNoBreak(s[start..end])
  {
    var p := s[start..end];
    forall k | 0 <= k < |p| - 1
      ensures !(IsTerminator(p[k]) && IsSpace(p[k + 1]))
    {
      assert IsTerminator(p[k]) && IsSpace(p[k + 1]) ==> BreaksAt(s, start + k);
    }
    assert |p| > 0 && IsTerminator(p[|p| - 1]) ==> BreaksAt(s, end - 1);
  }

  /** Every span of the split is a substring of the text and holds no sentence break. */
  lemma {:induction false} SplitFromPieces(s: string, start: nat, i: nat)
    requires start <= i <= |s|
    requires forall k :: start <= k < i ==> !BreaksAt(s, k)
    ensures forall p | p in SplitFrom(s, start, i) :: HasNoBreak(p) && Contains(s, p)
    decreases |s| - i
  {
    if i == |s| {
      PieceHasNoBreak(s, start, i);
      ContainsFromOccurrence(s, s[start..], start);
    } else if BreaksAt(s, i) {
      PieceHasNoBreak(s, start, i);
      ContainsFromOccurrence(s, s[start..i], start);
      SplitFromPieces(s, RunEnd(s, i), RunEnd(s, i));
    } else {
      SplitFromPieces(s, start, i + 1);
    }
  }

  lemma SentencesArePieces(text: string)
    ensures forall p | p in Sentences(text) :: HasNoBreak(p) && Contains(text, p)
  {
    SplitFromPieces(text, 0, 0);
  }

  /** Trimming a span without a sentence break leaves a span without one. */
  lemma TrimKeepsNoBreak(p: string)
    requires HasNoBreak(p)
    ensures HasNoBreak(Trim(p))
  {
    var r, a := Trim(p), LeadingSpaces(p);
    forall k | 0 <= k < |r| - 1
      ensures !(IsTerminator(r[k]) && IsSpace(r[k + 1]))
    {
      assert r[k] == p[a + k] && r[k + 1] == p[a + k + 1];
    }
    if |r| > 0 && a + |r| < |p| {
      assert r[|r| - 1] == p[a + |r| - 1];
      assert IsSpace(p[a + |r|]);
    }
  }

  /** `s.toLowerCase().includes(k.toLowerCase())` for some keyword `k`. */
  predicate MentionsAny(s: string, keywords: seq<string>) {
    exists j :: 0 <= j < |keywords| && Contains(ToLower(s), ToLower(keywords[j]))
  }

  /** A trimmed span survives both filters: longer than five characters and mentioning a keyword. */
  predicate Relevant(s: string, keywords: seq<string>) {
    Utf16Length(s) > 5 && MentionsAny(s, keywords)
  }

  /** The trimmed spans of `pieces` that are relevant, in their original order, repeats kept. */
  function Candidates(pieces: seq<string>, keywords: seq<string>): (r: seq<string>)
    ensures forall x | x in r :: IsTrimmed(x) && Relevant(x, keywords)
    ensures forall p | p in pieces && Relevant(Trim(p), keywords) :: Trim(p) in r
    ensures forall x | x in r :: exists p | p in pieces :: x == Trim(p)
    decreases |pieces|
  {
    if pieces == [] then []
    else
      var s := Trim(pieces[0]);
      (if Relevant(s, keywords) then [s] else []) + Candidates(pieces[1..], keywords)
  }

  /** A single piece contributes its trim exactly when the trim is relevant. */
  lemma CandidatesOne(p: string, keywords: seq<string>)
    ensures Candidates([p], keywords) == if Relevant(Trim(p), keywords) then [Trim(p)] else []
  {
    assert [p][1..] == [];
  }

  /** `map` and `filter` keep order: the candidates of a concatenation are the candidates of each part, in turn. */
  lemma {:induction false} CandidatesAppend(xs: seq<string>, ys: seq<string>, keywords: seq<string>)
    ensures Candidates(xs + ys, keywords) == Candidates(xs, keywords) + Candidates(ys, keywords)
    decreases |xs|
  {
    if xs == [] {
      assert xs + ys == ys;
    } else {
      assert (xs + ys)[0] == xs[0];
      assert (xs + ys)[1..] == xs[1..] + ys;
      CandidatesAppend(xs[1..], ys, keywords);
    }
  }

  /** Each candidate is the trim of some piece. */
  lemma {:induction false} CandidatesInherit(pieces: seq<string>, keywords: seq<string>, text: string)
    requires forall p | p in pieces :: HasNoBreak(p) && Contains(text, p)
    ensures forall x | x in Candidates(pieces, keywords) :: HasNoBreak(x) && Contains(text, x)
    decreases |pieces|
  {
    if pieces != [] {
      var p := pieces[0];
      TrimKeepsNoBreak(p);
      TrimContained(p);
      ContainsTransitive(text, p, Trim(p));
      CandidatesInherit(pieces[1..], keywords, text);
    }
  }

  predicate Distinct(xs: seq<string>) {
    forall i, j :: 0 <= i < j < |xs| ==> xs[i] != xs[j]
  }

  /** `[...new Set(xs)]`: the distinct elements of `xs` in the order they are first seen. */
  function Dedup(xs: seq<string>): (r: seq<string>)
    ensures forall x :: x in r <==> x in xs
    ensures Distinct(r)
    decreases |xs|
  {
    if xs == [] then []
    else
      var d := Dedup(xs[..|xs| - 1]);
      if xs[|xs| - 1] in d then d else d + [xs[|xs| - 1]]
  }

  /** The position of the first occurrence of `x` in `xs`. */
  function IndexOf(xs: seq<string>, x: string): (i: nat)
    requires x in xs
    ensures i < |xs| && xs[i] == x && x !in xs[..i]
  {
    if xs[0] == x then 0 else 1 + IndexOf(xs[1..], x)
  }

  lemma {:induction false} IndexOfInPrefix(ys: seq<string>, zs: seq<string>, x: string)
    requires x in ys
    ensures IndexOf(ys + zs, x) == IndexOf(ys, x)
  {
    if ys[0] != x {
      assert (ys + zs)[1..] == ys[1..] + zs;
      IndexOfInPrefix(ys[1..], zs, x);
    }
  }

  /** `Dedup` keeps elements in the order of their first occurrence. */
  lemma {:induction false} DedupKeepsFirstSeenOrder(xs: seq<string>)
    ensures forall i, j :: 0 <= i < j < |Dedup(xs)| ==> IndexOf(xs, Dedup(xs)[i]) < IndexOf(xs, Dedup(xs)[j])
    decreases |xs|
  {
    if xs != [] {
      var ys, y := xs[..|xs| - 1], xs[|xs| - 1];
      assert xs == ys + [y];
      var d := Dedup(ys);
      DedupKeepsFirstSeenOrder(ys);
      forall i | 0 <= i < |d|
        ensures IndexOf(xs, d[i]) == IndexOf(ys, d[i])
      {
        IndexOfInPrefix(ys, [y], d[i]);
      }
      if y !in d {
        assert y !in ys;
        assert IndexOf(xs, y) == |ys|;
      }
    }
  }

  /** `extractSection(text, keywords)`. */
  function ExtractSection(text: string, keywords: seq<string>): (r: seq<string>)
    ensures |r| <= 5
    ensures Distinct(r)
    ensures forall x | x in r :: IsTrimmed(x) && Relevant(x, keywords)
  {
    var unique := Dedup(Candidates(Sentences(text), keywords));
    if |unique| <= 5 then unique else unique[..5]
  }

  /** Every extracted span is a piece of the text itself, with no sentence break inside. */
  lemma ExtractedSpansComeFromText(text: string, keywords: seq<string>)
    ensures forall x | x in ExtractSection(text, keywords) :: Contains(text, x) && HasNoBreak(x)
  {
    SentencesArePieces(text);
    CandidatesInherit(Sentences(text), keywords, text);
  }

  /**
    The result is the first five distinct relevant spans: their order follows
    first occurrence, and a relevant span is missing only when five spans that
    occur before it were kept.
  */
  lemma ExtractKeepsFirstFive(text: string, keywords: seq<string>)
    ensures var c, r := Candidates(Sentences(text), keywords), ExtractSection(text, keywords);
      && (forall x | x in r :: x in c)
      && (forall i, j :: 0 <= i < j < |r| ==> IndexOf(c, r[i]) < IndexOf(c, r[j]))
      && (forall x | x in c && x !in r :: |r| == 5 && forall i :: 0 <= i < 5 ==> IndexOf(c, r[i]) < IndexOf(c, x))
  {
    var c := Candidates(Sentences(text), keywords);
    var u := Dedup(c);
    assert ExtractSection(text, keywords) == if |u| <= 5 then u else u[..5];
    FirstFiveOfDedup(c);
  }

  /** The first five elements of `Dedup(c)` are the first five distinct elements of `c`, in order. */
  lemma FirstFiveOfDedup(c: seq<string>)
    ensures var u := Dedup(c); var r := if |u| <= 5 then u else u[..5];
      && (forall x | x in r :: x in c)
      && (forall i, j :: 0 <= i < j < |r| ==> IndexOf(c, r[i]) < IndexOf(c, r[j]))
      && (forall x | x in c && x !in r :: |r| == 5 && forall i :: 0 <= i < 5 ==> IndexOf(c, r[i]) < IndexOf(c, x))
  {
    var unique := Dedup(c);
    var r := if |unique| <= 5 then unique else unique[..5];
    DedupKeepsFirstSeenOrder(c);
    forall x | x in c && x !in r
      ensures |unique| > 5
      ensures exists m :: 5 <= m < |unique| && unique[m] == x
    {
      var m :| 0 <= m < |unique| && unique[m] == x;
    }
  }
}
