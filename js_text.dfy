/**
  The JavaScript string operations the chat core relies on: white space as the
  `\s` regular-expression class and `String.prototype.trim` see it, lower-casing
  (ASCII letters only), `includes` and `trim`.
*/
module JsText {

  /** The white-space characters of ECMAScript (WhiteSpace and LineTerminator). */
  predicate IsSpace(c: char) {
    || c == ' ' || c == '\t' || c == '\n' || c == '\r' || c == '\U{B}' || c == '\U{C}'
    || c == '\U{A0}' || c == '\U{1680}' || ('\U{2000}' <= c <= '\U{200A}')
    || c == '\U{2028}' || c == '\U{2029}' || c == '\U{202F}' || c == '\U{205F}'
    || c == '\U{3000}' || c == '\U{FEFF}'
  }

  function LowerChar(c: char): char {
    if 'A' <= c <= 'Z' then (c as int + 32) as char else c
  }

  /** `s.toLowerCase()`, restricted to the ASCII letters. */
  function ToLower(s: string): (r: string)
    ensures |r| == |s|
    ensures forall i :: 0 <= i < |s| ==> r[i] == LowerChar(s[i])
  {
    seq(|s|, i requires 0 <= i < |s| => LowerChar(s[i]))
  }

  lemma {:induction false} ToLowerAppend(u: string, w: string)
    ensures ToLower(u + w) == ToLower(u) + ToLower(w)
  {
    assert |ToLower(u + w)| == |ToLower(u) + ToLower(w)|;
    forall i | 0 <= i < |u + w|
      ensures ToLower(u + w)[i] == (ToLower(u) + ToLower(w))[i]
    {
      if i < |u| {
        assert (u + w)[i] == u[i];
      } else {
        assert (u + w)[i] == w[i - |u|];
      }
    }
  }

  /** `s.length`: the number of UTF-16 code units, two for a character outside the Basic Multilingual Plane. */
  function Utf16Length(s: string): (n: nat)
    ensures |s| <= n <= 2 * |s|
    ensures (forall k | 0 <= k < |s| :: s[k] as int <= 0xFFFF) ==> n == |s|
  {
    if |s| == 0 then 0 else (if s[0] as int <= 0xFFFF then 1 else 2) + Utf16Length(s[1..])
  }

  /** One character is one UTF-16 code unit inside the Basic Multilingual Plane and a surrogate pair (two units) above it. */
  lemma Utf16LengthChar(c: char)
    ensures Utf16Length([c]) == if c as int <= 0xFFFF then 1 else 2
  {
    assert [c][1..] == [];
  }

  /** `(u + w).length == u.length + w.length`. */
  lemma {:induction false} Utf16LengthAppend(u: string, w: string)
    ensures Utf16Length(u + w) == Utf16Length(u) + Utf16Length(w)
    decreases |u|
  {
    if u != [] {
      assert (u + w)[0] == u[0];
      assert (u + w)[1..] == u[1..] + w;
      Utf16LengthAppend(u[1..], w);
    } else {
      assert u + w == w;
    }
  }

  /** `s.includes(k)`: `k` occurs in `s` as a contiguous substring. */
  predicate Contains(s: string, k: string)
    decreases |s|
  {
    k <= s || (|s| > 0 && Contains(s[1..], k))
  }

  /** `k` occurs in `s` starting at index `i`. */
  predicate OccursAt(s: string, k: string, i: nat) {
    i + |k| <= |s| && s[i..i + |k|] == k
  }

  lemma {:induction false} ContainsFromOccurrence(s: string, k: string, i: nat)
    requires OccursAt(s, k, i)
    ensures Contains(s, k)
    decreases i
  {
    if i == 0 {
      assert k <= s;
    } else {
      assert s[1..][i - 1..i - 1 + |k|] == s[i..i + |k|];
      ContainsFromOccurrence(s[1..], k, i - 1);
    }
  }

  lemma {:induction false} OccurrenceFromContains(s: string, k: string) returns (i: nat)
    requires Contains(s, k)
    ensures OccursAt(s, k, i)
    decreases |s|
  {
    if k <= s {
      i := 0;
    } else {
      var j := OccurrenceFromContains(s[1..], k);
      assert s[1..][j..j + |k|] == s[j + 1..j + 1 + |k|];
      i := j + 1;
    }
  }

  /** `includes` holds exactly when there is a position at which the needle occurs. */
  lemma ContainsIffOccurs(s: string, k: string)
    ensures Contains(s, k) <==> exists i: nat :: OccursAt(s, k, i)
  {
    if Contains(s, k) {
      var i := OccurrenceFromContains(s, k);
    }
    if exists i: nat :: OccursAt(s, k, i) {
      var i: nat :| OccursAt(s, k, i);
      ContainsFromOccurrence(s, k, i);
    }
  }

  /** A needle that occurs in a string still occurs once text is added on either side. */
  lemma ContainsInAppend(u: string, w: string, k: string)
    requires Contains(u, k)
    ensures Contains(u + w, k) && Contains(w + u, k)
  {
    var i := OccurrenceFromContains(u, k);
    assert (u + w)[i..i + |k|] == u[i..i + |k|];
    ContainsFromOccurrence(u + w, k, i);
    assert (w + u)[|w| + i..|w| + i + |k|] == u[i..i + |k|];
    ContainsFromOccurrence(w + u, k, |w| + i);
  }

  /** `includes` is transitive: a substring of a substring of `s` is a substring of `s`. */
  lemma ContainsTransitive(s: string, m: string, k: string)
    requires Contains(s, m) && Contains(m, k)
    ensures Contains(s, k)
  {
    var i := OccurrenceFromContains(s, m);
    var j := OccurrenceFromContains(m, k);
    forall t | 0 <= t < |k|
      ensures s[i + j + t] == k[t]
    {
      assert k[t] == m[j + t] == s[i + j + t];
    }
    assert s[i + j..i + j + |k|] == k;
    ContainsFromOccurrence(s, k, i + j);
  }

  /** A needle longer than the haystack, or holding a character the haystack lacks, never occurs. */
  lemma NotContains(s: string, k: string)
    requires |s| < |k| || exists c :: c in k && c !in s
    ensures !Contains(s, k)
  {
    if Contains(s, k) {
      var i := OccurrenceFromContains(s, k);
    }
  }

  /** A needle holding the character `c`, which the haystack lacks, never occurs. */
  lemma NotContainsChar(s: string, k: string, c: char)
    requires c in k && c !in s
    ensures !Contains(s, k)
  {
    NotContains(s, k);
  }

  /** A two-character needle whose first character occurs only at `p`, not followed there by the second, never occurs. */
  lemma NotContainsPair(s: string, a: char, b: char, p: nat)
    requires p + 1 < |s| && s[p] == a && s[p + 1] != b
    requires a !in s[..p] && a !in s[p + 1..]
    ensures !Contains(s, [a, b])
  {
    forall i: nat | i + 2 <= |s|
      ensures !OccursAt(s, [a, b], i)
    {
      if i < p {
        assert s[..p][i] == s[i];
      } else if i > p {
        assert s[p + 1..][i - p - 1] == s[i];
      }
      assert s[i..i + 2][0] == s[i] && s[i..i + 2][1] == s[i + 1];
    }
    ContainsIffOccurs(s, [a, b]);
  }

  /** Number of white-space characters at the start of `s`. */
  function LeadingSpaces(s: string): (n: nat)
    ensures n <= |s|
    ensures forall k :: 0 <= k < n ==> IsSpace(s[k])
    ensures n < |s| ==> !IsSpace(s[n])
  {
    if |s| > 0 && IsSpace(s[0]) then 1 + LeadingSpaces(s[1..]) else 0
  }

  /** `s` with its trailing white space removed. */
  function TrimEnd(s: string): (r: string)
    ensures r <= s
    ensures |r| > 0 ==> !IsSpace(r[|r| - 1])
    ensures forall k :: |r| <= k < |s| ==> IsSpace(s[k])
  {
    if |s| > 0 && IsSpace(s[|s| - 1]) then TrimEnd(s[..|s| - 1]) else s
  }

  predicate IsTrimmed(s: string) {
    |s| == 0 || (!IsSpace(s[0]) && !IsSpace(s[|s| - 1]))
  }

  /** `s.trim()`: `s` without the white space at either end. */
  function Trim(s: string): (r: string)
    ensures IsTrimmed(r)
    ensures LeadingSpaces(s) + |r| <= |s|
    ensures r == s[LeadingSpaces(s)..LeadingSpaces(s) + |r|]
    ensures forall k :: LeadingSpaces(s) + |r| <= k < |s| ==> IsSpace(s[k])
  {
    TrimEnd(s[LeadingSpaces(s)..])
  }

  /** A trimmed string is a substring of the original. */
  lemma TrimContained(s: string)
    ensures Contains(s, Trim(s))
  {
    ContainsFromOccurrence(s, Trim(s), LeadingSpaces(s));
  }

  /** `!s.trim()`: trimming leaves nothing exactly when every character is white space. */
  lemma TrimEmptyIffBlank(s: string)
    ensures Trim(s) == [] <==> forall k :: 0 <= k < |s| ==> IsSpace(s[k])
  {
  }
}
