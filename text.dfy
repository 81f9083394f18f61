/**
 * The two string operations the quiz applies to what the player types:
 * `str.strip()` (drop surrounding whitespace) and `str.lower()` (fold case),
 * and their composition, the per-turn input normalization.
 *
 * Whitespace is exactly the set of characters for which Python's
 * `str.isspace()` holds. Case folding is modelled for ASCII letters only.
 */
module QuizText {

  /** The characters Python's `str.isspace()` accepts (and `str.strip()` removes). */
  predicate IsSpace(c: char) {
    ('\t' <= c <= '\r') || ('\U{1C}' <= c <= '\U{1F}') || c == ' '
    || c == '\U{85}' || c == '\U{A0}' || c == '\U{1680}'
    || ('\U{2000}' <= c <= '\U{200A}') || c == '\U{2028}' || c == '\U{2029}'
    || c == '\U{202F}' || c == '\U{205F}' || c == '\U{3000}'
  }

  predicate AllSpace(s: string) {
    forall i :: 0 <= i < |s| ==> IsSpace(s[i])
  }

  /** Neither end of `s` is whitespace (vacuously so for the empty string). */
  predicate Trimmed(s: string) {
    s == [] || (!IsSpace(s[0]) && !IsSpace(s[|s| - 1]))
  }

  /** Every character of `s` from position `lo` up to (not including) `hi` is whitespace. */
  predicate SpacesBetween(s: string, lo: nat, hi: nat)
    requires lo <= hi <= |s|
  {
    forall j :: lo <= j < hi ==> IsSpace(s[j])
  }

  /** The first position at or after `i` that does not hold whitespace (or `|s|`). */
  function Lead(s: string, i: nat): (k: nat)
    requires i <= |s|
    decreases |s| - i
    ensures i <= k <= |s| && SpacesBetween(s, i, k)
    ensures k == |s| || !IsSpace(s[k])
  {
    if i < |s| && IsSpace(s[i]) then Lead(s, i + 1) else i
  }

  /**
   * The end of `s[lo..k]` once its trailing whitespace is dropped: the
   * smallest `m` such that only whitespace follows it up to `k`.
   */
  function Trail(s: string, lo: nat, k: nat): (m: nat)
    requires lo <= k <= |s|
    decreases k - lo
    ensures lo <= m <= k && SpacesBetween(s, m, k)
    ensures m == lo || !IsSpace(s[m - 1])
  {
    if lo < k && IsSpace(s[k - 1]) then Trail(s, lo, k - 1) else k
  }

  /** `str.strip()`: neither end of the result is whitespace. */
  function Strip(s: string): (r: string)
    ensures Trimmed(r)
  {
    var lo := Lead(s, 0);
    var hi := Trail(s, lo, |s|);
    TrimmedSlice(s, lo, hi);
    s[lo..hi]
  }

  /**
   * What `str.strip()` removes: `Strip(s)` is the middle part of `s`, and
   * what lies before and after it is whitespace only.
   */
  lemma StripParts(s: string)
    ensures var i, r := Lead(s, 0), Strip(s);
              i + |r| <= |s| && s == s[..i] + r + s[i + |r|..]
              && AllSpace(s[..i]) && AllSpace(s[i + |r|..])
  {
    var lo := Lead(s, 0);
    TrimmedSlice(s, lo, Trail(s, lo, |s|));
  }

  /**
   * A slice with only whitespace before and after it, and no whitespace at
   * either of its ends, is a trimmed middle part of `s`.
   */
  lemma TrimmedSlice(s: string, lo: nat, hi: nat)
    requires lo <= hi <= |s| && SpacesBetween(s, 0, lo) && SpacesBetween(s, hi, |s|)
    requires lo == hi || (!IsSpace(s[lo]) && !IsSpace(s[hi - 1]))
    ensures Trimmed(s[lo..hi])
    ensures s == s[..lo] + s[lo..hi] + s[hi..] && AllSpace(s[..lo]) && AllSpace(s[hi..])
  {
    SplitAt(s, lo, hi);
    SpacesPrefix(s, lo);
    SpacesSuffix(s, hi);
    var r := s[lo..hi];
    assert r != [] ==> r[0] == s[lo] && r[|r| - 1] == s[hi - 1];
  }

  lemma SplitAt(s: string, lo: nat, hi: nat)
    requires lo <= hi <= |s|
    ensures s == s[..lo] + s[lo..hi] + s[hi..]
  {
    assert s[..lo] + s[lo..hi] == s[..hi];
  }

  lemma SpacesPrefix(s: string, n: nat)
    requires n <= |s| && SpacesBetween(s, 0, n)
    ensures AllSpace(s[..n])
  {
    forall j | 0 <= j < n
      ensures IsSpace(s[..n][j])
    {
      assert s[..n][j] == s[j];
    }
  }

  lemma SpacesSuffix(s: string, n: nat)
    requires n <= |s| && SpacesBetween(s, n, |s|)
    ensures AllSpace(s[n..])
  {
    forall j | 0 <= j < |s| - n
      ensures IsSpace(s[n..][j])
    {
      assert s[n..][j] == s[n + j];
    }
  }

  /** `str.lower()` on one character, for the ASCII letters A-Z. */
  function LowerChar(c: char): char {
    if IsUpper(c) then (c as int + 32) as char else c
  }

  /** An ASCII capital letter, the characters `LowerChar` changes. */
  predicate IsUpper(c: char) {
    'A' <= c <= 'Z'
  }

  /**
   * `str.lower()`: every character case-folded, position by position. The
   * result has the same length, each capital becomes its own lower-case
   * letter (32 code points on), and every other character is kept.
   */
  function Lower(s: string): (r: string)
    ensures |r| == |s|
    ensures forall i :: 0 <= i < |r| ==> !IsUpper(r[i])
    ensures forall i :: 0 <= i < |s| && IsUpper(s[i]) ==> r[i] as int == s[i] as int + 32
    ensures forall i :: 0 <= i < |s| && !IsUpper(s[i]) ==> r[i] == s[i]
  {
    seq(|s|, i requires 0 <= i < |s| => LowerChar(s[i]))
  }

  /** The option letters the player may type in capitals fold to the ones the quiz accepts. */
  lemma LowerOptionLetters()
    ensures Lower("A") == "a" && Lower("B") == "b" && Lower("C") == "c" && Lower("D") == "d"
  {
  }

  /**
   * The player's input as the quiz compares it: `.strip().lower()`. The
   * result neither starts nor ends with whitespace and holds no capital.
   */
  function Normalize(line: string): (r: string)
    ensures Trimmed(r)
    ensures forall i :: 0 <= i < |r| ==> !IsUpper(r[i])
  {
    LowerKeepsSpaces(Strip(line));
    Lower(Strip(line))
  }

  lemma {:induction false} LeadIs(s: string, i: nat, n: nat)
    requires i <= n <= |s| && SpacesBetween(s, i, n)
    requires n == |s| || !IsSpace(s[n])
    ensures Lead(s, i) == n
    decreases n - i
  {
    if i < n {
      LeadIs(s, i + 1, n);
    }
  }

  lemma {:induction false} TrailIs(s: string, lo: nat, k: nat, n: nat)
    requires lo <= n <= k <= |s| && SpacesBetween(s, n, k)
    requires n == lo || !IsSpace(s[n - 1])
    ensures Trail(s, lo, k) == n
  {
    if n < k {
      TrailIs(s, lo, k - 1, n);
    }
  }

  /**
   * `Strip` is determined by the decomposition it finds: whatever trimmed
   * text sits between two runs of whitespace is what `Strip` returns.
   */
  lemma StripUnique(p: string, m: string, q: string)
    requires AllSpace(p) && AllSpace(q) && Trimmed(m)
    ensures Strip(p + m + q) == m
  {
    var t := p + m + q;
    if m == [] {
      assert SpacesBetween(t, 0, |t|) by {
        forall j | 0 <= j < |t|
          ensures IsSpace(t[j])
        {
          if j >= |p| {
            assert t[j] == q[j - |p|];
          }
        }
      }
      LeadIs(t, 0, |t|);
    } else {
      var e := |p| + |m|;
      assert t[|p|] == m[0] && t[e - 1] == m[|m| - 1];
      assert SpacesBetween(t, 0, |p|) by {
        forall j | 0 <= j < |p|
          ensures IsSpace(t[j])
        {
          assert t[j] == p[j];
        }
      }
      LeadIs(t, 0, |p|);
      assert SpacesBetween(t, e, |t|) by {
        forall j | e <= j < |t|
          ensures IsSpace(t[j])
        {
          assert t[j] == q[j - e];
        }
      }
      TrailIs(t, |p|, |t|, e);
      assert t[|p|..e] == m;
    }
  }

  lemma Regroup(a: string, b: string, c: string, d: string, e: string)
    ensures a + (b + c + d) + e == (a + b) + c + (d + e)
  {
  }

  lemma AllSpaceConcat(a: string, b: string)
    requires AllSpace(a) && AllSpace(b)
    ensures AllSpace(a + b)
  {
    forall i | 0 <= i < |a + b|
      ensures IsSpace((a + b)[i])
    {
      if i >= |a| {
        assert (a + b)[i] == b[i - |a|];
      }
    }
  }

  /** Whitespace around the input does not change what `Strip` keeps. */
  lemma StripIgnoresPadding(p: string, s: string, q: string)
    requires AllSpace(p) && AllSpace(q)
    ensures Strip(p + s + q) == Strip(s)
  {
    var m := Strip(s);
    var i := Lead(s, 0);
    StripParts(s);
    var p', q' := s[..i], s[i + |m|..];
    Regroup(p, p', m, q', q);
    AllSpaceConcat(p, p');
    AllSpaceConcat(q', q);
    StripUnique(p + p', m, q' + q);
  }

  lemma LowerConcat(a: string, b: string)
    ensures Lower(a + b) == Lower(a) + Lower(b)
  {
  }

  /** Folding case never creates or removes whitespace. */
  lemma LowerKeepsSpaces(s: string)
    ensures AllSpace(s) ==> AllSpace(Lower(s))
    ensures Trimmed(s) ==> Trimmed(Lower(s))
  {
  }

  /** Stripping and case folding commute. */
  lemma StripLower(s: string)
    ensures Strip(Lower(s)) == Lower(Strip(s))
  {
    var m := Strip(s);
    var i := Lead(s, 0);
    StripParts(s);
    var p, q := s[..i], s[i + |m|..];
    LowerConcat(p + m, q);
    LowerConcat(p, m);
    LowerKeepsSpaces(p);
    LowerKeepsSpaces(q);
    LowerKeepsSpaces(m);
    StripUnique(Lower(p), Lower(m), Lower(q));
  }

  lemma LowerIdempotent(s: string)
    ensures Lower(Lower(s)) == Lower(s)
  {
  }

  /** Two inputs that differ only in letter case normalize to the same text. */
  lemma NormalizeIgnoresCase(s: string, t: string)
    requires Lower(s) == Lower(t)
    ensures Normalize(s) == Normalize(t)
  {
    StripLower(s);
    StripLower(t);
  }

  /** Whitespace typed around an answer is ignored. */
  lemma NormalizeIgnoresPadding(p: string, s: string, q: string)
    requires AllSpace(p) && AllSpace(q)
    ensures Normalize(p + s + q) == Normalize(s)
  {
    StripIgnoresPadding(p, s, q);
  }

  /** Input with nothing to strip is only case-folded. */
  lemma NormalizeTrimmed(s: string)
    requires Trimmed(s)
    ensures Normalize(s) == Lower(s)
  {
    assert [] + s + [] == s;
    StripUnique([], s, []);
  }

  /** Normalizing an already normalized input changes nothing. */
  lemma NormalizeIdempotent(s: string)
    ensures Normalize(Normalize(s)) == Normalize(s)
  {
    var m := Strip(s);
    LowerKeepsSpaces(m);
    StripUnique([], Lower(m), []);
    assert [] + Lower(m) + [] == Lower(m);
    LowerIdempotent(m);
  }
}
