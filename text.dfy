// The normalisation that the DAO applies to an email before looking it up:
// `email.trim().toLowerCase()`. Java's `trim` drops every leading and trailing
// character whose code is at most U+0020; `toLowerCase` is modelled on the
// ASCII letters only.

module Text {

  predicate IsBlank(c: char) {
    c <= ' '
  }

  predicate AllBlank(s: string) {
    forall i :: 0 <= i < |s| ==> IsBlank(s[i])
  }

  /** Neither end of `s` is a blank. */
  predicate Trimmed(s: string) {
    s == [] || (!IsBlank(s[0]) && !IsBlank(s[|s| - 1]))
  }

  /** `s` without its leading blanks. */
  function TrimLeading(s: string): (r: string)
    ensures r == [] || !IsBlank(r[0])
    ensures |r| <= |s|
  {
    if |s| > 0 && IsBlank(s[0]) then TrimLeading(s[1..]) else s
  }

  /** `s` without its trailing blanks. */
  function TrimTrailing(s: string): (r: string)
    ensures r == [] || !IsBlank(r[|r| - 1])
    ensures |r| <= |s|
    ensures r != [] ==> r[0] == s[0]
  {
    if |s| > 0 && IsBlank(s[|s| - 1]) then TrimTrailing(s[..|s| - 1]) else s
  }

  /** Java's `String.trim`: skip blanks from the front, then from the back. */
  function Trim(s: string): (r: string)
    ensures Trimmed(r)
  {
    var rest := TrimLeading(s);
    var r := TrimTrailing(rest);
    assert r != [] ==> r[0] == rest[0];
    r
  }

  /** `Character.toLowerCase` on the ASCII capitals; every other char is kept. */
  function LowerChar(c: char): char {
    if 'A' <= c <= 'Z' then (c as int + 32) as char else c
  }

  /** `String.toLowerCase`, character by character. */
  function Lower(s: string): (r: string)
    ensures |r| == |s|
    ensures forall i :: 0 <= i < |s| ==> r[i] == LowerChar(s[i])
  {
    if s == [] then [] else [LowerChar(s[0])] + Lower(s[1..])
  }

  /** The DAO's lookup key: `email.trim().toLowerCase()`. */
  function Normalize(s: string): (r: string)
    ensures |r| <= |s|
    ensures Trimmed(r)
  {
    Lower(Trim(s))
  }

  /** A string that the normalisation leaves alone: trimmed and in lower case. */
  predicate Canonical(s: string) {
    Trimmed(s) && Lower(s) == s
  }

  /** What `TrimLeading` drops is a run of blanks. */
  lemma {:induction false} TrimLeadingSplit(s: string) returns (p: string)
    ensures AllBlank(p) && s == p + TrimLeading(s)
  {
    if |s| > 0 && IsBlank(s[0]) {
      var p' := TrimLeadingSplit(s[1..]);
      p := [s[0]] + p';
      assert AllBlank(p) by { AllBlankAppend([s[0]], p'); }
      assert s == p + TrimLeading(s) by {
        assert s == [s[0]] + s[1..];
        assert TrimLeading(s) == TrimLeading(s[1..]);
      }
    } else {
      p := [];
    }
  }

  /** What `TrimTrailing` drops is a run of blanks. */
  lemma {:induction false} TrimTrailingSplit(s: string) returns (q: string)
    ensures AllBlank(q) && s == TrimTrailing(s) + q
  {
    if |s| > 0 && IsBlank(s[|s| - 1]) {
      var q' := TrimTrailingSplit(s[..|s| - 1]);
      q := q' + [s[|s| - 1]];
      assert AllBlank(q) by { AllBlankAppend(q', [s[|s| - 1]]); }
      assert s == TrimTrailing(s) + q by {
        assert s == s[..|s| - 1] + [s[|s| - 1]];
        assert TrimTrailing(s) == TrimTrailing(s[..|s| - 1]);
      }
    } else {
      q := [];
    }
  }

  /** Trim returns the middle part of `s`, cut between two runs of blanks. */
  lemma TrimSplit(s: string) returns (p: string, q: string)
    ensures AllBlank(p) && AllBlank(q)
    ensures s == p + Trim(s) + q
  {
    p := TrimLeadingSplit(s);
    q := TrimTrailingSplit(TrimLeading(s));
  }

  /** Blanks in front of a string that does not start with one are dropped, and nothing else. */
  lemma {:induction false} TrimLeadingPadded(p: string, t: string)
    requires AllBlank(p) && (t == [] || !IsBlank(t[0]))
    ensures TrimLeading(p + t) == t
  {
    if p != [] {
      assert (p + t)[1..] == p[1..] + t;
      TrimLeadingPadded(p[1..], t);
    } else {
      assert p + t == t;
    }
  }

  /** Blanks behind a string that does not end with one are dropped, and nothing else. */
  lemma {:induction false} TrimTrailingPadded(t: string, q: string)
    requires AllBlank(q) && (t == [] || !IsBlank(t[|t| - 1]))
    ensures TrimTrailing(t + q) == t
  {
    if q != [] {
      assert (t + q)[..|t + q| - 1] == t + q[..|q| - 1];
      TrimTrailingPadded(t, q[..|q| - 1]);
    } else {
      assert t + q == t;
    }
  }

  lemma AllBlankAppend(a: string, b: string)
    requires AllBlank(a) && AllBlank(b)
    ensures AllBlank(a + b)
  {
    forall i | 0 <= i < |a + b| ensures IsBlank((a + b)[i]) {
      if i >= |a| { assert (a + b)[i] == b[i - |a|]; }
    }
  }

  /** A trimmed core padded with blanks on either side trims back to the core. */
  lemma TrimPadded(p: string, t: string, q: string)
    requires AllBlank(p) && AllBlank(q) && Trimmed(t)
    ensures Trim(p + t + q) == t
  {
    if t == [] {
      AllBlankAppend(p, q);
      assert p + t + q == (p + q) + [];
      TrimLeadingPadded(p + q, []);
    } else {
      assert p + t + q == p + (t + q);
      TrimLeadingPadded(p, t + q);
      TrimTrailingPadded(t, q);
    }
  }

  /** Lower case is computed position by position, so it distributes over `+`. */
  lemma LowerAppend(a: string, b: string)
    ensures Lower(a + b) == Lower(a) + Lower(b)
  {
    assert forall i :: 0 <= i < |a + b| ==> Lower(a + b)[i] == (Lower(a) + Lower(b))[i] by {
      forall i | 0 <= i < |a + b| ensures Lower(a + b)[i] == (Lower(a) + Lower(b))[i] {
        if i < |a| { assert (a + b)[i] == a[i]; } else { assert (a + b)[i] == b[i - |a|]; }
      }
    }
  }

  /** Lower case neither creates nor removes blanks, so a trimmed string stays trimmed. */
  lemma LowerKeepsBlanks(s: string)
    ensures AllBlank(s) ==> AllBlank(Lower(s))
    ensures Trimmed(s) ==> Trimmed(Lower(s))
  {
  }

  /** Lowering twice is lowering once. */
  lemma LowerIdempotent(s: string)
    ensures Lower(Lower(s)) == Lower(s)
  {
    assert forall i :: 0 <= i < |s| ==> Lower(Lower(s))[i] == Lower(s)[i];
  }

  /** The order of `trim` and `toLowerCase` does not matter. */
  lemma TrimLowerCommute(s: string)
    ensures Trim(Lower(s)) == Lower(Trim(s))
  {
    var p, q := TrimSplit(s);
    var t := Trim(s);
    LowerAppend(p + t, q);
    LowerAppend(p, t);
    LowerKeepsBlanks(p);
    LowerKeepsBlanks(q);
    LowerKeepsBlanks(t);
    TrimPadded(Lower(p), Lower(t), Lower(q));
  }

  /** Every normalised string is canonical. */
  lemma NormalizeIsCanonical(s: string)
    ensures Canonical(Normalize(s))
  {
    LowerKeepsBlanks(Trim(s));
    LowerIdempotent(Trim(s));
  }

  /** A string is canonical exactly when the normalisation fixes it. */
  lemma CanonicalIffFixed(s: string)
    ensures Canonical(s) <==> Normalize(s) == s
  {
    if Canonical(s) {
      TrimPadded([], s, []);
      assert [] + s + [] == s;
    }
    if Normalize(s) == s {
      NormalizeIsCanonical(s);
    }
  }

  /** Normalising twice gives the same key as normalising once. */
  lemma NormalizeIdempotent(s: string)
    ensures Normalize(Normalize(s)) == Normalize(s)
  {
    NormalizeIsCanonical(s);
    CanonicalIffFixed(Normalize(s));
  }

  /** Extra blanks around the input are dropped by the trim. */
  lemma TrimIgnoresPadding(p: string, s: string, q: string)
    requires AllBlank(p) && AllBlank(q)
    ensures Trim(p + s + q) == Trim(s)
  {
    var p', q' := TrimSplit(s);
    var t := Trim(s);
    AllBlankAppend(p, p');
    AllBlankAppend(q', q);
    calc {
      p + s + q;
      p + (p' + t + q') + q;
      (p + p') + t + (q' + q);
    }
    TrimPadded(p + p', t, q' + q);
  }

  /** Leading and trailing blanks of the input do not change its key. */
  lemma NormalizeIgnoresPadding(p: string, s: string, q: string)
    requires AllBlank(p) && AllBlank(q)
    ensures Normalize(p + s + q) == Normalize(s)
  {
    TrimIgnoresPadding(p, s, q);
  }

  /** Two inputs that differ only in the case of ASCII letters have the same key. */
  lemma NormalizeIgnoresCase(a: string, b: string)
    requires Lower(a) == Lower(b)
    ensures Normalize(a) == Normalize(b)
  {
    TrimLowerCommute(a);
    TrimLowerCommute(b);
  }

  /**
   * An input made of blanks, then a case variant of the canonical email `e`,
   * then blanks, normalises to `e` itself.
   */
  lemma PaddedVariantNormalizes(p: string, v: string, q: string, e: string)
    requires AllBlank(p) && AllBlank(q)
    requires Canonical(e) && Lower(v) == e
    ensures Normalize(p + v + q) == e
  {
    NormalizeIgnoresPadding(p, v, q);
    LowerIdempotent(v);
    NormalizeIgnoresCase(v, e);
    CanonicalIffFixed(e);
  }
}
