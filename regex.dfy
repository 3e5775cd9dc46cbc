/** The fragment of Python's `re` that the error tables are written in, with
    the meaning `re.search` gives it. Only whether a match exists matters to
    the callers (they test the truth of `re.search(...)`), so the meaning is
    stated as "this pattern spans s[i..j]", and lazy and greedy repetition
    need not be told apart. */
module Regex {
  import opened Text

  datatype Re =
    | Lit(w: string)       // literal text, e.g. `access`
    | Alt(a: Re, b: Re)    // `[sz]`, written as a choice of two literals
    | Spaces               // `\s+`
    | Gap                  // `.*?`: any run of characters other than a newline
    | Boundary             // `\b`
    | Opt(r: Re)           // `(?:...)?` and `x?`
    | Cat(a: Re, b: Re)    // one pattern after the other

  /** Character equality, ignoring case when `ic` (`re.IGNORECASE`) is set. */
  predicate CharEq(c: char, d: char, ic: bool) {
    if ic then Lower(c) == Lower(d) else c == d
  }

  /** `\b`: a word character on exactly one side of position `i`. */
  predicate AtBoundary(s: string, i: int)
    requires 0 <= i <= |s|
  {
    (0 < i && IsWord(s[i - 1])) != (i < |s| && IsWord(s[i]))
  }

  /** `r` matches exactly the text s[i..j]. */
  predicate Spans(r: Re, s: string, i: int, j: int, ic: bool)
    decreases r
  {
    0 <= i <= j <= |s| &&
    match r
    case Lit(w) => j - i == |w| && forall k | 0 <= k < |w| :: CharEq(s[i + k], w[k], ic)
    case Alt(a, b) => Spans(a, s, i, j, ic) || Spans(b, s, i, j, ic)
    case Spaces => i < j && forall k | i <= k < j :: IsSpace(s[k])
    case Gap => forall k | i <= k < j :: s[k] != '\n'
    case Boundary => i == j && AtBoundary(s, i)
    case Opt(a) => i == j || Spans(a, s, i, j, ic)
    case Cat(a, b) => exists k | i <= k <= j :: Spans(a, s, i, k, ic) && Spans(b, s, k, j, ic)
  }

  /** `re.search(r, s)` (with `re.IGNORECASE` when `ic`) finds a match. */
  predicate Search(r: Re, s: string, ic: bool) {
    exists i, j | 0 <= i <= j <= |s| :: Spans(r, s, i, j, ic)
  }

  /** Two texts that agree once lower-cased. */
  predicate SameFold(s: string, t: string) {
    |s| == |t| && forall k :: 0 <= k < |s| ==> Lower(s[k]) == Lower(t[k])
  }

  lemma SameFoldClasses(c: char, d: char)
    requires Lower(c) == Lower(d)
    ensures IsSpace(c) == IsSpace(d) && IsWord(c) == IsWord(d) && (c == '\n') == (d == '\n')
  {
    LowerKeepsClasses(c);
    LowerKeepsClasses(d);
  }

  /** Under `re.IGNORECASE` a pattern cannot tell apart texts that agree
      once lower-cased. */
  lemma {:induction false} SpansFold(r: Re, s: string, t: string, i: int, j: int)
    requires SameFold(s, t)
    ensures Spans(r, s, i, j, true) == Spans(r, t, i, j, true)
    decreases r
  {
    if 0 <= i <= j <= |s| {
      forall k | 0 <= k < |s| ensures IsSpace(s[k]) == IsSpace(t[k]) && IsWord(s[k]) == IsWord(t[k]) && (s[k] == '\n') == (t[k] == '\n') {
        SameFoldClasses(s[k], t[k]);
      }
      match r
      case Lit(w) =>
        assert forall k | 0 <= k < |w| && i + k < |s| :: CharEq(s[i + k], w[k], true) == CharEq(t[i + k], w[k], true);
      case Alt(a, b) =>
        SpansFold(a, s, t, i, j);
        SpansFold(b, s, t, i, j);
      case Spaces =>
      case Gap =>
      case Boundary =>
      case Opt(a) =>
        SpansFold(a, s, t, i, j);
      case Cat(a, b) =>
        forall k | i <= k <= j
          ensures (Spans(a, s, i, k, true) && Spans(b, s, k, j, true)) == (Spans(a, t, i, k, true) && Spans(b, t, k, j, true))
        {
          SpansFold(a, s, t, i, k);
          SpansFold(b, s, t, k, j);
        }
    }
  }

  /** Case-insensitive search gives the same answer on any text that agrees
      once lower-cased, in particular on `s.lower()` and `s.upper()`. */
  lemma SearchFold(r: Re, s: string, t: string)
    requires SameFold(s, t)
    ensures Search(r, s, true) == Search(r, t, true)
  {
    forall i, j | 0 <= i <= j <= |s| ensures Spans(r, s, i, j, true) == Spans(r, t, i, j, true) {
      SpansFold(r, s, t, i, j);
    }
  }

  lemma LowerUpperSameFold(s: string)
    ensures SameFold(s, LowerStr(s)) && SameFold(s, UpperStr(s))
  {
    forall k | 0 <= k < |s| ensures Lower(s[k]) == Lower(Lower(s[k])) == Lower(Upper(s[k])) {
      LowerKeepsClasses(s[k]);
    }
  }

  /** Every match of `r` contains the character `c` (a lower-case letter or
      other character that `Lower` leaves alone), up to case. */
  predicate Demands(r: Re, c: char) {
    match r
    case Lit(w) => exists k | 0 <= k < |w| :: Lower(w[k]) == c
    case Alt(a, b) => Demands(a, c) && Demands(b, c)
    case Cat(a, b) => Demands(a, c) || Demands(b, c)
    case _ => false
  }

  /** A literal demands each of its own characters. */
  lemma LitDemands(w: string, k: int, c: char)
    requires 0 <= k < |w| && Lower(w[k]) == c
    ensures Demands(Lit(w), c)
  {
  }

  /** No character of `s` is `c` up to case. */
  predicate Lacks(s: string, c: char) {
    forall k | 0 <= k < |s| :: Lower(s[k]) != c
  }

  lemma {:induction false} DemandsSpans(r: Re, c: char, s: string, i: int, j: int, ic: bool)
    requires Demands(r, c) && Spans(r, s, i, j, ic)
    ensures exists k :: i <= k < j && Lower(s[k]) == c
    decreases r
  {
    match r
    case Lit(w) =>
      var k :| 0 <= k < |w| && Lower(w[k]) == c;
      assert CharEq(s[i + k], w[k], ic);
      assert Lower(s[i + k]) == c;
    case Alt(a, b) =>
      if Spans(a, s, i, j, ic) {
        DemandsSpans(a, c, s, i, j, ic);
      } else {
        DemandsSpans(b, c, s, i, j, ic);
      }
    case Cat(a, b) =>
      var m :| i <= m <= j && Spans(a, s, i, m, ic) && Spans(b, s, m, j, ic);
      if Demands(a, c) {
        DemandsSpans(a, c, s, i, m, ic);
      } else {
        DemandsSpans(b, c, s, m, j, ic);
      }
  }

  /** A text that lacks a character every match needs has no match: the
      way the tables' patterns are shown not to fire on a given text. */
  lemma NoSearch(r: Re, c: char, s: string, ic: bool)
    requires Demands(r, c) && Lacks(s, c)
    ensures !Search(r, s, ic)
  {
    if Search(r, s, ic) {
      var i, j :| 0 <= i <= j <= |s| && Spans(r, s, i, j, ic);
      DemandsSpans(r, c, s, i, j, ic);
    }
  }

  /** A literal spans the place where it occurs. */
  lemma LitAt(w: string, s: string, i: int, ic: bool)
    requires 0 <= i && i + |w| <= |s| && s[i..i + |w|] == w
    ensures Spans(Lit(w), s, i, i + |w|, ic)
  {
    assert forall k | 0 <= k < |w| :: s[i + k] == w[k];
  }

  /** A literal is found exactly when it occurs in the text (case-sensitive search). */
  lemma SearchLit(w: string, s: string)
    ensures Search(Lit(w), s, false) <==> Contains(s, w)
  {
    if Search(Lit(w), s, false) {
      var i, j :| 0 <= i <= j <= |s| && Spans(Lit(w), s, i, j, false);
      assert s[i..i + |w|] == w;
      assert OccursAt(s, w, i);
    }
    if Contains(s, w) {
      var p :| 0 <= p <= |s| && OccursAt(s, w, p);
      var found := s[p..p + |w|];
      assert forall k | 0 <= k < |w| :: s[p + k] == found[k];
      assert Spans(Lit(w), s, p, p + |w|, false);
    }
  }

  /** A literal occurring in the text is found, with or without case folding. */
  lemma ContainsSearch(w: string, s: string, ic: bool)
    requires Contains(s, w)
    ensures Search(Lit(w), s, ic)
  {
    var p :| 0 <= p <= |s| && OccursAt(s, w, p);
    var found := s[p..p + |w|];
    assert forall k | 0 <= k < |w| :: s[p + k] == found[k];
    assert Spans(Lit(w), s, p, p + |w|, ic);
  }

  /** Two adjacent matches make a match of their concatenation. */
  lemma CatSpans(a: Re, b: Re, s: string, i: int, k: int, j: int, ic: bool)
    requires Spans(a, s, i, k, ic) && Spans(b, s, k, j, ic)
    ensures Spans(Cat(a, b), s, i, j, ic)
  {
  }
}
