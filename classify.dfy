/** The search that the three `check_error` functions share: an ordered table
    of error kinds, each with its patterns, walked in order; the first
    eligible kind with a pattern that matches is the error raised. */
module Classify {
  import opened Wrappers
  import opened Regex

  /** The `errors` argument: `None` (every kind), a single class, or a list. */
  datatype Restriction<K> = All | One(kind: K) | Only(kinds: seq<K>)

  predicate Eligible<K(==)>(rest: Restriction<K>, k: K) {
    match rest
    case All => true
    case One(x) => k == x
    case Only(ks) => k in ks
  }

  /** One entry of an `ERROR_MAP`: the kind, the patterns searched for in
      the output (and in the return-code text, when there is one), and the
      patterns searched for in the return-code text only. */
  datatype Row<K> = Row(kind: K, patterns: seq<Re>, codes: seq<Re>)

  /** A pattern matches the output case-insensitively, or, when a return-code
      text is given, matches that text case-sensitively. */
  predicate Hits(p: Re, output: string, rcText: Option<string>) {
    Search(p, output, true) || (rcText.Some? && Search(p, rcText.value, false))
  }

  /** One of the patterns hits. */
  predicate AnyHits(patterns: seq<Re>, output: string, rcText: Option<string>) {
    exists p | p in patterns :: Hits(p, output, rcText)
  }

  /** One of the code patterns is found in the return-code text. */
  predicate AnyCode(codes: seq<Re>, rcText: Option<string>) {
    rcText.Some? && exists p | p in codes :: Search(p, rcText.value, false)
  }

  /** The row would raise: its kind is eligible and one of its patterns hits. */
  predicate Fires<K(==)>(row: Row<K>, rest: Restriction<K>, output: string, rcText: Option<string>) {
    Eligible(rest, row.kind) && (AnyHits(row.patterns, output, rcText) || AnyCode(row.codes, rcText))
  }

  /** The kind `check_error` raises, or `None` when it returns normally. */
  function FirstMatch<K(==)>(table: seq<Row<K>>, rest: Restriction<K>, output: string, rcText: Option<string>): (r: Option<K>)
    ensures r.None? <==> forall n :: 0 <= n < |table| ==> !Fires(table[n], rest, output, rcText)
    ensures r.Some? ==>
      exists n :: (0 <= n < |table| && table[n].kind == r.value
        && Fires(table[n], rest, output, rcText)
        && forall m :: 0 <= m < n ==> !Fires(table[m], rest, output, rcText))
  {
    if table == [] then None
    else if Fires(table[0], rest, output, rcText) then Some(table[0].kind)
    else
      var r := FirstMatch(table[1..], rest, output, rcText);
      assert forall n :: 1 <= n < |table| ==> table[n] == table[1..][n - 1];
      if r.Some? then
        var n :| 0 <= n < |table| - 1 && table[1..][n].kind == r.value
          && Fires(table[1..][n], rest, output, rcText)
          && forall m :: 0 <= m < n ==> !Fires(table[1..][m], rest, output, rcText);
        assert forall m :: 0 <= m < n + 1 ==> !Fires(table[m], rest, output, rcText) by {
          forall m | 0 <= m < n + 1 ensures !Fires(table[m], rest, output, rcText) {
            if m > 0 {
              assert table[m] == table[1..][m - 1];
            }
          }
        }
        assert table[n + 1] == table[1..][n];
        r
      else
        r
  }

  /** The outcome restated kind by kind, for a table that lists every kind
      exactly once, kind `k` at position `rank(k)`: the kind raised fires,
      no kind ranked before it fires, and `None` means that no kind fires. */
  lemma FirstMatchRanked<K>(table: seq<Row<K>>, rest: Restriction<K>, output: string, rcText: Option<string>, rank: K -> nat)
    requires forall n :: 0 <= n < |table| ==> rank(table[n].kind) == n
    requires forall k: K :: rank(k) < |table| && table[rank(k)].kind == k
    ensures var r := FirstMatch(table, rest, output, rcText);
      r.Some? ==> Fires(table[rank(r.value)], rest, output, rcText)
    ensures var r := FirstMatch(table, rest, output, rcText);
      r.Some? ==> forall k :: rank(k) < rank(r.value) ==> !Fires(table[rank(k)], rest, output, rcText)
    ensures var r := FirstMatch(table, rest, output, rcText);
      r.None? <==> forall k :: !Fires(table[rank(k)], rest, output, rcText)
  {
    var r := FirstMatch(table, rest, output, rcText);
    if r.Some? {
      var n :| 0 <= n < |table| && table[n].kind == r.value
        && Fires(table[n], rest, output, rcText)
        && forall m :: 0 <= m < n ==> !Fires(table[m], rest, output, rcText);
      assert rank(r.value) == n;
    } else {
      forall k ensures !Fires(table[rank(k)], rest, output, rcText) {
        assert 0 <= rank(k) < |table|;
      }
    }
  }

  /** Two tables whose rows name the same kinds and fire alike give the same
      outcome. */
  lemma {:induction false} FirstMatchSame<K>(t1: seq<Row<K>>, t2: seq<Row<K>>, rest: Restriction<K>, output: string, rcText: Option<string>)
    requires |t1| == |t2|
    requires forall n :: 0 <= n < |t1| ==> t1[n].kind == t2[n].kind
    requires forall n :: 0 <= n < |t1| ==> Fires(t1[n], rest, output, rcText) == Fires(t2[n], rest, output, rcText)
    ensures FirstMatch(t1, rest, output, rcText) == FirstMatch(t2, rest, output, rcText)
  {
    if t1 != [] {
      assert forall n :: 0 <= n < |t1| - 1 ==> t1[1..][n] == t1[n + 1] && t2[1..][n] == t2[n + 1];
      FirstMatchSame(t1[1..], t2[1..], rest, output, rcText);
    }
  }

  /** A single class behaves as the one-element list holding it. */
  lemma {:induction false} OneIsSingleton<K>(table: seq<Row<K>>, k: K, output: string, rcText: Option<string>)
    ensures FirstMatch(table, One(k), output, rcText) == FirstMatch(table, Only([k]), output, rcText)
  {
    if table != [] {
      assert Fires(table[0], One(k), output, rcText) == Fires(table[0], Only([k]), output, rcText);
      OneIsSingleton(table[1..], k, output, rcText);
    }
  }

  /** Hits depend on the output only through its lower-cased form. */
  lemma FiresFold<K>(row: Row<K>, rest: Restriction<K>, s: string, t: string, rcText: Option<string>)
    requires SameFold(s, t)
    ensures AnyHits(row.patterns, s, rcText) == AnyHits(row.patterns, t, rcText)
    ensures Fires(row, rest, s, rcText) == Fires(row, rest, t, rcText)
  {
    forall p | p in row.patterns ensures Hits(p, s, rcText) == Hits(p, t, rcText) {
      SearchFold(p, s, t);
    }
  }

  /** Case-insensitive matching: the outcome is the same for texts that
      agree once lower-cased. */
  lemma {:induction false} FirstMatchFold<K>(table: seq<Row<K>>, rest: Restriction<K>, s: string, t: string, rcText: Option<string>)
    requires SameFold(s, t)
    ensures FirstMatch(table, rest, s, rcText) == FirstMatch(table, rest, t, rcText)
  {
    if table != [] {
      FiresFold(table[0], rest, s, t, rcText);
      FirstMatchFold(table[1..], rest, s, t, rcText);
    }
  }

  /** A return-code text in which no pattern of the table is found adds
      nothing: the outcome is the one decided by the output alone. */
  lemma {:induction false} RcInert<K>(table: seq<Row<K>>, rest: Restriction<K>, output: string, text: string)
    requires forall n, p :: 0 <= n < |table| && p in table[n].patterns ==> !Search(p, text, false)
    requires forall n, p :: 0 <= n < |table| && p in table[n].codes ==> !Search(p, text, false)
    ensures FirstMatch(table, rest, output, Some(text)) == FirstMatch(table, rest, output, None)
  {
    if table != [] {
      assert AnyHits(table[0].patterns, output, Some(text)) == AnyHits(table[0].patterns, output, None);
      assert !AnyCode(table[0].codes, Some(text));
      assert forall n :: 0 <= n < |table| - 1 ==> table[1..][n] == table[n + 1];
      RcInert(table[1..], rest, output, text);
    }
  }
}
