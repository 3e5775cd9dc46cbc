/** The errors `pnputil` can report, told apart by the text it printed and by
    the text of its return code (`pnp_errors.py`). */
module PnpErrors {
  import opened Wrappers
  import opened Text
  import opened Regex
  import opened Classify

  /** The classes `ERROR_MAP` names, in table order. */
  datatype Kind = Permission | OperationAborted | NotFound | PropertyExists

  function Rank(k: Kind): nat {
    match k
    case Permission => 0
    case OperationAborted => 1
    case NotFound => 2
    case PropertyExists => 3
  }

  /** `\baccess.*?not allowed\b` (a single literal space, unlike the
      registry table) */
  const AccessNotAllowed := Cat(Boundary, Cat(Lit("access"), Cat(Gap, Cat(Lit("not allowed"), Boundary))))
  /** `\baccess.*?denied\b` */
  const AccessDeniedText := Cat(Boundary, Cat(Lit("access"), Cat(Gap, Cat(Lit("denied"), Boundary))))
  /** `\boperation.*?cancell?ed\b` */
  const OperationCancelled := Cat(Boundary, Cat(Lit("operation"), Cat(Gap, Cat(Lit("cancel"), Cat(Opt(Lit("l")), Cat(Lit("ed"), Boundary))))))
  /** `\bcancell?ed\s+by.*?user\b` */
  const CancelledByUser := Cat(Boundary, Cat(Lit("cancel"), Cat(Opt(Lit("l")), Cat(Lit("ed"), Cat(Spaces, Cat(Lit("by"), Cat(Gap, Cat(Lit("user"), Boundary))))))))
  /** `\bno\s+devices\s+were\s+found\b` */
  const NoDevices := Cat(Boundary, Cat(Lit("no"), Cat(Spaces, Cat(Lit("devices"), Cat(Spaces, Cat(Lit("were"), Cat(Spaces, Cat(Lit("found"), Boundary))))))))
  /** `\balready\s+enabled\b` */
  const AlreadyEnabled := Cat(Boundary, Cat(Lit("already"), Cat(Spaces, Cat(Lit("enabled"), Boundary))))
  /** `\balready\s+disabled\b` */
  const AlreadyDisabled := Cat(Boundary, Cat(Lit("already"), Cat(Spaces, Cat(Lit("disabled"), Boundary))))
  /** `50`: meant for the exit code 50. */
  const Fifty := Lit("50")

  /** The patterns `ERROR_MAP` lists for each kind. */
  function Patterns(k: Kind): seq<Re> {
    match k
    case Permission => [AccessNotAllowed, AccessDeniedText]
    case OperationAborted => [OperationCancelled, CancelledByUser]
    case NotFound => [NoDevices]
    case PropertyExists => [AlreadyEnabled, AlreadyDisabled, Fifty]
  }

  const Kinds: seq<Kind> := [Permission, OperationAborted, NotFound, PropertyExists]

  function Rows(ks: seq<Kind>): (r: seq<Row<Kind>>)
    ensures |r| == |ks| && forall n :: 0 <= n < |ks| ==> r[n] == Row(ks[n], Patterns(ks[n]), [])
  {
    if ks == [] then [] else [Row(ks[0], Patterns(ks[0]), [])] + Rows(ks[1..])
  }

  /** `ERROR_MAP` as written: every pattern, `50` included, is searched in
      the output and in the return-code text. */
  const Table: seq<Row<Kind>> := Rows(Kinds)

  /** `str(rc)`: the text the patterns are also searched in. */
  function RcText(rc: Option<int>): string {
    match rc
    case None => "None"
    case Some(n) => IntStr(n)
  }

  /** `str(rc)` reads back as the return code it was written from. */
  lemma RcTextParse(n: int)
    ensures ParseInt(RcText(Some(n))) == Some(n)
  {
    IntStrParse(n);
  }

  /** A pattern of kind `k` is found in the output (ignoring case) or in the
      return-code text (respecting case). */
  predicate MatchesIn(k: Kind, output: string, text: string) {
    AnyHits(Patterns(k), output, Some(text))
  }

  /** A pattern of kind `k` is found in the output or in `str(rc)`. */
  predicate Matches(k: Kind, output: string, rc: Option<int>) {
    MatchesIn(k, output, RcText(rc))
  }

  lemma TableOrder()
    ensures |Table| == 4
    ensures forall k: Kind :: Rank(k) < 4 && Table[Rank(k)] == Row(k, Patterns(k), [])
    ensures forall n :: 0 <= n < |Table| ==> Rank(Table[n].kind) == n
  {
    forall k: Kind ensures Rank(k) < 4 && Kinds[Rank(k)] == k {
      match k
      case Permission =>
      case OperationAborted =>
      case NotFound =>
      case PropertyExists =>
    }
  }

  /** The table walked with a given return-code text. */
  function CheckErrorIn(output: string, text: string, errors: Restriction<Kind>): (r: Option<Kind>)
    ensures r.Some? ==> Eligible(errors, r.value) && MatchesIn(r.value, output, text)
    ensures r.Some? ==> forall k :: Eligible(errors, k) && Rank(k) < Rank(r.value) ==> !MatchesIn(k, output, text)
    ensures r.None? <==> forall k :: Eligible(errors, k) ==> !MatchesIn(k, output, text)
  {
    var r := FirstMatch(Table, errors, output, Some(text));
    TableOrder();
    FirstMatchRanked(Table, errors, output, Some(text), Rank);
    r
  }


  /** `check_error(output, rc, errors=...)` as written: the first eligible
      kind with a pattern found in the output or in `str(rc)`. */
  function CheckError(output: string, rc: Option<int>, errors: Restriction<Kind>): (r: Option<Kind>)
    ensures r.Some? ==> Eligible(errors, r.value) && Matches(r.value, output, rc)
    ensures r.Some? ==> forall k :: Eligible(errors, k) && Rank(k) < Rank(r.value) ==> !Matches(k, output, rc)
    ensures r.None? <==> forall k :: Eligible(errors, k) ==> !Matches(k, output, rc)
  {
    CheckErrorIn(output, RcText(rc), errors)
  }

  /** The letters the patterns need: every match of the pattern holds one. */
  lemma DemandA()
    ensures Demands(AccessNotAllowed, 'a') && Demands(AccessDeniedText, 'a')
    ensures Demands(AlreadyEnabled, 'a') && Demands(AlreadyDisabled, 'a')
  {
    LitDemands("access", 0, 'a');
    LitDemands("already", 0, 'a');
  }

  lemma DemandC()
    ensures Demands(OperationCancelled, 'c') && Demands(CancelledByUser, 'c')
  {
    LitDemands("cancel", 0, 'c');
  }

  lemma DemandW()
    ensures Demands(NoDevices, 'w')
  {
    LitDemands("were", 0, 'w');
  }

  /** No pattern but `50` is found in a text without an `a`, `c` or `w`. */
  lemma NoLetterNoMatch(text: string, ic: bool)
    requires Lacks(text, 'a') && Lacks(text, 'c') && Lacks(text, 'w')
    ensures !Search(AccessNotAllowed, text, ic) && !Search(AccessDeniedText, text, ic)
    ensures !Search(OperationCancelled, text, ic) && !Search(CancelledByUser, text, ic)
    ensures !Search(NoDevices, text, ic)
    ensures !Search(AlreadyEnabled, text, ic) && !Search(AlreadyDisabled, text, ic)
  {
    DemandA();
    DemandC();
    DemandW();
    NoSearch(AccessNotAllowed, 'a', text, ic);
    NoSearch(AccessDeniedText, 'a', text, ic);
    NoSearch(OperationCancelled, 'c', text, ic);
    NoSearch(CancelledByUser, 'c', text, ic);
    NoSearch(NoDevices, 'w', text, ic);
    NoSearch(AlreadyEnabled, 'a', text, ic);
    NoSearch(AlreadyDisabled, 'a', text, ic);
  }

  /** `None` has none of the letters the patterns need. */
  lemma NoneMatchesNothing(text: string)
    requires text == "None"
    ensures !Search(AccessNotAllowed, text, false) && !Search(AccessDeniedText, text, false)
    ensures !Search(OperationCancelled, text, false) && !Search(CancelledByUser, text, false)
    ensures !Search(NoDevices, text, false)
    ensures !Search(AlreadyEnabled, text, false) && !Search(AlreadyDisabled, text, false)
    ensures !Search(Fifty, text, false)
  {
    assert Lacks(text, 'a') && Lacks(text, 'c') && Lacks(text, 'w') && Lacks(text, '5');
    NoLetterNoMatch(text, false);
    LitDemands("50", 0, '5');
    NoSearch(Fifty, '5', text, false);
  }

  /** With no return code, `str(rc)` is `None`, which no pattern matches:
      only the output decides. */
  lemma NoRcOutputDecides(output: string, errors: Restriction<Kind>)
    ensures CheckError(output, None, errors) == FirstMatch(Table, errors, output, None)
  {
    var text := RcText(None);
    NoneMatchesNothing(text);
    TableOrder();
    forall n, p | 0 <= n < |Table| && p in Table[n].patterns ensures !Search(p, text, false) {
      assert Table[n].patterns == Patterns(Table[n].kind);
    }
    RcInert(Table, errors, output, text);
  }

  /** The enumeration line that shows the `50` pattern firing on output. */
  const InstanceLine := "hid\\vid_1050&pid_0001"

  /** The line names no error: none of the other patterns fires on it, and
      `50` does. */
  lemma InstanceLineLacks(s: string)
    requires s == InstanceLine
    ensures Lacks(s, 'a') && Lacks(s, 'c') && Lacks(s, 'w')
  {
  }

  lemma InstanceLineHasFifty(s: string)
    requires s == InstanceLine
    ensures Search(Fifty, s, true)
  {
    assert Spans(Fifty, s, 10, 12, true);
  }

  lemma InstanceLineFacts(s: string)
    requires s == InstanceLine
    ensures !Search(AccessNotAllowed, s, true) && !Search(AccessDeniedText, s, true)
    ensures !Search(OperationCancelled, s, true) && !Search(CancelledByUser, s, true)
    ensures !Search(NoDevices, s, true)
    ensures !Search(AlreadyEnabled, s, true) && !Search(AlreadyDisabled, s, true)
    ensures Search(Fifty, s, true)
  {
    InstanceLineLacks(s);
    NoLetterNoMatch(s, true);
    InstanceLineHasFifty(s);
  }

  /** As written, an instance ID with `50` in it (vendor 0x1050) makes the
      output of a device enumeration, in which no error is reported, read
      as "property already exists". */
  lemma FiftyInOutputMisread()
    ensures CheckError(InstanceLine, None, All) == Some(PropertyExists)
  {
    FiftyMatchesInstance();
    OthersMissInstance();
    var r := CheckError(InstanceLine, None, All);
    assert Eligible(All, PropertyExists);
    assert r.Some? && Matches(r.value, InstanceLine, None);
    match r.value
    case PropertyExists =>
  }

  lemma FiftyMatchesInstance()
    ensures Matches(PropertyExists, InstanceLine, None)
  {
    InstanceLineFacts(InstanceLine);
    NoneMatchesNothing(RcText(None));
    assert Hits(Fifty, InstanceLine, Some(RcText(None)));
  }

  lemma OthersMissInstance()
    ensures !Matches(Permission, InstanceLine, None)
    ensures !Matches(OperationAborted, InstanceLine, None)
    ensures !Matches(NotFound, InstanceLine, None)
  {
    InstanceLineFacts(InstanceLine);
    NoneMatchesNothing(RcText(None));
  }

  // The corrected table: `50` is a return code, searched for in `str(rc)`
  // only; every other pattern as before.

  /** The patterns searched for in the output (and in `str(rc)`). */
  function TextPatterns(k: Kind): seq<Re> {
    match k
    case PropertyExists => [AlreadyEnabled, AlreadyDisabled]
    case _ => Patterns(k)
  }

  /** The patterns searched for in `str(rc)` only. */
  function CodePatterns(k: Kind): seq<Re> {
    match k
    case PropertyExists => [Fifty]
    case _ => []
  }

  function FixedRows(ks: seq<Kind>): (r: seq<Row<Kind>>)
    ensures |r| == |ks| && forall n :: 0 <= n < |ks| ==> r[n] == Row(ks[n], TextPatterns(ks[n]), CodePatterns(ks[n]))
  {
    if ks == [] then [] else [Row(ks[0], TextPatterns(ks[0]), CodePatterns(ks[0]))] + FixedRows(ks[1..])
  }

  const FixedTable: seq<Row<Kind>> := FixedRows(Kinds)

  /** Kind `k` matches under the corrected table, given the return-code text. */
  predicate FixedMatchesIn(k: Kind, output: string, text: string) {
    AnyHits(TextPatterns(k), output, Some(text)) || AnyCode(CodePatterns(k), Some(text))
  }

  /** Kind `k` matches under the corrected table. */
  predicate FixedMatches(k: Kind, output: string, rc: Option<int>) {
    FixedMatchesIn(k, output, RcText(rc))
  }

  lemma FixedTableOrder()
    ensures |FixedTable| == 4
    ensures forall k: Kind :: Rank(k) < 4 && FixedTable[Rank(k)] == Row(k, TextPatterns(k), CodePatterns(k))
    ensures forall n :: 0 <= n < |FixedTable| ==> Rank(FixedTable[n].kind) == n
  {
    forall k: Kind ensures Rank(k) < 4 && Kinds[Rank(k)] == k {
      match k
      case Permission =>
      case OperationAborted =>
      case NotFound =>
      case PropertyExists =>
    }
  }

  function CheckErrorFixedIn(output: string, text: string, errors: Restriction<Kind>): (r: Option<Kind>)
    ensures r.Some? ==> Eligible(errors, r.value) && FixedMatchesIn(r.value, output, text)
    ensures r.Some? ==> forall k :: Eligible(errors, k) && Rank(k) < Rank(r.value) ==> !FixedMatchesIn(k, output, text)
    ensures r.None? <==> forall k :: Eligible(errors, k) ==> !FixedMatchesIn(k, output, text)
  {
    var r := FirstMatch(FixedTable, errors, output, Some(text));
    FixedTableOrder();
    FirstMatchRanked(FixedTable, errors, output, Some(text), Rank);
    r
  }


  /** `check_error` with `50` read as a return code only. */
  function CheckErrorFixed(output: string, rc: Option<int>, errors: Restriction<Kind>): (r: Option<Kind>)
    ensures r.Some? ==> Eligible(errors, r.value) && FixedMatches(r.value, output, rc)
    ensures r.Some? ==> forall k :: Eligible(errors, k) && Rank(k) < Rank(r.value) ==> !FixedMatches(k, output, rc)
    ensures r.None? <==> forall k :: Eligible(errors, k) ==> !FixedMatches(k, output, rc)
  {
    CheckErrorFixedIn(output, RcText(rc), errors)
  }

  /** Under the corrected table, and with no return code, the output yields
      "already exists" only when it says "already enabled" or "already
      disabled". */
  lemma FixedNeedsWording(output: string)
    ensures CheckErrorFixed(output, None, All) == Some(PropertyExists) ==>
      Search(AlreadyEnabled, output, true) || Search(AlreadyDisabled, output, true)
  {
    NoneMatchesNothing(RcText(None));
    assert !AnyCode(CodePatterns(PropertyExists), Some(RcText(None)));
  }

  /** The corrected table reads the enumeration line as no error at all. */
  lemma FiftyInOutputFixed()
    ensures CheckErrorFixed(InstanceLine, None, All) == None
  {
    FixedMissesInstance();
    FixedFiftyMissesInstance();
  }

  lemma FixedMissesInstance()
    ensures !FixedMatches(Permission, InstanceLine, None)
    ensures !FixedMatches(OperationAborted, InstanceLine, None)
    ensures !FixedMatches(NotFound, InstanceLine, None)
  {
    InstanceLineFacts(InstanceLine);
    NoneMatchesNothing(RcText(None));
  }

  lemma FixedFiftyMissesInstance()
    ensures !FixedMatches(PropertyExists, InstanceLine, None)
  {
    InstanceLineFacts(InstanceLine);
    NoneMatchesNothing(RcText(None));
  }

  /** When the output has no `50` in it, the corrected table agrees with the
      table as written, whatever the return code. */
  lemma FixedAgrees(output: string, rc: Option<int>, errors: Restriction<Kind>)
    requires !Search(Fifty, output, true)
    ensures CheckErrorFixed(output, rc, errors) == CheckError(output, rc, errors)
  {
    var text := RcText(rc);
    TableOrder();
    FixedTableOrder();
    forall n | 0 <= n < |Table| ensures Fires(FixedTable[n], errors, output, Some(text)) == Fires(Table[n], errors, output, Some(text)) {
      var k := Table[n].kind;
      assert Table[Rank(k)] == Table[n] && FixedTable[Rank(k)] == FixedTable[n];
      FixedMatchesAgree(k, output, text);
    }
    FirstMatchSame(FixedTable, Table, errors, output, Some(text));
  }

  /** Kind by kind: only `50` found in the output tells the tables apart. */
  lemma FixedMatchesAgree(k: Kind, output: string, text: string)
    requires !Search(Fifty, output, true)
    ensures FixedMatchesIn(k, output, text) == MatchesIn(k, output, text)
  {
    if k == PropertyExists {
      assert Hits(Fifty, output, Some(text)) == AnyCode([Fifty], Some(text));
      assert Patterns(k) == TextPatterns(k) + [Fifty];
    } else {
      assert TextPatterns(k) == Patterns(k) && CodePatterns(k) == [];
    }
  }

  /** Return code 50, with no wording of an earlier kind in the output, is
      "already exists". */
  lemma FixedCodeFifty(output: string)
    requires forall k :: Rank(k) < 3 ==> !FixedMatches(k, output, Some(50))
    ensures CheckErrorFixed(output, Some(50), All) == Some(PropertyExists)
  {
    var text := RcText(Some(50));
    assert text == "50" by {
      assert NatStr(50) == "50";
    }
    assert Spans(Fifty, text, 0, 2, false);
    assert Search(Fifty, text, false);
    assert AnyCode(CodePatterns(PropertyExists), Some(text));
    assert FixedMatches(PropertyExists, output, Some(50));
  }
}
