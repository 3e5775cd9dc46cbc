/** The errors a registry command can report, told apart by the text the
    command printed (`reg_errors.py`). */
module RegErrors {
  import opened Wrappers
  import opened Text
  import opened Regex
  import opened Classify

  /** The classes of `reg_errors.py`. `OperationAborted` has no row in the
      table: it is only raised when a command's own abort is translated. */
  datatype Kind = Permission | ItemNotFound | ItemExists | OperationAborted

  /** The position of each kind in `ERROR_MAP` (the aborted kind comes after
      every row, since no row names it). */
  function Rank(k: Kind): nat {
    match k
    case Permission => 0
    case ItemNotFound => 1
    case ItemExists => 2
    case OperationAborted => 3
  }

  /** `\baccess.*?not\s+allowed\b` */
  const AccessNotAllowed := Cat(Boundary, Cat(Lit("access"), Cat(Gap, Cat(Lit("not"), Cat(Spaces, Cat(Lit("allowed"), Boundary))))))
  /** `\baccess.*?denied\b` */
  const AccessDeniedText := Cat(Boundary, Cat(Lit("access"), Cat(Gap, Cat(Lit("denied"), Boundary))))
  /** `PermissionDenied(?:Exception)?` */
  const PermissionDeniedName := Cat(Lit("PermissionDenied"), Opt(Lit("Exception")))
  /** `SecurityException` */
  const SecurityExceptionName := Lit("SecurityException")
  /** `\bcannot\s+find\s+path\b` */
  const CannotFindPath := Cat(Boundary, Cat(Lit("cannot"), Cat(Spaces, Cat(Lit("find"), Cat(Spaces, Cat(Lit("path"), Boundary))))))
  /** `\bdoes\s+not\s+exist\b` */
  const DoesNotExist := Cat(Boundary, Cat(Lit("does"), Cat(Spaces, Cat(Lit("not"), Cat(Spaces, Cat(Lit("exist"), Boundary))))))
  /** `PathNotFound(?:Exception)?` */
  const PathNotFoundName := Cat(Lit("PathNotFound"), Opt(Lit("Exception")))
  /** `ItemNotFound(?:Exception)?` */
  const ItemNotFoundName := Cat(Lit("ItemNotFound"), Opt(Lit("Exception")))
  /** `\balready\s+exists\b` */
  const AlreadyExists := Cat(Boundary, Cat(Lit("already"), Cat(Spaces, Cat(Lit("exists"), Boundary))))
  /** `ResourceExists(?:Exception)?` */
  const ResourceExistsName := Cat(Lit("ResourceExists"), Opt(Lit("Exception")))

  /** The patterns `ERROR_MAP` lists for each kind. */
  function Patterns(k: Kind): seq<Re> {
    match k
    case Permission => [AccessNotAllowed, AccessDeniedText, PermissionDeniedName, SecurityExceptionName]
    case ItemNotFound => [CannotFindPath, DoesNotExist, PathNotFoundName, ItemNotFoundName]
    case ItemExists => [AlreadyExists, ResourceExistsName]
    case OperationAborted => []
  }

  /** The kinds in table order. */
  const Kinds: seq<Kind> := [Permission, ItemNotFound, ItemExists, OperationAborted]

  /** Each kind of `ks` with its patterns. */
  function Rows(ks: seq<Kind>): (r: seq<Row<Kind>>)
    ensures |r| == |ks| && forall n :: 0 <= n < |ks| ==> r[n] == Row(ks[n], Patterns(ks[n]), [])
  {
    if ks == [] then [] else [Row(ks[0], Patterns(ks[0]), [])] + Rows(ks[1..])
  }

  /** `ERROR_MAP`, followed by the aborted kind with no patterns. */
  const Table: seq<Row<Kind>> := Rows(Kinds)

  /** Some pattern of kind `k` is found in the output, ignoring case. */
  predicate Matches(k: Kind, output: string) {
    AnyHits(Patterns(k), output, None)
  }

  lemma TableOrder()
    ensures |Table| == 4
    ensures forall k: Kind :: Rank(k) < 4 && Table[Rank(k)] == Row(k, Patterns(k), [])
    ensures forall n :: 0 <= n < |Table| ==> Rank(Table[n].kind) == n
  {
    forall k: Kind ensures Rank(k) < 4 && Kinds[Rank(k)] == k {
      match k
      case Permission =>
      case ItemNotFound =>
      case ItemExists =>
      case OperationAborted =>
    }
  }

  /** `check_error(output, rc, errors=...)`: the first eligible kind, in
      table order, with a pattern found in the output (ignoring case); `None`
      when it returns normally. The return code plays no part. */
  function CheckError(output: string, rc: Option<int>, errors: Restriction<Kind>): (r: Option<Kind>)
    ensures r.Some? ==> Eligible(errors, r.value) && Matches(r.value, output)
    ensures r.Some? ==> forall k :: Eligible(errors, k) && Rank(k) < Rank(r.value) ==> !Matches(k, output)
    ensures r.None? <==> forall k :: Eligible(errors, k) ==> !Matches(k, output)
  {
    var r := FirstMatch(Table, errors, output, None);
    TableOrder();
    FirstMatchRanked(Table, errors, output, None, Rank);
    r
  }


  /** Classification ignores case and the return code. */
  lemma CheckErrorFold(s: string, t: string, rc1: Option<int>, rc2: Option<int>, errors: Restriction<Kind>)
    requires SameFold(s, t)
    ensures CheckError(s, rc1, errors) == CheckError(t, rc2, errors)
  {
    FirstMatchFold(Table, errors, s, t, None);
  }

  /** A single class is treated as the one-element list holding it. */
  lemma CheckErrorOne(output: string, rc: Option<int>, k: Kind)
    ensures CheckError(output, rc, One(k)) == CheckError(output, rc, Only([k]))
  {
    OneIsSingleton(Table, k, output, None);
  }

  /** Text saying a path cannot be found or an item does not exist, with no
      permission wording, is an item-not-found error. */
  lemma NotFoundText(output: string, rc: Option<int>)
    requires Search(CannotFindPath, output, true) || Search(DoesNotExist, output, true)
    requires !Matches(Permission, output)
    ensures CheckError(output, rc, All) == Some(ItemNotFound)
  {
    if Search(CannotFindPath, output, true) {
      assert Hits(CannotFindPath, output, None) && CannotFindPath in Patterns(ItemNotFound);
    } else {
      assert Hits(DoesNotExist, output, None) && DoesNotExist in Patterns(ItemNotFound);
    }
    assert Matches(ItemNotFound, output);
  }

  /** What `GetValueKind` reports for a missing value. */
  const MissingValueMessage := "The specified registry key does not exist."

  /** None of the permission patterns fires on a text containing none of
      `a`, `m` and `u` in either case: each pattern's literal needs one of
      these letters. */
  lemma NoPermissionWithout(output: string)
    requires Lacks(output, 'a') && Lacks(output, 'm') && Lacks(output, 'u')
    ensures !Matches(Permission, output)
  {
    PermissionDemands();
    NoSearch(AccessNotAllowed, 'a', output, true);
    NoSearch(AccessDeniedText, 'a', output, true);
    NoSearch(PermissionDeniedName, 'm', output, true);
    NoSearch(SecurityExceptionName, 'u', output, true);
  }

  /** The letters the permission patterns need. */
  lemma PermissionDemands()
    ensures Demands(AccessNotAllowed, 'a') && Demands(AccessDeniedText, 'a')
    ensures Demands(PermissionDeniedName, 'm') && Demands(SecurityExceptionName, 'u')
  {
    LitDemands("access", 0, 'a');
    LitDemands("PermissionDenied", 3, 'm');
    LitDemands("SecurityException", 3, 'u');
  }

  /** The message has no `a`, `m` or `u`, one letter at a time. */
  lemma MissingValueLacksA(s: string)
    requires s == MissingValueMessage
    ensures Lacks(s, 'a')
  {
  }

  lemma MissingValueLacksM(s: string)
    requires s == MissingValueMessage
    ensures Lacks(s, 'm')
  {
  }

  lemma MissingValueLacksU(s: string)
    requires s == MissingValueMessage
    ensures Lacks(s, 'u')
  {
  }

  /** "does not exist" sits at 27..41 of the message. The text is a parameter
      so that the verifier checks each step rather than unfolding the whole
      search on a literal. */
  lemma MissingValueFound(s: string)
    requires s == MissingValueMessage
    ensures Search(DoesNotExist, s, true)
  {
    MissingValueWords(s);
    MissingValueGaps(s);
    CatSpans(Lit("exist"), Boundary, s, 36, 41, 41, true);
    CatSpans(Spaces, Cat(Lit("exist"), Boundary), s, 35, 36, 41, true);
    CatSpans(Lit("not"), Cat(Spaces, Cat(Lit("exist"), Boundary)), s, 32, 35, 41, true);
    CatSpans(Spaces, Cat(Lit("not"), Cat(Spaces, Cat(Lit("exist"), Boundary))), s, 31, 32, 41, true);
    CatSpans(Lit("does"), Cat(Spaces, Cat(Lit("not"), Cat(Spaces, Cat(Lit("exist"), Boundary)))), s, 27, 31, 41, true);
    CatSpans(Boundary, Cat(Lit("does"), Cat(Spaces, Cat(Lit("not"), Cat(Spaces, Cat(Lit("exist"), Boundary))))), s, 27, 27, 41, true);
  }

  /** The message, cut at the words the pattern looks for. */
  lemma MissingValueCut(s: string)
    requires s == MissingValueMessage
    ensures s == "The specified registry key " + "does" + " " + "not" + " " + "exist" + "."
  {
  }

  /** The words "does", "not" and "exist" of the message. */
  lemma MissingValueWords(s: string)
    requires s == MissingValueMessage
    ensures Spans(Lit("does"), s, 27, 31, true) && Spans(Lit("not"), s, 32, 35, true)
    ensures Spans(Lit("exist"), s, 36, 41, true)
  {
    MissingValueCut(s);
    LitAt("does", s, 27, true);
    LitAt("not", s, 32, true);
    LitAt("exist", s, 36, true);
  }

  /** The spaces between those words and the boundaries around them. */
  lemma MissingValueGaps(s: string)
    requires s == MissingValueMessage
    ensures Spans(Spaces, s, 31, 32, true) && Spans(Spaces, s, 35, 36, true)
    ensures Spans(Boundary, s, 27, 27, true) && Spans(Boundary, s, 41, 41, true)
  {
    MissingValueCut(s);
    assert s[26] == ' ' && s[27] == 'd' && s[31] == ' ' && s[35] == ' ' && s[40] == 't' && s[41] == '.';
  }

  /** The message is classified as a missing item. */
  lemma MissingValueIsNotFound(rc: Option<int>)
    ensures CheckError(MissingValueMessage, rc, All) == Some(ItemNotFound)
  {
    MissingValueLacksA(MissingValueMessage);
    MissingValueLacksM(MissingValueMessage);
    MissingValueLacksU(MissingValueMessage);
    NoPermissionWithout(MissingValueMessage);
    MissingValueFound(MissingValueMessage);
    NotFoundText(MissingValueMessage, rc);
  }
}
