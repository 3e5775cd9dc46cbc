/** The errors a PowerShell command can report, and the table that tells
    them apart by the text the command printed (`cmd_errors.py`). */
module CmdErrors {
  import opened Wrappers
  import opened Regex
  import opened Classify

  datatype Kind = AccessDenied | UserAborted | CommandNotFound | PowershellDisabled

  /** The position of each kind in `ERROR_MAP`, the order they are tried in. */
  function Rank(k: Kind): nat {
    match k
    case AccessDenied => 0
    case UserAborted => 1
    case CommandNotFound => 2
    case PowershellDisabled => 3
  }

  /** `\baccess.*?not\s+allowed\b` */
  const AccessNotAllowed := Cat(Boundary, Cat(Lit("access"), Cat(Gap, Cat(Lit("not"), Cat(Spaces, Cat(Lit("allowed"), Boundary))))))
  /** `\baccess.*?denied\b` */
  const AccessDeniedText := Cat(Boundary, Cat(Lit("access"), Cat(Gap, Cat(Lit("denied"), Boundary))))
  /** `PermissionDenied(?:Exception)?` */
  const PermissionDeniedName := Cat(Lit("PermissionDenied"), Opt(Lit("Exception")))
  /** `SecurityException` */
  const SecurityExceptionName := Lit("SecurityException")
  /** `\boperation.*?cancell?ed\b` */
  const OperationCancelled := Cat(Boundary, Cat(Lit("operation"), Cat(Gap, Cat(Lit("cancel"), Cat(Opt(Lit("l")), Cat(Lit("ed"), Boundary))))))
  /** `\bcancell?ed\s+by.*?user\b` */
  const CancelledByUser := Cat(Boundary, Cat(Lit("cancel"), Cat(Opt(Lit("l")), Cat(Lit("ed"), Cat(Spaces, Cat(Lit("by"), Cat(Gap, Cat(Lit("user"), Boundary))))))))
  /** `\bthe\s+term.*?is\s+not\s+recogni[sz]ed\b` */
  const TermNotRecognised := Cat(Boundary, Cat(Lit("the"), Cat(Spaces, Cat(Lit("term"), Cat(Gap, Cat(Lit("is"), Cat(Spaces, Cat(Lit("not"), Cat(Spaces, Cat(Lit("recogni"), Cat(Alt(Lit("s"), Lit("z")), Cat(Lit("ed"), Boundary))))))))))))
  /** `\bnot\s+recogni[sz]ed\s+as\s+the\s+name\s+of\b` */
  const NotRecognisedName := Cat(Boundary, Cat(Lit("not"), Cat(Spaces, Cat(Lit("recogni"), Cat(Alt(Lit("s"), Lit("z")), Cat(Lit("ed"), Cat(Spaces, Cat(Lit("as"), Cat(Spaces, Cat(Lit("the"), Cat(Spaces, Cat(Lit("name"), Cat(Spaces, Cat(Lit("of"), Boundary))))))))))))))
  /** `CommandNotFound(?:Exception)?` */
  const CommandNotFoundName := Cat(Lit("CommandNotFound"), Opt(Lit("Exception")))
  /** `\b(?:program.*?blocked)?.*?group\s+policy\b` */
  const GroupPolicy := Cat(Boundary, Cat(Opt(Cat(Lit("program"), Cat(Gap, Lit("blocked")))), Cat(Gap, Cat(Lit("group"), Cat(Spaces, Cat(Lit("policy"), Boundary))))))
  /** `\b(?:contact\s+your\s+)?system\s+admins?(?:istrators?)?\b` */
  const SystemAdmin := Cat(Boundary, Cat(Opt(Cat(Lit("contact"), Cat(Spaces, Cat(Lit("your"), Spaces)))), Cat(Lit("system"), Cat(Spaces, Cat(Lit("admin"), Cat(Opt(Lit("s")), Cat(Opt(Cat(Lit("istrator"), Opt(Lit("s")))), Boundary)))))))

  /** The patterns `ERROR_MAP` lists for each kind. */
  function Patterns(k: Kind): seq<Re> {
    match k
    case AccessDenied => [AccessNotAllowed, AccessDeniedText, PermissionDeniedName, SecurityExceptionName]
    case UserAborted => [OperationCancelled, CancelledByUser]
    case CommandNotFound => [TermNotRecognised, NotRecognisedName, CommandNotFoundName]
    case PowershellDisabled => [GroupPolicy, SystemAdmin]
  }

  /** The kinds in table order. */
  const Kinds: seq<Kind> := [AccessDenied, UserAborted, CommandNotFound, PowershellDisabled]

  /** Each kind of `ks` with its patterns. */
  function Rows(ks: seq<Kind>): (r: seq<Row<Kind>>)
    ensures |r| == |ks| && forall n :: 0 <= n < |ks| ==> r[n] == Row(ks[n], Patterns(ks[n]), [])
  {
    if ks == [] then [] else [Row(ks[0], Patterns(ks[0]), [])] + Rows(ks[1..])
  }

  /** `ERROR_MAP`: each kind with its patterns, in table order. */
  const Table: seq<Row<Kind>> := Rows(Kinds)

  /** Some pattern of kind `k` is found in the output, ignoring case. */
  predicate Matches(k: Kind, output: string) {
    AnyHits(Patterns(k), output, None)
  }

  lemma TableOrder()
    ensures |Table| == 4
    ensures forall k: Kind :: Rank(k) < 4 && Table[Rank(k)] == Row(k, Patterns(k), [])
    ensures forall n :: 0 <= n < |Table| ==> Rank(Table[n].kind) == n
  {
    forall k: Kind ensures Rank(k) < 4 && Kinds[Rank(k)] == k {
      match k
      case AccessDenied =>
      case UserAborted =>
      case CommandNotFound =>
      case PowershellDisabled =>
    }
  }

  /** `check_error(output, rc, errors=...)`: the first eligible kind, in
      table order, with a pattern found in the output (ignoring case); `None`
      when it returns normally. The return code plays no part. */
  function CheckError(output: string, rc: Option<int>, errors: Restriction<Kind>): (r: Option<Kind>)
    ensures r.Some? ==> Eligible(errors, r.value) && Matches(r.value, output)
    ensures r.Some? ==> forall k :: Eligible(errors, k) && Rank(k) < Rank(r.value) ==> !Matches(k, output)
    ensures r.None? <==> forall k :: Eligible(errors, k) ==> !Matches(k, output)
  {
    var r := FirstMatch(Table, errors, output, None);
    TableOrder();
    FirstMatchRanked(Table, errors, output, None, Rank);
    r
  }


  /** Classification ignores case: `s`, `s.lower()` and `s.upper()` are
      classified alike, whatever the return code. */
  lemma CheckErrorFold(s: string, t: string, rc1: Option<int>, rc2: Option<int>, errors: Restriction<Kind>)
    requires Regex.SameFold(s, t)
    ensures CheckError(s, rc1, errors) == CheckError(t, rc2, errors)
  {
    FirstMatchFold(Table, errors, s, t, None);
  }

  /** A single class is treated as the one-element list holding it. */
  lemma CheckErrorOne(output: string, rc: Option<int>, k: Kind)
    ensures CheckError(output, rc, One(k)) == CheckError(output, rc, Only([k]))
  {
    OneIsSingleton(Table, k, output, None);
  }

  /** The letters the refusal patterns need. */
  lemma DeniedDemands()
    ensures Regex.Demands(AccessNotAllowed, 'c') && Regex.Demands(AccessDeniedText, 'c')
    ensures Regex.Demands(PermissionDeniedName, 'm') && Regex.Demands(SecurityExceptionName, 'c')
  {
    Regex.LitDemands("access", 1, 'c');
    Regex.LitDemands("PermissionDenied", 3, 'm');
    Regex.LitDemands("SecurityException", 2, 'c');
  }

  /** No refusal pattern is found in a text without a `c` or an `m`. */
  lemma DeniedNeeds(output: string)
    requires Regex.Lacks(output, 'c') && Regex.Lacks(output, 'm')
    ensures !Matches(AccessDenied, output)
  {
    DeniedDemands();
    Regex.NoSearch(AccessNotAllowed, 'c', output, true);
    Regex.NoSearch(AccessDeniedText, 'c', output, true);
    Regex.NoSearch(PermissionDeniedName, 'm', output, true);
    Regex.NoSearch(SecurityExceptionName, 'c', output, true);
  }

  /** The letters the refusal patterns need: a text without a `c` or an `m`
      is never taken for a refused access. */
  lemma NotDeniedWithout(output: string, rc: Option<int>)
    requires Regex.Lacks(output, 'c') && Regex.Lacks(output, 'm')
    ensures CheckError(output, rc, One(AccessDenied)) == None
  {
    DeniedNeeds(output);
  }
}
