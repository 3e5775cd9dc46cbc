/** The registry value types and the two conversions `Reg.normalise` and
    `Reg.get_name` (`reg.py`). */
module RegTypes {
  import opened Wrappers
  import opened Text
  import opened Errors

  /** `WINAPI_REG_TYPES`: the `REG_*` names of winnt.h, aliases included. */
  const WinApiTypes: map<string, int> := map[
    "REG_NONE" := 0, "REG_SZ" := 1, "REG_EXPAND_SZ" := 2, "REG_BINARY" := 3,
    "REG_DWORD" := 4, "REG_DWORD_LITTLE_ENDIAN" := 4, "REG_DWORD_BIG_ENDIAN" := 5,
    "REG_LINK" := 6, "REG_MULTI_SZ" := 7, "REG_RESOURCE_LIST" := 8,
    "REG_FULL_RESOURCE_DESCRIPTOR" := 9, "REG_RESOURCE_REQUIREMENTS_LIST" := 10,
    "REG_QWORD" := 11, "REG_QWORD_LITTLE_ENDIAN" := 11]

  /** `REG_VALUE_KINDS`: the names of .NET's `RegistryValueKind`. */
  const ValueKinds: map<string, int> := map[
    "NONE" := -1, "UNKNOWN" := 0, "STRING" := 1, "EXPANDSTRING" := 2,
    "BINARY" := 3, "DWORD" := 4, "MULTISTRING" := 7, "QWORD" := 11]

  /** `REG_VALUE_KIND_NAMES`: the inverse of `REG_VALUE_KINDS`. */
  const KindNames: map<int, string> := map[
    -1 := "NONE", 0 := "UNKNOWN", 1 := "STRING", 2 := "EXPANDSTRING",
    3 := "BINARY", 4 := "DWORD", 7 := "MULTISTRING", 11 := "QWORD"]

  /** `REG_FRIENDLY_NAMES`: the spelling PowerShell prints. */
  const FriendlyNames: map<string, string> := map[
    "NONE" := "None", "UNKNOWN" := "Unknown", "STRING" := "String",
    "EXPANDSTRING" := "ExpandString", "BINARY" := "Binary", "DWORD" := "DWord",
    "MULTISTRING" := "MultiString", "QWORD" := "QWord"]

  /** `SUPPORTED_REG_TYPES`: the kinds `RegistryValueKind` can report. */
  const Supported: set<int> := {-1, 0, 1, 2, 3, 4, 7, 11}

  /** An argument of `normalise`: Python accepts any object, but only an
      `int` (a `bool` is one) or a `str` is converted. */
  datatype TypeArg = IntArg(i: int) | StrArg(s: string) | OtherArg

  /** What `normalise` returns: a scalar for one argument, else a list. */
  datatype Normalised = Single(code: int) | Several(codes: seq<int>)

  /** The code named by a trimmed, upper-cased type name, if any. */
  function Lookup(t: string): Option<int> {
    if |t| >= 4 && t[..4] == "REG_" then
      if t in WinApiTypes then Some(WinApiTypes[t]) else None
    else if "REG_" + t in WinApiTypes then Some(WinApiTypes["REG_" + t])
    else if t in ValueKinds then Some(ValueKinds[t])
    else None
  }

  /** Out-of-range codes are reported as `UNKNOWN`. */
  function Clamp(i: int): (r: int)
    ensures r in Supported
    ensures i in Supported ==> r == i
    ensures i !in Supported ==> r == 0
  {
    if i in Supported then i else 0
  }

  /** One step of the loop of `normalise`. */
  function NormaliseOne(t: TypeArg): (r: Result<int, Error>)
    ensures r.Ok? ==> r.value in Supported
    ensures r.Err? ==> r.error == (if t.OtherArg? then Type else Value)
  {
    match t
    case IntArg(i) => Ok(Clamp(i))
    case StrArg(s) =>
      (match Lookup(UpperStr(Strip(s)))
       case Some(i) => Ok(Clamp(i))
       case None => Err(Value))
    case OtherArg => Err(Type)
  }

  /** The loop of `normalise`: every argument converted in order, or the
      error of the first one that is not. */
  function NormaliseAll(ts: seq<TypeArg>): (r: Result<seq<int>, Error>)
    ensures r.Ok? ==> |r.value| == |ts| && forall n :: 0 <= n < |ts| ==> NormaliseOne(ts[n]) == Ok(r.value[n])
    ensures r.Err? ==> exists n :: (0 <= n < |ts| && NormaliseOne(ts[n]) == Err(r.error)
      && forall m :: 0 <= m < n ==> NormaliseOne(ts[m]).Ok?)
  {
    if ts == [] then Ok([])
    else
      match NormaliseOne(ts[0])
      case Err(e) => Err(e)
      case Ok(c) =>
        match NormaliseAll(ts[1..])
        case Err(e) =>
          var n :| 0 <= n < |ts| - 1 && NormaliseOne(ts[1..][n]) == Err(e)
            && forall m :: 0 <= m < n ==> NormaliseOne(ts[1..][m]).Ok?;
          assert NormaliseOne(ts[n + 1]) == Err(e);
          assert forall m :: 0 < m < n + 1 ==> ts[m] == ts[1..][m - 1];
          Err(e)
        case Ok(cs) =>
          assert forall n :: 0 < n < |ts| ==> ts[n] == ts[1..][n - 1] && ([c] + cs)[n] == cs[n - 1];
          Ok([c] + cs)
  }

  /** `Reg.normalise(*types)` */
  function Normalise(ts: seq<TypeArg>): (r: Result<Normalised, Error>)
    ensures r.Ok? && |ts| == 1 ==> r.value.Single? && Ok(r.value.code) == NormaliseOne(ts[0])
    ensures r.Ok? && |ts| != 1 ==> r.value.Several? && Ok(r.value.codes) == NormaliseAll(ts)
    ensures r.Err? <==> NormaliseAll(ts).Err?
  {
    match NormaliseAll(ts)
    case Err(e) => Err(e)
    case Ok(cs) => if |cs| == 1 then Ok(Single(cs[0])) else Ok(Several(cs))
  }

  /** `normalise` on a single argument, as the rest of the code calls it. */
  function NormaliseType(t: TypeArg): Result<int, Error> {
    NormaliseOne(t)
  }

  /** Normalising a result again gives it back: every result is already a
      supported code. */
  lemma NormaliseIdempotent(t: TypeArg)
    requires NormaliseType(t).Ok?
    ensures NormaliseType(IntArg(NormaliseType(t).value)) == NormaliseType(t)
  {
  }

  /** A `REG_` name is looked up among the winnt.h names only: `REG_DWORD`
      is 4 but `REG_STRING` is an error even though `STRING` is a kind. */
  lemma RegPrefixWinApiOnly(s: string)
    requires var t := UpperStr(Strip(s)); |t| >= 4 && t[..4] == "REG_" && t !in WinApiTypes
    ensures NormaliseType(StrArg(s)) == Err(Value)
  {
  }

  /** Without the prefix the winnt.h name is tried before the kind name;
      this is why `None` comes back as `REG_NONE` (0), not as `NONE` (-1).
      The text is a parameter so that the verifier checks the few character
      comparisons that decide the lookups rather than unfolding them. */
  lemma NoneIsZero(s: string)
    requires s == " none "
    ensures NormaliseType(StrArg(s)) == Ok(0)
  {
    SpacedNone(s);
    LooksUpNone(UpperStr(Strip(s)));
    Found(s, 0);
  }

  lemma SpacedNone(s: string)
    requires s == " none "
    ensures UpperStr(Strip(s)) == "NONE"
  {
    assert s == " " + "none" + " ";
    StripPadded("none");
    UpperNone(Strip(s));
  }

  lemma UpperNone(t: string)
    requires t == "none"
    ensures UpperStr(t) == "NONE"
  {
  }

  /** A text whose trimmed, upper-cased form names a supported code is
      normalised to that code. */
  lemma Found(s: string, c: int)
    requires Lookup(UpperStr(Strip(s))) == Some(c) && c in Supported
    ensures NormaliseType(StrArg(s)) == Ok(c)
  {
  }

  /** `Reg.get_name` for one argument: the kind name of the normalised code,
      in PowerShell's spelling when `pretty`. */
  function GetNameOne(t: TypeArg, pretty: bool): (r: Result<string, Error>)
    ensures NormaliseType(t).Ok? ==> r.Ok?
    ensures NormaliseType(t).Err? ==> r == Err(NormaliseType(t).error)
  {
    match NormaliseType(t)
    case Err(e) => Err(e)
    case Ok(i) =>
      if i !in KindNames then Err(Value)
      else
        var name := KindNames[i];
        if !pretty then Ok(name)
        else if name !in FriendlyNames then Err(Value)
        else Ok(FriendlyNames[name])
  }

  /** The names of every argument, in order, or the first failure. */
  function GetNameAll(ts: seq<TypeArg>, pretty: bool): (r: Result<seq<string>, Error>)
    ensures r.Ok? ==> |r.value| == |ts| && forall n :: 0 <= n < |ts| ==> GetNameOne(ts[n], pretty) == Ok(r.value[n])
    ensures r.Err? <==> NormaliseAll(ts).Err?
  {
    if ts == [] then Ok([])
    else
      match GetNameOne(ts[0], pretty)
      case Err(e) => Err(e)
      case Ok(name) =>
        match GetNameAll(ts[1..], pretty)
        case Err(e) => Err(e)
        case Ok(names) =>
          assert forall n :: 0 < n < |ts| ==> ts[n] == ts[1..][n - 1] && ([name] + names)[n] == names[n - 1];
          Ok([name] + names)
  }

  /** What `get_name` returns: the bare name for one argument, a list
      otherwise. */
  datatype Named = OneName(name: string) | Names(names: seq<string>)

  /** `Reg.get_name(*types, pretty=...)`: the name of a single argument, or
      the list of names of every argument, failing exactly when some
      argument does not normalise. */
  function GetName(ts: seq<TypeArg>, pretty: bool): (r: Result<Named, Error>)
    ensures r.Ok? && |ts| == 1 ==> r.value.OneName? && GetNameOne(ts[0], pretty) == Ok(r.value.name)
    ensures r.Ok? && |ts| != 1 ==>
      r.value.Names? && |r.value.names| == |ts| && forall n :: 0 <= n < |ts| ==> GetNameOne(ts[n], pretty) == Ok(r.value.names[n])
    ensures r.Err? <==> NormaliseAll(ts).Err?
  {
    match GetNameAll(ts, pretty)
    case Err(e) => Err(e)
    case Ok(names) => if |names| == 1 then Ok(OneName(names[0])) else Ok(Names(names))
  }

  /** Every supported code survives a trip through its name, in either
      spelling, except `NONE` (-1), whose name reads back as `REG_NONE` (0). */
  lemma NameRoundTrip(c: int, pretty: bool)
    requires c in Supported
    ensures GetNameOne(IntArg(c), pretty).Ok?
    ensures NormaliseType(StrArg(GetNameOne(IntArg(c), pretty).value)) == Ok(if c == -1 then 0 else c)
  {
    if c == -1 {
      EntryNone(c, "NONE", "None");
      ReadsBackAs(c, pretty, "NONE", "None", 0);
    } else if c == 0 {
      EntryUnknown(c, "UNKNOWN", "Unknown");
      ReadsBackAs(c, pretty, "UNKNOWN", "Unknown", 0);
    } else if c == 1 {
      EntryString(c, "STRING", "String");
      ReadsBackAs(c, pretty, "STRING", "String", c);
    } else if c == 2 {
      EntryExpandString(c, "EXPANDSTRING", "ExpandString");
      ReadsBackAs(c, pretty, "EXPANDSTRING", "ExpandString", c);
    } else if c == 3 {
      EntryBinary(c, "BINARY", "Binary");
      ReadsBackAs(c, pretty, "BINARY", "Binary", c);
    } else if c == 4 {
      EntryDWord(c, "DWORD", "DWord");
      ReadsBackAs(c, pretty, "DWORD", "DWord", c);
    } else if c == 7 {
      EntryMultiString(c, "MULTISTRING", "MultiString");
      ReadsBackAs(c, pretty, "MULTISTRING", "MultiString", c);
    } else {
      EntryQWord(c, "QWORD", "QWord");
      ReadsBackAs(c, pretty, "QWORD", "QWord", c);
    }
  }

  /** What the round trip of code `c` needs of the tables: its two names,
      which `strip()` leaves alone, the friendly one a spelling of the other,
      which looks up as `v`. */
  predicate NameEntry(c: int, kind: string, friendly: string, v: int) {
    c in KindNames && KindNames[c] == kind && kind in FriendlyNames && FriendlyNames[kind] == friendly
    && Strip(kind) == kind && Strip(friendly) == friendly && UpperStr(friendly) == kind
    && Lookup(kind) == Some(v) && v in Supported
  }

  /** The name `get_name` gives a supported code, from its table entries. */
  lemma NameOf(c: int, pretty: bool, kind: string, friendly: string)
    requires c in Supported && c in KindNames && KindNames[c] == kind
    requires kind in FriendlyNames && FriendlyNames[kind] == friendly
    ensures GetNameOne(IntArg(c), pretty) == Ok(if pretty then friendly else kind)
  {
    assert NormaliseType(IntArg(c)) == Ok(c);
  }

  /** Either name of a code normalises to what the name looks up as. */
  lemma NameLooksUp(pretty: bool, kind: string, friendly: string, v: int)
    requires Strip(kind) == kind && Strip(friendly) == friendly && UpperStr(friendly) == kind
    requires Lookup(kind) == Some(v) && v in Supported
    ensures NormaliseType(StrArg(if pretty then friendly else kind)) == Ok(v)
  {
    UpperIdempotent(friendly);
    var s := if pretty then friendly else kind;
    assert UpperStr(Strip(s)) == kind;
    Found(s, v);
  }

  /** The round trip for one code, given the table entries of its names. */
  lemma ReadsBackAs(c: int, pretty: bool, kind: string, friendly: string, v: int)
    requires c in Supported && NameEntry(c, kind, friendly, v)
    ensures GetNameOne(IntArg(c), pretty) == Ok(if pretty then friendly else kind)
    ensures NormaliseType(StrArg(if pretty then friendly else kind)) == Ok(v)
  {
    NameOf(c, pretty, kind, friendly);
    NameLooksUp(pretty, kind, friendly, v);
  }

  // The names are checked one code at a time, each fact in a lemma of its
  // own, so that the verifier only compares the few characters that tell a
  // name apart from the other keys of the tables.

  /** `NONE` looks up as 0. */
  lemma LooksUpNone(t: string)
    requires t == "NONE"
    ensures Lookup(t) == Some(0)
  {
    assert t[..4] != "REG_" by { assert t[..4][0] != "REG_"[0]; }
    assert "REG_" + t == "REG_NONE";
    assert "REG_NONE" != "REG_LINK" by { assert "REG_NONE"[4] != "REG_LINK"[4]; }
  }

  /** `None` is a spelling of `NONE`. */
  lemma SpelledNone(f: string)
    requires f == "None"
    ensures UpperStr(f) == "NONE"
  {
  }

  /** `-1` is named `NONE`. */
  lemma NamedNone(c: int, kind: string)
    requires c == -1 && kind == "NONE"
    ensures c in KindNames && KindNames[c] == kind
  {
  }

  /** `NONE` is spelled `None`. */
  lemma FriendlyNone(kind: string, friendly: string)
    requires kind == "NONE" && friendly == "None"
    ensures kind in FriendlyNames && FriendlyNames[kind] == friendly
  {
    assert |"NONE"| != |"UNKNOWN"|;
    assert |"NONE"| != |"STRING"|;
    assert |"NONE"| != |"EXPANDSTRING"|;
    assert |"NONE"| != |"BINARY"|;
    assert |"NONE"| != |"DWORD"|;
    assert |"NONE"| != |"MULTISTRING"|;
    assert |"NONE"| != |"QWORD"|;
  }

  /** The table entries of `NONE` and `None`. */
  lemma ListedNone(c: int, kind: string, friendly: string)
    requires c == -1 && kind == "NONE" && friendly == "None"
    ensures c in KindNames && KindNames[c] == kind && kind in FriendlyNames && FriendlyNames[kind] == friendly
    ensures Strip(kind) == kind && Strip(friendly) == friendly
  {
    NamedNone(c, kind);
    FriendlyNone(kind, friendly);
    StripClean(kind);
    StripClean(friendly);
  }

  lemma EntryNone(c: int, kind: string, friendly: string)
    requires c == -1 && kind == "NONE" && friendly == "None"
    ensures NameEntry(c, kind, friendly, 0)
  {
    ListedNone(c, kind, friendly);
    LooksUpNone(kind);
    SpelledNone(friendly);
  }

  /** `UNKNOWN` looks up as 0. */
  lemma LooksUpUnknown(t: string)
    requires t == "UNKNOWN"
    ensures Lookup(t) == Some(0)
  {
    assert t[..4] != "REG_" by { assert t[..4][0] != "REG_"[0]; }
    assert |"REG_" + t| == 11;
  }

  /** `Unknown` is a spelling of `UNKNOWN`. */
  lemma SpelledUnknown(f: string)
    requires f == "Unknown"
    ensures UpperStr(f) == "UNKNOWN"
  {
  }

  /** `0` is named `UNKNOWN`. */
  lemma NamedUnknown(c: int, kind: string)
    requires c == 0 && kind == "UNKNOWN"
    ensures c in KindNames && KindNames[c] == kind
  {
  }

  /** `UNKNOWN` is spelled `Unknown`. */
  lemma FriendlyUnknown(kind: string, friendly: string)
    requires kind == "UNKNOWN" && friendly == "Unknown"
    ensures kind in FriendlyNames && FriendlyNames[kind] == friendly
  {
    assert |"UNKNOWN"| != |"STRING"|;
    assert |"UNKNOWN"| != |"EXPANDSTRING"|;
    assert |"UNKNOWN"| != |"BINARY"|;
    assert |"UNKNOWN"| != |"DWORD"|;
    assert |"UNKNOWN"| != |"MULTISTRING"|;
    assert |"UNKNOWN"| != |"QWORD"|;
  }

  /** The table entries of `UNKNOWN` and `Unknown`. */
  lemma ListedUnknown(c: int, kind: string, friendly: string)
    requires c == 0 && kind == "UNKNOWN" && friendly == "Unknown"
    ensures c in KindNames && KindNames[c] == kind && kind in FriendlyNames && FriendlyNames[kind] == friendly
    ensures Strip(kind) == kind && Strip(friendly) == friendly
  {
    NamedUnknown(c, kind);
    FriendlyUnknown(kind, friendly);
    StripClean(kind);
    StripClean(friendly);
  }

  lemma EntryUnknown(c: int, kind: string, friendly: string)
    requires c == 0 && kind == "UNKNOWN" && friendly == "Unknown"
    ensures NameEntry(c, kind, friendly, 0)
  {
    ListedUnknown(c, kind, friendly);
    LooksUpUnknown(kind);
    SpelledUnknown(friendly);
  }

  /** `STRING` looks up as 1. */
  lemma LooksUpString(t: string)
    requires t == "STRING"
    ensures Lookup(t) == Some(1)
  {
    assert t[..4] != "REG_" by { assert t[..4][0] != "REG_"[0]; }
    assert "REG_" + t != "REG_BINARY" by { assert ("REG_" + t)[4] != "REG_BINARY"[4]; }
    assert t != "BINARY" by { assert t[0] != "BINARY"[0]; }
  }

  /** `String` is a spelling of `STRING`. */
  lemma SpelledString(f: string)
    requires f == "String"
    ensures UpperStr(f) == "STRING"
  {
  }

  /** `1` is named `STRING`. */
  lemma NamedString(c: int, kind: string)
    requires c == 1 && kind == "STRING"
    ensures c in KindNames && KindNames[c] == kind
  {
  }

  /** `STRING` is spelled `String`. */
  lemma FriendlyString(kind: string, friendly: string)
    requires kind == "STRING" && friendly == "String"
    ensures kind in FriendlyNames && FriendlyNames[kind] == friendly
  {
    assert |"STRING"| != |"EXPANDSTRING"|;
    assert "STRING" != "BINARY" by { assert "STRING"[0] != "BINARY"[0]; }
    assert |"STRING"| != |"DWORD"|;
    assert |"STRING"| != |"MULTISTRING"|;
    assert |"STRING"| != |"QWORD"|;
  }

  /** The table entries of `STRING` and `String`. */
  lemma ListedString(c: int, kind: string, friendly: string)
    requires c == 1 && kind == "STRING" && friendly == "String"
    ensures c in KindNames && KindNames[c] == kind && kind in FriendlyNames && FriendlyNames[kind] == friendly
    ensures Strip(kind) == kind && Strip(friendly) == friendly
  {
    NamedString(c, kind);
    FriendlyString(kind, friendly);
    StripClean(kind);
    StripClean(friendly);
  }

  lemma EntryString(c: int, kind: string, friendly: string)
    requires c == 1 && kind == "STRING" && friendly == "String"
    ensures NameEntry(c, kind, friendly, 1)
  {
    ListedString(c, kind, friendly);
    LooksUpString(kind);
    SpelledString(friendly);
  }

  /** `EXPANDSTRING` looks up as 2. */
  lemma LooksUpExpandString(t: string)
    requires t == "EXPANDSTRING"
    ensures Lookup(t) == Some(2)
  {
    assert t[..4] != "REG_" by { assert t[..4][0] != "REG_"[0]; }
    assert |"REG_" + t| == 16;
  }

  /** `ExpandString` is a spelling of `EXPANDSTRING`. */
  lemma SpelledExpandString(f: string)
    requires f == "ExpandString"
    ensures UpperStr(f) == "EXPANDSTRING"
  {
  }

  /** `2` is named `EXPANDSTRING`. */
  lemma NamedExpandString(c: int, kind: string)
    requires c == 2 && kind == "EXPANDSTRING"
    ensures c in KindNames && KindNames[c] == kind
  {
  }

  /** `EXPANDSTRING` is spelled `ExpandString`. */
  lemma FriendlyExpandString(kind: string, friendly: string)
    requires kind == "EXPANDSTRING" && friendly == "ExpandString"
    ensures kind in FriendlyNames && FriendlyNames[kind] == friendly
  {
    assert |"EXPANDSTRING"| != |"BINARY"|;
    assert |"EXPANDSTRING"| != |"DWORD"|;
    assert |"EXPANDSTRING"| != |"MULTISTRING"|;
    assert |"EXPANDSTRING"| != |"QWORD"|;
  }

  /** The table entries of `EXPANDSTRING` and `ExpandString`. */
  lemma ListedExpandString(c: int, kind: string, friendly: string)
    requires c == 2 && kind == "EXPANDSTRING" && friendly == "ExpandString"
    ensures c in KindNames && KindNames[c] == kind && kind in FriendlyNames && FriendlyNames[kind] == friendly
    ensures Strip(kind) == kind && Strip(friendly) == friendly
  {
    NamedExpandString(c, kind);
    FriendlyExpandString(kind, friendly);
    StripClean(kind);
    StripClean(friendly);
  }

  lemma EntryExpandString(c: int, kind: string, friendly: string)
    requires c == 2 && kind == "EXPANDSTRING" && friendly == "ExpandString"
    ensures NameEntry(c, kind, friendly, 2)
  {
    ListedExpandString(c, kind, friendly);
    LooksUpExpandString(kind);
    SpelledExpandString(friendly);
  }

  /** `BINARY` looks up as 3. */
  lemma LooksUpBinary(t: string)
    requires t == "BINARY"
    ensures Lookup(t) == Some(3)
  {
    assert t[..4] != "REG_" by { assert t[..4][0] != "REG_"[0]; }
    assert "REG_" + t == "REG_BINARY";
  }

  /** `Binary` is a spelling of `BINARY`. */
  lemma SpelledBinary(f: string)
    requires f == "Binary"
    ensures UpperStr(f) == "BINARY"
  {
  }

  /** `3` is named `BINARY`. */
  lemma NamedBinary(c: int, kind: string)
    requires c == 3 && kind == "BINARY"
    ensures c in KindNames && KindNames[c] == kind
  {
  }

  /** `BINARY` is spelled `Binary`. */
  lemma FriendlyBinary(kind: string, friendly: string)
    requires kind == "BINARY" && friendly == "Binary"
    ensures kind in FriendlyNames && FriendlyNames[kind] == friendly
  {
    assert |"BINARY"| != |"DWORD"|;
    assert |"BINARY"| != |"MULTISTRING"|;
    assert |"BINARY"| != |"QWORD"|;
  }

  /** The table entries of `BINARY` and `Binary`. */
  lemma ListedBinary(c: int, kind: string, friendly: string)
    requires c == 3 && kind == "BINARY" && friendly == "Binary"
    ensures c in KindNames && KindNames[c] == kind && kind in FriendlyNames && FriendlyNames[kind] == friendly
    ensures Strip(kind) == kind && Strip(friendly) == friendly
  {
    NamedBinary(c, kind);
    FriendlyBinary(kind, friendly);
    StripClean(kind);
    StripClean(friendly);
  }

  lemma EntryBinary(c: int, kind: string, friendly: string)
    requires c == 3 && kind == "BINARY" && friendly == "Binary"
    ensures NameEntry(c, kind, friendly, 3)
  {
    ListedBinary(c, kind, friendly);
    LooksUpBinary(kind);
    SpelledBinary(friendly);
  }

  /** `DWORD` looks up as 4. */
  lemma LooksUpDWord(t: string)
    requires t == "DWORD"
    ensures Lookup(t) == Some(4)
  {
    assert t[..4] != "REG_" by { assert t[..4][0] != "REG_"[0]; }
    assert "REG_" + t == "REG_DWORD";
    assert "REG_DWORD" != "REG_QWORD" by { assert "REG_DWORD"[4] != "REG_QWORD"[4]; }
  }

  /** `DWord` is a spelling of `DWORD`. */
  lemma SpelledDWord(f: string)
    requires f == "DWord"
    ensures UpperStr(f) == "DWORD"
  {
  }

  /** `4` is named `DWORD`. */
  lemma NamedDWord(c: int, kind: string)
    requires c == 4 && kind == "DWORD"
    ensures c in KindNames && KindNames[c] == kind
  {
  }

  /** `DWORD` is spelled `DWord`. */
  lemma FriendlyDWord(kind: string, friendly: string)
    requires kind == "DWORD" && friendly == "DWord"
    ensures kind in FriendlyNames && FriendlyNames[kind] == friendly
  {
    assert |"DWORD"| != |"MULTISTRING"|;
    assert "DWORD" != "QWORD" by { assert "DWORD"[0] != "QWORD"[0]; }
  }

  /** The table entries of `DWORD` and `DWord`. */
  lemma ListedDWord(c: int, kind: string, friendly: string)
    requires c == 4 && kind == "DWORD" && friendly == "DWord"
    ensures c in KindNames && KindNames[c] == kind && kind in FriendlyNames && FriendlyNames[kind] == friendly
    ensures Strip(kind) == kind && Strip(friendly) == friendly
  {
    NamedDWord(c, kind);
    FriendlyDWord(kind, friendly);
    StripClean(kind);
    StripClean(friendly);
  }

  lemma EntryDWord(c: int, kind: string, friendly: string)
    requires c == 4 && kind == "DWORD" && friendly == "DWord"
    ensures NameEntry(c, kind, friendly, 4)
  {
    ListedDWord(c, kind, friendly);
    LooksUpDWord(kind);
    SpelledDWord(friendly);
  }

  /** `MULTISTRING` looks up as 7. */
  lemma LooksUpMultiString(t: string)
    requires t == "MULTISTRING"
    ensures Lookup(t) == Some(7)
  {
    assert t[..4] != "REG_" by { assert t[..4][0] != "REG_"[0]; }
    assert |"REG_" + t| == 15;
  }

  /** `MultiString` is a spelling of `MULTISTRING`. */
  lemma SpelledMultiString(f: string)
    requires f == "MultiString"
    ensures UpperStr(f) == "MULTISTRING"
  {
  }

  /** `7` is named `MULTISTRING`. */
  lemma NamedMultiString(c: int, kind: string)
    requires c == 7 && kind == "MULTISTRING"
    ensures c in KindNames && KindNames[c] == kind
  {
  }

  /** `MULTISTRING` is spelled `MultiString`. */
  lemma FriendlyMultiString(kind: string, friendly: string)
    requires kind == "MULTISTRING" && friendly == "MultiString"
    ensures kind in FriendlyNames && FriendlyNames[kind] == friendly
  {
    assert |"MULTISTRING"| != |"QWORD"|;
  }

  /** The table entries of `MULTISTRING` and `MultiString`. */
  lemma ListedMultiString(c: int, kind: string, friendly: string)
    requires c == 7 && kind == "MULTISTRING" && friendly == "MultiString"
    ensures c in KindNames && KindNames[c] == kind && kind in FriendlyNames && FriendlyNames[kind] == friendly
    ensures Strip(kind) == kind && Strip(friendly) == friendly
  {
    NamedMultiString(c, kind);
    FriendlyMultiString(kind, friendly);
    StripClean(kind);
    StripClean(friendly);
  }

  lemma EntryMultiString(c: int, kind: string, friendly: string)
    requires c == 7 && kind == "MULTISTRING" && friendly == "MultiString"
    ensures NameEntry(c, kind, friendly, 7)
  {
    ListedMultiString(c, kind, friendly);
    LooksUpMultiString(kind);
    SpelledMultiString(friendly);
  }

  /** `QWORD` looks up as 11. */
  lemma LooksUpQWord(t: string)
    requires t == "QWORD"
    ensures Lookup(t) == Some(11)
  {
    assert t[..4] != "REG_" by { assert t[..4][0] != "REG_"[0]; }
    assert "REG_" + t == "REG_QWORD";
  }

  /** `QWord` is a spelling of `QWORD`. */
  lemma SpelledQWord(f: string)
    requires f == "QWord"
    ensures UpperStr(f) == "QWORD"
  {
  }

  /** `11` is named `QWORD`. */
  lemma NamedQWord(c: int, kind: string)
    requires c == 11 && kind == "QWORD"
    ensures c in KindNames && KindNames[c] == kind
  {
  }

  /** `QWORD` is spelled `QWord`. */
  lemma FriendlyQWord(kind: string, friendly: string)
    requires kind == "QWORD" && friendly == "QWord"
    ensures kind in FriendlyNames && FriendlyNames[kind] == friendly
  {

  }

  /** The table entries of `QWORD` and `QWord`. */
  lemma ListedQWord(c: int, kind: string, friendly: string)
    requires c == 11 && kind == "QWORD" && friendly == "QWord"
    ensures c in KindNames && KindNames[c] == kind && kind in FriendlyNames && FriendlyNames[kind] == friendly
    ensures Strip(kind) == kind && Strip(friendly) == friendly
  {
    NamedQWord(c, kind);
    FriendlyQWord(kind, friendly);
    StripClean(kind);
    StripClean(friendly);
  }

  lemma EntryQWord(c: int, kind: string, friendly: string)
    requires c == 11 && kind == "QWORD" && friendly == "QWord"
    ensures NameEntry(c, kind, friendly, 11)
  {
    ListedQWord(c, kind, friendly);
    LooksUpQWord(kind);
    SpelledQWord(friendly);
  }
}
