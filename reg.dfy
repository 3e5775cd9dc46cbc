/** `Reg` (`reg.py`): testing, reading, writing and deleting registry keys
    and values through PowerShell. Each function looks at the command's
    output itself and, on a permission refusal, asks the user once whether
    to retry elevated. */
module Reg {
  import opened Wrappers
  import opened Text
  import opened Classify
  import opened Shell
  import opened Run
  import Errors
  import RegErrors
  import RegTypes
  import CmdErrors

  type Error = Errors.Error

  /** What a registry command's output says: nothing (the commands are
      silenced with `Out-Null`), a permission refusal, or another error. */
  datatype Verdict = Clean | Refused | Raised(error: Error)

  /** `if out.strip() or err.strip(): check_error(out + '\n' + err, ...)`:
      blank output is success; otherwise the registry table decides, and
      output no row explains is a `RuntimeError`. (`get_reg` passes the exit
      code as well; the registry table never looks at it.) */
  function Judge(reply: Reply): (v: Verdict)
    ensures v == Clean <==> Strip(reply.out) == [] && Strip(reply.err) == []
    ensures v == Refused <==>
      (Strip(reply.out) != [] || Strip(reply.err) != []) && RegErrors.Matches(RegErrors.Permission, Joined(reply))
    ensures v.Raised? ==>
      v.error == Errors.Runtime
      || (v.error.Registry? && v.error.reg != RegErrors.Permission && RegErrors.Matches(v.error.reg, Joined(reply)))
  {
    if Strip(reply.out) == [] && Strip(reply.err) == [] then Clean
    else
      var k := RegErrors.CheckError(Joined(reply), None, All);
      assert RegErrors.Rank(RegErrors.Permission) == 0;
      if k == Some(RegErrors.Permission) then Refused
      else if k.Some? then Raised(Errors.Registry(k.value))
      else Raised(Errors.Runtime)
  }

  /** How the module reads what it is given and told: the runner's test
      for a refused access, what the elevation wrapper's output makes of an
      elevated launch, the registry's verdict on a command's output, and the
      normalisation of a type argument (`get_name` raises exactly when
      `normalise` does, see `RegTypes.GetNameOne`). The functions below take
      the reading as a parameter, so that what follows from their control
      flow can be shown apart from the text classification; `Actual` is the
      reading the code does. */
  datatype Reading = Reading(refused: Reply -> bool, wrapped: Option<Error>, judge: Reply -> Verdict,
                             normalise: RegTypes.TypeArg -> Result<int, Error>)

  function Actual(env: Env): Reading {
    Reading(Denied, WrapperError(env.wrapper), Judge, RegTypes.NormaliseType)
  }

  /** `Run.run_ps(cmd, elevate=..., auto_elevate=...)` under a reading. */
  function Ps(rd: Reading, env: Env, w: World, cmd: Command, elevate: bool, autoElevate: bool): Outcome<Reply> {
    RunPsBy(rd.refused, rd.wrapped, env, w, cmd, elevate, autoElevate, false)
  }

  /** The command ran and its output is a permission refusal. */
  predicate Refusal(rd: Reading, o: Outcome<Reply>) {
    o.result.Ok? && rd.judge(o.result.value) == Refused
  }

  /** The outcome of a write whose output is not retried: blank output is
      success, a refusal is raised as the registry's permission error. */
  function Settled(rd: Reading, o: Outcome<Reply>): (r: Outcome<()>)
    ensures r.world == o.world
    ensures r.result.Ok? <==> o.result.Ok? && rd.judge(o.result.value) == Clean
    ensures o.result.Ok? && rd.judge(o.result.value) == Refused ==> r.result == Err(Errors.Registry(RegErrors.Permission))
    ensures o.result.Err? ==> r.result == Err(o.result.error)
  {
    match o.result
    case Err(e) => Outcome(o.world, Err(e))
    case Ok(reply) =>
      match rd.judge(reply)
      case Clean => Outcome(o.world, Ok(()))
      case Refused => Outcome(o.world, Err(Errors.Registry(RegErrors.Permission)))
      case Raised(e) => Outcome(o.world, Err(e))
  }

  /** `Reg.handle_error`: the runner's abort and refusal become the
      registry's own; every other outcome passes through. */
  function Handled<T>(o: Outcome<T>): (r: Outcome<T>)
    ensures r.world == o.world
    ensures o.result.Ok? ==> r == o
    ensures o.result.Err? ==> r.result == Err(Errors.RegHandle(o.result.error))
  {
    match o.result
    case Ok(_) => o
    case Err(e) => Outcome(o.world, Err(Errors.RegHandle(e)))
  }

  // ---------------------------------------------------------------------
  // test_reg

  /** `Reg.test_reg(path, name, elevate, auto_elevate)`. Without a name,
      `Test-Path` is run and its trimmed, lower-cased output must read
      `true` or `false`. With a name the value is read, and only an
      item-not-found error means it is absent. */
  function TestRegWith(rd: Reading, env: Env, w: World, path: string, name: Option<string>,
                       elevate: bool, autoElevate: bool): Outcome<bool> {
    Handled(
      if name.None? then Answer(Ps(rd, env, w, TestPath(path), elevate, autoElevate))
      else Found(GetRegWith(rd, env, w, path, name.value, elevate, autoElevate)))
  }

  /** What `test_reg` makes of the output of `Test-Path`. */
  function Answer(o: Outcome<Reply>): (t: Outcome<bool>)
    ensures t.world == o.world
    ensures t.result.Ok? ==> o.result.Ok? && t.result.value == (LowerStr(Strip(o.result.value.out)) == "true")
    ensures o.result.Ok? && LowerStr(Strip(o.result.value.out)) in {"true", "false"} ==> t.result.Ok?
    ensures o.result.Err? ==> t.result == Err(o.result.error)
  {
    match o.result
    case Err(e) => Outcome(o.world, Err(e))
    case Ok(reply) =>
      var answer := LowerStr(Strip(reply.out));
      if answer == "true" then Outcome(o.world, Ok(true))
      else if answer == "false" then Outcome(o.world, Ok(false))
      else Outcome(o.world, Err(Errors.Runtime))
  }

  /** What `test_reg` makes of `get_reg`: only the item-not-found error
      means absent; every other error propagates. */
  function Found(g: Outcome<(Data, int)>): (t: Outcome<bool>)
    ensures t.world == g.world
    ensures t.result == Ok(false) <==> g.result == Err(Errors.Registry(RegErrors.ItemNotFound))
    ensures t.result == Ok(true) <==> g.result.Ok?
    ensures t.result.Err? ==> g.result.Err? && t.result.error == g.result.error
  {
    match g.result
    case Ok(_) => Outcome(g.world, Ok(true))
    case Err(e) =>
      if e == Errors.Registry(RegErrors.ItemNotFound) then Outcome(g.world, Ok(false))
      else Outcome(g.world, Err(e))
  }

  // ---------------------------------------------------------------------
  // get_reg

  /** `Reg.get_reg(path, name, elevate, auto_elevate)`: a fresh exchange
      file; the script that reads the value and its kind into it; any output
      is an error (a refusal retried elevated once the user agrees); an
      empty file is an `AssertionError`; the kind read back is normalised.
      The file is deleted at the end, whatever happened. */
  function GetRegWith(rd: Reading, env: Env, w: World, path: string, name: string,
                      elevate: bool, autoElevate: bool): Outcome<(Data, int)>
    decreases if elevate then 0 else 1
  {
    var o := Ps(rd, env, w.(exchange := None), ReadValue(path, name), elevate, autoElevate);
    Handled(
      if Refusal(rd, o) && autoElevate && !elevate then
        var w1 := Prompted(o.world.(exchange := None));
        if env.consent then GetRegWith(rd, env, w1, path, name, true, true)
        else Outcome(w1, Err(Errors.Registry(RegErrors.Permission)))
      else ValueRead(rd, o))
  }

  /** What `get_reg` returns when it does not retry: the command's error, the
      error its output shows, or the value and kind left in the exchange
      file (none there is an `AssertionError`); the file is gone after. */
  function ValueRead(rd: Reading, o: Outcome<Reply>): (r: Outcome<(Data, int)>)
    ensures r.world == o.world.(exchange := None)
    ensures r.result.Ok? <==> o.result.Ok? && rd.judge(o.result.value) == Clean && o.world.exchange.Some?
    ensures r.result.Ok? ==> r.result.value == (o.world.exchange.value.data, RegTypes.Clamp(o.world.exchange.value.kind))
    ensures o.result.Ok? && rd.judge(o.result.value).Raised? ==> r.result == Err(rd.judge(o.result.value).error)
  {
    var done := o.world.(exchange := None);
    match o.result
    case Err(e) => Outcome(done, Err(e))
    case Ok(reply) =>
      match rd.judge(reply)
      case Refused => Outcome(done, Err(Errors.Registry(RegErrors.Permission)))
      case Raised(e) => Outcome(done, Err(e))
      case Clean =>
        match o.world.exchange
        case None => Outcome(done, Err(Errors.Assertion))
        case Some(v) => Outcome(done, Ok((v.data, RegTypes.Clamp(v.kind))))
  }

  // ---------------------------------------------------------------------
  // set_reg

  /** The parameter set of `set_reg`: a value needs its name, data and
      type; a bare key needs none of them. True when a value is asked for. */
  function Params(name: Option<string>, value: Option<Data>, regType: Option<RegTypes.TypeArg>): (r: Result<bool, Error>)
    ensures r == Ok(true) <==> name.Some? && value.Some? && regType.Some?
    ensures r == Ok(false) <==> name.None? && value.None? && regType.None?
    ensures r.Err? ==> r.error == Errors.Value
  {
    if name.Some? && value.Some? && regType.Some? then Ok(true)
    else if name.None? && value.None? && regType.None? then Ok(false)
    else Err(Errors.Value)
  }

  /** The skip test of `set_reg`: the value is read and compared, data and
      normalised type; a missing value is simply not the same. */
  function AlreadySet(rd: Reading, env: Env, w: World, path: string, name: string, value: Data, regType: RegTypes.TypeArg,
                      elevate: bool, autoElevate: bool): Outcome<bool>
  {
    var g := GetRegWith(rd, env, w, path, name, elevate, autoElevate);
    match g.result
    case Err(e) =>
      if e == Errors.Registry(RegErrors.ItemNotFound) then Outcome(g.world, Ok(false))
      else Outcome(g.world, Err(e))
    case Ok((data, kind)) =>
      match rd.normalise(regType)
      case Err(e) => Outcome(g.world, Err(e))
      case Ok(t) => Outcome(g.world, Ok(data == value && RegTypes.Clamp(kind) == t))
  }

  /** What `set_reg` runs after its skip test: nothing for a bare key that
      exists, `Set-ItemProperty` on an existing key, else `New-Item` (with
      the value when one is asked for) once the guard has passed; a type
      argument `get_name` cannot name raises before anything is run. The guard
      re-tests the path: as written (`fixed` false) it raises when the path
      is still absent; as intended it raises only when the path has
      appeared meanwhile. */
  function Writer(fixed: bool, rd: Reading, env: Env, w: World, path: string, name: Option<string>, value: Option<Data>,
                  regType: Option<RegTypes.TypeArg>, elevate: bool, autoElevate: bool): Outcome<Option<Command>>
    requires name.Some? == value.Some? == regType.Some?
  {
    var t := TestRegWith(rd, env, w, path, None, elevate, autoElevate);
    match t.result
    case Err(e) => Outcome(t.world, Err(e))
    case Ok(true) =>
      if name.None? then Outcome(t.world, Ok(None))
      else
        (match rd.normalise(regType.value)
         case Err(e) => Outcome(t.world, Err(e))
         case Ok(code) => Outcome(t.world, Ok(Some(SetProperty(path, name.value, Value(value.value, code))))))
    case Ok(false) => Creation(fixed, rd, env, t.world, path, name, value, regType, elevate, autoElevate)
  }

  /** The `New-Item` branch of `set_reg`, behind its guard. */
  function Creation(fixed: bool, rd: Reading, env: Env, w: World, path: string, name: Option<string>, value: Option<Data>,
                    regType: Option<RegTypes.TypeArg>, elevate: bool, autoElevate: bool): Outcome<Option<Command>>
    requires name.Some? == value.Some? == regType.Some?
  {
    var t2 := TestRegWith(rd, env, w, path, None, elevate, autoElevate);
    match t2.result
    case Err(e) => Outcome(t2.world, Err(e))
    case Ok(present) =>
      if present == fixed then Outcome(t2.world, Err(Errors.Runtime))
      else if name.None? then Outcome(t2.world, Ok(Some(NewKey(path, None))))
      else
        match rd.normalise(regType.value)
        case Err(e) => Outcome(t2.world, Err(e))
        case Ok(code) => Outcome(t2.world, Ok(Some(NewKey(path, Some((name.value, Value(value.value, code)))))))
}

  /** `Reg.set_reg`, as written (`fixed` false) or as intended (`fixed`
      true): the parameter set, then the skip test, then the write. */
  function SetRegWith(fixed: bool, rd: Reading, env: Env, w: World, path: string, name: Option<string>, value: Option<Data>,
                      regType: Option<RegTypes.TypeArg>, skip: bool, elevate: bool, autoElevate: bool): Outcome<()>
    decreases if elevate then 0 else 1, 1
  {
    Handled(
      match Params(name, value, regType)
      case Err(e) => Outcome(w, Err(e))
      case Ok(property) =>
        var s := if skip && property then AlreadySet(rd, env, w, path, name.value, value.value, regType.value, elevate, autoElevate)
                 else Outcome(w, Ok(false));
        match s.result
        case Err(e) => Outcome(s.world, Err(e))
        case Ok(true) => Outcome(s.world, Ok(()))
        case Ok(false) => Write(fixed, rd, env, s.world, path, name, value, regType, skip, elevate, autoElevate))
  }

  /** The write of `set_reg` and its output check. The two readings differ
      in the guard of `Writer` and in the permission retry, which as
      written passes on only the path and the name. */
  function Write(fixed: bool, rd: Reading, env: Env, w: World, path: string, name: Option<string>, value: Option<Data>,
                 regType: Option<RegTypes.TypeArg>, skip: bool, elevate: bool, autoElevate: bool): Outcome<()>
    requires name.Some? == value.Some? == regType.Some?
    decreases if elevate then 0 else 1, 0
  {
    var c := Writer(fixed, rd, env, w, path, name, value, regType, elevate, autoElevate);
    match c.result
    case Err(e) => Outcome(c.world, Err(e))
    case Ok(None) => Outcome(c.world, Ok(()))
    case Ok(Some(cmd)) =>
      var o := Ps(rd, env, c.world, cmd, elevate, autoElevate);
      if Refusal(rd, o) && autoElevate && !elevate then
        var w1 := Prompted(o.world);
        if !env.consent then Outcome(w1, Err(Errors.Registry(RegErrors.Permission)))
        else if fixed then SetRegWith(fixed, rd, env, w1, path, name, value, regType, skip, true, true)
        else SetRegWith(fixed, rd, env, w1, path, name, None, None, true, true, true)
      else Settled(rd, o)
  }

  // ---------------------------------------------------------------------
  // del_reg

  /** The command `del_reg` runs: the whole key, recursively, when no name
      is given and the path is not empty; otherwise the named value (a
      missing name is spelled `None`). */
  function Removal(path: string, name: Option<string>): (c: Command)
    ensures c.RemoveKey? <==> name.None? && path != []
    ensures (c.RemoveKey? || c.RemoveProperty?) && c.path == path
    ensures c.RemoveProperty? && name.Some? ==> c.name == name.value
  {
    if name.None? && path != [] then RemoveKey(path)
    else RemoveProperty(path, if name.Some? then name.value else "None")
  }

  /** `Reg.del_reg(path, name, elevate, auto_elevate)`: nothing to do when
      `test_reg` does not find it; otherwise the removal. */
  function DelRegWith(rd: Reading, env: Env, w: World, path: string, name: Option<string>,
                      elevate: bool, autoElevate: bool): Outcome<()>
    decreases if elevate then 0 else 1, 1
  {
    var t := TestRegWith(rd, env, w, path, name, elevate, autoElevate);
    Handled(
      match t.result
      case Err(e) => Outcome(t.world, Err(e))
      case Ok(false) => Outcome(t.world, Ok(()))
      case Ok(true) => Remove(rd, env, t.world, path, name, elevate, autoElevate))
  }

  /** The removal of `del_reg`, whose output is judged like the other
      writes', a refusal retried elevated once the user agrees. */
  function Remove(rd: Reading, env: Env, w: World, path: string, name: Option<string>,
                  elevate: bool, autoElevate: bool): Outcome<()>
    decreases if elevate then 0 else 1, 0
  {
    var o := Ps(rd, env, w, Removal(path, name), elevate, autoElevate);
    if Refusal(rd, o) && autoElevate && !elevate then
      var w1 := Prompted(o.world);
      if env.consent then DelRegWith(rd, env, w1, path, name, true, true)
      else Outcome(w1, Err(Errors.Registry(RegErrors.Permission)))
    else Settled(rd, o)
  }

  // ---------------------------------------------------------------------
  // The functions as the code reads replies

  function TestReg(env: Env, w: World, path: string, name: Option<string>, elevate: bool, autoElevate: bool): Outcome<bool> {
    TestRegWith(Actual(env), env, w, path, name, elevate, autoElevate)
  }

  function GetReg(env: Env, w: World, path: string, name: string, elevate: bool, autoElevate: bool): Outcome<(Data, int)> {
    GetRegWith(Actual(env), env, w, path, name, elevate, autoElevate)
  }

  /** `set_reg` as the code is written. */
  function SetRegAsWritten(env: Env, w: World, path: string, name: Option<string>, value: Option<Data>,
                           regType: Option<RegTypes.TypeArg>, skip: bool, elevate: bool, autoElevate: bool): Outcome<()> {
    SetRegWith(false, Actual(env), env, w, path, name, value, regType, skip, elevate, autoElevate)
  }

  /** `set_reg` as intended, the one the device model uses. */
  function SetReg(env: Env, w: World, path: string, name: Option<string>, value: Option<Data>,
                  regType: Option<RegTypes.TypeArg>, skip: bool, elevate: bool, autoElevate: bool): Outcome<()> {
    SetRegWith(true, Actual(env), env, w, path, name, value, regType, skip, elevate, autoElevate)
  }

  function DelReg(env: Env, w: World, path: string, name: Option<string>, elevate: bool, autoElevate: bool): Outcome<()> {
    DelRegWith(Actual(env), env, w, path, name, elevate, autoElevate)
  }

  // ---------------------------------------------------------------------
  // What the functions do on a faithful registry

  /** What a reading must make of the replies of a faithful registry:
      silence is success, the answers of `Test-Path` are not refusals, and
      the report of a missing item is the item-not-found error and not a
      refusal. */
  predicate Plain(rd: Reading, env: Env) {
    !rd.refused(Silent) && rd.judge(Silent) == Clean
    && !rd.refused(Reply(0, "True\n", "")) && !rd.refused(Reply(0, "False\n", ""))
    && !rd.refused(Missing(env)) && rd.judge(Missing(env)) == Raised(Errors.Registry(RegErrors.ItemNotFound))
  }

  /** The environment reports a missing key or value as the registry's
      item-not-found error (as `GetValueKind`'s message is, see
      `RegErrors.MissingValueIsNotFound`), and not as a refusal. */
  predicate MissingReported(env: Env) {
    Strip(env.missingText) != []
    && !Denied(Missing(env))
    && RegErrors.CheckError(Joined(Missing(env)), Some(1), All) == Some(RegErrors.ItemNotFound)
  }

  /** `Test-Path` prints `True` or `False`; neither is taken for a refusal,
      and either reads back as the boolean it spells. */
  lemma TrueAnswer(s: string)
    requires s == "True\n"
    ensures LowerStr(Strip(s)) == "true"
    ensures Regex.Lacks(s + "\n" + "", 'c') && Regex.Lacks(s + "\n" + "", 'm')
  {
    TrueStrip(s);
    TrueLower(Strip(s));
    TrueLacks(s + "\n" + "");
  }

  lemma TrueLacks(t: string)
    requires t == "True\n\n"
    ensures Regex.Lacks(t, 'c') && Regex.Lacks(t, 'm')
  {
    assert forall k | 0 <= k < |t| :: t[k] in "True\n";
  }

  lemma TrueStrip(s: string)
    requires s == "True\n"
    ensures Strip(s) == "True"
  {
    assert s == "True" + "\n";
    StripLine("True");
  }

  lemma TrueLower(s: string)
    requires s == "True"
    ensures LowerStr(s) == "true"
  {
    var r := LowerStr(s);
    assert r[0] == 't' && r[1] == 'r' && r[2] == 'u' && r[3] == 'e';
  }

  lemma FalseAnswer(s: string)
    requires s == "False\n"
    ensures LowerStr(Strip(s)) == "false"
    ensures Regex.Lacks(s + "\n" + "", 'c') && Regex.Lacks(s + "\n" + "", 'm')
  {
    FalseStrip(s);
    FalseLower(Strip(s));
    FalseLacks(s + "\n" + "");
  }

  lemma FalseLacks(t: string)
    requires t == "False\n\n"
    ensures Regex.Lacks(t, 'c') && Regex.Lacks(t, 'm')
  {
    assert forall k | 0 <= k < |t| :: t[k] in "False\n";
  }

  lemma FalseStrip(s: string)
    requires s == "False\n"
    ensures Strip(s) == "False"
  {
    assert s == "False" + "\n";
    StripLine("False");
  }

  lemma FalseLower(s: string)
    requires s == "False"
    ensures LowerStr(s) == "false"
  {
    var r := LowerStr(s);
    assert r[0] == 'f' && r[1] == 'a' && r[2] == 'l' && r[3] == 's' && r[4] == 'e';
  }

  /** A command that prints nothing is neither refused nor in error. */
  lemma SilentAccepted(r: Reply)
    requires r.out == [] && r.err == []
    ensures !Denied(r) && Judge(r) == Clean
  {
    assert Joined(r) == "\n";
    CmdErrors.NotDeniedWithout(Joined(r), Some(r.rc));
  }

  /** The answers of `Test-Path` are not refusals. */
  lemma AnswerNotDenied(r: Reply)
    requires r == Reply(0, "True\n", "") || r == Reply(0, "False\n", "")
    ensures !Denied(r)
  {
    if r.out == "True\n" {
      TrueAnswer(r.out);
    } else {
      FalseAnswer(r.out);
    }
    CmdErrors.NotDeniedWithout(Joined(r), Some(0));
  }

  /** The code's reading is plain on an environment that reports missing
      items as such. */
  lemma ActualPlain(env: Env)
    requires MissingReported(env)
    ensures Plain(Actual(env), env)
  {
    SilentAccepted(Silent);
    AnswerNotDenied(Reply(0, "True\n", ""));
    AnswerNotDenied(Reply(0, "False\n", ""));
    MissingJudged(env);
  }

  /** A missing item's report is judged an item-not-found error. */
  lemma MissingJudged(env: Env)
    requires MissingReported(env)
    ensures Judge(Missing(env)) == Raised(Errors.Registry(RegErrors.ItemNotFound))
  {
    var m := Missing(env);
    RegErrors.CheckErrorFold(Joined(m), Joined(m), None, Some(1), All);
    assert Strip(m.err) != [];
  }

  /** `Test-Path` on a faithful registry answers whether the key exists,
      and changes nothing else. */
  lemma TestPathAnswers(rd: Reading, env: Env, w: World, path: string, autoElevate: bool)
    requires Faithful(env) && Plain(rd, env) && !env.denied(TestPath(path), false)
    ensures Ps(rd, env, w, TestPath(path), false, autoElevate)
      == Outcome(w.(log := w.log + [Ran(TestPath(path), false)]), Ok(Reply(0, if path in w.reg.keys then "True\n" else "False\n", "")))
  {
    var c := Cmdlet(env, TestPath(path), w.reg, w.exchange, false);
    LaunchLog(rd.wrapped, env, w, TestPath(path), false);
  }

  /** Without a name, `test_reg` answers whether the key exists, by one
      `Test-Path` that changes nothing else, whenever that command is not
      refused. */
  lemma TestRegKeyWith(rd: Reading, env: Env, w: World, path: string, autoElevate: bool)
    requires Faithful(env) && Plain(rd, env) && !env.denied(TestPath(path), false)
    ensures TestRegWith(rd, env, w, path, None, false, autoElevate)
      == Outcome(w.(log := w.log + [Ran(TestPath(path), false)]), Ok(path in w.reg.keys))
  {
    TestPathAnswers(rd, env, w, path, autoElevate);
    if path in w.reg.keys {
      TrueAnswer("True\n");
    } else {
      FalseAnswer("False\n");
    }
  }

  lemma TestRegKey(env: Env, w: World, path: string, autoElevate: bool)
    requires Faithful(env) && MissingReported(env) && !env.denied(TestPath(path), false)
    ensures TestReg(env, w, path, None, false, autoElevate)
      == Outcome(w.(log := w.log + [Ran(TestPath(path), false)]), Ok(path in w.reg.keys))
  {
    ActualPlain(env);
    TestRegKeyWith(Actual(env), env, w, path, autoElevate);
  }

  /** What the registry holds under a key and a value name: the data and
      the normalised kind, or the item-not-found error. */
  function Held(reg: Registry, path: string, name: string): (r: Result<(Data, int), Error>)
    ensures r.Ok? <==> path in reg.keys && (path, name) in reg.values
    ensures r.Ok? ==> r.value.0 == reg.values[(path, name)].data && r.value.1 in RegTypes.Supported
    ensures r.Err? ==> r.error == Errors.Registry(RegErrors.ItemNotFound)
  {
    if path in reg.keys && (path, name) in reg.values then
      var v := reg.values[(path, name)];
      Ok((v.data, RegTypes.Clamp(v.kind)))
    else Err(Errors.Registry(RegErrors.ItemNotFound))
  }

  /** The script of `get_reg` on a faithful registry: it leaves the value in
      the exchange file and prints nothing, or prints the missing-item
      report. */
  lemma ReadValueReplies(rd: Reading, env: Env, w: World, path: string, name: string, autoElevate: bool)
    requires Faithful(env) && Plain(rd, env) && !env.denied(ReadValue(path, name), false)
    ensures var present := path in w.reg.keys && (path, name) in w.reg.values;
      Ps(rd, env, w, ReadValue(path, name), false, autoElevate)
        == Outcome(w.(exchange := if present then Some(w.reg.values[(path, name)]) else w.exchange,
                      log := w.log + [Ran(ReadValue(path, name), false)]),
                   Ok(if present then Silent else Missing(env)))
  {
    var c := Cmdlet(env, ReadValue(path, name), w.reg, w.exchange, false);
    LaunchLog(rd.wrapped, env, w, ReadValue(path, name), false);
  }

  /** `get_reg` on a faithful registry reads what the registry holds, by one
      command that changes nothing but leaves no exchange file. */
  lemma GetRegReadsWith(rd: Reading, env: Env, w: World, path: string, name: string, autoElevate: bool)
    requires Faithful(env) && Plain(rd, env) && !env.denied(ReadValue(path, name), false)
    ensures GetRegWith(rd, env, w, path, name, false, autoElevate)
      == Outcome(w.(exchange := None, log := w.log + [Ran(ReadValue(path, name), false)]), Held(w.reg, path, name))
  {
    ReadValueReplies(rd, env, w.(exchange := None), path, name, autoElevate);
  }

  lemma GetRegReads(env: Env, w: World, path: string, name: string, autoElevate: bool)
    requires Faithful(env) && MissingReported(env) && !env.denied(ReadValue(path, name), false)
    ensures GetReg(env, w, path, name, false, autoElevate)
      == Outcome(w.(exchange := None, log := w.log + [Ran(ReadValue(path, name), false)]), Held(w.reg, path, name))
  {
    ActualPlain(env);
    GetRegReadsWith(Actual(env), env, w, path, name, autoElevate);
  }

  /** With a name, `test_reg` is False exactly when `get_reg` raises the
      item-not-found error, True when it returns, and raises what else it
      raises. */
  lemma TestRegNamed(rd: Reading, env: Env, w: World, path: string, name: string, elevate: bool, autoElevate: bool)
    ensures var g := GetRegWith(rd, env, w, path, name, elevate, autoElevate);
      var t := TestRegWith(rd, env, w, path, Some(name), elevate, autoElevate);
      t.world == g.world
      && (t.result == Ok(false) <==> g.result == Err(Errors.Registry(RegErrors.ItemNotFound)))
      && (t.result == Ok(true) <==> g.result.Ok?)
      && (t.result.Err? ==> g.result.Err? && t.result.error == g.result.error)
  {
    var g := GetRegWith(rd, env, w, path, name, elevate, autoElevate);
    assert TestRegWith(rd, env, w, path, Some(name), elevate, autoElevate) == Handled(Found(g));
    if g.result.Err? {
      Errors.RegHandleProperties(g.result.error);
    }
  }

  /** With a name, `test_reg` answers whether the value exists. */
  lemma TestRegValue(env: Env, w: World, path: string, name: string, autoElevate: bool)
    requires Faithful(env) && MissingReported(env) && !env.denied(ReadValue(path, name), false)
    ensures TestReg(env, w, path, Some(name), false, autoElevate)
      == Outcome(w.(exchange := None, log := w.log + [Ran(ReadValue(path, name), false)]),
                 Ok(path in w.reg.keys && (path, name) in w.reg.values))
  {
    TestRegNamed(Actual(env), env, w, path, name, false, autoElevate);
    GetRegReads(env, w, path, name, autoElevate);
  }

  /** The registry with a value written under a key, the key and every key
      above it created when missing. */
  function Put(reg: Registry, path: string, name: string, v: Value): Registry {
    Registry(reg.keys + {path} + Above(path), reg.values[(path, name) := v])
  }

  /** After `Put` the value reads back, and every other value reads as
      before. */
  lemma PutHeld(reg: Registry, path: string, name: string, v: Value, p: string, n: string)
    requires Consistent(reg) && v.kind in RegTypes.Supported
    ensures Held(Put(reg, path, name, v), p, n)
      == if (p, n) == (path, name) then Ok((v.data, v.kind)) else Held(reg, p, n)
    ensures Consistent(Put(reg, path, name, v))
  {
    AddKeyConsistent(reg, path);
  }

  /** `Set-ItemProperty` on an existing key, and `New-Item -Force` with a
      value on a key that does not exist, both put the value and print
      nothing. */
  lemma SetPropertyPuts(env: Env, reg: Registry, exchange: Option<Value>, path: string, name: string, v: Value)
    requires Faithful(env) && Consistent(reg) && path in reg.keys
    ensures env.act(SetProperty(path, name, v), reg, exchange, false) == Change(Put(reg, path, name, v), exchange, Silent)
  {
    var c := Cmdlet(env, SetProperty(path, name, v), reg, exchange, false);
    assert reg.keys + {path} + Above(path) == reg.keys;
  }

  lemma NewKeyPuts(env: Env, reg: Registry, exchange: Option<Value>, path: string, name: string, v: Value)
    requires Faithful(env) && Consistent(reg) && path !in reg.keys
    ensures env.act(NewKey(path, Some((name, v))), reg, exchange, false) == Change(Put(reg, path, name, v), exchange, Silent)
  {
    var c := Cmdlet(env, NewKey(path, Some((name, v))), reg, exchange, false);
    var kept := map k | k in reg.values && k.0 != path :: reg.values[k];
    assert kept == reg.values;
  }

  /** A write command that prints nothing runs once, unrefused, and its
      output is judged a success. */
  lemma WriteRuns(rd: Reading, env: Env, w: World, cmd: Command, autoElevate: bool, reg: Registry)
    requires Plain(rd, env) && !env.denied(cmd, false)
    requires env.act(cmd, w.reg, w.exchange, false) == Change(reg, w.exchange, Silent)
    ensures var o := Ps(rd, env, w, cmd, false, autoElevate);
      o == Outcome(w.(reg := reg, log := w.log + [Ran(cmd, false)]), Ok(Silent))
      && !Refusal(rd, o) && Settled(rd, o) == Outcome(o.world, Ok(()))
  {
    LaunchLog(rd.wrapped, env, w, cmd, false);
  }

  /** A write whose chosen command runs and prints nothing succeeds. */
  lemma WriteSucceeds(fixed: bool, rd: Reading, env: Env, w: World, path: string, name: Option<string>, value: Option<Data>,
                      regType: Option<RegTypes.TypeArg>, skip: bool, autoElevate: bool, cmd: Command, w1: World, w2: World)
    requires name.Some? == value.Some? == regType.Some?
    requires Writer(fixed, rd, env, w, path, name, value, regType, false, autoElevate) == Outcome(w1, Ok(Some(cmd)))
    requires Ps(rd, env, w1, cmd, false, autoElevate) == Outcome(w2, Ok(Silent)) && rd.judge(Silent) == Clean
    ensures Write(fixed, rd, env, w, path, name, value, regType, skip, false, autoElevate) == Outcome(w2, Ok(()))
  {
  }

  /** On an existing key `Set-ItemProperty` is chosen after one
      `Test-Path`, under either reading of the guard. */
  lemma WriterSets(fixed: bool, rd: Reading, env: Env, w: World, path: string, name: string, value: Data,
                   regType: RegTypes.TypeArg, autoElevate: bool)
    requires Faithful(env) && Plain(rd, env) && path in w.reg.keys && !env.denied(TestPath(path), false)
    requires rd.normalise(regType).Ok?
    ensures Writer(fixed, rd, env, w, path, Some(name), Some(value), Some(regType), false, autoElevate)
      == Outcome(w.(log := w.log + [Ran(TestPath(path), false)]),
                 Ok(Some(SetProperty(path, name, Value(value, rd.normalise(regType).value)))))
  {
    TestRegKeyWith(rd, env, w, path, autoElevate);
  }

  /** On an existing key the value is written with `Set-ItemProperty`
      after one `Test-Path`, under either reading of the guard. */
  lemma WriteExisting(fixed: bool, rd: Reading, env: Env, w: World, path: string, name: string, value: Data,
                      regType: RegTypes.TypeArg, skip: bool, autoElevate: bool)
    requires Faithful(env) && Plain(rd, env) && Consistent(w.reg) && path in w.reg.keys && rd.normalise(regType).Ok?
    requires var v := Value(value, rd.normalise(regType).value);
      !env.denied(TestPath(path), false) && !env.denied(SetProperty(path, name, v), false)
    ensures var v := Value(value, rd.normalise(regType).value);
      Write(fixed, rd, env, w, path, Some(name), Some(value), Some(regType), skip, false, autoElevate)
        == Outcome(w.(reg := Put(w.reg, path, name, v),
                      log := w.log + [Ran(TestPath(path), false), Ran(SetProperty(path, name, v), false)]), Ok(()))
  {
    var v := Value(value, rd.normalise(regType).value);
    WriterSets(fixed, rd, env, w, path, name, value, regType, autoElevate);
    var w1 := w.(log := w.log + [Ran(TestPath(path), false)]);
    SetPropertyPuts(env, w1.reg, w1.exchange, path, name, v);
    WriteRuns(rd, env, w1, SetProperty(path, name, v), autoElevate, Put(w.reg, path, name, v));
    WriteSucceeds(fixed, rd, env, w, path, Some(name), Some(value), Some(regType), skip, autoElevate, SetProperty(path, name, v), w1,
                  w1.(reg := Put(w.reg, path, name, v), log := w1.log + [Ran(SetProperty(path, name, v), false)]));
  }

  /** On a key that does not exist, the guard's second `Test-Path` finds
      nothing again: as intended the key is then created, as written the
      guard raises. */
  lemma CreationGuard(fixed: bool, rd: Reading, env: Env, w: World, path: string, name: Option<string>, value: Option<Data>,
                      regType: Option<RegTypes.TypeArg>, autoElevate: bool)
    requires name.Some? == value.Some? == regType.Some?
    requires Faithful(env) && Plain(rd, env) && path !in w.reg.keys && !env.denied(TestPath(path), false)
    ensures var c := Creation(fixed, rd, env, w, path, name, value, regType, false, autoElevate);
      c.world == w.(log := w.log + [Ran(TestPath(path), false)])
      && (!fixed ==> c.result == Err(Errors.Runtime))
      && (fixed && name.None? ==> c.result == Ok(Some(NewKey(path, None))))
      && (fixed && name.Some? && rd.normalise(regType.value).Ok? ==>
            c.result == Ok(Some(NewKey(path, Some((name.value, Value(value.value, rd.normalise(regType.value).value)))))))
  {
    TestRegKeyWith(rd, env, w, path, autoElevate);
  }

  /** On a key that does not exist the intended guard passes and
      `New-Item` is chosen, after two `Test-Path`s. */
  lemma WriterCreates(rd: Reading, env: Env, w: World, path: string, name: string, value: Data,
                      regType: RegTypes.TypeArg, autoElevate: bool)
    requires Faithful(env) && Plain(rd, env) && path !in w.reg.keys && !env.denied(TestPath(path), false)
    requires rd.normalise(regType).Ok?
    ensures Writer(true, rd, env, w, path, Some(name), Some(value), Some(regType), false, autoElevate)
      == Outcome(w.(log := w.log + [Ran(TestPath(path), false), Ran(TestPath(path), false)]),
                 Ok(Some(NewKey(path, Some((name, Value(value, rd.normalise(regType).value)))))))
  {
    TestRegKeyWith(rd, env, w, path, autoElevate);
    var w1 := w.(log := w.log + [Ran(TestPath(path), false)]);
    CreationGuard(true, rd, env, w1, path, Some(name), Some(value), Some(regType), autoElevate);
  }

  /** ... and `New-Item` creates the key with the value. */
  lemma WriteCreates(rd: Reading, env: Env, w: World, path: string, name: string, value: Data,
                     regType: RegTypes.TypeArg, skip: bool, autoElevate: bool)
    requires Faithful(env) && Plain(rd, env) && Consistent(w.reg) && path !in w.reg.keys
    requires rd.normalise(regType).Ok?
    requires var v := Value(value, rd.normalise(regType).value);
      !env.denied(TestPath(path), false) && !env.denied(NewKey(path, Some((name, v))), false)
    ensures var v := Value(value, rd.normalise(regType).value);
      Write(true, rd, env, w, path, Some(name), Some(value), Some(regType), skip, false, autoElevate)
        == Outcome(w.(reg := Put(w.reg, path, name, v),
                      log := w.log + [Ran(TestPath(path), false), Ran(TestPath(path), false),
                                      Ran(NewKey(path, Some((name, v))), false)]), Ok(()))
  {
    var v := Value(value, rd.normalise(regType).value);
    WriterCreates(rd, env, w, path, name, value, regType, autoElevate);
    var w2 := w.(log := w.log + [Ran(TestPath(path), false), Ran(TestPath(path), false)]);
    NewKeyPuts(env, w2.reg, w2.exchange, path, name, v);
    WriteRuns(rd, env, w2, NewKey(path, Some((name, v))), autoElevate, Put(w.reg, path, name, v));
    WriteSucceeds(true, rd, env, w, path, Some(name), Some(value), Some(regType), skip, autoElevate, NewKey(path, Some((name, v))), w2,
                  w2.(reg := Put(w.reg, path, name, v), log := w2.log + [Ran(NewKey(path, Some((name, v))), false)]));
  }

  /** As written, the guard raises whenever the key does not exist: after
      two `Test-Path`s nothing is written, for a value or a bare key. */
  lemma WriteGuardAsWritten(rd: Reading, env: Env, w: World, path: string, name: Option<string>, value: Option<Data>,
                            regType: Option<RegTypes.TypeArg>, skip: bool, autoElevate: bool)
    requires name.Some? == value.Some? == regType.Some?
    requires Faithful(env) && Plain(rd, env) && path !in w.reg.keys && !env.denied(TestPath(path), false)
    ensures Write(false, rd, env, w, path, name, value, regType, skip, false, autoElevate)
      == Outcome(w.(log := w.log + [Ran(TestPath(path), false), Ran(TestPath(path), false)]), Err(Errors.Runtime))
  {
    WriterGuardAsWritten(rd, env, w, path, name, value, regType, autoElevate);
  }

  /** The guard as written, on the chosen command alone. */
  lemma WriterGuardAsWritten(rd: Reading, env: Env, w: World, path: string, name: Option<string>, value: Option<Data>,
                             regType: Option<RegTypes.TypeArg>, autoElevate: bool)
    requires name.Some? == value.Some? == regType.Some?
    requires Faithful(env) && Plain(rd, env) && path !in w.reg.keys && !env.denied(TestPath(path), false)
    ensures Writer(false, rd, env, w, path, name, value, regType, false, autoElevate)
      == Outcome(w.(log := w.log + [Ran(TestPath(path), false), Ran(TestPath(path), false)]), Err(Errors.Runtime))
  {
    TestRegKeyWith(rd, env, w, path, autoElevate);
    var w1 := w.(log := w.log + [Ran(TestPath(path), false)]);
    CreationGuard(false, rd, env, w1, path, name, value, regType, autoElevate);
    assert w1.log + [Ran(TestPath(path), false)] == w.log + [Ran(TestPath(path), false), Ran(TestPath(path), false)];
  }

  /** The skip test reads the value first: when it already holds the data
      and the normalised type nothing is written, otherwise the write
      follows on the world the read left. */
  lemma SkipReads(fixed: bool, rd: Reading, env: Env, w: World, path: string, name: string, value: Data,
                  regType: RegTypes.TypeArg, autoElevate: bool)
    requires Faithful(env) && Plain(rd, env) && !env.denied(ReadValue(path, name), false) && rd.normalise(regType).Ok?
    ensures var w0 := w.(exchange := None, log := w.log + [Ran(ReadValue(path, name), false)]);
      SetRegWith(fixed, rd, env, w, path, Some(name), Some(value), Some(regType), true, false, autoElevate)
        == if Held(w.reg, path, name) == Ok((value, rd.normalise(regType).value)) then Outcome(w0, Ok(()))
           else Handled(Write(fixed, rd, env, w0, path, Some(name), Some(value), Some(regType), true, false, autoElevate))
  {
    AlreadySetReads(rd, env, w, path, name, value, regType, autoElevate);
  }

  /** The skip test's answer: whether the value holds the data and the
      normalised type, after one read. */
  lemma AlreadySetReads(rd: Reading, env: Env, w: World, path: string, name: string, value: Data,
                        regType: RegTypes.TypeArg, autoElevate: bool)
    requires Faithful(env) && Plain(rd, env) && !env.denied(ReadValue(path, name), false) && rd.normalise(regType).Ok?
    ensures AlreadySet(rd, env, w, path, name, value, regType, false, autoElevate)
      == Outcome(w.(exchange := None, log := w.log + [Ran(ReadValue(path, name), false)]),
                 Ok(Held(w.reg, path, name) == Ok((value, rd.normalise(regType).value))))
  {
    GetRegReadsWith(rd, env, w, path, name, autoElevate);
  }

  /** The commands `set_reg` may run for a value are not refused. */
  predicate WritesAllowed(env: Env, path: string, name: string, v: Value) {
    !env.denied(ReadValue(path, name), false) && !env.denied(TestPath(path), false)
    && !env.denied(SetProperty(path, name, v), false) && !env.denied(NewKey(path, Some((name, v))), false)
  }

  /** `set_reg` with a value on a faithful registry, as intended on any key
      and as written on a key that exists (the written guard only matters
      when it does not): nothing is raised, and either the value was
      already there (and nothing was written) or it is put, its key and the keys
      above it created when missing. */
  lemma SetRegPutsWith(fixed: bool, rd: Reading, env: Env, w: World, path: string, name: string, value: Data,
                       regType: RegTypes.TypeArg, skip: bool, autoElevate: bool)
    requires Faithful(env) && Plain(rd, env) && Consistent(w.reg) && rd.normalise(regType).Ok?
    requires fixed || path in w.reg.keys
    requires WritesAllowed(env, path, name, Value(value, rd.normalise(regType).value))
    ensures var v := Value(value, rd.normalise(regType).value);
      var r := SetRegWith(fixed, rd, env, w, path, Some(name), Some(value), Some(regType), skip, false, autoElevate);
      r.result == Ok(())
      && ((r.world.reg == w.reg && Held(w.reg, path, name) == Ok((value, v.kind))) || r.world.reg == Put(w.reg, path, name, v))
  {
    var w0 := if skip then w.(exchange := None, log := w.log + [Ran(ReadValue(path, name), false)]) else w;
    if skip {
      SkipReads(fixed, rd, env, w, path, name, value, regType, autoElevate);
    } else {
      assert SetRegWith(fixed, rd, env, w, path, Some(name), Some(value), Some(regType), skip, false, autoElevate)
        == Handled(Write(fixed, rd, env, w, path, Some(name), Some(value), Some(regType), skip, false, autoElevate));
    }
    if path in w.reg.keys {
      WriteExisting(fixed, rd, env, w0, path, name, value, regType, skip, autoElevate);
    } else {
      WriteCreates(rd, env, w0, path, name, value, regType, skip, autoElevate);
    }
  }

  /** ... so that afterwards a value whose data fits its normalised type
      (`Fits`) reads back with that type,
      every other value reads as before, the only keys that can appear are the
      value's own and those above it, and the registry stays a tree. */
  lemma SetRegHeldWith(fixed: bool, rd: Reading, env: Env, w: World, path: string, name: string, value: Data,
                       regType: RegTypes.TypeArg, skip: bool, autoElevate: bool)
    requires Faithful(env) && Plain(rd, env) && Consistent(w.reg) && rd.normalise(regType).Ok?
    requires fixed || path in w.reg.keys
    requires rd.normalise(regType).value in RegTypes.Supported
    requires WritesAllowed(env, path, name, Value(value, rd.normalise(regType).value))
    requires Fits(Value(value, rd.normalise(regType).value))
    ensures var r := SetRegWith(fixed, rd, env, w, path, Some(name), Some(value), Some(regType), skip, false, autoElevate);
      r.result == Ok(())
      && Held(r.world.reg, path, name) == Ok((value, rd.normalise(regType).value))
      && (forall p, n | (p, n) != (path, name) :: Held(r.world.reg, p, n) == Held(w.reg, p, n))
      && r.world.reg.keys == w.reg.keys + {path} + Above(path)
      && Consistent(r.world.reg)
  {
    var v := Value(value, rd.normalise(regType).value);
    SetRegPutsWith(fixed, rd, env, w, path, name, value, regType, skip, autoElevate);
    var r := SetRegWith(fixed, rd, env, w, path, Some(name), Some(value), Some(regType), skip, false, autoElevate);
    WrittenHeld(w.reg, r.world.reg, path, name, v);
  }

  /** A registry where the value was already held, or where it was put,
      holds it, holds every other value as before, and has gained only the
      key and the keys above it. */
  lemma WrittenHeld(reg: Registry, reg2: Registry, path: string, name: string, v: Value)
    requires Consistent(reg) && v.kind in RegTypes.Supported
    requires (reg2 == reg && Held(reg, path, name) == Ok((v.data, v.kind))) || reg2 == Put(reg, path, name, v)
    ensures Held(reg2, path, name) == Ok((v.data, v.kind))
    ensures forall p, n | (p, n) != (path, name) :: Held(reg2, p, n) == Held(reg, p, n)
    ensures reg2.keys == reg.keys + {path} + Above(path)
    ensures Consistent(reg2)
  {
    if reg2 == Put(reg, path, name, v) {
      PutHeld(reg, path, name, v, path, name);
      forall p, n ensures Held(reg2, p, n) == if (p, n) == (path, name) then Ok((v.data, v.kind)) else Held(reg, p, n) {
        PutHeld(reg, path, name, v, p, n);
      }
    } else {
      AddExistingKey(reg, path);
    }
  }

  /** `set_reg` with a value that fits its type, as intended and as the code
      reads replies. */
  lemma SetRegPuts(env: Env, w: World, path: string, name: string, value: Data,
                   regType: RegTypes.TypeArg, skip: bool, autoElevate: bool)
    requires Faithful(env) && MissingReported(env) && Consistent(w.reg) && RegTypes.NormaliseType(regType).Ok?
    requires WritesAllowed(env, path, name, Value(value, RegTypes.NormaliseType(regType).value))
    requires Fits(Value(value, RegTypes.NormaliseType(regType).value))
    ensures var r := SetReg(env, w, path, Some(name), Some(value), Some(regType), skip, false, autoElevate);
      r.result == Ok(())
      && Held(r.world.reg, path, name) == Ok((value, RegTypes.NormaliseType(regType).value))
      && (forall p, n | (p, n) != (path, name) :: Held(r.world.reg, p, n) == Held(w.reg, p, n))
      && r.world.reg.keys == w.reg.keys + {path} + Above(path)
      && Consistent(r.world.reg)
  {
    ActualPlain(env);
    SetRegHeldWith(true, Actual(env), env, w, path, name, value, regType, skip, autoElevate);
  }

  /** After the corrected `set_reg` of a value, `test_reg` finds the key
      and every key above it: the write creates the intermediate keys. */
  lemma SetThenTestAbove(env: Env, w: World, path: string, name: string, value: Data,
                         regType: RegTypes.TypeArg, skip: bool, autoElevate: bool)
    requires Faithful(env) && MissingReported(env) && Consistent(w.reg) && RegTypes.NormaliseType(regType).Ok?
    requires WritesAllowed(env, path, name, Value(value, RegTypes.NormaliseType(regType).value))
    requires Fits(Value(value, RegTypes.NormaliseType(regType).value))
    requires forall q | q in Above(path) :: !env.denied(TestPath(q), false)
    ensures var w1 := SetReg(env, w, path, Some(name), Some(value), Some(regType), skip, false, autoElevate).world;
      forall q | q in Above(path) :: TestReg(env, w1, q, None, false, autoElevate).result == Ok(true)
  {
    SetRegPuts(env, w, path, name, value, regType, skip, autoElevate);
    var w1 := SetReg(env, w, path, Some(name), Some(value), Some(regType), skip, false, autoElevate).world;
    forall q | q in Above(path) ensures TestReg(env, w1, q, None, false, autoElevate).result == Ok(true) {
      TestRegKey(env, w1, q, autoElevate);
    }
  }

  /** A value the corrected `set_reg` has written reads back with
      `get_reg`. */
  lemma SetThenGet(env: Env, w: World, path: string, name: string, value: Data,
                   regType: RegTypes.TypeArg, skip: bool, autoElevate: bool)
    requires Faithful(env) && MissingReported(env) && Consistent(w.reg) && RegTypes.NormaliseType(regType).Ok?
    requires WritesAllowed(env, path, name, Value(value, RegTypes.NormaliseType(regType).value))
    requires Fits(Value(value, RegTypes.NormaliseType(regType).value))
    ensures var w1 := SetReg(env, w, path, Some(name), Some(value), Some(regType), skip, false, autoElevate).world;
      GetReg(env, w1, path, name, false, autoElevate).result == Ok((value, RegTypes.NormaliseType(regType).value))
  {
    SetRegPuts(env, w, path, name, value, regType, skip, autoElevate);
    var w1 := SetReg(env, w, path, Some(name), Some(value), Some(regType), skip, false, autoElevate).world;
    GetRegReads(env, w1, path, name, autoElevate);
  }

  /** Setting the same value twice with the corrected `set_reg` and the
      skip test: the second call finds it and writes nothing. */
  lemma SetTwice(env: Env, w: World, path: string, name: string, value: Data,
                 regType: RegTypes.TypeArg, skip: bool, autoElevate: bool)
    requires Faithful(env) && MissingReported(env) && Consistent(w.reg) && RegTypes.NormaliseType(regType).Ok?
    requires WritesAllowed(env, path, name, Value(value, RegTypes.NormaliseType(regType).value))
    requires Fits(Value(value, RegTypes.NormaliseType(regType).value))
    ensures var w1 := SetReg(env, w, path, Some(name), Some(value), Some(regType), skip, false, autoElevate).world;
      var r := SetReg(env, w1, path, Some(name), Some(value), Some(regType), true, false, autoElevate);
      r.result == Ok(()) && r.world.reg == w1.reg
      && r.world.log == w1.log + [Ran(ReadValue(path, name), false)]
  {
    SetRegPuts(env, w, path, name, value, regType, skip, autoElevate);
    var w1 := SetReg(env, w, path, Some(name), Some(value), Some(regType), skip, false, autoElevate).world;
    ActualPlain(env);
    SkipReads(true, Actual(env), env, w1, path, name, value, regType, autoElevate);
  }

  /** When the skip test (if any) finds nothing to skip, `set_reg` is its
      write, on the world the test left. */
  lemma SetRegWrites(fixed: bool, rd: Reading, env: Env, w: World, path: string, name: Option<string>, value: Option<Data>,
                     regType: Option<RegTypes.TypeArg>, skip: bool, autoElevate: bool, w0: World)
    requires Params(name, value, regType).Ok?
    requires if skip && name.Some? then AlreadySet(rd, env, w, path, name.value, value.value, regType.value, false, autoElevate)
                                        == Outcome(w0, Ok(false))
             else w0 == w
    ensures SetRegWith(fixed, rd, env, w, path, name, value, regType, skip, false, autoElevate)
      == Handled(Write(fixed, rd, env, w0, path, name, value, regType, skip, false, autoElevate))
  {
  }

  /** The skip test finds nothing to skip when the value is missing. */
  lemma AlreadySetMissing(rd: Reading, env: Env, w: World, path: string, name: string, value: Data, regType: RegTypes.TypeArg,
                          autoElevate: bool)
    requires GetRegWith(rd, env, w, path, name, false, autoElevate).result == Err(Errors.Registry(RegErrors.ItemNotFound))
    ensures AlreadySet(rd, env, w, path, name, value, regType, false, autoElevate)
      == Outcome(GetRegWith(rd, env, w, path, name, false, autoElevate).world, Ok(false))
  {
  }

  /** As written, the write raises on a key that does not exist, and the
      decorator passes the error on unchanged. */
  lemma GuardRaises(rd: Reading, env: Env, w: World, path: string, name: Option<string>, value: Option<Data>,
                    regType: Option<RegTypes.TypeArg>, skip: bool, autoElevate: bool)
    requires name.Some? == value.Some? == regType.Some?
    requires Faithful(env) && Plain(rd, env) && path !in w.reg.keys && !env.denied(TestPath(path), false)
    ensures Handled(Write(false, rd, env, w, path, name, value, regType, skip, false, autoElevate))
      == Outcome(w.(log := w.log + [Ran(TestPath(path), false), Ran(TestPath(path), false)]), Err(Errors.Runtime))
  {
    WriteGuardAsWritten(rd, env, w, path, name, value, regType, skip, autoElevate);
  }

  /** As written, `set_reg` never creates a key: on a key that does not
      exist it raises `RuntimeError` after its guard and writes nothing,
      whatever the parameter set. */
  lemma SetRegAsWrittenNoNewKeyWith(rd: Reading, env: Env, w: World, path: string, name: Option<string>, value: Option<Data>,
                                    regType: Option<RegTypes.TypeArg>, skip: bool, autoElevate: bool)
    requires Faithful(env) && Plain(rd, env) && Params(name, value, regType).Ok? && path !in w.reg.keys
    requires !env.denied(TestPath(path), false) && (name.Some? ==> !env.denied(ReadValue(path, name.value), false))
    ensures var r := SetRegWith(false, rd, env, w, path, name, value, regType, skip, false, autoElevate);
      r.result == Err(Errors.Runtime) && r.world.reg == w.reg
  {
    if skip && name.Some? {
      var w0 := w.(exchange := None, log := w.log + [Ran(ReadValue(path, name.value), false)]);
      GetRegReadsWith(rd, env, w, path, name.value, autoElevate);
      AlreadySetMissing(rd, env, w, path, name.value, value.value, regType.value, autoElevate);
      SetRegWrites(false, rd, env, w, path, name, value, regType, skip, autoElevate, w0);
      GuardRaises(rd, env, w0, path, name, value, regType, skip, autoElevate);
    } else {
      SetRegWrites(false, rd, env, w, path, name, value, regType, skip, autoElevate, w);
      GuardRaises(rd, env, w, path, name, value, regType, skip, autoElevate);
    }
  }

  lemma SetRegAsWrittenNoNewKey(env: Env, w: World, path: string, name: Option<string>, value: Option<Data>,
                                regType: Option<RegTypes.TypeArg>, skip: bool, autoElevate: bool)
    requires Faithful(env) && MissingReported(env) && Params(name, value, regType).Ok? && path !in w.reg.keys
    requires !env.denied(TestPath(path), false) && (name.Some? ==> !env.denied(ReadValue(path, name.value), false))
    ensures var r := SetRegAsWritten(env, w, path, name, value, regType, skip, false, autoElevate);
      r.result == Err(Errors.Runtime) && r.world.reg == w.reg
  {
    ActualPlain(env);
    SetRegAsWrittenNoNewKeyWith(Actual(env), env, w, path, name, value, regType, skip, autoElevate);
  }

  /** `New-Item -Force` without a value on a key that does not exist adds
      the key and the keys above it, and no value. */
  lemma NewBareKey(env: Env, reg: Registry, exchange: Option<Value>, path: string)
    requires Faithful(env) && Consistent(reg) && path !in reg.keys
    ensures env.act(NewKey(path, None), reg, exchange, false) == Change(reg.(keys := reg.keys + {path} + Above(path)), exchange, Silent)
  {
    var c := Cmdlet(env, NewKey(path, None), reg, exchange, false);
    var kept := map k | k in reg.values && k.0 != path :: reg.values[k];
    assert kept == reg.values;
  }

  /** `set_reg` for a bare key, as intended: a key that exists is left as it
      is after one `Test-Path`; one that does not is created after the
      guard's second one, and no value changes. */
  lemma SetRegKeyWith(rd: Reading, env: Env, w: World, path: string, skip: bool, autoElevate: bool)
    requires Faithful(env) && Plain(rd, env) && Consistent(w.reg)
    requires !env.denied(TestPath(path), false) && !env.denied(NewKey(path, None), false)
    ensures SetRegWith(true, rd, env, w, path, None, None, None, skip, false, autoElevate)
      == if path in w.reg.keys then Outcome(w.(log := w.log + [Ran(TestPath(path), false)]), Ok(()))
         else Outcome(w.(reg := w.reg.(keys := w.reg.keys + {path} + Above(path)),
                         log := w.log + [Ran(TestPath(path), false), Ran(TestPath(path), false), Ran(NewKey(path, None), false)]),
                      Ok(()))
  {
    if path in w.reg.keys {
      SetRegKeyExists(rd, env, w, path, skip, autoElevate);
    } else {
      SetRegKeyCreates(rd, env, w, path, skip, autoElevate);
    }
  }

  lemma SetRegKeyExists(rd: Reading, env: Env, w: World, path: string, skip: bool, autoElevate: bool)
    requires Faithful(env) && Plain(rd, env) && path in w.reg.keys
    requires !env.denied(TestPath(path), false)
    ensures SetRegWith(true, rd, env, w, path, None, None, None, skip, false, autoElevate)
      == Outcome(w.(log := w.log + [Ran(TestPath(path), false)]), Ok(()))
  {
    SetRegWrites(true, rd, env, w, path, None, None, None, skip, autoElevate, w);
    TestRegKeyWith(rd, env, w, path, autoElevate);
  }

  lemma SetRegKeyCreates(rd: Reading, env: Env, w: World, path: string, skip: bool, autoElevate: bool)
    requires Faithful(env) && Plain(rd, env) && Consistent(w.reg) && path !in w.reg.keys
    requires !env.denied(TestPath(path), false) && !env.denied(NewKey(path, None), false)
    ensures SetRegWith(true, rd, env, w, path, None, None, None, skip, false, autoElevate)
      == Outcome(w.(reg := w.reg.(keys := w.reg.keys + {path} + Above(path)),
                    log := w.log + [Ran(TestPath(path), false), Ran(TestPath(path), false), Ran(NewKey(path, None), false)]),
                 Ok(()))
  {
    SetRegWrites(true, rd, env, w, path, None, None, None, skip, autoElevate, w);
    TestRegKeyWith(rd, env, w, path, autoElevate);
    var w1 := w.(log := w.log + [Ran(TestPath(path), false)]);
    {
      CreationGuard(true, rd, env, w1, path, None, None, None, autoElevate);
      var w2 := w1.(log := w1.log + [Ran(TestPath(path), false)]);
      assert Writer(true, rd, env, w, path, None, None, None, false, autoElevate) == Outcome(w2, Ok(Some(NewKey(path, None))));
      var bare := w.reg.(keys := w.reg.keys + {path} + Above(path));
      NewBareKey(env, w2.reg, w2.exchange, path);
      WriteRuns(rd, env, w2, NewKey(path, None), autoElevate, bare);
      WriteSucceeds(true, rd, env, w, path, None, None, None, skip, autoElevate, NewKey(path, None), w2,
                    w2.(reg := bare, log := w2.log + [Ran(NewKey(path, None), false)]));
    }
  }

  lemma SetRegKeyAddsWith(rd: Reading, env: Env, w: World, path: string, skip: bool, autoElevate: bool)
    requires Faithful(env) && Plain(rd, env) && Consistent(w.reg)
    requires !env.denied(TestPath(path), false) && !env.denied(NewKey(path, None), false)
    ensures var r := SetRegWith(true, rd, env, w, path, None, None, None, skip, false, autoElevate);
      r.result == Ok(()) && r.world.reg.keys == w.reg.keys + {path} + Above(path) && r.world.reg.values == w.reg.values
  {
    SetRegKeyWith(rd, env, w, path, skip, autoElevate);
  }

  /** The corrected `set_reg` of a bare key adds the key and the missing
      keys above it, and changes no value. (As written it raises on an absent key:
      `SetRegAsWrittenNoNewKey`.) */
  lemma SetRegKey(env: Env, w: World, path: string, skip: bool, autoElevate: bool)
    requires Faithful(env) && MissingReported(env) && Consistent(w.reg)
    requires !env.denied(TestPath(path), false) && !env.denied(NewKey(path, None), false)
    ensures var r := SetReg(env, w, path, None, None, None, skip, false, autoElevate);
      r.result == Ok(()) && r.world.reg.keys == w.reg.keys + {path} + Above(path) && r.world.reg.values == w.reg.values
  {
    ActualPlain(env);
    SetRegKeyAddsWith(Actual(env), env, w, path, skip, autoElevate);
  }

  /** `test_reg` finds a key after the corrected `set_reg` has made it. */
  lemma SetKeyThenTest(env: Env, w: World, path: string, skip: bool, autoElevate: bool)
    requires Faithful(env) && MissingReported(env) && Consistent(w.reg)
    requires !env.denied(TestPath(path), false) && !env.denied(NewKey(path, None), false)
    ensures var w1 := SetReg(env, w, path, None, None, None, skip, false, autoElevate).world;
      TestReg(env, w1, path, None, false, autoElevate).result == Ok(true)
  {
    SetRegKey(env, w, path, skip, autoElevate);
    TestRegKey(env, SetReg(env, w, path, None, None, None, skip, false, autoElevate).world, path, autoElevate);
  }

  // ---------------------------------------------------------------------
  // del_reg on a faithful registry

  /** The registry with a key and every key and value below it removed. */
  function Pruned(reg: Registry, p: string): Registry {
    Registry(set k | k in reg.keys && !Under(k, p), map k | k in reg.values && !Under(k.0, p) :: reg.values[k])
  }

  /** After pruning, nothing at or below the key is left, everything else
      is, and every value still lies under a key. */
  lemma PrunedGone(reg: Registry, p: string)
    ensures p !in Pruned(reg, p).keys
    ensures forall k :: k in Pruned(reg, p).keys <==> k in reg.keys && !Under(k, p)
    ensures forall k :: k in Pruned(reg, p).values <==> k in reg.values && !Under(k.0, p)
    ensures forall k | k in Pruned(reg, p).values :: Pruned(reg, p).values[k] == reg.values[k]
    ensures Consistent(reg) ==> Consistent(Pruned(reg, p))
  {
    assert Under(p, p);
    if Consistent(reg) {
      PruneConsistent(reg, p);
    }
  }

  /** `Remove-Item -Recurse` on a key that exists prunes it;
      `Remove-ItemProperty` on a value that exists drops it. */
  lemma RemoveKeyPrunes(env: Env, reg: Registry, exchange: Option<Value>, path: string)
    requires Faithful(env) && path in reg.keys
    ensures env.act(RemoveKey(path), reg, exchange, false) == Change(Pruned(reg, path), exchange, Silent)
  {
    var c := Cmdlet(env, RemoveKey(path), reg, exchange, false);
  }

  lemma RemovePropertyDrops(env: Env, reg: Registry, exchange: Option<Value>, path: string, name: string)
    requires Faithful(env) && (path, name) in reg.values
    ensures env.act(RemoveProperty(path, name), reg, exchange, false)
      == Change(reg.(values := reg.values - {(path, name)}), exchange, Silent)
  {
    var c := Cmdlet(env, RemoveProperty(path, name), reg, exchange, false);
  }

  /** `del_reg` when the test finds the item and the removal prints
      nothing; and when the test does not find it. */
  lemma DelRegRemoves(rd: Reading, env: Env, w: World, path: string, name: Option<string>, autoElevate: bool,
                      w1: World, w2: World)
    requires TestRegWith(rd, env, w, path, name, false, autoElevate) == Outcome(w1, Ok(true))
    requires Ps(rd, env, w1, Removal(path, name), false, autoElevate) == Outcome(w2, Ok(Silent)) && rd.judge(Silent) == Clean
    ensures DelRegWith(rd, env, w, path, name, false, autoElevate) == Outcome(w2, Ok(()))
  {
  }

  lemma DelRegSkips(rd: Reading, env: Env, w: World, path: string, name: Option<string>, autoElevate: bool, w1: World)
    requires TestRegWith(rd, env, w, path, name, false, autoElevate) == Outcome(w1, Ok(false))
    ensures DelRegWith(rd, env, w, path, name, false, autoElevate) == Outcome(w1, Ok(()))
  {
  }

  /** `del_reg` of a key: the key is pruned when it exists, after one
      `Test-Path`; otherwise nothing else happens. */
  lemma DelRegKeyWith(rd: Reading, env: Env, w: World, path: string, autoElevate: bool)
    requires Faithful(env) && Plain(rd, env) && path != []
    requires !env.denied(TestPath(path), false) && !env.denied(RemoveKey(path), false)
    ensures DelRegWith(rd, env, w, path, None, false, autoElevate)
      == if path in w.reg.keys then
           Outcome(w.(reg := Pruned(w.reg, path), log := w.log + [Ran(TestPath(path), false), Ran(RemoveKey(path), false)]), Ok(()))
         else Outcome(w.(log := w.log + [Ran(TestPath(path), false)]), Ok(()))
  {
    TestRegKeyWith(rd, env, w, path, autoElevate);
    var w1 := w.(log := w.log + [Ran(TestPath(path), false)]);
    if path in w.reg.keys {
      RemoveKeyPrunes(env, w1.reg, w1.exchange, path);
      WriteRuns(rd, env, w1, RemoveKey(path), autoElevate, Pruned(w.reg, path));
      DelRegRemoves(rd, env, w, path, None, autoElevate, w1,
                    w1.(reg := Pruned(w.reg, path), log := w1.log + [Ran(RemoveKey(path), false)]));
    } else {
      DelRegSkips(rd, env, w, path, None, autoElevate, w1);
    }
  }

  /** `del_reg` of a value: the value is dropped when it exists, after the
      read that tests for it; otherwise nothing else happens. */
  lemma DelRegValueWith(rd: Reading, env: Env, w: World, path: string, name: string, autoElevate: bool)
    requires Faithful(env) && Plain(rd, env)
    requires !env.denied(ReadValue(path, name), false) && !env.denied(RemoveProperty(path, name), false)
    ensures var w1 := w.(exchange := None, log := w.log + [Ran(ReadValue(path, name), false)]);
      DelRegWith(rd, env, w, path, Some(name), false, autoElevate)
        == if Held(w.reg, path, name).Ok? then
             Outcome(w1.(reg := w.reg.(values := w.reg.values - {(path, name)}),
                         log := w1.log + [Ran(RemoveProperty(path, name), false)]), Ok(()))
           else Outcome(w1, Ok(()))
  {
    var w1 := w.(exchange := None, log := w.log + [Ran(ReadValue(path, name), false)]);
    GetRegReadsWith(rd, env, w, path, name, autoElevate);
    TestRegNamed(rd, env, w, path, name, false, autoElevate);
    if Held(w.reg, path, name).Ok? {
      var dropped := w.reg.(values := w.reg.values - {(path, name)});
      RemovePropertyDrops(env, w1.reg, w1.exchange, path, name);
      WriteRuns(rd, env, w1, RemoveProperty(path, name), autoElevate, dropped);
      DelRegRemoves(rd, env, w, path, Some(name), autoElevate, w1,
                    w1.(reg := dropped, log := w1.log + [Ran(RemoveProperty(path, name), false)]));
    } else {
      DelRegSkips(rd, env, w, path, Some(name), autoElevate, w1);
    }
  }

  /** After `del_reg` of a key that exists, `test_reg` no longer finds it,
      nor anything below it, and every other key and value is as it was;
      a key that does not exist leaves the registry as it was. */
  lemma DelRegKey(env: Env, w: World, path: string, autoElevate: bool)
    requires Faithful(env) && MissingReported(env) && path != []
    requires !env.denied(TestPath(path), false) && !env.denied(RemoveKey(path), false)
    ensures var r := DelReg(env, w, path, None, false, autoElevate);
      r.result == Ok(())
      && (path !in w.reg.keys ==> r.world.reg == w.reg)
      && (path in w.reg.keys ==>
            (forall k :: k in r.world.reg.keys <==> k in w.reg.keys && !Under(k, path))
            && (forall k :: k in r.world.reg.values <==> k in w.reg.values && !Under(k.0, path))
            && (forall k | k in r.world.reg.values :: r.world.reg.values[k] == w.reg.values[k]))
      && (Consistent(w.reg) ==> Consistent(r.world.reg))
  {
    ActualPlain(env);
    DelRegKeyWith(Actual(env), env, w, path, autoElevate);
    PrunedGone(w.reg, path);
  }

  lemma DelRegValueDropsWith(rd: Reading, env: Env, w: World, path: string, name: string, autoElevate: bool)
    requires Faithful(env) && Plain(rd, env)
    requires !env.denied(ReadValue(path, name), false) && !env.denied(RemoveProperty(path, name), false)
    ensures var r := DelRegWith(rd, env, w, path, Some(name), false, autoElevate);
      r.result == Ok(()) && r.world.reg.keys == w.reg.keys
      && Held(r.world.reg, path, name).Err?
      && forall p, n | (p, n) != (path, name) :: Held(r.world.reg, p, n) == Held(w.reg, p, n)
  {
    DelRegValueWith(rd, env, w, path, name, autoElevate);
  }

  /** After `del_reg` of a value, reading it finds nothing; every other
      value is as it was. */
  lemma DelRegValue(env: Env, w: World, path: string, name: string, autoElevate: bool)
    requires Faithful(env) && MissingReported(env)
    requires !env.denied(ReadValue(path, name), false) && !env.denied(RemoveProperty(path, name), false)
    ensures var r := DelReg(env, w, path, Some(name), false, autoElevate);
      r.result == Ok(()) && r.world.reg.keys == w.reg.keys
      && Held(r.world.reg, path, name).Err?
      && forall p, n | (p, n) != (path, name) :: Held(r.world.reg, p, n) == Held(w.reg, p, n)
  {
    ActualPlain(env);
    DelRegValueDropsWith(Actual(env), env, w, path, name, autoElevate);
  }

  /** `test_reg` after `del_reg` of the same key or value answers false. */
  lemma DelThenTest(env: Env, w: World, path: string, name: Option<string>, autoElevate: bool)
    requires Faithful(env) && MissingReported(env) && Consistent(w.reg)
    requires name.None? ==> path != [] && !env.denied(RemoveKey(path), false)
    requires name.Some? ==> !env.denied(RemoveProperty(path, name.value), false)
    requires !env.denied(TestPath(path), false)
    requires name.Some? ==> !env.denied(ReadValue(path, name.value), false)
    ensures var w1 := DelReg(env, w, path, name, false, autoElevate).world;
      TestReg(env, w1, path, name, false, autoElevate).result == Ok(false)
  {
    var w1 := DelReg(env, w, path, name, false, autoElevate).world;
    ActualPlain(env);
    if name.None? {
      DelRegKey(env, w, path, autoElevate);
      TestRegKey(env, w1, path, autoElevate);
      assert Under(path, path);
    } else {
      DelRegValue(env, w, path, name.value, autoElevate);
      TestRegValue(env, w1, path, name.value, autoElevate);
    }
  }

  // ---------------------------------------------------------------------
  // The permission retry of set_reg

  /** A command refused both unelevated and elevated, the user agreeing to
      every prompt and the wrapper staying silent: the runner notices the
      refusal, and the registry table reads the copy that comes back from
      the elevated run (one line break shorter) as a refusal too. */
  predicate RefusedAlways(rd: Reading, env: Env, cmd: Command) {
    env.consent && rd.wrapped == None
    && env.denied(cmd, false) && env.denied(cmd, true)
    && rd.refused(Reply(1, "", env.deniedText))
    && rd.judge(Reply(1, "", DropNewline(env.deniedText))) == Refused
  }

  /** Two events logged one after the other. */
  lemma Appended(log: seq<Event>, a: Event, b: Event)
    ensures log + [a] + [b] == log + [a, b]
  {
  }

  /** `run_ps` elevated through a silent wrapper on a refused command: the
      refusal comes back, read from the files, and is returned as it is. */
  lemma ElevatedRefusal(rd: Reading, env: Env, w: World, cmd: Command)
    requires rd.wrapped == None && env.denied(cmd, true)
    ensures Ps(rd, env, w, cmd, true, true)
      == Outcome(w.(log := w.log + [Ran(cmd, true)]), Ok(Reply(1, "", DropNewline(env.deniedText))))
  {
    assert DropNewline("") == "";
    ExitCodeRoundTrip("", DropNewline(env.deniedText), 1);
  }

  /** `run_ps` unelevated on a command refused both ways: the user is asked,
      the command is run again elevated, and its refusal is returned. */
  lemma RefusedTwice(rd: Reading, env: Env, w: World, cmd: Command)
    requires RefusedAlways(rd, env, cmd)
    ensures var o := Ps(rd, env, w, cmd, false, true);
      o == Outcome(w.(log := w.log + [Ran(cmd, false), Asked, Ran(cmd, true)]), Ok(Reply(1, "", DropNewline(env.deniedText))))
      && Refusal(rd, o)
  {
    var e := Step(env, w, cmd, false);
    assert e.world == w.(log := w.log + [Ran(cmd, false)]);
    UnelevatedRetried(rd.refused, rd.wrapped, env, w, cmd, false);
    ElevatedRefusal(rd, env, Prompted(e.world), cmd);
    assert w.log + [Ran(cmd, false)] + [Asked] + [Ran(cmd, true)] == w.log + [Ran(cmd, false), Asked, Ran(cmd, true)];
  }

  /** `run_ps` elevated through a silent wrapper on a command that runs:
      what it printed, less one line break per stream, and its exit code. */
  lemma ElevatedRuns(rd: Reading, env: Env, w: World, cmd: Command, c: Change)
    requires rd.wrapped == None && !env.denied(cmd, true) && env.act(cmd, w.reg, w.exchange, true) == c
    ensures Ps(rd, env, w, cmd, true, true)
      == Outcome(World(c.reg, c.exchange, w.log + [Ran(cmd, true)]),
                 Ok(Reply(c.reply.rc, DropNewline(c.reply.out), DropNewline(c.reply.err))))
  {
    ExitCodeRoundTrip(DropNewline(c.reply.out), DropNewline(c.reply.err), c.reply.rc);
  }

  /** `Test-Path` on a key that exists prints `True`, elevated or not. */
  lemma TestPathActs(env: Env, reg: Registry, exchange: Option<Value>, path: string, elevated: bool)
    requires Faithful(env) && path in reg.keys
    ensures env.act(TestPath(path), reg, exchange, elevated) == Change(reg, exchange, Reply(0, "True\n", ""))
  {
    var c := Cmdlet(env, TestPath(path), reg, exchange, elevated);
  }

  /** The answer read back from the files still spells true. */
  lemma TrueReadBack(s: string)
    requires s == "True\n"
    ensures DropNewline(s) == "True" && DropNewline("") == "" && LowerStr(Strip(DropNewline(s))) == "true"
  {
    TrueAnswer(s);
    assert DropNewline(s) == s[..4];
    assert TrimEnd(s[..4]) == s[..4];
    assert TrimEnd(s) == s[..4];
  }

  /** `Test-Path` run elevated through a silent wrapper answers true on a
      key that exists. */
  lemma TestPathElevated(rd: Reading, env: Env, w: World, path: string)
    requires Faithful(env) && rd.wrapped == None && path in w.reg.keys && !env.denied(TestPath(path), true)
    ensures TestRegWith(rd, env, w, path, None, true, true) == Outcome(w.(log := w.log + [Ran(TestPath(path), true)]), Ok(true))
  {
    TestPathActs(env, w.reg, w.exchange, path, true);
    ElevatedRuns(rd, env, w, TestPath(path), Change(w.reg, w.exchange, Reply(0, "True\n", "")));
    TrueReadBack("True\n");
  }

  /** When the chosen write is refused and the user agrees, `set_reg` calls
      itself elevated: as intended with every argument, as written with the
      path and the name alone. */
  lemma WriteRetries(fixed: bool, rd: Reading, env: Env, w: World, path: string, name: Option<string>, value: Option<Data>,
                     regType: Option<RegTypes.TypeArg>, skip: bool, cmd: Command, w1: World)
    requires name.Some? == value.Some? == regType.Some?
    requires Writer(fixed, rd, env, w, path, name, value, regType, false, true) == Outcome(w1, Ok(Some(cmd)))
    requires Refusal(rd, Ps(rd, env, w1, cmd, false, true)) && env.consent
    ensures var w2 := Prompted(Ps(rd, env, w1, cmd, false, true).world);
      Write(fixed, rd, env, w, path, name, value, regType, skip, false, true)
        == if fixed then SetRegWith(true, rd, env, w2, path, name, value, regType, skip, true, true)
           else SetRegWith(false, rd, env, w2, path, name, None, None, true, true, true)
  {
  }

  /** The call the written retry makes has a name and no value: the
      parameter check raises `ValueError` before anything runs. */
  lemma RetryAsWrittenRaises(rd: Reading, env: Env, w: World, path: string, name: string)
    ensures SetRegWith(false, rd, env, w, path, Some(name), None, None, true, true, true) == Outcome(w, Err(Errors.Value))
  {
  }

  /** Elevated, with no skip test, `set_reg` is its write. */
  lemma SetRegWritesElevated(fixed: bool, rd: Reading, env: Env, w: World, path: string, name: Option<string>,
                             value: Option<Data>, regType: Option<RegTypes.TypeArg>)
    requires Params(name, value, regType).Ok?
    ensures SetRegWith(fixed, rd, env, w, path, name, value, regType, false, true, true)
      == Handled(Write(fixed, rd, env, w, path, name, value, regType, false, true, true))
  {
  }

  /** Elevated, the write's output is judged and never retried. */
  lemma WriteSettles(fixed: bool, rd: Reading, env: Env, w: World, path: string, name: Option<string>, value: Option<Data>,
                     regType: Option<RegTypes.TypeArg>, cmd: Command, w1: World)
    requires name.Some? == value.Some? == regType.Some?
    requires Writer(fixed, rd, env, w, path, name, value, regType, true, true) == Outcome(w1, Ok(Some(cmd)))
    ensures Write(fixed, rd, env, w, path, name, value, regType, false, true, true) == Settled(rd, Ps(rd, env, w1, cmd, true, true))
  {
  }

  /** Elevated, on an existing key, `Set-ItemProperty` is chosen after one
      `Test-Path`. */
  lemma WriterSetsElevated(rd: Reading, env: Env, w: World, path: string, name: string, value: Data,
                           regType: RegTypes.TypeArg)
    requires Faithful(env) && rd.wrapped == None && path in w.reg.keys && !env.denied(TestPath(path), true)
    requires rd.normalise(regType).Ok?
    ensures Writer(true, rd, env, w, path, Some(name), Some(value), Some(regType), true, true)
      == Outcome(w.(log := w.log + [Ran(TestPath(path), true)]),
                 Ok(Some(SetProperty(path, name, Value(value, rd.normalise(regType).value)))))
  {
    TestPathElevated(rd, env, w, path);
  }

  /** A refusal that is not retried is raised as the registry's permission
      error, and the decorator passes it on. */
  lemma RefusalRaised(rd: Reading, o: Outcome<Reply>)
    requires Refusal(rd, o)
    ensures Handled(Settled(rd, o)) == Outcome(o.world, Err(Errors.Registry(RegErrors.Permission)))
  {
  }

  /** Elevated, a refused write raises the registry's permission error. */
  lemma WriteRaisesRefusal(fixed: bool, rd: Reading, env: Env, w: World, path: string, name: Option<string>, value: Option<Data>,
                           regType: Option<RegTypes.TypeArg>, cmd: Command, w1: World)
    requires name.Some? == value.Some? == regType.Some?
    requires Writer(fixed, rd, env, w, path, name, value, regType, true, true) == Outcome(w1, Ok(Some(cmd)))
    requires Refusal(rd, Ps(rd, env, w1, cmd, true, true))
    ensures Handled(Write(fixed, rd, env, w, path, name, value, regType, false, true, true))
      == Outcome(Ps(rd, env, w1, cmd, true, true).world, Err(Errors.Registry(RegErrors.Permission)))
  {
    WriteSettles(fixed, rd, env, w, path, name, value, regType, cmd, w1);
    RefusalRaised(rd, Ps(rd, env, w1, cmd, true, true));
  }

  /** Elevated and with no skip test, a refused write makes `set_reg`
      raise the registry's permission error. */
  lemma SetRegRefusedElevated(fixed: bool, rd: Reading, env: Env, w: World, path: string, name: Option<string>,
                              value: Option<Data>, regType: Option<RegTypes.TypeArg>, cmd: Command, w1: World, w2: World, back: Reply)
    requires Params(name, value, regType).Ok?
    requires Writer(fixed, rd, env, w, path, name, value, regType, true, true) == Outcome(w1, Ok(Some(cmd)))
    requires Ps(rd, env, w1, cmd, true, true) == Outcome(w2, Ok(back)) && rd.judge(back) == Refused
    ensures SetRegWith(fixed, rd, env, w, path, name, value, regType, false, true, true) == Outcome(w2, Err(Errors.Registry(RegErrors.Permission)))
  {
    SetRegWritesElevated(fixed, rd, env, w, path, name, value, regType);
    WriteRaisesRefusal(fixed, rd, env, w, path, name, value, regType, cmd, w1);
  }

  /** Elevated, on an existing key whose write is refused: one `Test-Path`,
      the write, and the registry's permission error. */
  lemma ElevatedWriteRefused(rd: Reading, env: Env, w: World, path: string, name: string, value: Data,
                             regType: RegTypes.TypeArg)
    requires Faithful(env) && path in w.reg.keys && rd.normalise(regType).Ok? && !env.denied(TestPath(path), true)
    requires RefusedAlways(rd, env, SetProperty(path, name, Value(value, rd.normalise(regType).value)))
    ensures var cmd := SetProperty(path, name, Value(value, rd.normalise(regType).value));
      SetRegWith(true, rd, env, w, path, Some(name), Some(value), Some(regType), false, true, true)
        == Outcome(w.(log := w.log + [Ran(TestPath(path), true), Ran(cmd, true)]), Err(Errors.Registry(RegErrors.Permission)))
  {
    var cmd := SetProperty(path, name, Value(value, rd.normalise(regType).value));
    var w1 := w.(log := w.log + [Ran(TestPath(path), true)]);
    WriterSetsElevated(rd, env, w, path, name, value, regType);
    ElevatedRefusal(rd, env, w1, cmd);
    RefusedAfterTest(rd, env, w, path, name, value, regType, cmd);
  }

  /** The last step of the above: the test passed and the write was refused. */
  lemma RefusedAfterTest(rd: Reading, env: Env, w: World, path: string, name: string, value: Data,
                         regType: RegTypes.TypeArg, cmd: Command)
    requires var w1 := w.(log := w.log + [Ran(TestPath(path), true)]);
      Writer(true, rd, env, w, path, Some(name), Some(value), Some(regType), true, true) == Outcome(w1, Ok(Some(cmd)))
      && Ps(rd, env, w1, cmd, true, true) == Outcome(w1.(log := w1.log + [Ran(cmd, true)]), Ok(Reply(1, "", DropNewline(env.deniedText))))
    requires rd.judge(Reply(1, "", DropNewline(env.deniedText))) == Refused
    ensures SetRegWith(true, rd, env, w, path, Some(name), Some(value), Some(regType), false, true, true)
      == Outcome(w.(log := w.log + [Ran(TestPath(path), true), Ran(cmd, true)]), Err(Errors.Registry(RegErrors.Permission)))
  {
    var w1 := w.(log := w.log + [Ran(TestPath(path), true)]);
    var w2 := w.(log := w.log + [Ran(TestPath(path), true), Ran(cmd, true)]);
    Appended(w.log, Ran(TestPath(path), true), Ran(cmd, true));
    assert w1.(log := w1.log + [Ran(cmd, true)]) == w2;
    SetRegRefusedElevated(true, rd, env, w, path, Some(name), Some(value), Some(regType), cmd, w1, w2,
                          Reply(1, "", DropNewline(env.deniedText)));
  }

  /** Unelevated and with no skip test, a write whose `run_ps` comes back
      refused, the user agreeing, makes `set_reg` call itself elevated. */
  lemma SetRegRetried(fixed: bool, rd: Reading, env: Env, w: World, path: string, name: Option<string>,
                      value: Option<Data>, regType: Option<RegTypes.TypeArg>, cmd: Command, w1: World, w2: World, back: Reply)
    requires Params(name, value, regType).Ok? && env.consent
    requires Writer(fixed, rd, env, w, path, name, value, regType, false, true) == Outcome(w1, Ok(Some(cmd)))
    requires Ps(rd, env, w1, cmd, false, true) == Outcome(w2, Ok(back)) && rd.judge(back) == Refused
    ensures SetRegWith(fixed, rd, env, w, path, name, value, regType, false, false, true)
      == Handled(if fixed then SetRegWith(true, rd, env, Prompted(w2), path, name, value, regType, false, true, true)
                 else SetRegWith(false, rd, env, Prompted(w2), path, name, None, None, true, true, true))
  {
    SetRegWrites(fixed, rd, env, w, path, name, value, regType, false, true, w);
    WriteRetries(fixed, rd, env, w, path, name, value, regType, false, cmd, w1);
  }

  /** The decorator passes on the two errors of the retry. */
  lemma HandledKeeps(w: World, e: Error)
    requires e == Errors.Value || e == Errors.Registry(RegErrors.Permission)
    ensures Handled<()>(Outcome(w, Err(e))) == Outcome(w, Err(e))
  {
  }

  /** The world after a write refused both ways and the second prompt. */
  lemma RetriedWorld(w: World, t: Event, c: Command)
    ensures var w1 := w.(log := w.log + [t]);
      Prompted(w1.(log := w1.log + [Ran(c, false), Asked, Ran(c, true)]))
        == w.(log := w.log + [t, Ran(c, false), Asked, Ran(c, true), Asked])
  {
  }

  /** ... followed by two more events. */
  lemma RetriedWorldThen(w: World, t: Event, c: Command, u: Event, v: Event)
    ensures var w3 := w.(log := w.log + [t, Ran(c, false), Asked, Ran(c, true), Asked]);
      w3.(log := w3.log + [u, v]) == w.(log := w.log + [t, Ran(c, false), Asked, Ran(c, true), Asked, u, v])
  {
  }

  /** The write of a value to an existing key refused both ways (the user
      agreeing each time): as written `set_reg` asks twice and then raises
      `ValueError` from its own retry, having written nothing. */
  lemma SetRegRetryAsWrittenWith(rd: Reading, env: Env, w: World, path: string, name: string, value: Data,
                                 regType: RegTypes.TypeArg)
    requires Faithful(env) && Plain(rd, env) && path in w.reg.keys && rd.normalise(regType).Ok?
    requires !env.denied(TestPath(path), false)
    requires RefusedAlways(rd, env, SetProperty(path, name, Value(value, rd.normalise(regType).value)))
    ensures var cmd := SetProperty(path, name, Value(value, rd.normalise(regType).value));
      SetRegWith(false, rd, env, w, path, Some(name), Some(value), Some(regType), false, false, true)
        == Outcome(w.(log := w.log + [Ran(TestPath(path), false), Ran(cmd, false), Asked, Ran(cmd, true), Asked]),
                   Err(Errors.Value))
  {
    var cmd := SetProperty(path, name, Value(value, rd.normalise(regType).value));
    WriterSets(false, rd, env, w, path, name, value, regType, true);
    var w1 := w.(log := w.log + [Ran(TestPath(path), false)]);
    RefusedTwice(rd, env, w1, cmd);
    RetryAsWrittenAfterRefusal(rd, env, w, path, name, value, regType, cmd);
  }

  /** The last step of the above: the first write was refused and the
      user agreed. */
  lemma RetryAsWrittenAfterRefusal(rd: Reading, env: Env, w: World, path: string, name: string, value: Data,
                                   regType: RegTypes.TypeArg, cmd: Command)
    requires env.consent && rd.judge(Reply(1, "", DropNewline(env.deniedText))) == Refused
    requires var w1 := w.(log := w.log + [Ran(TestPath(path), false)]);
      Writer(false, rd, env, w, path, Some(name), Some(value), Some(regType), false, true) == Outcome(w1, Ok(Some(cmd)))
      && Ps(rd, env, w1, cmd, false, true)
           == Outcome(w1.(log := w1.log + [Ran(cmd, false), Asked, Ran(cmd, true)]), Ok(Reply(1, "", DropNewline(env.deniedText))))
    ensures SetRegWith(false, rd, env, w, path, Some(name), Some(value), Some(regType), false, false, true)
      == Outcome(w.(log := w.log + [Ran(TestPath(path), false), Ran(cmd, false), Asked, Ran(cmd, true), Asked]),
                 Err(Errors.Value))
  {
    var w1 := w.(log := w.log + [Ran(TestPath(path), false)]);
    var w2 := w1.(log := w1.log + [Ran(cmd, false), Asked, Ran(cmd, true)]);
    SetRegRetried(false, rd, env, w, path, Some(name), Some(value), Some(regType), cmd, w1, w2,
                  Reply(1, "", DropNewline(env.deniedText)));
    RetryAsWrittenRaises(rd, env, Prompted(w2), path, name);
    HandledKeeps(Prompted(w2), Errors.Value);
    RetriedWorld(w, Ran(TestPath(path), false), cmd);
  }

  /** The same write as intended: the elevated retry tests the path and
      writes again, and the registry's permission error is raised. */
  lemma SetRegRetryWith(rd: Reading, env: Env, w: World, path: string, name: string, value: Data,
                        regType: RegTypes.TypeArg)
    requires Faithful(env) && Plain(rd, env) && path in w.reg.keys && rd.normalise(regType).Ok?
    requires !env.denied(TestPath(path), false) && !env.denied(TestPath(path), true)
    requires RefusedAlways(rd, env, SetProperty(path, name, Value(value, rd.normalise(regType).value)))
    ensures var cmd := SetProperty(path, name, Value(value, rd.normalise(regType).value));
      SetRegWith(true, rd, env, w, path, Some(name), Some(value), Some(regType), false, false, true)
        == Outcome(w.(log := w.log + [Ran(TestPath(path), false), Ran(cmd, false), Asked, Ran(cmd, true), Asked,
                                      Ran(TestPath(path), true), Ran(cmd, true)]),
                   Err(Errors.Registry(RegErrors.Permission)))
  {
    var cmd := SetProperty(path, name, Value(value, rd.normalise(regType).value));
    WriterSets(true, rd, env, w, path, name, value, regType, true);
    var w1 := w.(log := w.log + [Ran(TestPath(path), false)]);
    RefusedTwice(rd, env, w1, cmd);
    var w3 := w.(log := w.log + [Ran(TestPath(path), false), Ran(cmd, false), Asked, Ran(cmd, true), Asked]);
    ElevatedWriteRefused(rd, env, w3, path, name, value, regType);
    RetryAfterRefusal(rd, env, w, path, name, value, regType, cmd);
  }

  /** The last step of the above: the first write was refused, the user
      agreed and the elevated write was refused too. */
  lemma RetryAfterRefusal(rd: Reading, env: Env, w: World, path: string, name: string, value: Data,
                          regType: RegTypes.TypeArg, cmd: Command)
    requires env.consent && rd.judge(Reply(1, "", DropNewline(env.deniedText))) == Refused
    requires var w1 := w.(log := w.log + [Ran(TestPath(path), false)]);
      Writer(true, rd, env, w, path, Some(name), Some(value), Some(regType), false, true) == Outcome(w1, Ok(Some(cmd)))
      && Ps(rd, env, w1, cmd, false, true)
           == Outcome(w1.(log := w1.log + [Ran(cmd, false), Asked, Ran(cmd, true)]), Ok(Reply(1, "", DropNewline(env.deniedText))))
    requires var w3 := w.(log := w.log + [Ran(TestPath(path), false), Ran(cmd, false), Asked, Ran(cmd, true), Asked]);
      SetRegWith(true, rd, env, w3, path, Some(name), Some(value), Some(regType), false, true, true)
        == Outcome(w3.(log := w3.log + [Ran(TestPath(path), true), Ran(cmd, true)]), Err(Errors.Registry(RegErrors.Permission)))
    ensures SetRegWith(true, rd, env, w, path, Some(name), Some(value), Some(regType), false, false, true)
      == Outcome(w.(log := w.log + [Ran(TestPath(path), false), Ran(cmd, false), Asked, Ran(cmd, true), Asked,
                                    Ran(TestPath(path), true), Ran(cmd, true)]),
                 Err(Errors.Registry(RegErrors.Permission)))
  {
    var w1 := w.(log := w.log + [Ran(TestPath(path), false)]);
    var w2 := w1.(log := w1.log + [Ran(cmd, false), Asked, Ran(cmd, true)]);
    SetRegRetried(true, rd, env, w, path, Some(name), Some(value), Some(regType), cmd, w1, w2,
                  Reply(1, "", DropNewline(env.deniedText)));
    RetriedWorld(w, Ran(TestPath(path), false), cmd);
    var w3 := w.(log := w.log + [Ran(TestPath(path), false), Ran(cmd, false), Asked, Ran(cmd, true), Asked]);
    RetriedWorldThen(w, Ran(TestPath(path), false), cmd, Ran(TestPath(path), true), Ran(cmd, true));
    HandledKeeps(w3.(log := w3.log + [Ran(TestPath(path), true), Ran(cmd, true)]), Errors.Registry(RegErrors.Permission));
  }

  /** The elevating wrapper prints nothing: the elevated command ran. */
  predicate SilentWrapper(env: Env) {
    Strip(env.wrapper.out) == [] && Strip(env.wrapper.err) == []
  }

  /** The environment's refusal text is recognised by the runner, and by the
      registry table once it has come back through the elevated run's files. */
  predicate RefusalReported(env: Env) {
    Denied(Reply(1, "", env.deniedText)) && Judge(Reply(1, "", DropNewline(env.deniedText))) == Refused
  }

  /** Under these, the code's reading refuses the write both ways. */
  lemma ActualRefusedAlways(env: Env, cmd: Command)
    requires SilentWrapper(env) && RefusalReported(env) && env.consent
    requires env.denied(cmd, false) && env.denied(cmd, true)
    ensures RefusedAlways(Actual(env), env, cmd)
  {
  }

  /** The write of a value to an existing key that neither an unelevated nor
      an elevated process may make, the user agreeing to elevate: as written
      `set_reg` raises `ValueError` from its own retry. */
  lemma SetRegRetryAsWritten(env: Env, w: World, path: string, name: string, value: Data, regType: RegTypes.TypeArg)
    requires Faithful(env) && MissingReported(env) && SilentWrapper(env) && RefusalReported(env) && env.consent
    requires path in w.reg.keys && RegTypes.NormaliseType(regType).Ok? && !env.denied(TestPath(path), false)
    requires var cmd := SetProperty(path, name, Value(value, RegTypes.NormaliseType(regType).value));
      env.denied(cmd, false) && env.denied(cmd, true)
    ensures var r := SetRegAsWritten(env, w, path, Some(name), Some(value), Some(regType), false, false, true);
      r.result == Err(Errors.Value) && r.world.reg == w.reg
  {
    ActualPlain(env);
    ActualRefusedAlways(env, SetProperty(path, name, Value(value, RegTypes.NormaliseType(regType).value)));
    SetRegRetryAsWrittenWith(Actual(env), env, w, path, name, value, regType);
  }

  /** As written `skip` only decides the first read: a value not held yet
      is then written as without `skip`, on the world the read left. */
  lemma SkipThenWriteAsWritten(rd: Reading, env: Env, w: World, path: string, name: string, value: Data,
                               regType: RegTypes.TypeArg, autoElevate: bool)
    requires Faithful(env) && Plain(rd, env) && !env.denied(ReadValue(path, name), false) && rd.normalise(regType).Ok?
    requires Held(w.reg, path, name) != Ok((value, rd.normalise(regType).value))
    ensures var w0 := w.(exchange := None, log := w.log + [Ran(ReadValue(path, name), false)]);
      SetRegWith(false, rd, env, w, path, Some(name), Some(value), Some(regType), true, false, autoElevate)
        == SetRegWith(false, rd, env, w0, path, Some(name), Some(value), Some(regType), false, false, autoElevate)
  {
    var w0 := w.(exchange := None, log := w.log + [Ran(ReadValue(path, name), false)]);
    SkipReads(false, rd, env, w, path, name, value, regType, autoElevate);
    assert Write(false, rd, env, w0, path, Some(name), Some(value), Some(regType), true, false, autoElevate)
      == Write(false, rd, env, w0, path, Some(name), Some(value), Some(regType), false, false, autoElevate);
  }

  /** The same refused write with `skip`, the value not held yet: as
      written it also ends in `ValueError`, having written nothing. */
  lemma SetRegSkipRetryAsWrittenWith(rd: Reading, env: Env, w: World, path: string, name: string, value: Data,
                                     regType: RegTypes.TypeArg)
    requires Faithful(env) && Plain(rd, env) && path in w.reg.keys && rd.normalise(regType).Ok?
    requires !env.denied(TestPath(path), false) && !env.denied(ReadValue(path, name), false)
    requires Held(w.reg, path, name) != Ok((value, rd.normalise(regType).value))
    requires RefusedAlways(rd, env, SetProperty(path, name, Value(value, rd.normalise(regType).value)))
    ensures var r := SetRegWith(false, rd, env, w, path, Some(name), Some(value), Some(regType), true, false, true);
      r.result == Err(Errors.Value) && r.world.reg == w.reg
  {
    var w0 := w.(exchange := None, log := w.log + [Ran(ReadValue(path, name), false)]);
    SkipThenWriteAsWritten(rd, env, w, path, name, value, regType, true);
    SetRegRetryAsWrittenWith(rd, env, w0, path, name, value, regType);
  }

  lemma SetRegSkipRetryAsWritten(env: Env, w: World, path: string, name: string, value: Data, regType: RegTypes.TypeArg)
    requires Faithful(env) && MissingReported(env) && SilentWrapper(env) && RefusalReported(env) && env.consent
    requires path in w.reg.keys && RegTypes.NormaliseType(regType).Ok?
    requires !env.denied(TestPath(path), false) && !env.denied(ReadValue(path, name), false)
    requires Held(w.reg, path, name) != Ok((value, RegTypes.NormaliseType(regType).value))
    requires var cmd := SetProperty(path, name, Value(value, RegTypes.NormaliseType(regType).value));
      env.denied(cmd, false) && env.denied(cmd, true)
    ensures var r := SetRegAsWritten(env, w, path, Some(name), Some(value), Some(regType), true, false, true);
      r.result == Err(Errors.Value) && r.world.reg == w.reg
  {
    ActualPlain(env);
    ActualRefusedAlways(env, SetProperty(path, name, Value(value, RegTypes.NormaliseType(regType).value)));
    SetRegSkipRetryAsWrittenWith(Actual(env), env, w, path, name, value, regType);
  }

  /** The same write as intended: the registry's permission error. */
  lemma SetRegRetry(env: Env, w: World, path: string, name: string, value: Data, regType: RegTypes.TypeArg)
    requires Faithful(env) && MissingReported(env) && SilentWrapper(env) && RefusalReported(env) && env.consent
    requires path in w.reg.keys && RegTypes.NormaliseType(regType).Ok?
    requires !env.denied(TestPath(path), false) && !env.denied(TestPath(path), true)
    requires var cmd := SetProperty(path, name, Value(value, RegTypes.NormaliseType(regType).value));
      env.denied(cmd, false) && env.denied(cmd, true)
    ensures var r := SetReg(env, w, path, Some(name), Some(value), Some(regType), false, false, true);
      r.result == Err(Errors.Registry(RegErrors.Permission)) && r.world.reg == w.reg
  {
    ActualPlain(env);
    ActualRefusedAlways(env, SetProperty(path, name, Value(value, RegTypes.NormaliseType(regType).value)));
    SetRegRetryWith(Actual(env), env, w, path, name, value, regType);
  }

  // ---------------------------------------------------------------------
  // The functions on the machine

  /** A reading that runs commands as `Run.run_ps` does on this machine:
      refusals are the runner's, and the wrapper is the machine's. */
  ghost predicate Runs(rd: Reading, env: Env) {
    (forall r :: rd.refused(r) == Denied(r)) && rd.wrapped == WrapperError(env.wrapper)
  }

  lemma PsRuns(rd: Reading, env: Env, w: World, cmd: Command, elevate: bool, autoElevate: bool)
    requires Runs(rd, env)
    ensures Ps(rd, env, w, cmd, elevate, autoElevate) == RunPs(env, w, cmd, elevate, autoElevate, false)
    decreases if elevate then 0 else 1
  {
    var o := LaunchAfter(rd.wrapped, env, w, cmd, elevate);
    if o.result.Ok? && rd.refused(o.result.value) && autoElevate && !elevate && env.consent {
      PsRuns(rd, env, Prompted(o.world), cmd, true, true);
    }
  }

  lemma ActualRuns(env: Env)
    ensures Runs(Actual(env), env)
  {
  }

  /** `Reg.test_reg`, on the machine. */
  method TestRegOn(m: Machine, rd: Reading, path: string, name: Option<string>, elevate: bool, autoElevate: bool)
    returns (r: Result<bool, Error>)
    requires Runs(rd, m.env)
    modifies m
    ensures Outcome(m.world, r) == TestRegWith(rd, m.env, old(m.world), path, name, elevate, autoElevate)
    decreases if elevate then 0 else 1, 1
  {
    if name.None? {
      PsRuns(rd, m.env, m.world, TestPath(path), elevate, autoElevate);
      var o := RunPsOn(m, TestPath(path), elevate, autoElevate, false);
      r := Answer(Outcome(m.world, o)).result;
    } else {
      var g := GetRegOn(m, rd, path, name.value, elevate, autoElevate);
      r := Found(Outcome(m.world, g)).result;
    }
    r := Handled(Outcome(m.world, r)).result;
  }

  /** `Reg.get_reg`, on the machine: the exchange file is made fresh, read
      once the script has run, and deleted whatever happened. */
  method GetRegOn(m: Machine, rd: Reading, path: string, name: string, elevate: bool, autoElevate: bool)
    returns (r: Result<(Data, int), Error>)
    requires Runs(rd, m.env)
    modifies m
    ensures Outcome(m.world, r) == GetRegWith(rd, m.env, old(m.world), path, name, elevate, autoElevate)
    decreases if elevate then 0 else 1, 0
  {
    m.FreshExchange();
    PsRuns(rd, m.env, m.world, ReadValue(path, name), elevate, autoElevate);
    var o := RunPsOn(m, ReadValue(path, name), elevate, autoElevate, false);
    if o.Ok? && rd.judge(o.value) == Refused && autoElevate && !elevate {
      m.FreshExchange();
      var yes := m.Ask();
      if yes {
        r := GetRegOn(m, rd, path, name, true, true);
      } else {
        r := Err(Errors.Registry(RegErrors.Permission));
      }
    } else {
      r := ValueRead(rd, Outcome(m.world, o)).result;
      m.FreshExchange();
    }
    r := Handled(Outcome(m.world, r)).result;
  }

  /** The skip test of `set_reg`, on the machine. */
  method AlreadySetOn(m: Machine, rd: Reading, path: string, name: string, value: Data, regType: RegTypes.TypeArg,
                      elevate: bool, autoElevate: bool) returns (r: Result<bool, Error>)
    requires Runs(rd, m.env)
    modifies m
    ensures Outcome(m.world, r) == AlreadySet(rd, m.env, old(m.world), path, name, value, regType, elevate, autoElevate)
  {
    var g := GetRegOn(m, rd, path, name, elevate, autoElevate);
    match g
    case Err(e) =>
      r := if e == Errors.Registry(RegErrors.ItemNotFound) then Ok(false) else Err(e);
    case Ok((data, kind)) =>
      match rd.normalise(regType)
      case Err(e) => r := Err(e);
      case Ok(t) => r := Ok(data == value && RegTypes.Clamp(kind) == t);
  }

  /** The command `set_reg` chooses, on the machine. */
  method WriterOn(m: Machine, fixed: bool, rd: Reading, path: string, name: Option<string>, value: Option<Data>,
                  regType: Option<RegTypes.TypeArg>, elevate: bool, autoElevate: bool) returns (r: Result<Option<Command>, Error>)
    requires name.Some? == value.Some? == regType.Some?
    requires Runs(rd, m.env)
    modifies m
    ensures Outcome(m.world, r) == Writer(fixed, rd, m.env, old(m.world), path, name, value, regType, elevate, autoElevate)
  {
    var t := TestRegOn(m, rd, path, None, elevate, autoElevate);
    match t
    case Err(e) => r := Err(e);
    case Ok(true) =>
      if name.None? {
        r := Ok(None);
      } else {
        match rd.normalise(regType.value)
        case Err(e) => r := Err(e);
        case Ok(code) => r := Ok(Some(SetProperty(path, name.value, Value(value.value, code))));
      }
    case Ok(false) =>
      r := CreationOn(m, fixed, rd, path, name, value, regType, elevate, autoElevate);
  }

  /** The guarded `New-Item` branch, on the machine. */
  method CreationOn(m: Machine, fixed: bool, rd: Reading, path: string, name: Option<string>, value: Option<Data>,
                    regType: Option<RegTypes.TypeArg>, elevate: bool, autoElevate: bool) returns (r: Result<Option<Command>, Error>)
    requires name.Some? == value.Some? == regType.Some?
    requires Runs(rd, m.env)
    modifies m
    ensures Outcome(m.world, r) == Creation(fixed, rd, m.env, old(m.world), path, name, value, regType, elevate, autoElevate)
  {
    var t2 := TestRegOn(m, rd, path, None, elevate, autoElevate);
    match t2
    case Err(e) => r := Err(e);
    case Ok(present) =>
      if present == fixed {
        r := Err(Errors.Runtime);
      } else if name.None? {
        r := Ok(Some(NewKey(path, None)));
      } else {
        match rd.normalise(regType.value)
        case Err(e) => r := Err(e);
        case Ok(code) => r := Ok(Some(NewKey(path, Some((name.value, Value(value.value, code))))));
      }
  }

  /** `Reg.set_reg`, on the machine, as written (`fixed` false) or as
      intended. */
  method SetRegOn(m: Machine, fixed: bool, rd: Reading, path: string, name: Option<string>, value: Option<Data>,
                  regType: Option<RegTypes.TypeArg>, skip: bool, elevate: bool, autoElevate: bool) returns (r: Result<(), Error>)
    requires Runs(rd, m.env)
    modifies m
    ensures Outcome(m.world, r) == SetRegWith(fixed, rd, m.env, old(m.world), path, name, value, regType, skip, elevate, autoElevate)
    decreases if elevate then 0 else 1, 1
  {
    var property := Params(name, value, regType);
    if property.Err? {
      r := Err(property.error);
    } else {
      var same := Ok(false);
      if skip && property.value {
        same := AlreadySetOn(m, rd, path, name.value, value.value, regType.value, elevate, autoElevate);
      }
      match same
      case Err(e) => r := Err(e);
      case Ok(true) => r := Ok(());
      case Ok(false) => r := WriteOn(m, fixed, rd, path, name, value, regType, skip, elevate, autoElevate);
    }
    r := Handled(Outcome(m.world, r)).result;
  }

  /** The write of `set_reg` and its output check, on the machine. */
  method WriteOn(m: Machine, fixed: bool, rd: Reading, path: string, name: Option<string>, value: Option<Data>,
                 regType: Option<RegTypes.TypeArg>, skip: bool, elevate: bool, autoElevate: bool) returns (r: Result<(), Error>)
    requires name.Some? == value.Some? == regType.Some?
    requires Runs(rd, m.env)
    modifies m
    ensures Outcome(m.world, r) == Write(fixed, rd, m.env, old(m.world), path, name, value, regType, skip, elevate, autoElevate)
    decreases if elevate then 0 else 1, 0
  {
    var c := WriterOn(m, fixed, rd, path, name, value, regType, elevate, autoElevate);
    match c
    case Err(e) => r := Err(e);
    case Ok(None) => r := Ok(());
    case Ok(Some(cmd)) =>
      PsRuns(rd, m.env, m.world, cmd, elevate, autoElevate);
      var o := RunPsOn(m, cmd, elevate, autoElevate, false);
      if o.Ok? && rd.judge(o.value) == Refused && autoElevate && !elevate {
        var yes := m.Ask();
        if !yes {
          r := Err(Errors.Registry(RegErrors.Permission));
        } else if fixed {
          r := SetRegOn(m, fixed, rd, path, name, value, regType, skip, true, true);
        } else {
          r := SetRegOn(m, fixed, rd, path, name, None, None, true, true, true);
        }
      } else {
        r := Settled(rd, Outcome(m.world, o)).result;
      }
  }

  /** `Reg.del_reg`, on the machine. */
  method DelRegOn(m: Machine, rd: Reading, path: string, name: Option<string>, elevate: bool, autoElevate: bool)
    returns (r: Result<(), Error>)
    requires Runs(rd, m.env)
    modifies m
    ensures Outcome(m.world, r) == DelRegWith(rd, m.env, old(m.world), path, name, elevate, autoElevate)
    decreases if elevate then 0 else 1, 1
  {
    var t := TestRegOn(m, rd, path, name, elevate, autoElevate);
    ghost var w1 := m.world;
    if t.Err? {
      r := Err(t.error);
    } else if !t.value {
      r := Ok(());
    } else {
      r := RemoveOn(m, rd, path, name, elevate, autoElevate);
    }
    DelRegAfterTest(rd, m.env, old(m.world), path, name, elevate, autoElevate, Outcome(w1, t), Outcome(m.world, r));
    r := Handled(Outcome(m.world, r)).result;
  }

  /** `del_reg` is its test followed, when the test finds the item, by the
      removal. */
  lemma DelRegAfterTest(rd: Reading, env: Env, w: World, path: string, name: Option<string>, elevate: bool,
                        autoElevate: bool, t: Outcome<bool>, o: Outcome<()>)
    requires t == TestRegWith(rd, env, w, path, name, elevate, autoElevate)
    requires t.result.Err? ==> o == Outcome(t.world, Err(t.result.error))
    requires t.result == Ok(false) ==> o == Outcome(t.world, Ok(()))
    requires t.result == Ok(true) ==> o == Remove(rd, env, t.world, path, name, elevate, autoElevate)
    ensures DelRegWith(rd, env, w, path, name, elevate, autoElevate) == Handled(o)
  {
  }

  /** The removal of `del_reg`, on the machine. */
  method RemoveOn(m: Machine, rd: Reading, path: string, name: Option<string>, elevate: bool, autoElevate: bool)
    returns (r: Result<(), Error>)
    requires Runs(rd, m.env)
    modifies m
    ensures Outcome(m.world, r) == Remove(rd, m.env, old(m.world), path, name, elevate, autoElevate)
    decreases if elevate then 0 else 1, 0
  {
    PsRuns(rd, m.env, m.world, Removal(path, name), elevate, autoElevate);
    var o := RunPsOn(m, Removal(path, name), elevate, autoElevate, false);
    if o.Ok? && rd.judge(o.value) == Refused && autoElevate && !elevate {
      var yes := m.Ask();
      if yes {
        r := DelRegOn(m, rd, path, name, true, true);
      } else {
        r := Err(Errors.Registry(RegErrors.Permission));
      }
    } else {
      r := Settled(rd, Outcome(m.world, o)).result;
    }
  }
}
