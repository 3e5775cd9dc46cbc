/** `Run` (`run.py`): quoting a path for PowerShell, and `run_ps`, which runs a
    command directly or through an elevating wrapper, watches the output for
    a refused access, and then asks the user once whether to retry elevated. */
module Run {
  import opened Wrappers
  import opened Text
  import opened Shell
  import opened Errors
  import opened Classify
  import CmdErrors

  // ---------------------------------------------------------------------
  // safe_path

  /** `Run.safe_path`: every single quote doubled, so that the path can sit
      inside a PowerShell single-quoted literal. */
  function SafePath(path: string): (r: string)
    ensures |r| == |path| + multiset(path)['\'']
  {
    if path == [] then []
    else
      assert path == [path[0]] + path[1..];
      (if path[0] == '\'' then "''" else [path[0]]) + SafePath(path[1..])
  }

  /** How PowerShell reads the body of a single-quoted literal: `''` stands
      for one quote, every other character for itself. */
  function Unquote(s: string): string
    decreases |s|
  {
    if |s| >= 2 && s[0] == '\'' && s[1] == '\'' then "'" + Unquote(s[2..])
    else if s == [] then []
    else [s[0]] + Unquote(s[1..])
  }

  /** The quotes of a literal body come in pairs, so none of them ends the
      literal early. */
  predicate Paired(s: string)
    decreases |s|
  {
    if s == [] then true
    else if s[0] == '\'' then |s| >= 2 && s[1] == '\'' && Paired(s[2..])
    else Paired(s[1..])
  }

  /** PowerShell reads the escaped path back as the path itself. */
  lemma {:induction false} SafePathRoundTrip(path: string)
    ensures Paired(SafePath(path))
    ensures Unquote(SafePath(path)) == path
  {
    if path != [] {
      SafePathRoundTrip(path[1..]);
      var rest := SafePath(path[1..]);
      if path[0] == '\'' {
        assert SafePath(path) == "''" + rest;
        assert SafePath(path)[2..] == rest;
      } else {
        assert SafePath(path) == [path[0]] + rest;
        assert SafePath(path)[1..] == rest;
      }
    }
  }

  /** A path without quotes is left as it is. */
  lemma {:induction false} SafePathPlain(path: string)
    requires '\'' !in path
    ensures SafePath(path) == path
  {
    if path != [] {
      SafePathPlain(path[1..]);
    }
  }

  // ---------------------------------------------------------------------
  // run_ps

  /** The text the output checks look at: both streams, joined by a line
      break (`out+'\n'+err`). */
  function Joined(r: Reply): string {
    r.out + "\n" + r.err
  }

  /** `check_error(out+'\n'+err, rc, errors=AccessDeniedError)` raises. */
  predicate Denied(r: Reply) {
    CmdErrors.CheckError(Joined(r), Some(r.rc), One(CmdErrors.AccessDenied)).Some?
  }

  /** `Convert-Utf8NoBom`: the line break that a PowerShell redirection adds
      at the end of a file is removed. */
  function DropNewline(s: string): string {
    if |s| >= 2 && s[|s| - 2..] == "\r\n" then s[..|s| - 2]
    else if |s| >= 1 && s[|s| - 1] == '\n' then s[..|s| - 1]
    else s
  }

  /** Reading the three files the elevated wrapper leaves (lines 117-129):
      the streams as they are, the exit code stripped and read by `int()`; an
      exit code that does not parse is a `RuntimeError`. */
  function ReadBack(out: string, err: string, code: string): (r: Result<Reply, Error>)
    ensures r.Err? <==> ParseInt(Strip(code)).None?
    ensures r.Ok? ==> r.value.out == out && r.value.err == err && Some(r.value.rc) == ParseInt(Strip(code))
  {
    match ParseInt(Strip(code))
    case None => Err(Runtime)
    case Some(rc) => Ok(Reply(rc, out, err))
  }

  /** What the elevated wrapper writes to the exit-code file. */
  function CodeFile(rc: int): string {
    DropNewline(IntStr(rc) + "\r\n")
  }

  /** The exit code survives its trip through the file: `str`, the added line
      break, its removal, `strip()` and `int()` give it back. */
  lemma ExitCodeRoundTrip(out: string, err: string, rc: int)
    ensures ReadBack(out, err, CodeFile(rc)) == Ok(Reply(rc, out, err))
  {
    var t := IntStr(rc);
    assert (t + "\r\n")[|t + "\r\n"| - 2..] == "\r\n";
    assert (t + "\r\n")[..|t|] == t;
    assert CodeFile(rc) == t;
    assert t[|t| - 1] == NatStr(if rc < 0 then -rc else rc)[|NatStr(if rc < 0 then -rc else rc)| - 1];
    StripClean(t);
    IntStrParse(rc);
  }

  /** The wrapper's own output (lines 108-115): anything but white space
      means the command did not run; the text is classified against every
      command kind, and output no kind explains is a `RuntimeError`. */
  function WrapperError(wrapper: Reply): (r: Option<Error>)
    ensures r.None? <==> Strip(wrapper.out) == [] && Strip(wrapper.err) == []
    ensures r.Some? ==> r.value == Runtime || r.value.Command?
  {
    var out := Strip(wrapper.out);
    var err := Strip(wrapper.err);
    if out == [] && err == [] then None
    else match CmdErrors.CheckError(out + "\n" + err, Some(wrapper.rc), All)
      case Some(k) => Some(Command(k))
      case None => Some(Runtime)
  }

  /** One launch of the command: directly (lines 131-160), or elevated
      through the wrapper process and the three files it leaves (lines
      49-129). */
  function Launch(env: Env, w: World, cmd: Command, elevate: bool): (o: Outcome<Reply>) {
    LaunchAfter(WrapperError(env.wrapper), env, w, cmd, elevate)
  }

  /** A launch, given what the wrapper's output says (`wrapped`). */
  function LaunchAfter(wrapped: Option<Error>, env: Env, w: World, cmd: Command, elevate: bool): (o: Outcome<Reply>) {
    if !elevate then
      var e := Step(env, w, cmd, false);
      Outcome(e.world, Ok(e.reply))
    else match wrapped
      case Some(error) => Outcome(w, Err(error))
      case None =>
        var e := Step(env, w, cmd, true);
        Outcome(e.world, ReadBack(DropNewline(e.reply.out), DropNewline(e.reply.err), CodeFile(e.reply.rc)))
  }

  /** `Run.run_ps(cmd, elevate=..., auto_elevate=..., check=...)`: after the
      launch only a refused access is looked for. Refused, unelevated and
      allowed to elevate, the user is asked: yes runs `run_ps(cmd,
      elevate=True)` with every other argument at its default, no raises
      `UserAbortedError`. Otherwise the refusal is raised only with `check`.
      Everything else is returned as (rc, out, err). */
  function RunPs(env: Env, w: World, cmd: Command, elevate: bool, autoElevate: bool, check: bool): Outcome<Reply> {
    RunPsBy(Denied, WrapperError(env.wrapper), env, w, cmd, elevate, autoElevate, check)
  }

  /** `run_ps` with the refusal test and the wrapper's verdict as
      parameters, so that what follows from the control flow alone can be
      shown without the text classification. */
  function RunPsBy(refused: Reply -> bool, wrapped: Option<Error>, env: Env, w: World, cmd: Command,
                   elevate: bool, autoElevate: bool, check: bool): Outcome<Reply>
    decreases if elevate then 0 else 1
  {
    var o := LaunchAfter(wrapped, env, w, cmd, elevate);
    match o.result
    case Err(_) => o
    case Ok(reply) =>
      if !refused(reply) then o
      else if autoElevate && !elevate then
        var w1 := Prompted(o.world);
        if env.consent then RunPsBy(refused, wrapped, env, w1, cmd, true, true, false)
        else Outcome(w1, Err(Command(CmdErrors.UserAborted)))
      else if check then Outcome(o.world, Err(Command(CmdErrors.AccessDenied)))
      else o
  }

  /** One launch, on the machine. */
  method LaunchOn(m: Machine, cmd: Command, elevate: bool) returns (r: Result<Reply, Error>)
    modifies m
    ensures Outcome(m.world, r) == Launch(m.env, old(m.world), cmd, elevate)
  {
    if !elevate {
      var reply := m.Execute(cmd, false);
      r := Ok(reply);
    } else {
      var error := WrapperError(m.env.wrapper);
      if error.Some? {
        r := Err(error.value);
      } else {
        var reply := m.Execute(cmd, true);
        r := ReadBack(DropNewline(reply.out), DropNewline(reply.err), CodeFile(reply.rc));
      }
    }
  }

  /** `Run.run_ps`, on the machine. */
  method RunPsOn(m: Machine, cmd: Command, elevate: bool, autoElevate: bool, check: bool) returns (r: Result<Reply, Error>)
    modifies m
    ensures Outcome(m.world, r) == RunPs(m.env, old(m.world), cmd, elevate, autoElevate, check)
    decreases if elevate then 0 else 1
  {
    r := LaunchOn(m, cmd, elevate);
    if r.Ok? && Denied(r.value) {
      if autoElevate && !elevate {
        var yes := m.Ask();
        if yes {
          r := RunPsOn(m, cmd, true, true, false);
        } else {
          r := Err(Command(CmdErrors.UserAborted));
        }
      } else if check {
        r := Err(Command(CmdErrors.AccessDenied));
      }
    }
  }

  /** An elevated launch whose wrapper stays silent returns exactly what the
      command printed, less the one line break the files add, and its exact
      exit code. */
  lemma ElevatedReadsBack(env: Env, w: World, cmd: Command)
    requires Strip(env.wrapper.out) == [] && Strip(env.wrapper.err) == []
    ensures var e := Step(env, w, cmd, true);
      Launch(env, w, cmd, true) == Outcome(e.world, Ok(Reply(e.reply.rc, DropNewline(e.reply.out), DropNewline(e.reply.err))))
  {
    var e := Step(env, w, cmd, true);
    ExitCodeRoundTrip(DropNewline(e.reply.out), DropNewline(e.reply.err), e.reply.rc);
  }

  /** An elevated launch whose wrapper prints anything raises, without
      running the command: the first command kind found in the wrapper's
      output, or `RuntimeError` when none is. */
  lemma ElevatedWrapperRaises(env: Env, w: World, cmd: Command)
    requires Strip(env.wrapper.out) != [] || Strip(env.wrapper.err) != []
    ensures var o := Launch(env, w, cmd, true);
      o.world == w && o.result.Err?
      && (o.result.error == Runtime <==>
            CmdErrors.CheckError(Strip(env.wrapper.out) + "\n" + Strip(env.wrapper.err), Some(env.wrapper.rc), All).None?)
  {
  }

  /** Without a refused access the first launch's result is returned as it
      is, whatever the flags. */
  lemma NotDeniedReturned(env: Env, w: World, cmd: Command, elevate: bool, autoElevate: bool, check: bool)
    requires Launch(env, w, cmd, elevate).result.Ok? && !Denied(Launch(env, w, cmd, elevate).result.value)
    ensures RunPs(env, w, cmd, elevate, autoElevate, check) == Launch(env, w, cmd, elevate)
  {
  }

  /** A refused access, unelevated and allowed to elevate: the user is asked;
      yes is exactly `run_ps(cmd, elevate=True)` (auto-elevation on, `check`
      off, whatever the caller passed), no is `UserAbortedError`. */
  lemma ConsentRetry(env: Env, w: World, cmd: Command, check: bool)
    requires Denied(Step(env, w, cmd, false).reply)
    ensures var w1 := Prompted(Step(env, w, cmd, false).world);
      RunPs(env, w, cmd, false, true, check)
        == if env.consent then RunPs(env, w1, cmd, true, true, false)
           else Outcome(w1, Err(Command(CmdErrors.UserAborted)))
  {
  }

  /** Already elevated, or not allowed to elevate: nobody is asked and the
      command is not run again; a refused access is raised only with
      `check`, and otherwise returned unchanged. */
  lemma NoRetry(env: Env, w: World, cmd: Command, elevate: bool, autoElevate: bool, check: bool)
    requires elevate || !autoElevate
    ensures var o := Launch(env, w, cmd, elevate);
      var r := RunPs(env, w, cmd, elevate, autoElevate, check);
      r.world == o.world
      && (o.result.Ok? && Denied(o.result.value) && check ==> r.result == Err(Command(CmdErrors.AccessDenied)))
      && (o.result.Ok? && Denied(o.result.value) && !check ==> r.result == o.result)
      && (o.result.Err? ==> r.result == o.result)
  {
  }

  /** A launch runs the command at most once, whatever the wrapper says. */
  lemma LaunchLog(wrapped: Option<Error>, env: Env, w: World, cmd: Command, elevate: bool)
    ensures var log := LaunchAfter(wrapped, env, w, cmd, elevate).world.log;
      log == w.log || log == w.log + [Ran(cmd, elevate)]
    ensures !elevate ==> LaunchAfter(wrapped, env, w, cmd, elevate) == Outcome(Step(env, w, cmd, false).world, Ok(Step(env, w, cmd, false).reply))
  {
  }

  /** The events one `run_ps` call can leave: the command runs once, or, after
      a refusal, the user is asked and it runs at most once more, elevated.
      There is never a second prompt. */
  lemma RetriedAtMostOnce(env: Env, w: World, cmd: Command, elevate: bool, autoElevate: bool, check: bool)
    ensures var log := RunPs(env, w, cmd, elevate, autoElevate, check).world.log;
      log == w.log
      || log == w.log + [Ran(cmd, elevate)]
      || (!elevate && log == w.log + [Ran(cmd, false), Asked])
      || (!elevate && log == w.log + [Ran(cmd, false), Asked, Ran(cmd, true)])
  {
    RetriedAtMostOnceBy(Denied, WrapperError(env.wrapper), env, w, cmd, elevate, autoElevate, check);
  }

  /** Elevated, `run_ps` never asks and runs the command at most once. */
  lemma ElevatedLog(refused: Reply -> bool, wrapped: Option<Error>, env: Env, w: World, cmd: Command,
                    autoElevate: bool, check: bool)
    ensures var log := RunPsBy(refused, wrapped, env, w, cmd, true, autoElevate, check).world.log;
      log == w.log || log == w.log + [Ran(cmd, true)]
  {
    LaunchLog(wrapped, env, w, cmd, true);
  }

  /** Unelevated, a reply that is not refused, or a refusal that may not
      elevate, ends the call in the world the command left. */
  lemma UnelevatedKept(refused: Reply -> bool, wrapped: Option<Error>, env: Env, w: World, cmd: Command,
                       autoElevate: bool, check: bool)
    requires !(refused(Step(env, w, cmd, false).reply) && autoElevate)
    ensures RunPsBy(refused, wrapped, env, w, cmd, false, autoElevate, check).world == Step(env, w, cmd, false).world
  {
  }

  /** Unelevated, a refusal the user declines ends after the prompt. */
  lemma UnelevatedDeclined(refused: Reply -> bool, wrapped: Option<Error>, env: Env, w: World, cmd: Command, check: bool)
    requires refused(Step(env, w, cmd, false).reply) && !env.consent
    ensures RunPsBy(refused, wrapped, env, w, cmd, false, true, check).world == Prompted(Step(env, w, cmd, false).world)
  {
  }

  /** Unelevated, a refusal the user accepts is the elevated call after the
      prompt. */
  lemma UnelevatedRetried(refused: Reply -> bool, wrapped: Option<Error>, env: Env, w: World, cmd: Command, check: bool)
    requires refused(Step(env, w, cmd, false).reply) && env.consent
    ensures RunPsBy(refused, wrapped, env, w, cmd, false, true, check)
      == RunPsBy(refused, wrapped, env, Prompted(Step(env, w, cmd, false).world), cmd, true, true, false)
  {
  }

  /** Unelevated, `run_ps` runs the command, may ask once, and then runs it
      at most once more, elevated. */
  lemma UnelevatedLog(refused: Reply -> bool, wrapped: Option<Error>, env: Env, w: World, cmd: Command,
                      autoElevate: bool, check: bool)
    ensures var log := RunPsBy(refused, wrapped, env, w, cmd, false, autoElevate, check).world.log;
      log == w.log + [Ran(cmd, false)]
      || log == w.log + [Ran(cmd, false), Asked]
      || log == w.log + [Ran(cmd, false), Asked, Ran(cmd, true)]
  {
    var e := Step(env, w, cmd, false);
    var w1 := Prompted(e.world);
    assert w1.log == w.log + [Ran(cmd, false), Asked];
    if !(refused(e.reply) && autoElevate) {
      UnelevatedKept(refused, wrapped, env, w, cmd, autoElevate, check);
    } else if !env.consent {
      UnelevatedDeclined(refused, wrapped, env, w, cmd, check);
    } else {
      UnelevatedRetried(refused, wrapped, env, w, cmd, check);
      ElevatedLog(refused, wrapped, env, w1, cmd, true, false);
      assert w1.log + [Ran(cmd, true)] == w.log + [Ran(cmd, false), Asked, Ran(cmd, true)];
    }
  }

  lemma RetriedAtMostOnceBy(refused: Reply -> bool, wrapped: Option<Error>, env: Env, w: World, cmd: Command,
                            elevate: bool, autoElevate: bool, check: bool)
    ensures var log := RunPsBy(refused, wrapped, env, w, cmd, elevate, autoElevate, check).world.log;
      log == w.log
      || log == w.log + [Ran(cmd, elevate)]
      || (!elevate && log == w.log + [Ran(cmd, false), Asked])
      || (!elevate && log == w.log + [Ran(cmd, false), Asked, Ran(cmd, true)])
  {
    if elevate {
      ElevatedLog(refused, wrapped, env, w, cmd, autoElevate, check);
    } else {
      UnelevatedLog(refused, wrapped, env, w, cmd, autoElevate, check);
    }
  }

  /** In the unelevated path `run_ps` raises nothing of its own but the
      refusal (with `check`) or the user's `UserAbortedError`: any other
      error comes from the elevated retry the user agreed to. A refusal
      raised when auto-elevation is on is the wrapper's own report. */
  lemma UnelevatedErrors(env: Env, w: World, cmd: Command, autoElevate: bool, check: bool)
    ensures var r := RunPs(env, w, cmd, false, autoElevate, check).result;
      r.Err? ==>
        r.error == Command(CmdErrors.AccessDenied) || r.error == Command(CmdErrors.UserAborted)
        || (autoElevate && env.consent && Denied(Step(env, w, cmd, false).reply))
    ensures var r := RunPs(env, w, cmd, false, autoElevate, check).result;
      r.Err? && r.error == Command(CmdErrors.AccessDenied) ==>
        (check && !autoElevate) || (autoElevate && env.consent && WrapperError(env.wrapper) == Some(r.error))
  {
    UnelevatedErrorsBy(Denied, WrapperError(env.wrapper), env, w, cmd, autoElevate, check);
  }

  lemma UnelevatedErrorsBy(refused: Reply -> bool, wrapped: Option<Error>, env: Env, w: World, cmd: Command,
                           autoElevate: bool, check: bool)
    ensures var r := RunPsBy(refused, wrapped, env, w, cmd, false, autoElevate, check).result;
      r.Err? ==>
        r.error == Command(CmdErrors.AccessDenied) || r.error == Command(CmdErrors.UserAborted)
        || (autoElevate && env.consent && refused(Step(env, w, cmd, false).reply))
    ensures var r := RunPsBy(refused, wrapped, env, w, cmd, false, autoElevate, check).result;
      r.Err? && r.error == Command(CmdErrors.AccessDenied) ==>
        (check && !autoElevate) || (autoElevate && env.consent && wrapped == Some(r.error))
  {
  }

  // ---------------------------------------------------------------------
  // test_ps

  /** `Run.test_ps`, as written: `run_ps('echo hello', elevate=False,
      auto_elevate=False)`, False when that raises `PowershellDisabledError`,
      True when it returns. */
  function TestPsAsWritten(env: Env, w: World): Outcome<bool> {
    var o := RunPs(env, w, Echo("hello"), false, false, false);
    match o.result
    case Ok(_) => Outcome(o.world, Ok(true))
    case Err(e) =>
      if e == Command(CmdErrors.PowershellDisabled) then Outcome(o.world, Ok(false))
      else Outcome(o.world, Err(e))
  }

  /** As written, `test_ps` answers True in every world, even one whose echo
      prints the group-policy refusal: unelevated, without auto-elevation
      and without `check`, `run_ps` raises nothing at all. */
  lemma TestPsAlwaysTrue(env: Env, w: World)
    ensures TestPsAsWritten(env, w).result == Ok(true)
  {
  }

  /** `test_ps` as its documentation describes it: the echo's output is
      looked at for the signs of disabled PowerShell. */
  function TestPs(env: Env, w: World): Outcome<bool> {
    var o := RunPs(env, w, Echo("hello"), false, false, false);
    match o.result
    case Ok(reply) =>
      var k := CmdErrors.CheckError(Joined(reply), Some(reply.rc), One(CmdErrors.PowershellDisabled));
      Outcome(o.world, Ok(k.None?))
    case Err(e) => Outcome(o.world, Err(e))
  }

  /** The corrected `test_ps` answers False exactly when the echo's output
      shows the group-policy or administrator refusal, and runs the echo
      once. */
  lemma TestPsDetects(env: Env, w: World)
    ensures var reply := Step(env, w, Echo("hello"), false).reply;
      TestPs(env, w).result == Ok(!CmdErrors.Matches(CmdErrors.PowershellDisabled, Joined(reply)))
    ensures TestPs(env, w).world.log == w.log + [Ran(Echo("hello"), false)]
  {
    var reply := Step(env, w, Echo("hello"), false).reply;
    var k := CmdErrors.CheckError(Joined(reply), Some(reply.rc), One(CmdErrors.PowershellDisabled));
    assert Eligible(One(CmdErrors.PowershellDisabled), CmdErrors.PowershellDisabled);
    assert k.Some? ==> k.value == CmdErrors.PowershellDisabled;
  }

  /** The corrected `test_ps`, on the machine. */
  method TestPsOn(m: Machine) returns (r: Result<bool, Error>)
    modifies m
    ensures Outcome(m.world, r) == TestPs(m.env, old(m.world))
  {
    var reply := RunPsOn(m, Echo("hello"), false, false, false);
    match reply
    case Ok(rp) =>
      var k := CmdErrors.CheckError(Joined(rp), Some(rp.rc), One(CmdErrors.PowershellDisabled));
      r := Ok(k.None?);
    case Err(e) =>
      r := Err(e);
  }
}
