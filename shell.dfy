/** The world the core's commands act on, abstracted: the registry as a map
    from keys and value names to values, every PowerShell process as one step
    over it, and the user's answer to the elevation prompt. None of this is
    code of the repository: it is the environment the modelled functions run
    against, kept as small as their decisions need. */
module Shell {
  import opened Wrappers
  import Errors

  /** Registry data: a number (`DWORD`, `QWORD`) or a text. */
  datatype Data = Num(n: int) | Text(s: string)

  /** A registry value: its data and its `RegistryValueKind` code. */
  datatype Value = Value(data: Data, kind: int)

  /** A value that `set_reg` can write and `get_reg` read back unchanged.
      The code passes the data as the quoted text `'{value}'` with `-Type`,
      and PowerShell converts that text to the type. A number comes back
      as itself for `DWord` (4) or `QWord` (11) within the type's positive
      range. A text comes back as itself for `String` (1), or for
      `ExpandString` (2) when it has no `%` to expand, provided it has no
      single quote to end the quoted text. */
  predicate Fits(v: Value) {
    match v.data
    case Num(n) => (v.kind == 4 && 0 <= n < 0x8000_0000) || (v.kind == 11 && 0 <= n < 0x8000_0000_0000_0000)
    case Text(s) => (v.kind == 1 || v.kind == 2) && forall i | 0 <= i < |s| :: s[i] != '\'' && (v.kind == 2 ==> s[i] != '%')
  }

  /** The registry: the keys that exist and the named values under them. */
  datatype Registry = Registry(keys: set<string>, values: map<(string, string), Value>)

  /** The keys above `p`, up to its hive: each prefix of `p` that a
      backslash follows. */
  function Above(p: string): set<string> {
    set i | 0 < i < |p| && p[i] == '\\' :: p[..i]
  }

  /** The registry is a tree: every value lies under a key that exists, and
      every key above an existing key exists. */
  predicate Consistent(reg: Registry) {
    (forall k | k in reg.values :: k.0 in reg.keys)
    && (forall k {:trigger Above(k)} | k in reg.keys :: Above(k) <= reg.keys)
  }

  /** Key `k` is `p` itself or lies below it. */
  predicate Under(k: string, p: string) {
    k == p || (|p| < |k| && k[..|p|] == p && k[|p|] == '\\')
  }

  /** For instance, the keys above `HKCU:\A\B` are `HKCU:\A` and the hive
      `HKCU:`. */
  lemma AboveExample()
    ensures Above("HKCU:\\A\\B") == {"HKCU:", "HKCU:\\A"}
  {
    var p := "HKCU:\\A\\B";
    assert p[5] == '\\' && p[..5] == "HKCU:";
    assert p[7] == '\\' && p[..7] == "HKCU:\\A";
    forall q | q in Above(p) ensures q == "HKCU:" || q == "HKCU:\\A" {
      var i :| 0 < i < |p| && p[i] == '\\' && q == p[..i];
      assert i == 5 || i == 7;
    }
  }

  /** A key above a key above `p` is above `p`. */
  lemma AboveAbove(p: string, q: string)
    requires q in Above(p)
    ensures Above(q) <= Above(p)
  {
    var i :| 0 < i < |p| && p[i] == '\\' && q == p[..i];
    forall r | r in Above(q) ensures r in Above(p) {
      var j :| 0 < j < |q| && q[j] == '\\' && r == q[..j];
      assert p[j] == '\\' && r == p[..j];
    }
  }

  /** A key with a key above it at or below `p` is itself below `p`. */
  lemma UnderAbove(k: string, q: string, p: string)
    requires q in Above(k) && Under(q, p)
    ensures Under(k, p)
  {
    var i :| 0 < i < |k| && k[i] == '\\' && q == k[..i];
    if q != p {
      assert k[..|p|] == q[..|p|];
    }
  }

  /** Adding a key that exists, with the keys above it, adds nothing. */
  lemma AddExistingKey(reg: Registry, p: string)
    requires Consistent(reg) && p in reg.keys
    ensures reg.keys + {p} + Above(p) == reg.keys
  {
    assert Above(p) <= reg.keys;
  }

  /** Adding a key together with every key above it keeps the registry a
      tree. */
  lemma AddKeyConsistent(reg: Registry, p: string)
    requires Consistent(reg)
    ensures Consistent(reg.(keys := reg.keys + {p} + Above(p)))
  {
    forall q | q in Above(p) ensures Above(q) <= Above(p) {
      AboveAbove(p, q);
    }
  }

  /** Removing a key and everything below it keeps the registry a tree. */
  lemma PruneConsistent(reg: Registry, p: string)
    requires Consistent(reg)
    ensures Consistent(Registry(set k | k in reg.keys && !Under(k, p), map k | k in reg.values && !Under(k.0, p) :: reg.values[k]))
  {
    forall k, q | k in reg.keys && !Under(k, p) && q in Above(k) ensures !Under(q, p) {
      if Under(q, p) {
        UnderAbove(k, q, p);
      }
    }
  }

  /** The commands the core runs, named by what they do. The PowerShell text
      that spells each of them is not modelled. */
  datatype Command =
    | TestPath(path: string)                                  // Test-Path -LiteralPath
    | ReadValue(path: string, name: string)                    // the script of `get_reg`
    | SetProperty(path: string, name: string, value: Value)    // Set-ItemProperty
    | NewKey(path: string, property: Option<(string, Value)>)  // New-Item [| New-ItemProperty]
    | RemoveKey(path: string)                                  // Remove-Item -Recurse
    | RemoveProperty(path: string, name: string)               // Remove-ItemProperty
    | EnumDevices                                              // pnputil /enum-devices /class HIDClass
    | SwitchDevice(state: Option<string>, id: string)          // pnputil /<state>-device
    | Echo(text: string)                                       // echo

  /** What a process leaves: its exit code and its two streams. */
  datatype Reply = Reply(rc: int, out: string, err: string)

  /** What the world remembers of the core's actions: each command run (and
      whether elevated), and each time the user was asked to elevate. */
  datatype Event = Ran(cmd: Command, elevated: bool) | Asked

  /** What a command leaves when it is not refused: the registry, the
      exchange file and the process's reply. */
  datatype Change = Change(reg: Registry, exchange: Option<Value>, reply: Reply)

  /** The parts of the world the core cannot see into, as fixed answers. */
  datatype Env = Env(
    consent: bool,                     // the answer to every `Ask.elevate()` prompt
    denied: (Command, bool) -> bool,   // whether a command is refused, elevated or not
    deniedText: string,                // what a refused command prints on stderr
    missingText: string,               // what a command on a missing key or value prints on stderr
    wrapper: Reply,                    // what the elevating wrapper process prints (the UAC outcome)
    answer: (Command, bool) -> Reply,  // what pnputil and echo print
    act: (Command, Registry, Option<Value>, bool) -> Change)  // what a command that runs does

  /** The state: the registry, the file `get_reg` reads its answer from, and
      the log of events. */
  datatype World = World(reg: Registry, exchange: Option<Value>, log: seq<Event>)

  /** A state change with the reply of the process that made it. */
  datatype Effect = Effect(world: World, reply: Reply)

  /** A state change with what the Python function returned or raised. */
  datatype Outcome<+T> = Outcome(world: World, result: Result<T, Errors.Error>)

  /** The reply of a command that succeeds silently. */
  const Silent := Reply(0, "", "")

  function Missing(env: Env): Reply {
    Reply(1, "", env.missingText)
  }

  /** The world after the user is asked to elevate. */
  function Prompted(w: World): World {
    w.(log := w.log + [Asked])
  }

  /** What each cmdlet does to the registry and prints, when it runs. */
  function Cmdlet(env: Env, cmd: Command, reg: Registry, exchange: Option<Value>, elevated: bool): (c: Change)
    ensures cmd.TestPath? || cmd.EnumDevices? || cmd.SwitchDevice? || cmd.Echo? ==> c.reg == reg
    ensures !cmd.ReadValue? ==> c.exchange == exchange
  {
    match cmd
    case TestPath(p) => Change(reg, exchange, Reply(0, if p in reg.keys then "True\n" else "False\n", ""))
    case ReadValue(p, n) =>
      if p in reg.keys && (p, n) in reg.values then Change(reg, Some(reg.values[(p, n)]), Silent)
      else Change(reg, exchange, Missing(env))
    case SetProperty(p, n, v) =>
      if p in reg.keys then Change(reg.(values := reg.values[(p, n) := v]), exchange, Silent)
      else Change(reg, exchange, Missing(env))
    case NewKey(p, property) =>
      // -Force replaces a key that exists, dropping its values
      var kept := map k | k in reg.values && k.0 != p :: reg.values[k];
      var values := if property.Some? then kept[(p, property.value.0) := property.value.1] else kept;
      // and creates every missing key above it
      Change(Registry(reg.keys + {p} + Above(p), values), exchange, Silent)
    case RemoveKey(p) =>
      if p in reg.keys then
        var keys := set k | k in reg.keys && !Under(k, p);
        var values := map k | k in reg.values && !Under(k.0, p) :: reg.values[k];
        Change(Registry(keys, values), exchange, Silent)
      else Change(reg, exchange, Missing(env))
    case RemoveProperty(p, n) =>
      if (p, n) in reg.values then Change(reg.(values := reg.values - {(p, n)}), exchange, Silent)
      else Change(reg, exchange, Missing(env))
    case EnumDevices => Change(reg, exchange, env.answer(cmd, elevated))
    case SwitchDevice(_, _) => Change(reg, exchange, env.answer(cmd, elevated))
    case Echo(_) => Change(reg, exchange, env.answer(cmd, elevated))
  }

  /** The environment's commands act as the cmdlets do. (The trigger keeps
      the cmdlets out of a proof until it names the one it needs.) */
  ghost predicate Faithful(env: Env) {
    forall cmd, reg, exchange, elevated {:trigger Cmdlet(env, cmd, reg, exchange, elevated)} ::
      env.act(cmd, reg, exchange, elevated) == Cmdlet(env, cmd, reg, exchange, elevated)
  }

  /** Every cmdlet keeps each value under a key that exists. */
  lemma CmdletConsistent(env: Env, cmd: Command, reg: Registry, exchange: Option<Value>, elevated: bool)
    requires Consistent(reg)
    ensures Consistent(Cmdlet(env, cmd, reg, exchange, elevated).reg)
  {
    match cmd
    case NewKey(p, _) => AddKeyConsistent(reg, p);
    case RemoveKey(p) => PruneConsistent(reg, p);
    case _ =>
  }

  /** One process run: a refused command changes nothing and prints the
      refusal; otherwise the command does what the environment's `act` says. */
  function Step(env: Env, w: World, cmd: Command, elevated: bool): (e: Effect)
    ensures e.world.log == w.log + [Ran(cmd, elevated)]
    ensures env.denied(cmd, elevated) ==> e.world.reg == w.reg && e.world.exchange == w.exchange && e.reply == Reply(1, "", env.deniedText)
    ensures !env.denied(cmd, elevated) ==>
      var c := env.act(cmd, w.reg, w.exchange, elevated);
      e.world.reg == c.reg && e.world.exchange == c.exchange && e.reply == c.reply
  {
    var c := if env.denied(cmd, elevated) then Change(w.reg, w.exchange, Reply(1, "", env.deniedText))
             else env.act(cmd, w.reg, w.exchange, elevated);
    Effect(World(c.reg, c.exchange, w.log + [Ran(cmd, elevated)]), c.reply)
  }

  /** The machine the core runs on: the world it changes, and the answers of
      the parts it cannot see into. */
  class Machine {
    const env: Env
    var world: World

    constructor (env: Env, reg: Registry)
      ensures this.env == env && world == World(reg, None, [])
    {
      this.env := env;
      world := World(reg, None, []);
    }

    /** Runs one process. */
    method Execute(cmd: Command, elevated: bool) returns (reply: Reply)
      modifies this
      ensures Effect(world, reply) == Step(env, old(world), cmd, elevated)
    {
      var e := Step(env, world, cmd, elevated);
      world := e.world;
      reply := e.reply;
    }

    /** `Ask.elevate()`: the dialog asking the user to elevate. */
    method Ask() returns (yes: bool)
      modifies this
      ensures world == Prompted(old(world)) && yes == env.consent
    {
      world := Prompted(world);
      yes := env.consent;
    }

    /** `tempfile.NamedTemporaryFile`: a fresh, empty file for `get_reg`'s answer. */
    method FreshExchange()
      modifies this
      ensures world == old(world).(exchange := None)
    {
      world := world.(exchange := None);
    }
  }
}
