/** `Device` (`model.py`): a plug-and-play device that can be found in the
    output of `pnputil`, read through its status and two registry values,
    and switched on or off either at the device or through the registry. */
module Model {
  import opened Wrappers
  import opened Text
  import opened Classify
  import opened Shell
  import opened Run
  import Errors
  import PnpErrors
  import RegErrors
  import RegTypes
  import Reg
  import Observe

  type Error = Errors.Error

  // ---------------------------------------------------------------------
  // Constants and the two device classes

  /** The modes: the device instance, the machine's registry key, the
      user's registry key. */
  const DEVICE := "device"
  const SYSTEM := "system"
  const USER := "user"

  /** The states; `none` (registry only) means "not set". */
  const DISABLE := "disable"
  const ENABLE := "enable"
  const NONE := "none"

  /** A registry value that switches the device: key path, value name and
      type code. */
  datatype Key = Key(path: string, name: string, regType: int)

  /** What a device class fixes: its machine-wide key (none for a touchpad,
      whose `system_enabled` and `_check` say so), its per-user key, and the
      names that pick it out of the `pnputil` listing. */
  datatype Profile = Profile(systemKey: Option<Key>, userKey: Key, names: seq<string>)

  /** `Touchscreen` */
  const Touchscreen := Profile(Some(Key("HKLM:\\SOFTWARE\\Microsoft\\Wisp\\Touch", "TouchGate", 4)),
                               Key("HKCU:\\SOFTWARE\\Microsoft\\Wisp\\Touch", "TouchGate", 4),
                               ["touch screen", "touchscreen"])

  /** `Touchpad`: no machine-wide key. */
  const Touchpad := Profile(None,
                            Key("HKCU:\\Software\\Microsoft\\Windows\\CurrentVersion\\PrecisionTouchPad\\Status", "Enabled", 4),
                            ["touch pad", "touchpad"])

  // ---------------------------------------------------------------------
  // _check

  /** `_check(state, mode)`, with the touchpad's override: each argument
      given must be one of its constants, the device itself cannot be "not
      set", and a device without a machine-wide key has no system mode. */
  function Check(p: Profile, state: Option<string>, mode: Option<string>): (r: Result<(), Error>)
    ensures r.Ok? <==>
      (state.None? || state.value in {DISABLE, ENABLE, NONE})
      && (mode.None? || mode.value in {DEVICE, SYSTEM, USER})
      && !(mode == Some(DEVICE) && state == Some(NONE))
      && !(p.systemKey.None? && mode == Some(SYSTEM))
    ensures r.Err? ==> r.error == Errors.Assertion || (r.error == Errors.NotImplemented && p.systemKey.None?)
  {
    if state.Some? && state.value !in {DISABLE, ENABLE, NONE} then Err(Errors.Assertion)
    else if mode.Some? && mode.value !in {DEVICE, SYSTEM, USER} then Err(Errors.Assertion)
    else if mode == Some(DEVICE) && state == Some(NONE) then Err(Errors.Assertion)
    else if p.systemKey.None? && mode == Some(SYSTEM) then Err(Errors.NotImplemented)
    else Ok(())
  }

  /** The two combinations the checks are there to refuse. */
  lemma CheckRefuses(p: Profile, state: Option<string>, mode: Option<string>)
    ensures Check(p, Some(NONE), Some(DEVICE)).Err?
    ensures Check(Touchpad, state, Some(SYSTEM)).Err?
    ensures Check(Touchscreen, Some(NONE), Some(SYSTEM)).Ok? && Check(Touchscreen, Some(DISABLE), Some(DEVICE)).Ok?
  {
  }

  // ---------------------------------------------------------------------
  // Parsing the listing of get_device

  /** A device's fields, as `get_device` reads them from its block. */
  type Fields = map<string, string>

  /** `k, v = l.split(':', 1)`, both stripped. */
  function FieldKey(l: string): string
    requires ':' in l
  {
    Strip(l[..IndexOfChar(l, ':').value])
  }

  function FieldValue(l: string): string
    requires ':' in l
  {
    Strip(l[IndexOfChar(l, ':').value + 1..])
  }

  /** `l.split(':', 1)`, stripped, for a line that holds a `:`. */
  function Setting(l: string): (r: Option<(string, string)>)
    ensures r.Some? <==> ':' in l
  {
    if ':' in l then Some((FieldKey(l), FieldValue(l))) else None
  }

  /** The fields read from the first `n` lines of a block, each line read
      by `read`: a line that sets a key sets it, a later line overwriting an
      earlier one. */
  function FieldsBy(read: string -> Option<(string, string)>, ls: seq<string>, n: nat): Fields
    requires n <= |ls|
  {
    if n == 0 then map[]
    else
      var f := FieldsBy(read, ls, n - 1);
      match read(ls[n - 1])
      case None => f
      case Some((k, v)) => f[k := v]
  }

  /** The fields of a block's text. */
  function Block(b: string): Fields {
    var ls := Lines(b);
    FieldsBy(Setting, ls, |ls|)
  }

  /** `any([n.lower() in b.lower() for n in names])` */
  function Mentions(b: string, names: seq<string>): (r: bool)
    ensures r <==> exists n :: n in names && Contains(LowerStr(b), LowerStr(n))
  {
    if names == [] then false
    else if Contains(LowerStr(b), LowerStr(names[0])) then
      assert names[0] in names;
      true
    else if Mentions(b, names[1..]) then
      var n :| n in names[1..] && Contains(LowerStr(b), LowerStr(n));
      assert n in names;
      true
    else
      assert forall n | n in names :: n == names[0] || n in names[1..];
      false
  }

  /** The blocks `get_device` keeps: those naming the device, with a `:`. */
  predicate Kept(b: string, names: seq<string>) {
    Mentions(b, names) && ':' in b
  }

  function KeptAmong(names: seq<string>): string -> bool {
    b => Kept(b, names)
  }

  /** The kept blocks among the first `n`, in order, each read into its
      fields. */
  function KeepBy(keep: string -> bool, read: string -> Fields, bs: seq<string>, n: nat): seq<Fields>
    requires n <= |bs|
  {
    if n == 0 then []
    else KeepBy(keep, read, bs, n - 1) + if keep(bs[n - 1]) then [read(bs[n - 1])] else []
  }

  /** The blank-line-separated blocks of the listing, read. */
  function Parsed(out: string, names: seq<string>): seq<Fields> {
    var bs := Split(out, "\n\n");
    KeepBy(KeptAmong(names), Block, bs, |bs|)
  }

  /** One more line read. */
  lemma FieldsStep(read: string -> Option<(string, string)>, ls: seq<string>, j: nat)
    requires j < |ls|
    ensures read(ls[j]).None? ==> FieldsBy(read, ls, j + 1) == FieldsBy(read, ls, j)
    ensures read(ls[j]).Some? ==> FieldsBy(read, ls, j + 1) == FieldsBy(read, ls, j)[read(ls[j]).value.0 := read(ls[j]).value.1]
  {
  }

  /** The split at the first colon. */
  lemma SettingSplits(l: string, k: nat)
    requires ':' in l && IndexOfChar(l, ':') == Some(k)
    ensures Setting(l) == Some((Strip(l[..k]), Strip(l[k + 1..])))
  {
  }

  lemma LastReplaced(blocks: seq<Fields>, f: Fields, g: Fields)
    ensures (blocks + [f])[|blocks| := g] == blocks + [g]
  {
  }

  /** The lines of a kept block, read into its (last) dictionary. */
  method ReadBlock(blocks: seq<Fields>, ls: seq<string>) returns (r: seq<Fields>)
    ensures r == blocks + [FieldsBy(Setting, ls, |ls|)]
  {
    r := blocks + [map[]];
    for j := 0 to |ls|
      invariant r == blocks + [FieldsBy(Setting, ls, j)]
    {
      var l := ls[j];
      FieldsStep(Setting, ls, j);
      if ':' in l {
        var k := IndexOfChar(l, ':').value;
        SettingSplits(l, k);
        var last := r[|r| - 1][Strip(l[..k]) := Strip(l[k + 1..])];
        LastReplaced(blocks, FieldsBy(Setting, ls, j), last);
        r := r[|r| - 1 := last];
      }
    }
  }

  /** The loop of `get_device`: the blocks of the listing are walked in
      order; a kept block opens a new dictionary, and each of its lines with
      a `:` sets a field of that (last) dictionary. */
  method ParseBlocks(out: string, names: seq<string>) returns (blocks: seq<Fields>)
    ensures blocks == Parsed(out, names)
  {
    var raw := Split(out, "\n\n");
    blocks := [];
    for i := 0 to |raw|
      invariant blocks == KeepBy(KeptAmong(names), Block, raw, i)
    {
      var b := raw[i];
      if Mentions(b, names) && ':' in b {
        blocks := ReadBlock(blocks, Lines(b));
      }
    }
  }

  /** `strip()` keeps a stretch of its argument. */
  lemma StripSlice(s: string)
    ensures exists i, j :: 0 <= i <= j <= |s| && Strip(s) == s[i..j]
  {
    var e := TrimEnd(s);
    var r := Strip(s);
    assert e == s[..|e|];
    assert r == e[|e| - |r|..];
    assert r == s[|e| - |r|..|e|];
  }

  /** A stripped text strips to itself. */
  lemma StripTwice(s: string)
    ensures Strip(Strip(s)) == Strip(s)
  {
    var e := TrimEnd(s);
    var r := Strip(s);
    assert r == e[|e| - |r|..];
    if r != [] {
      assert r[|r| - 1] == e[|e| - 1];
    }
    StripClean(r);
  }

  /** A field key is stripped and has no `:` in it: the split is at the
      first colon, so a value may hold colons, a key never does. */
  lemma FieldKeyClean(l: string)
    requires ':' in l
    ensures ':' !in FieldKey(l) && Strip(FieldKey(l)) == FieldKey(l)
  {
    var head := l[..IndexOfChar(l, ':').value];
    StripSlice(head);
    StripTwice(head);
  }

  /** The last of the first `n` lines that `read` finds setting `k`. */
  function LastSetting(read: string -> Option<(string, string)>, ls: seq<string>, k: string, n: nat): (r: Option<nat>)
    requires n <= |ls|
    ensures r.Some? ==> r.value < n && read(ls[r.value]).Some? && read(ls[r.value]).value.0 == k
    ensures r.Some? ==> forall j | r.value < j < n :: read(ls[j]).None? || read(ls[j]).value.0 != k
    ensures r.None? ==> forall j | 0 <= j < n :: read(ls[j]).None? || read(ls[j]).value.0 != k
  {
    if n == 0 then None
    else if read(ls[n - 1]).Some? && read(ls[n - 1]).value.0 == k then Some(n - 1)
    else LastSetting(read, ls, k, n - 1)
  }

  /** A key is among a block's fields exactly when one of its lines sets it,
      and its value is the one the last such line gives. */
  lemma {:induction false} FieldsLastWins(read: string -> Option<(string, string)>, ls: seq<string>, k: string, n: nat)
    requires n <= |ls|
    ensures k in FieldsBy(read, ls, n) <==> LastSetting(read, ls, k, n).Some?
    ensures k in FieldsBy(read, ls, n) ==> FieldsBy(read, ls, n)[k] == read(ls[LastSetting(read, ls, k, n).value]).value.1
  {
    if n > 0 {
      FieldsLastWins(read, ls, k, n - 1);
    }
  }

  /** A property every key a line sets has, every key of the block has. */
  lemma {:induction false} FieldKeysHave(read: string -> Option<(string, string)>, good: string -> bool, ls: seq<string>, n: nat)
    requires n <= |ls|
    requires forall l :: read(l).Some? ==> good(read(l).value.0)
    ensures forall k | k in FieldsBy(read, ls, n) :: good(k)
  {
    if n > 0 {
      FieldKeysHave(read, good, ls, n - 1);
    }
  }

  /** A stripped key with no colon. */
  predicate CleanKey(k: string) {
    ':' !in k && Strip(k) == k
  }

  /** Every key of every block `get_device` returns is stripped and free of
      colons. */
  lemma BlockKeysClean(b: string)
    ensures forall k | k in Block(b) :: CleanKey(k)
  {
    var ls := Lines(b);
    forall l | Setting(l).Some? ensures CleanKey(Setting(l).value.0) {
      FieldKeyClean(l);
    }
    FieldKeysHave(Setting, CleanKey, ls, |ls|);
  }

  /** Each block returned is the reading of a kept block. */
  lemma {:induction false} KeepSound(keep: string -> bool, read: string -> Fields, bs: seq<string>, n: nat)
    requires n <= |bs|
    ensures forall f | f in KeepBy(keep, read, bs, n) :: exists i :: 0 <= i < n && keep(bs[i]) && f == read(bs[i])
  {
    if n > 0 {
      KeepSound(keep, read, bs, n - 1);
    }
  }

  /** Each kept block yields a block returned; none kept, none returned. */
  lemma {:induction false} KeepComplete(keep: string -> bool, read: string -> Fields, bs: seq<string>, n: nat)
    requires n <= |bs|
    ensures forall i | 0 <= i < n && keep(bs[i]) :: read(bs[i]) in KeepBy(keep, read, bs, n)
    ensures KeepBy(keep, read, bs, n) == [] <==> forall i | 0 <= i < n :: !keep(bs[i])
  {
    if n > 0 {
      KeepComplete(keep, read, bs, n - 1);
      var prev := KeepBy(keep, read, bs, n - 1);
      var last := if keep(bs[n - 1]) then [read(bs[n - 1])] else [];
      assert KeepBy(keep, read, bs, n) == prev + last;
      assert forall f | f in prev :: f in prev + last;
    }
  }

  // ---------------------------------------------------------------------
  // The status properties

  /** `device_enabled`: anything but `disabled`. */
  predicate Enabled(status: string) {
    LowerStr(status) != "disabled"
  }

  /** `device_running`: `started`. */
  predicate Running(status: string) {
    LowerStr(status) == "started"
  }

  /** `device_working`: anything but `problem`. */
  predicate Working(status: string) {
    LowerStr(status) != "problem"
  }

  /** The three readings agree: a running device is enabled and working; a
      disabled one is neither running nor in trouble; case does not matter. */
  lemma StatusesAgree(status: string)
    ensures Running(status) ==> Enabled(status) && Working(status)
    ensures !Enabled(status) ==> !Running(status) && Working(status)
    ensures !Working(status) ==> Enabled(status) && !Running(status)
  {
    assert "started"[0] != "problem"[0];
  }

  // ---------------------------------------------------------------------
  // The tri-state registry values and their precedence

  /** What `_check_key` makes of a value read from the registry (data and
      normalised kind) for a key of the given type: only a 0 or a 1 of the
      right type says something. */
  function Tri(data: Data, kind: int, regType: int): (r: Option<bool>)
    ensures r == Some(false) <==> RegTypes.Clamp(kind) == RegTypes.Clamp(regType) && data == Num(0)
    ensures r == Some(true) <==> RegTypes.Clamp(kind) == RegTypes.Clamp(regType) && data == Num(1)
  {
    if RegTypes.Clamp(kind) != RegTypes.Clamp(regType) then None
    else if data == Num(0) then Some(false)
    else if data == Num(1) then Some(true)
    else None
  }

  /** The precedence of `user_active` for an enabled device: the machine's
      setting (none counts as on) and the user's. */
  function Active(system: Option<bool>, user: Option<bool>): bool {
    match system
    case Some(false) => user == Some(true)
    case _ => user != Some(false)
  }

  /** The user's own setting wins when there is one; without one the
      machine's decides, and with neither the device is active. */
  lemma Precedence(system: Option<bool>, user: Option<bool>)
    ensures user.Some? ==> Active(system, user) == user.value
    ensures user.None? ==> Active(system, user) == (system != Some(false))
    ensures Active(None, None)
  {
  }

  // ---------------------------------------------------------------------
  // handle_error and the classification of pnputil's output

  /** `Device.handle_error`: the runner's and the registry's "aborted" and
      "denied" errors become the device's own; everything else passes. */
  function Handled<T>(o: Outcome<T>): (r: Outcome<T>)
    ensures r.world == o.world
    ensures o.result.Ok? ==> r == o
    ensures o.result.Err? ==> r.result == Err(Errors.DeviceHandle(o.result.error))
  {
    match o.result
    case Ok(_) => o
    case Err(e) => Outcome(o.world, Err(Errors.DeviceHandle(e)))
  }

  /** A decorated call made inside a decorated call: the outer decorator
      finds nothing left to translate. */
  lemma HandledTwice<T>(o: Outcome<T>)
    ensures Handled(Handled(o)) == Handled(o)
  {
    if o.result.Err? {
      Errors.DeviceHandleAfterReg(o.result.error);
    }
  }

  /** How pnputil's output is classified: `check_error(output)` with the
      corrected table, and as written (see `PnpErrors`). */
  function Classified(output: string): Option<PnpErrors.Kind> {
    PnpErrors.CheckErrorFixed(output, None, All)
  }

  function ClassifiedAsWritten(output: string): Option<PnpErrors.Kind> {
    PnpErrors.CheckError(output, None, All)
  }

  /** The table as written (`fixed` false) or as intended (`fixed` true). */
  function Classifier(fixed: bool): string -> Option<PnpErrors.Kind> {
    if fixed then Classified else ClassifiedAsWritten
  }

  /** The text `get_device` classifies: both streams, lower-cased, stripped. */
  function Listing(reply: Reply): string {
    Strip(LowerStr(reply.out + "\n" + reply.err))
  }

  // ---------------------------------------------------------------------
  // get_device

  /** What `get_device` returns: every matching block, or the one device. */
  datatype Devices = Listed(blocks: seq<Fields>) | Single(fields: Fields)

  /** The `names` argument: none (the class's names), one name, or a list. */
  datatype Names = Default | OneName(name: string) | NameList(list: seq<string>)

  function Resolve(p: Profile, names: Names): (r: seq<string>)
    ensures names.Default? ==> r == p.names
    ensures names.OneName? ==> r == [names.name]
    ensures names.NameList? ==> r == names.list
  {
    match names
    case Default => p.names
    case OneName(n) => [n]
    case NameList(ns) => ns
  }

  /** The end of `get_device`: every block, or exactly one. */
  function Chosen(blocks: seq<Fields>, getAll: bool): (r: Result<Devices, Error>)
    ensures getAll ==> r == Ok(Listed(blocks))
    ensures !getAll ==> (r.Ok? <==> |blocks| == 1)
    ensures !getAll && r.Ok? ==> r.value == Single(blocks[0])
    ensures !getAll && r.Err? ==> r.error == Errors.Device(PnpErrors.NotFound)
  {
    if getAll then Ok(Listed(blocks))
    else if |blocks| != 1 then Err(Errors.Device(PnpErrors.NotFound))
    else Ok(Single(blocks[0]))
  }

  /** `Device.get_device(names, get_all, elevate, auto_elevate)` with the
      names resolved, under a reading of the runner and a classification of
      pnputil's output: the enumeration is run without the runner's own
      elevation, and `Enumerated` says what follows from its output. */
  function GetDeviceWith(rd: Reg.Reading, pnp: string -> Option<PnpErrors.Kind>, env: Env, w: World,
                         names: seq<string>, getAll: bool, elevate: bool, autoElevate: bool): (r: Outcome<Devices>)
    ensures getAll && r.result.Ok? ==> r.result.value.Listed?
    ensures !getAll && r.result.Ok? ==> r.result.value.Single?
    decreases if elevate then 0 else 1, 1
  {
    var o := Reg.Ps(rd, env, w, EnumDevices, elevate, false);
    Handled(
      if o.result.Err? then Outcome(o.world, Err(o.result.error))
      else Enumerated(rd, pnp, env, o.world, pnp(Listing(o.result.value)), Parsed(o.result.value.out, names),
                      names, getAll, elevate, autoElevate))
  }

  /** What `get_device` does once the enumeration has printed: a refusal
      (`verdict`, the classification of the output) is retried elevated once
      the user agrees; any other error is raised; otherwise all the parsed
      `blocks`, or exactly one, are returned. */
  function Enumerated(rd: Reg.Reading, pnp: string -> Option<PnpErrors.Kind>, env: Env, w: World,
                      verdict: Option<PnpErrors.Kind>, blocks: seq<Fields>,
                      names: seq<string>, getAll: bool, elevate: bool, autoElevate: bool): (r: Outcome<Devices>)
    ensures getAll && r.result.Ok? ==> r.result.value.Listed?
    ensures !getAll && r.result.Ok? ==> r.result.value.Single?
    decreases if elevate then 0 else 1, 0
  {
    if verdict == Some(PnpErrors.Permission) then
      if autoElevate && !elevate then
        if env.consent then GetDeviceWith(rd, pnp, env, Prompted(w), names, getAll, true, true)
        else Outcome(Prompted(w), Err(Errors.Device(PnpErrors.OperationAborted)))
      else Outcome(w, Err(Errors.Device(PnpErrors.Permission)))
    else if verdict.Some? then Outcome(w, Err(Errors.Device(verdict.value)))
    else Outcome(w, Chosen(blocks, getAll))
  }

  /** `get_device` as the code reads its output, over the corrected pnputil
      table (`GetDeviceAsWritten` uses the table as written). */
  function GetDevice(env: Env, w: World, p: Profile, names: Names, getAll: bool, elevate: bool, autoElevate: bool): Outcome<Devices> {
    GetDeviceWith(Reg.Actual(env), Classified, env, w, Resolve(p, names), getAll, elevate, autoElevate)
  }

  function GetDeviceAsWritten(env: Env, w: World, p: Profile, names: Names, getAll: bool, elevate: bool, autoElevate: bool): Outcome<Devices> {
    GetDeviceWith(Reg.Actual(env), ClassifiedAsWritten, env, w, Resolve(p, names), getAll, elevate, autoElevate)
  }

  /** When the enumeration's output shows no error, `get_device` returns
      the parsed blocks, all of them or the single one, and nothing else
      happens. */
  lemma GetDeviceReads(rd: Reg.Reading, pnp: string -> Option<PnpErrors.Kind>, env: Env, w: World, blocks: seq<Fields>,
                       names: seq<string>, getAll: bool, elevate: bool, autoElevate: bool)
    ensures var r := Handled(Enumerated(rd, pnp, env, w, None, blocks, names, getAll, elevate, autoElevate));
      r.world == w
      && (getAll ==> r.result == Ok(Listed(blocks)))
      && (!getAll ==> (r.result.Ok? <==> |blocks| == 1))
      && (!getAll && |blocks| == 1 ==> r.result == Ok(Single(blocks[0])))
      && (!getAll && |blocks| != 1 ==> r.result == Err(Errors.Device(PnpErrors.NotFound)))
  {
    assert Enumerated(rd, pnp, env, w, None, blocks, names, getAll, elevate, autoElevate) == Outcome(w, Chosen(blocks, getAll));
  }

  /** `get_device` is already wrapped by `handle_error`: wrapping it again
      changes nothing. */
  lemma GetDeviceHandled(rd: Reg.Reading, pnp: string -> Option<PnpErrors.Kind>, env: Env, w: World,
                         names: seq<string>, getAll: bool, elevate: bool, autoElevate: bool)
    ensures Handled(GetDeviceWith(rd, pnp, env, w, names, getAll, elevate, autoElevate))
      == GetDeviceWith(rd, pnp, env, w, names, getAll, elevate, autoElevate)
  {
    var o := Reg.Ps(rd, env, w, EnumDevices, elevate, false);
    var inner := if o.result.Err? then Outcome(o.world, Err(o.result.error))
      else Enumerated(rd, pnp, env, o.world, pnp(Listing(o.result.value)), Parsed(o.result.value.out, names),
                      names, getAll, elevate, autoElevate);
    assert GetDeviceWith(rd, pnp, env, w, names, getAll, elevate, autoElevate) == Handled(inner);
    HandledTwice(inner);
  }

  /** A refused enumeration, when elevation is allowed and not yet done:
      the user is asked, and agreeing runs `get_device` again, elevated ... */
  lemma GetDeviceRetried(rd: Reg.Reading, pnp: string -> Option<PnpErrors.Kind>, env: Env, w: World, blocks: seq<Fields>,
                         names: seq<string>, getAll: bool, autoElevate: bool)
    requires autoElevate && env.consent
    ensures Handled(Enumerated(rd, pnp, env, w, Some(PnpErrors.Permission), blocks, names, getAll, false, autoElevate))
      == GetDeviceWith(rd, pnp, env, Prompted(w), names, getAll, true, true)
  {
    var g := GetDeviceWith(rd, pnp, env, Prompted(w), names, getAll, true, true);
    assert Enumerated(rd, pnp, env, w, Some(PnpErrors.Permission), blocks, names, getAll, false, autoElevate) == g;
    GetDeviceHandled(rd, pnp, env, Prompted(w), names, getAll, true, true);
  }

  /** ... declining aborts ... */
  lemma GetDeviceDeclined(rd: Reg.Reading, pnp: string -> Option<PnpErrors.Kind>, env: Env, w: World, blocks: seq<Fields>,
                          names: seq<string>, getAll: bool, autoElevate: bool)
    requires autoElevate && !env.consent
    ensures Handled(Enumerated(rd, pnp, env, w, Some(PnpErrors.Permission), blocks, names, getAll, false, autoElevate))
      == Outcome(Prompted(w), Err(Errors.Device(PnpErrors.OperationAborted)))
  {
  }

  /** ... and, elevated or not allowed to elevate, the refusal is raised
      without asking. */
  lemma GetDeviceDenied(rd: Reg.Reading, pnp: string -> Option<PnpErrors.Kind>, env: Env, w: World, blocks: seq<Fields>,
                        names: seq<string>, getAll: bool, elevate: bool, autoElevate: bool)
    requires elevate || !autoElevate
    ensures Handled(Enumerated(rd, pnp, env, w, Some(PnpErrors.Permission), blocks, names, getAll, elevate, autoElevate))
      == Outcome(w, Err(Errors.Device(PnpErrors.Permission)))
  {
  }

  /** Any other error the output shows is raised as it is. */
  lemma GetDeviceRaises(rd: Reg.Reading, pnp: string -> Option<PnpErrors.Kind>, env: Env, w: World, k: PnpErrors.Kind,
                        blocks: seq<Fields>, names: seq<string>, getAll: bool, elevate: bool, autoElevate: bool)
    requires k != PnpErrors.Permission
    ensures Handled(Enumerated(rd, pnp, env, w, Some(k), blocks, names, getAll, elevate, autoElevate))
      == Outcome(w, Err(Errors.Device(k)))
  {
  }

  /** An error of the runner is raised, translated by `handle_error`. */
  lemma GetDeviceFails(rd: Reg.Reading, pnp: string -> Option<PnpErrors.Kind>, env: Env, w: World,
                       names: seq<string>, getAll: bool, elevate: bool, autoElevate: bool)
    requires Reg.Ps(rd, env, w, EnumDevices, elevate, false).result.Err?
    ensures var o := Reg.Ps(rd, env, w, EnumDevices, elevate, false);
      GetDeviceWith(rd, pnp, env, w, names, getAll, elevate, autoElevate)
        == Outcome(o.world, Err(Errors.DeviceHandle(o.result.error)))
  {
  }

  /** The number of times the user was asked to elevate. */
  function Prompts(log: seq<Event>): nat {
    if log == [] then 0 else Prompts(log[..|log| - 1]) + (if log[|log| - 1] == Asked then 1 else 0)
  }

  lemma PromptsAfter(log: seq<Event>, e: Event)
    ensures Prompts(log + [e]) == Prompts(log) + (if e == Asked then 1 else 0)
  {
    assert (log + [e])[..|log|] == log;
  }

  /** The enumeration itself never asks: it is run without the runner's
      elevation, so it runs once or (an elevated launch the wrapper reports
      failed) not at all. */
  lemma EnumerationRunsOnce(rd: Reg.Reading, env: Env, w: World, elevate: bool)
    ensures var log := Reg.Ps(rd, env, w, EnumDevices, elevate, false).world.log;
      log == w.log || log == w.log + [Ran(EnumDevices, elevate)]
  {
    LaunchLog(rd.wrapped, env, w, EnumDevices, elevate);
  }

  /** `get_device` asks the user at most once, and never once elevated or
      when elevation is not allowed. */
  lemma {:induction false} GetDeviceAsksOnce(rd: Reg.Reading, pnp: string -> Option<PnpErrors.Kind>, env: Env, w: World,
                                             names: seq<string>, getAll: bool, elevate: bool, autoElevate: bool)
    ensures Prompts(GetDeviceWith(rd, pnp, env, w, names, getAll, elevate, autoElevate).world.log)
      <= Prompts(w.log) + (if autoElevate && !elevate then 1 else 0)
    decreases if elevate then 0 else 1
  {
    var o := Reg.Ps(rd, env, w, EnumDevices, elevate, false);
    EnumerationRunsOnce(rd, env, w, elevate);
    PromptsAfter(w.log, Ran(EnumDevices, elevate));
    GetDeviceWorld(rd, pnp, env, w, names, getAll, elevate, autoElevate);
    if o.result.Ok? {
      EnumeratedWorld(rd, pnp, env, o.world, pnp(Listing(o.result.value)), Parsed(o.result.value.out, names),
                      names, getAll, elevate, autoElevate);
    }
    if o.result.Ok? && pnp(Listing(o.result.value)) == Some(PnpErrors.Permission) && autoElevate && !elevate {
      var w1 := Prompted(o.world);
      PromptsAfter(o.world.log, Asked);
      if env.consent {
        GetDeviceAsksOnce(rd, pnp, env, w1, names, getAll, true, true);
      }
    }
  }

  /** `get_device` leaves the world its enumeration, or what follows it,
      leaves. */
  lemma GetDeviceWorld(rd: Reg.Reading, pnp: string -> Option<PnpErrors.Kind>, env: Env, w: World,
                       names: seq<string>, getAll: bool, elevate: bool, autoElevate: bool)
    ensures var o := Reg.Ps(rd, env, w, EnumDevices, elevate, false);
      GetDeviceWith(rd, pnp, env, w, names, getAll, elevate, autoElevate).world
        == if o.result.Err? then o.world
           else Enumerated(rd, pnp, env, o.world, pnp(Listing(o.result.value)), Parsed(o.result.value.out, names),
                           names, getAll, elevate, autoElevate).world
  {
  }

  /** After the enumeration, the world is the retry's when the user agreed
      to one, has the question logged when the user declined, and is left
      alone otherwise. */
  lemma EnumeratedWorld(rd: Reg.Reading, pnp: string -> Option<PnpErrors.Kind>, env: Env, w: World,
                        verdict: Option<PnpErrors.Kind>, blocks: seq<Fields>,
                        names: seq<string>, getAll: bool, elevate: bool, autoElevate: bool)
    ensures var e := Enumerated(rd, pnp, env, w, verdict, blocks, names, getAll, elevate, autoElevate);
      if verdict == Some(PnpErrors.Permission) && autoElevate && !elevate then
        if env.consent then e == GetDeviceWith(rd, pnp, env, Prompted(w), names, getAll, true, true)
        else e.world == Prompted(w)
      else e.world == w
  {
  }

  /** An unelevated enumeration on a faithful machine runs once and returns
      what pnputil printed. */
  lemma EnumerationReplies(rd: Reg.Reading, env: Env, w: World)
    requires Faithful(env) && !env.denied(EnumDevices, false)
    ensures Reg.Ps(rd, env, w, EnumDevices, false, false)
      == Outcome(w.(log := w.log + [Ran(EnumDevices, false)]), Ok(env.answer(EnumDevices, false)))
  {
    var c := Cmdlet(env, EnumDevices, w.reg, w.exchange, false);
    LaunchLog(rd.wrapped, env, w, EnumDevices, false);
  }

  // ---------------------------------------------------------------------
  // The `50` pattern read in an enumeration (see `PnpErrors`)

  /** An enumeration that lists one device whose instance ID has `50` in it
      (vendor 0x1050), and prints nothing else. */
  const VendorListing := Reply(0, PnpErrors.InstanceLine, "")

  lemma VendorListingLower(s: string)
    requires s == PnpErrors.InstanceLine + "\n"
    ensures LowerStr(s) == s
  {
    LowerPlain(s);
  }

  lemma VendorListingStrip(s: string)
    requires s == PnpErrors.InstanceLine + "\n"
    ensures Strip(s) == PnpErrors.InstanceLine
  {
    var t := PnpErrors.InstanceLine;
    assert s[..|s| - 1] == t;
    StripClean(t);
  }

  lemma VendorListingText(r: Reply)
    requires r == VendorListing
    ensures Listing(r) == PnpErrors.InstanceLine
  {
    var s := r.out + "\n" + r.err;
    assert s == PnpErrors.InstanceLine + "\n";
    VendorListingLower(s);
    VendorListingStrip(s);
  }

  /** As written, `get_device` raises "property already exists" on that
      enumeration, whatever it is asked for ... */
  lemma VendorListingAsWrittenWith(rd: Reg.Reading, env: Env, w: World, names: seq<string>, getAll: bool, autoElevate: bool)
    requires Faithful(env) && !env.denied(EnumDevices, false) && env.answer(EnumDevices, false) == VendorListing
    ensures GetDeviceWith(rd, ClassifiedAsWritten, env, w, names, getAll, false, autoElevate)
      == Outcome(w.(log := w.log + [Ran(EnumDevices, false)]), Err(Errors.Device(PnpErrors.PropertyExists)))
  {
    EnumerationReplies(rd, env, w);
    VendorListingText(VendorListing);
    PnpErrors.FiftyInOutputMisread();
    GetDeviceRaises(rd, ClassifiedAsWritten, env, w.(log := w.log + [Ran(EnumDevices, false)]), PnpErrors.PropertyExists,
                    Parsed(VendorListing.out, names), names, getAll, false, autoElevate);
  }

  /** ... while with the corrected table it parses the listing. */
  lemma VendorListingFixedWith(rd: Reg.Reading, env: Env, w: World, names: seq<string>, getAll: bool, autoElevate: bool)
    requires Faithful(env) && !env.denied(EnumDevices, false) && env.answer(EnumDevices, false) == VendorListing
    ensures GetDeviceWith(rd, Classified, env, w, names, getAll, false, autoElevate)
      == Outcome(w.(log := w.log + [Ran(EnumDevices, false)]), Chosen(Parsed(PnpErrors.InstanceLine, names), getAll))
  {
    EnumerationReplies(rd, env, w);
    VendorListingText(VendorListing);
    PnpErrors.FiftyInOutputFixed();
    GetDeviceReads(rd, Classified, env, w.(log := w.log + [Ran(EnumDevices, false)]), Parsed(VendorListing.out, names),
                   names, getAll, false, autoElevate);
  }

  lemma VendorListingAsWritten(env: Env, w: World, p: Profile, names: Names, getAll: bool, autoElevate: bool)
    requires Faithful(env) && !env.denied(EnumDevices, false) && env.answer(EnumDevices, false) == VendorListing
    ensures GetDeviceAsWritten(env, w, p, names, getAll, false, autoElevate)
      == Outcome(w.(log := w.log + [Ran(EnumDevices, false)]), Err(Errors.Device(PnpErrors.PropertyExists)))
  {
    VendorListingAsWrittenWith(Reg.Actual(env), env, w, Resolve(p, names), getAll, autoElevate);
  }

  lemma VendorListingFixed(env: Env, w: World, p: Profile, names: Names, getAll: bool, autoElevate: bool)
    requires Faithful(env) && !env.denied(EnumDevices, false) && env.answer(EnumDevices, false) == VendorListing
    ensures GetDevice(env, w, p, names, getAll, false, autoElevate)
      == Outcome(w.(log := w.log + [Ran(EnumDevices, false)]), Chosen(Parsed(PnpErrors.InstanceLine, Resolve(p, names)), getAll))
  {
    VendorListingFixedWith(Reg.Actual(env), env, w, Resolve(p, names), getAll, autoElevate);
  }

  // ---------------------------------------------------------------------
  // get_field and the status properties

  /** `Device.get_field(field, strict, names)`: the capitalised field of the
      one device found; a missing field is an error only when strict. */
  function GetFieldWith(rd: Reg.Reading, pnp: string -> Option<PnpErrors.Kind>, env: Env, w: World, p: Profile,
                        field: string, strict: bool, names: Names): (r: Outcome<Option<string>>)
    ensures var g := GetDeviceWith(rd, pnp, env, w, Resolve(p, names), false, false, true);
      r.world == g.world
      && (r.result.Ok? ==> g.result.Ok? && (r.result.value.Some? <==> Capitalize(field) in g.result.value.fields))
      && (r.result.Ok? && r.result.value.Some? ==> r.result.value.value == g.result.value.fields[Capitalize(field)])
      && (r.result.Err? ==> (g.result.Err? && r.result.error == g.result.error) || (strict && r.result.error == Errors.PropertyNotFound))
      && (strict ==> r.result != Ok(None))
  {
    var g := GetDeviceWith(rd, pnp, env, w, Resolve(p, names), false, false, true);
    if g.result.Err? then Outcome(g.world, Err(g.result.error))
    else
      var f := g.result.value.fields;
      if Capitalize(field) in f then Outcome(g.world, Ok(Some(f[Capitalize(field)])))
      else if strict then Outcome(g.world, Err(Errors.PropertyNotFound))
      else Outcome(g.world, Ok(None))
  }

  /** `get_field()` with its defaults: the device's `Status`, strictly. */
  function StatusWith(rd: Reg.Reading, pnp: string -> Option<PnpErrors.Kind>, env: Env, w: World, p: Profile): (r: Outcome<string>)
    ensures var f := GetFieldWith(rd, pnp, env, w, p, "Status", true, Default);
      r.world == f.world
      && (r.result.Ok? <==> f.result.Ok?)
      && (r.result.Ok? ==> f.result.value == Some(r.result.value))
      && (r.result.Err? ==> r.result.error == f.result.error)
  {
    var f := GetFieldWith(rd, pnp, env, w, p, "Status", true, Default);
    if f.result.Err? then Outcome(f.world, Err(f.result.error))
    else Outcome(f.world, Ok(f.result.value.value))
  }

  /** `device_enabled`, `device_running`, `device_working`: a test of the
      status. */
  function ByStatus(s: Outcome<string>, test: string -> bool): (r: Outcome<bool>)
    ensures r.world == s.world
    ensures r.result.Ok? <==> s.result.Ok?
    ensures r.result.Ok? ==> r.result.value == test(s.result.value)
    ensures r.result.Err? ==> r.result.error == s.result.error
  {
    if s.result.Err? then Outcome(s.world, Err(s.result.error)) else Outcome(s.world, Ok(test(s.result.value)))
  }

  function DeviceEnabledWith(rd: Reg.Reading, pnp: string -> Option<PnpErrors.Kind>, env: Env, w: World, p: Profile): Outcome<bool> {
    ByStatus(StatusWith(rd, pnp, env, w, p), Enabled)
  }

  function DeviceRunningWith(rd: Reg.Reading, pnp: string -> Option<PnpErrors.Kind>, env: Env, w: World, p: Profile): Outcome<bool> {
    ByStatus(StatusWith(rd, pnp, env, w, p), Running)
  }

  function DeviceWorkingWith(rd: Reg.Reading, pnp: string -> Option<PnpErrors.Kind>, env: Env, w: World, p: Profile): Outcome<bool> {
    ByStatus(StatusWith(rd, pnp, env, w, p), Working)
  }

  /** Read in the same state, the three properties agree: a running device
      is enabled and working, a disabled one neither runs nor has a problem,
      and one with a problem is enabled but does not run. */
  lemma DeviceStatusesAgree(rd: Reg.Reading, pnp: string -> Option<PnpErrors.Kind>, env: Env, w: World, p: Profile)
    ensures var e := DeviceEnabledWith(rd, pnp, env, w, p).result;
      var u := DeviceRunningWith(rd, pnp, env, w, p).result;
      var k := DeviceWorkingWith(rd, pnp, env, w, p).result;
      (e.Ok? <==> u.Ok?) && (e.Ok? <==> k.Ok?)
      && (e.Ok? ==> (u.value ==> e.value && k.value) && (!e.value ==> !u.value && k.value) && (!k.value ==> e.value && !u.value))
  {
    var s := StatusWith(rd, pnp, env, w, p);
    if s.result.Ok? {
      StatusesAgree(s.result.value);
    }
  }

  /** `device_exists`: only a "not found" from `get_device` means absent;
      every other error propagates. */
  function DeviceExistsWith(rd: Reg.Reading, pnp: string -> Option<PnpErrors.Kind>, env: Env, w: World, p: Profile): (r: Outcome<bool>)
    ensures var g := GetDeviceWith(rd, pnp, env, w, p.names, false, false, true);
      r.world == g.world
      && (r.result == Ok(false) <==> g.result == Err(Errors.Device(PnpErrors.NotFound)))
      && (r.result == Ok(true) <==> g.result.Ok?)
      && (r.result.Err? ==> g.result.Err? && r.result.error == g.result.error)
  {
    var g := GetDeviceWith(rd, pnp, env, w, p.names, false, false, true);
    if g.result.Ok? then Outcome(g.world, Ok(true))
    else if g.result.error == Errors.Device(PnpErrors.NotFound) then Outcome(g.world, Ok(false))
    else Outcome(g.world, Err(g.result.error))
  }

  // ---------------------------------------------------------------------
  // _check_key, system_enabled, user_enabled, user_active

  /** `Device._check_key(key)`: the value is read (missing is `None`); its
      kind and the key's type are normalised and compared (different is
      `None`); then 0 is off, 1 is on, anything else `None`. */
  function CheckKeyWith(rd: Reg.Reading, env: Env, w: World, key: Key): Outcome<Option<bool>> {
    var g := Reg.GetRegWith(rd, env, w, key.path, key.name, false, true);
    Handled(
      if g.result.Err? then
        if g.result.error == Errors.Registry(RegErrors.ItemNotFound) then Outcome(g.world, Ok(None))
        else Outcome(g.world, Err(g.result.error))
      else
        var t := rd.normalise(RegTypes.IntArg(g.result.value.1));
        var u := rd.normalise(RegTypes.IntArg(key.regType));
        if t.Err? then Outcome(g.world, Err(t.error))
        else if u.Err? then Outcome(g.world, Err(u.error))
        else if t.value != u.value then Outcome(g.world, Ok(None))
        else if g.result.value.0 == Num(0) then Outcome(g.world, Ok(Some(false)))
        else if g.result.value.0 == Num(1) then Outcome(g.world, Ok(Some(true)))
        else Outcome(g.world, Ok(None)))
  }

  /** A numeric type normalises to its supported code, as
      `RegTypes.NormaliseType` does. */
  ghost predicate Clamps(rd: Reg.Reading) {
    forall i :: rd.normalise(RegTypes.IntArg(i)) == Ok(RegTypes.Clamp(i))
  }

  /** What a key says in a registry: nothing when its value is missing,
      otherwise the tri-state reading of its data and kind. */
  function Stored(reg: Registry, key: Key): Option<bool> {
    match Reg.Held(reg, key.path, key.name)
    case Err(_) => None
    case Ok((data, kind)) => Tri(data, kind, key.regType)
  }

  /** On a faithful registry `_check_key` reads the key's tri-state, by one
      command that changes nothing. */
  lemma CheckKeyReads(rd: Reg.Reading, env: Env, w: World, key: Key)
    requires Faithful(env) && Reg.Plain(rd, env) && Clamps(rd) && !env.denied(ReadValue(key.path, key.name), false)
    ensures CheckKeyWith(rd, env, w, key)
      == Outcome(w.(exchange := None, log := w.log + [Ran(ReadValue(key.path, key.name), false)]), Ok(Stored(w.reg, key)))
  {
    Reg.GetRegReadsWith(rd, env, w, key.path, key.name, true);
  }

  lemma ActualClamps(env: Env)
    ensures Clamps(Reg.Actual(env))
  {
  }

  /** `system_enabled`: the machine's key; a profile without one raises
      `NotImplementedError` (`Touchpad.system_enabled`). */
  function SystemEnabledWith(rd: Reg.Reading, env: Env, w: World, p: Profile): (r: Outcome<Option<bool>>)
    ensures p.systemKey.None? ==> r == Outcome(w, Err(Errors.NotImplemented))
    ensures p.systemKey.Some? ==> r == CheckKeyWith(rd, env, w, p.systemKey.value)
  {
    if p.systemKey.None? then Outcome(w, Err(Errors.NotImplemented)) else CheckKeyWith(rd, env, w, p.systemKey.value)
  }

  /** `user_enabled`: the user's key. */
  function UserEnabledWith(rd: Reg.Reading, env: Env, w: World, p: Profile): Outcome<Option<bool>> {
    CheckKeyWith(rd, env, w, p.userKey)
  }

  /** The `try` block of `user_active`: both settings, then their
      precedence. */
  function Settings(rd: Reg.Reading, env: Env, w: World, p: Profile): Outcome<bool> {
    var s := SystemEnabledWith(rd, env, w, p);
    if s.result.Err? then Outcome(s.world, Err(s.result.error))
    else
      var u := UserEnabledWith(rd, env, s.world, p);
      if u.result.Err? then Outcome(u.world, Err(u.result.error))
      else Outcome(u.world, Ok(Active(s.result.value, u.result.value)))
  }

  /** `user_active`: a disabled device is inactive; otherwise the settings
      decide, and without a machine key (`NotImplementedError`) the user's
      alone. */
  function UserActiveWith(rd: Reg.Reading, pnp: string -> Option<PnpErrors.Kind>, env: Env, w: World, p: Profile): Outcome<bool> {
    var e := DeviceEnabledWith(rd, pnp, env, w, p);
    if e.result.Err? then Outcome(e.world, Err(e.result.error))
    else if !e.result.value then Outcome(e.world, Ok(false))
    else
      var t := Settings(rd, env, e.world, p);
      if t.result == Err(Errors.NotImplemented) then
        var u := UserEnabledWith(rd, env, t.world, p);
        if u.result.Err? then Outcome(u.world, Err(u.result.error))
        else Outcome(u.world, Ok(Active(None, u.result.value)))
      else t
  }

  /** What the machine's key says, if the profile has one. */
  function SystemStored(reg: Registry, p: Profile): Option<bool> {
    if p.systemKey.None? then None else Stored(reg, p.systemKey.value)
  }

  /** The reads `user_active` may make. */
  predicate ReadsAllowed(env: Env, p: Profile) {
    !env.denied(ReadValue(p.userKey.path, p.userKey.name), false)
    && (p.systemKey.Some? ==> !env.denied(ReadValue(p.systemKey.value.path, p.systemKey.value.name), false))
  }

  /** On a faithful registry, an enabled device is active exactly as the
      precedence of the two settings says (a missing machine key counts as
      none), and a disabled one is not. */
  lemma UserActiveReads(rd: Reg.Reading, pnp: string -> Option<PnpErrors.Kind>, env: Env, w: World, p: Profile,
                        w1: World, enabled: bool)
    requires DeviceEnabledWith(rd, pnp, env, w, p) == Outcome(w1, Ok(enabled))
    requires Faithful(env) && Reg.Plain(rd, env) && Clamps(rd) && ReadsAllowed(env, p)
    ensures UserActiveWith(rd, pnp, env, w, p).result
      == Ok(enabled && Active(SystemStored(w1.reg, p), Stored(w1.reg, p.userKey)))
  {
    if enabled {
      if p.systemKey.Some? {
        var k := p.systemKey.value;
        CheckKeyReads(rd, env, w1, k);
        var w2 := w1.(exchange := None, log := w1.log + [Ran(ReadValue(k.path, k.name), false)]);
        CheckKeyReads(rd, env, w2, p.userKey);
      } else {
        CheckKeyReads(rd, env, w1, p.userKey);
      }
    }
  }

  // ---------------------------------------------------------------------
  // _toggle

  /** The registry key a mode names: the machine's or the user's. Any
      other mode leaves `path`, `name` and `reg_type` unbound. */
  function KeyFor(p: Profile, mode: Option<string>): (r: Option<Key>)
    ensures mode == Some(SYSTEM) ==> r == p.systemKey
    ensures mode == Some(USER) ==> r == Some(p.userKey)
    ensures mode != Some(SYSTEM) && mode != Some(USER) ==> r.None?
  {
    if mode == Some(SYSTEM) then p.systemKey
    else if mode == Some(USER) then Some(p.userKey)
    else None
  }

  /** `Device._toggle(state, mode, elevate, auto_elevate)`: bad arguments
      are an invalid operation; the device mode switches the device with
      pnputil; the other modes write, or clear, the mode's registry key,
      with `set_reg` as written (`fixed` false) or as intended (`fixed`
      true). */
  function ToggleWith(fixed: bool, rd: Reg.Reading, pnp: string -> Option<PnpErrors.Kind>, env: Env, w: World, p: Profile,
                      state: Option<string>, mode: Option<string>, elevate: bool, autoElevate: bool): Outcome<()>
    decreases if elevate then 0 else 1, 2
  {
    Handled(
      if Check(p, state, mode).Err? then Outcome(w, Err(Errors.InvalidOperation))
      else if mode == Some(DEVICE) then SwitchWith(fixed, rd, pnp, env, w, p, state, mode, elevate, autoElevate)
      else Flip(fixed, rd, env, w, KeyFor(p, mode), state))
  }

  /** The device mode: the instance ID of the one device found, and
      `pnputil /<state>-device` on it, run without the runner's own
      elevation. */
  function SwitchWith(fixed: bool, rd: Reg.Reading, pnp: string -> Option<PnpErrors.Kind>, env: Env, w: World, p: Profile,
                      state: Option<string>, mode: Option<string>, elevate: bool, autoElevate: bool): Outcome<()>
    decreases if elevate then 0 else 1, 1
  {
    var g := GetDeviceWith(rd, pnp, env, w, p.names, false, false, true);
    if g.result.Err? then Outcome(g.world, Err(g.result.error))
    else if "Instance ID" !in g.result.value.fields then Outcome(g.world, Err(Errors.Key))
    else
      var o := Reg.Ps(rd, env, g.world, SwitchDevice(state, g.result.value.fields["Instance ID"]), elevate, false);
      if o.result.Err? then Outcome(o.world, Err(o.result.error))
      else Switched(fixed, rd, pnp, env, o.world, SwitchVerdict(pnp, o.result.value), Succeeded(o.result.value),
                    p, state, mode, elevate, autoElevate)
  }

  /** The text `_toggle` reads: each stream lower-cased and stripped, then
      joined by a line break. */
  function SwitchOutput(reply: Reply): string {
    Strip(LowerStr(reply.out)) + "\n" + Strip(LowerStr(reply.err))
  }

  /** The error the switch printed, if it printed anything. */
  function SwitchVerdict(pnp: string -> Option<PnpErrors.Kind>, reply: Reply): Option<PnpErrors.Kind> {
    if Strip(LowerStr(reply.out)) != [] || Strip(LowerStr(reply.err)) != [] then pnp(SwitchOutput(reply)) else None
  }

  /** pnputil does not check the instance ID: only the word "success" in
      its output shows that the device was switched. */
  predicate Succeeded(reply: Reply) {
    Contains(SwitchOutput(reply), "success")
  }

  /** What `_toggle` does once the switch has printed: a refusal is retried
      (the whole `_toggle`, elevated) once the user agrees; "already in that
      state" is success; any other error is raised; without an error, the
      word "success" decides, and a failure raises `PnpError`, whose message
      capitalises the state: a `None` state raises `AttributeError` instead. */
  function Switched(fixed: bool, rd: Reg.Reading, pnp: string -> Option<PnpErrors.Kind>, env: Env, w: World,
                    verdict: Option<PnpErrors.Kind>, success: bool, p: Profile,
                    state: Option<string>, mode: Option<string>, elevate: bool, autoElevate: bool): Outcome<()>
    decreases if elevate then 0 else 1, 0
  {
    if verdict == Some(PnpErrors.Permission) then
      if autoElevate && !elevate then
        if env.consent then ToggleWith(fixed, rd, pnp, env, Prompted(w), p, state, mode, true, true)
        else Outcome(Prompted(w), Err(Errors.Device(PnpErrors.OperationAborted)))
      else Outcome(w, Err(Errors.Device(PnpErrors.Permission)))
    else if verdict == Some(PnpErrors.PropertyExists) then Outcome(w, Ok(()))
    else if verdict.Some? then Outcome(w, Err(Errors.Device(verdict.value)))
    else if success then Outcome(w, Ok(()))
    else if state.None? then Outcome(w, Err(Errors.Attribute))
    else Outcome(w, Err(Errors.Pnp))
  }

  /** The registry modes: `set_reg` (as written or as intended) of 0 or 1
      with the key's type, or, to clear, `del_reg` of the value when
      `test_reg` finds it. Without a key (no mode) every state fails on the
      unbound `path`. */
  function Flip(fixed: bool, rd: Reg.Reading, env: Env, w: World, key: Option<Key>, state: Option<string>): Outcome<()> {
    if state == Some(DISABLE) || state == Some(ENABLE) then
      if key.None? then Outcome(w, Err(Errors.UnboundLocal))
      else
        var k := key.value;
        Reg.SetRegWith(fixed, rd, env, w, k.path, Some(k.name), Some(Num(if state == Some(DISABLE) then 0 else 1)),
                       Some(RegTypes.IntArg(k.regType)), true, false, true)
    else if state == Some(NONE) then
      if key.None? then Outcome(w, Err(Errors.UnboundLocal))
      else
        var k := key.value;
        var t := Reg.TestRegWith(rd, env, w, k.path, Some(k.name), false, true);
        if t.result.Err? then Outcome(t.world, Err(t.result.error))
        else if t.result.value then Reg.DelRegWith(rd, env, t.world, k.path, Some(k.name), false, true)
        else Outcome(t.world, Ok(()))
    else Outcome(w, Ok(()))
  }

  /** `_toggle` as the code reads the runner and pnputil, over `set_reg`
      and the pnputil table as written (`fixed` false) or as intended
      (`fixed` true). */
  function Toggle(fixed: bool, env: Env, w: World, p: Profile, state: Option<string>, mode: Option<string>,
                  elevate: bool, autoElevate: bool): Outcome<()> {
    ToggleWith(fixed, Reg.Actual(env), Classifier(fixed), env, w, p, state, mode, elevate, autoElevate)
  }

  /** Bad arguments change nothing and raise an invalid operation. */
  lemma ToggleRejects(fixed: bool, rd: Reg.Reading, pnp: string -> Option<PnpErrors.Kind>, env: Env, w: World, p: Profile,
                      state: Option<string>, mode: Option<string>, elevate: bool, autoElevate: bool)
    requires Check(p, state, mode).Err?
    ensures ToggleWith(fixed, rd, pnp, env, w, p, state, mode, elevate, autoElevate) == Outcome(w, Err(Errors.InvalidOperation))
  {
  }

  /** A switch that is not refused: it succeeds exactly when pnputil says
      "success" or that the device is already in that state, changes nothing
      more, and otherwise raises what pnputil reported, or `PnpError` (an
      `AttributeError` when there is no state to name in its message). */
  lemma SwitchSettles(fixed: bool, rd: Reg.Reading, pnp: string -> Option<PnpErrors.Kind>, env: Env, w: World,
                      verdict: Option<PnpErrors.Kind>, success: bool, p: Profile,
                      state: Option<string>, mode: Option<string>, elevate: bool, autoElevate: bool)
    requires verdict != Some(PnpErrors.Permission)
    ensures var r := Handled(Switched(fixed, rd, pnp, env, w, verdict, success, p, state, mode, elevate, autoElevate));
      r.world == w
      && (r.result.Ok? <==> verdict == Some(PnpErrors.PropertyExists) || (verdict.None? && success))
      && (r.result.Err? ==> r.result.error == if verdict.Some? then Errors.Device(verdict.value)
                                               else if state.None? then Errors.Attribute else Errors.Pnp)
  {
  }

  /** A refused switch, when elevation is allowed and not yet done: the
      user is asked, and agreeing runs the whole `_toggle` again,
      elevated ... */
  lemma SwitchRetried(fixed: bool, rd: Reg.Reading, pnp: string -> Option<PnpErrors.Kind>, env: Env, w: World, success: bool, p: Profile,
                      state: Option<string>, mode: Option<string>, autoElevate: bool)
    requires autoElevate && env.consent
    ensures Handled(Switched(fixed, rd, pnp, env, w, Some(PnpErrors.Permission), success, p, state, mode, false, autoElevate))
      == ToggleWith(fixed, rd, pnp, env, Prompted(w), p, state, mode, true, true)
  {
    var inner := if Check(p, state, mode).Err? then Outcome(Prompted(w), Err(Errors.InvalidOperation))
      else if mode == Some(DEVICE) then SwitchWith(fixed, rd, pnp, env, Prompted(w), p, state, mode, true, true)
      else Flip(fixed, rd, env, Prompted(w), KeyFor(p, mode), state);
    HandledTwice(inner);
  }

  /** ... declining aborts ... */
  lemma SwitchDeclined(fixed: bool, rd: Reg.Reading, pnp: string -> Option<PnpErrors.Kind>, env: Env, w: World, success: bool, p: Profile,
                       state: Option<string>, mode: Option<string>, autoElevate: bool)
    requires autoElevate && !env.consent
    ensures Handled(Switched(fixed, rd, pnp, env, w, Some(PnpErrors.Permission), success, p, state, mode, false, autoElevate))
      == Outcome(Prompted(w), Err(Errors.Device(PnpErrors.OperationAborted)))
  {
  }

  /** ... and, elevated or not allowed to elevate, the refusal is raised. */
  lemma SwitchDenied(fixed: bool, rd: Reg.Reading, pnp: string -> Option<PnpErrors.Kind>, env: Env, w: World, success: bool, p: Profile,
                     state: Option<string>, mode: Option<string>, elevate: bool, autoElevate: bool)
    requires elevate || !autoElevate
    ensures Handled(Switched(fixed, rd, pnp, env, w, Some(PnpErrors.Permission), success, p, state, mode, elevate, autoElevate))
      == Outcome(w, Err(Errors.Device(PnpErrors.Permission)))
  {
  }

  /** Without a mode, any valid state fails before anything runs. */
  lemma ToggleUnbound(fixed: bool, rd: Reg.Reading, pnp: string -> Option<PnpErrors.Kind>, env: Env, w: World, p: Profile,
                      state: Option<string>, elevate: bool, autoElevate: bool)
    requires state == Some(DISABLE) || state == Some(ENABLE) || state == Some(NONE)
    ensures ToggleWith(fixed, rd, pnp, env, w, p, state, None, elevate, autoElevate) == Outcome(w, Err(Errors.UnboundLocal))
  {
  }

  /** The tri-state a registry state leaves behind. */
  function Meant(state: string): Option<bool> {
    if state == DISABLE then Some(false) else if state == ENABLE then Some(true) else None
  }

  /** Toggling a registry mode on or off on a faithful registry writes the
      key so that it reads back as that state; every other value is as it
      was, the only keys that can appear are the key's own and those above
      it, and the registry stays a tree. The 0 or 1 must fit the key's type
      (`ProfilesFit`: it does for both profiles). As intended this holds on any key; as written
      only on a key that already exists (see `ToggleAsWrittenNoKey`). */
  lemma ToggleSetsWith(fixed: bool, rd: Reg.Reading, pnp: string -> Option<PnpErrors.Kind>, env: Env, w: World, p: Profile,
                       state: string, mode: string, k: Key, elevate: bool, autoElevate: bool)
    requires state == DISABLE || state == ENABLE
    requires (mode == SYSTEM || mode == USER) && KeyFor(p, Some(mode)) == Some(k)
    requires Faithful(env) && Reg.Plain(rd, env) && Clamps(rd) && Consistent(w.reg)
    requires fixed || k.path in w.reg.keys
    requires Reg.WritesAllowed(env, k.path, k.name, Value(Num(if state == DISABLE then 0 else 1), RegTypes.Clamp(k.regType)))
    requires Fits(Value(Num(if state == DISABLE then 0 else 1), RegTypes.Clamp(k.regType)))
    ensures var r := ToggleWith(fixed, rd, pnp, env, w, p, Some(state), Some(mode), elevate, autoElevate);
      r.result == Ok(())
      && Stored(r.world.reg, k) == Meant(state)
      && (forall q, n | (q, n) != (k.path, k.name) :: Reg.Held(r.world.reg, q, n) == Reg.Held(w.reg, q, n))
      && r.world.reg.keys == w.reg.keys + {k.path} + Above(k.path)
      && Consistent(r.world.reg)
  {
    var data := Num(if state == DISABLE then 0 else 1);
    assert Check(p, Some(state), Some(mode)).Ok?;
    var write := Reg.SetRegWith(fixed, rd, env, w, k.path, Some(k.name), Some(data), Some(RegTypes.IntArg(k.regType)), true, false, true);
    assert Flip(fixed, rd, env, w, Some(k), Some(state)) == write;
    Reg.SetRegHeldWith(fixed, rd, env, w, k.path, k.name, data, RegTypes.IntArg(k.regType), true, true);
  }

  /** As written, toggling a registry mode on or off while its key does not
      exist yet stops at `set_reg`'s guard: `RuntimeError` is raised and the
      registry is left as it was. */
  lemma ToggleAsWrittenNoKey(rd: Reg.Reading, pnp: string -> Option<PnpErrors.Kind>, env: Env, w: World, p: Profile,
                             state: string, mode: string, k: Key, elevate: bool, autoElevate: bool)
    requires state == DISABLE || state == ENABLE
    requires (mode == SYSTEM || mode == USER) && KeyFor(p, Some(mode)) == Some(k)
    requires Faithful(env) && Reg.Plain(rd, env) && k.path !in w.reg.keys
    requires !env.denied(TestPath(k.path), false) && !env.denied(ReadValue(k.path, k.name), false)
    ensures var r := ToggleWith(false, rd, pnp, env, w, p, Some(state), Some(mode), elevate, autoElevate);
      r.result == Err(Errors.Runtime) && r.world.reg == w.reg
  {
    var data := Num(if state == DISABLE then 0 else 1);
    ToggleWrites(false, rd, pnp, env, w, p, state, mode, k, elevate, autoElevate);
    Reg.SetRegAsWrittenNoNewKeyWith(rd, env, w, k.path, Some(k.name), Some(data), Some(RegTypes.IntArg(k.regType)), true, true);
    assert Errors.DeviceHandle(Errors.Runtime) == Errors.Runtime;
  }

  /** As written, toggling a registry mode on or off whose write is refused
      both unelevated and elevated, the user agreeing to elevate, ends in
      `ValueError` from `set_reg`'s own retry, with the registry unchanged.
      The code's reading refuses such a write both ways when the wrapper is
      silent and the refusal is recognised (`Reg.ActualRefusedAlways`). */
  lemma ToggleRetryAsWritten(rd: Reg.Reading, pnp: string -> Option<PnpErrors.Kind>, env: Env, w: World, p: Profile,
                             state: string, mode: string, k: Key, elevate: bool, autoElevate: bool)
    requires state == DISABLE || state == ENABLE
    requires (mode == SYSTEM || mode == USER) && KeyFor(p, Some(mode)) == Some(k)
    requires Faithful(env) && Reg.Plain(rd, env) && Clamps(rd)
    requires k.path in w.reg.keys && !env.denied(TestPath(k.path), false) && !env.denied(ReadValue(k.path, k.name), false)
    requires var v := Value(Num(if state == DISABLE then 0 else 1), RegTypes.Clamp(k.regType));
      Reg.Held(w.reg, k.path, k.name) != Ok((v.data, v.kind)) && Reg.RefusedAlways(rd, env, SetProperty(k.path, k.name, v))
    ensures var r := ToggleWith(false, rd, pnp, env, w, p, Some(state), Some(mode), elevate, autoElevate);
      r.result == Err(Errors.Value) && r.world.reg == w.reg
  {
    var data := Num(if state == DISABLE then 0 else 1);
    ToggleWrites(false, rd, pnp, env, w, p, state, mode, k, elevate, autoElevate);
    Reg.SetRegSkipRetryAsWrittenWith(rd, env, w, k.path, k.name, data, RegTypes.IntArg(k.regType));
    assert Errors.DeviceHandle(Errors.Value) == Errors.Value;
  }

  /** A registry mode turned on or off is the `set_reg` of 0 or 1 with the
      key's type, skipping a value already held and offering elevation. */
  lemma ToggleWrites(fixed: bool, rd: Reg.Reading, pnp: string -> Option<PnpErrors.Kind>, env: Env, w: World, p: Profile,
                     state: string, mode: string, k: Key, elevate: bool, autoElevate: bool)
    requires state == DISABLE || state == ENABLE
    requires (mode == SYSTEM || mode == USER) && KeyFor(p, Some(mode)) == Some(k)
    ensures ToggleWith(fixed, rd, pnp, env, w, p, Some(state), Some(mode), elevate, autoElevate)
      == Handled(Reg.SetRegWith(fixed, rd, env, w, k.path, Some(k.name), Some(Num(if state == DISABLE then 0 else 1)),
                                Some(RegTypes.IntArg(k.regType)), true, false, true))
  {
    assert Check(p, Some(state), Some(mode)).Ok?;
  }

  /** As written, the device mode stops at the enumeration when a device's
      description holds "50": `_toggle` raises "property already exists"
      and nothing is switched. With the corrected table the listing is
      parsed instead (`VendorListingFixedWith`). */
  lemma ToggleDeviceAsWritten(rd: Reg.Reading, env: Env, w: World, p: Profile, state: string, elevate: bool, autoElevate: bool)
    requires state == DISABLE || state == ENABLE
    requires Faithful(env) && !env.denied(EnumDevices, false) && env.answer(EnumDevices, false) == VendorListing
    ensures ToggleWith(false, rd, Classifier(false), env, w, p, Some(state), Some(DEVICE), elevate, autoElevate)
      == Outcome(w.(log := w.log + [Ran(EnumDevices, false)]), Err(Errors.Device(PnpErrors.PropertyExists)))
  {
    VendorListingAsWrittenWith(rd, env, w, p.names, false, true);
    SwitchStopsAtListing(false, rd, Classifier(false), env, w, p, Some(state), elevate, autoElevate,
                         w.(log := w.log + [Ran(EnumDevices, false)]), PnpErrors.PropertyExists);
  }

  /** An enumeration that raises a device error other than a refusal or an
      abort ends the device mode with that error, in the world it left. */
  lemma SwitchStopsAtListing(fixed: bool, rd: Reg.Reading, pnp: string -> Option<PnpErrors.Kind>, env: Env, w: World, p: Profile,
                             state: Option<string>, elevate: bool, autoElevate: bool, w1: World, k: PnpErrors.Kind)
    requires state == Some(DISABLE) || state == Some(ENABLE)
    requires k != PnpErrors.Permission && k != PnpErrors.OperationAborted
    requires GetDeviceWith(rd, pnp, env, w, p.names, false, false, true) == Outcome(w1, Err(Errors.Device(k)))
    ensures ToggleWith(fixed, rd, pnp, env, w, p, state, Some(DEVICE), elevate, autoElevate) == Outcome(w1, Err(Errors.Device(k)))
  {
    ToggleSwitches(fixed, rd, pnp, env, w, p, state, elevate, autoElevate);
    SwitchRaises(fixed, rd, pnp, env, w, p, state, elevate, autoElevate, w1, Errors.Device(k));
    assert Errors.DeviceHandle(Errors.Device(k)) == Errors.Device(k);
  }

  /** A valid state in the device mode is the device branch, under
      `handle_error`. */
  lemma ToggleSwitches(fixed: bool, rd: Reg.Reading, pnp: string -> Option<PnpErrors.Kind>, env: Env, w: World, p: Profile,
                       state: Option<string>, elevate: bool, autoElevate: bool)
    requires state == Some(DISABLE) || state == Some(ENABLE)
    ensures ToggleWith(fixed, rd, pnp, env, w, p, state, Some(DEVICE), elevate, autoElevate)
      == Handled(SwitchWith(fixed, rd, pnp, env, w, p, state, Some(DEVICE), elevate, autoElevate))
  {
    assert Check(p, state, Some(DEVICE)).Ok?;
  }

  /** The device branch raises what the enumeration raised, in the world it
      left, and runs no switch. */
  lemma SwitchRaises(fixed: bool, rd: Reg.Reading, pnp: string -> Option<PnpErrors.Kind>, env: Env, w: World, p: Profile,
                     state: Option<string>, elevate: bool, autoElevate: bool, w1: World, e: Error)
    requires GetDeviceWith(rd, pnp, env, w, p.names, false, false, true) == Outcome(w1, Err(e))
    ensures SwitchWith(fixed, rd, pnp, env, w, p, state, Some(DEVICE), elevate, autoElevate) == Outcome(w1, Err(e))
  {
  }

  /** Clearing a registry mode on a faithful registry removes the key's
      value, when there is one, so that it reads back as no setting; every
      other value and every key is as it was. */
  lemma ToggleClearsWith(fixed: bool, rd: Reg.Reading, pnp: string -> Option<PnpErrors.Kind>, env: Env, w: World, p: Profile,
                         mode: string, k: Key, elevate: bool, autoElevate: bool)
    requires (mode == SYSTEM || mode == USER) && KeyFor(p, Some(mode)) == Some(k)
    requires Faithful(env) && Reg.Plain(rd, env)
    requires !env.denied(ReadValue(k.path, k.name), false) && !env.denied(RemoveProperty(k.path, k.name), false)
    ensures var r := ToggleWith(fixed, rd, pnp, env, w, p, Some(NONE), Some(mode), elevate, autoElevate);
      r.result == Ok(())
      && Stored(r.world.reg, k) == None
      && (forall q, n | (q, n) != (k.path, k.name) :: Reg.Held(r.world.reg, q, n) == Reg.Held(w.reg, q, n))
      && r.world.reg.keys == w.reg.keys
  {
    assert Check(p, Some(NONE), Some(mode)).Ok?;
    var w1 := w.(exchange := None, log := w.log + [Ran(ReadValue(k.path, k.name), false)]);
    Reg.GetRegReadsWith(rd, env, w, k.path, k.name, true);
    Reg.TestRegNamed(rd, env, w, k.path, k.name, false, true);
    var t := Reg.TestRegWith(rd, env, w, k.path, Some(k.name), false, true);
    assert t == Outcome(w1, Ok(Reg.Held(w.reg, k.path, k.name).Ok?));
    if t.result.value {
      Reg.DelRegValueDropsWith(rd, env, w1, k.path, k.name, true);
    }
  }

  /** `_check_key` as the code reads the registry. */
  function CheckKey(env: Env, w: World, key: Key): Outcome<Option<bool>> {
    CheckKeyWith(Reg.Actual(env), env, w, key)
  }

  /** What a toggle of a registry mode needs to be allowed to do. */
  predicate ToggleAllowed(env: Env, k: Key, state: string) {
    if state == NONE then !env.denied(ReadValue(k.path, k.name), false) && !env.denied(RemoveProperty(k.path, k.name), false)
    else Reg.WritesAllowed(env, k.path, k.name, Value(Num(if state == DISABLE then 0 else 1), RegTypes.Clamp(k.regType)))
  }

  /** The round trip: after `toggle(state, mode)` in a registry mode,
      `_check_key` of that mode's key reads the state back: off for disable,
      on for enable, no setting for none, where the 0 or 1 fits the key's
      type (`ProfilesFit`). As intended on any key; as
      written, writing needs the key to exist already. */
  lemma ToggleThenCheck(fixed: bool, env: Env, w: World, p: Profile, state: string, mode: string, k: Key, elevate: bool, autoElevate: bool)
    requires state == DISABLE || state == ENABLE || state == NONE
    requires (mode == SYSTEM || mode == USER) && KeyFor(p, Some(mode)) == Some(k)
    requires Faithful(env) && Reg.MissingReported(env) && Consistent(w.reg)
    requires fixed || state == NONE || k.path in w.reg.keys
    requires ToggleAllowed(env, k, state)
    requires state == NONE || Fits(Value(Num(if state == DISABLE then 0 else 1), RegTypes.Clamp(k.regType)))
    ensures var r := Toggle(fixed, env, w, p, Some(state), Some(mode), elevate, autoElevate);
      r.result == Ok(()) && CheckKey(env, r.world, k).result == Ok(Meant(state))
  {
    var rd := Reg.Actual(env);
    var r := Toggle(fixed, env, w, p, Some(state), Some(mode), elevate, autoElevate);
    Reg.ActualPlain(env);
    ActualClamps(env);
    if state == NONE {
      ToggleClearsWith(fixed, rd, Classifier(fixed), env, w, p, mode, k, elevate, autoElevate);
    } else {
      ToggleSetsWith(fixed, rd, Classifier(fixed), env, w, p, state, mode, k, elevate, autoElevate);
    }
    CheckKeyReads(rd, env, r.world, k);
  }

  /** Both profiles' keys are `DWord`s, so the 0 and 1 a toggle writes
      fit them: the round trip holds for every key the code toggles. */
  lemma ProfilesFit(p: Profile, mode: string, k: Key, n: int)
    requires p == Touchscreen || p == Touchpad
    requires KeyFor(p, Some(mode)) == Some(k) && (n == 0 || n == 1)
    ensures Fits(Value(Num(n), RegTypes.Clamp(k.regType)))
  {
  }

  // ---------------------------------------------------------------------
  // The same operations, run on the machine

  /** `get_device` on the machine: the enumeration is run, its output
      classified, a refusal retried once the user agrees, and the listing
      parsed block by block. */
  method GetDeviceOn(m: Machine, rd: Reg.Reading, pnp: string -> Option<PnpErrors.Kind>, names: seq<string>,
                     getAll: bool, elevate: bool, autoElevate: bool) returns (r: Result<Devices, Error>)
    requires Reg.Runs(rd, m.env)
    modifies m
    ensures Outcome(m.world, r) == GetDeviceWith(rd, pnp, m.env, old(m.world), names, getAll, elevate, autoElevate)
    decreases if elevate then 0 else 1, 1
  {
    Reg.PsRuns(rd, m.env, m.world, EnumDevices, elevate, false);
    var o := RunPsOn(m, EnumDevices, elevate, false, false);
    if o.Err? {
      r := Err(o.error);
    } else {
      r := EnumeratedOn(m, rd, pnp, pnp(Listing(o.value)), o.value.out, names, getAll, elevate, autoElevate);
    }
    r := Handled(Outcome(m.world, r)).result;
  }

  /** What `get_device` does on the machine once the enumeration has
      printed `out`: the listing is parsed only when no error shows. */
  method EnumeratedOn(m: Machine, rd: Reg.Reading, pnp: string -> Option<PnpErrors.Kind>,
                      verdict: Option<PnpErrors.Kind>, out: string,
                      names: seq<string>, getAll: bool, elevate: bool, autoElevate: bool) returns (r: Result<Devices, Error>)
    requires Reg.Runs(rd, m.env)
    modifies m
    ensures Outcome(m.world, r) == Enumerated(rd, pnp, m.env, old(m.world), verdict, Parsed(out, names), names, getAll, elevate, autoElevate)
    decreases if elevate then 0 else 1, 0
  {
    if verdict == Some(PnpErrors.Permission) {
      if autoElevate && !elevate {
        var yes := m.Ask();
        if yes {
          r := GetDeviceOn(m, rd, pnp, names, getAll, true, true);
        } else {
          r := Err(Errors.Device(PnpErrors.OperationAborted));
        }
      } else {
        r := Err(Errors.Device(PnpErrors.Permission));
      }
    } else if verdict.Some? {
      r := Err(Errors.Device(verdict.value));
    } else {
      var blocks := ParseBlocks(out, names);
      r := Chosen(blocks, getAll);
    }
  }

  /** `_toggle` on the machine. */
  method ToggleOn(m: Machine, fixed: bool, rd: Reg.Reading, pnp: string -> Option<PnpErrors.Kind>, p: Profile,
                  state: Option<string>, mode: Option<string>, elevate: bool, autoElevate: bool) returns (r: Result<(), Error>)
    requires Reg.Runs(rd, m.env)
    modifies m
    ensures Outcome(m.world, r) == ToggleWith(fixed, rd, pnp, m.env, old(m.world), p, state, mode, elevate, autoElevate)
    decreases if elevate then 0 else 1, 2
  {
    if Check(p, state, mode).Err? {
      r := Err(Errors.InvalidOperation);
    } else if mode == Some(DEVICE) {
      r := SwitchOn(m, fixed, rd, pnp, p, state, mode, elevate, autoElevate);
    } else {
      r := FlipOn(m, fixed, rd, KeyFor(p, mode), state);
    }
    r := Handled(Outcome(m.world, r)).result;
  }

  /** The device mode on the machine: the one device's instance ID, then
      the switch. */
  method SwitchOn(m: Machine, fixed: bool, rd: Reg.Reading, pnp: string -> Option<PnpErrors.Kind>, p: Profile,
                  state: Option<string>, mode: Option<string>, elevate: bool, autoElevate: bool) returns (r: Result<(), Error>)
    requires Reg.Runs(rd, m.env)
    modifies m
    ensures Outcome(m.world, r) == SwitchWith(fixed, rd, pnp, m.env, old(m.world), p, state, mode, elevate, autoElevate)
    decreases if elevate then 0 else 1, 1
  {
    var g := GetDeviceOn(m, rd, pnp, p.names, false, false, true);
    if g.Err? {
      r := Err(g.error);
    } else if "Instance ID" !in g.value.fields {
      r := Err(Errors.Key);
    } else {
      var cmd := SwitchDevice(state, g.value.fields["Instance ID"]);
      Reg.PsRuns(rd, m.env, m.world, cmd, elevate, false);
      var o := RunPsOn(m, cmd, elevate, false, false);
      if o.Err? {
        r := Err(o.error);
      } else {
        r := SwitchedOn(m, fixed, rd, pnp, SwitchVerdict(pnp, o.value), Succeeded(o.value), p, state, mode, elevate, autoElevate);
      }
    }
  }

  /** What `_toggle` does on the machine once the switch has printed. */
  method SwitchedOn(m: Machine, fixed: bool, rd: Reg.Reading, pnp: string -> Option<PnpErrors.Kind>,
                    verdict: Option<PnpErrors.Kind>, success: bool, p: Profile,
                    state: Option<string>, mode: Option<string>, elevate: bool, autoElevate: bool) returns (r: Result<(), Error>)
    requires Reg.Runs(rd, m.env)
    modifies m
    ensures Outcome(m.world, r) == Switched(fixed, rd, pnp, m.env, old(m.world), verdict, success, p, state, mode, elevate, autoElevate)
    decreases if elevate then 0 else 1, 0
  {
    if verdict == Some(PnpErrors.Permission) {
      if autoElevate && !elevate {
        var yes := m.Ask();
        if yes {
          r := ToggleOn(m, fixed, rd, pnp, p, state, mode, true, true);
        } else {
          r := Err(Errors.Device(PnpErrors.OperationAborted));
        }
      } else {
        r := Err(Errors.Device(PnpErrors.Permission));
      }
    } else if verdict == Some(PnpErrors.PropertyExists) {
      r := Ok(());
    } else if verdict.Some? {
      r := Err(Errors.Device(verdict.value));
    } else if success {
      r := Ok(());
    } else if state.None? {
      r := Err(Errors.Attribute);
    } else {
      r := Err(Errors.Pnp);
    }
  }

  /** The registry modes on the machine. */
  method FlipOn(m: Machine, fixed: bool, rd: Reg.Reading, key: Option<Key>, state: Option<string>) returns (r: Result<(), Error>)
    requires Reg.Runs(rd, m.env)
    modifies m
    ensures Outcome(m.world, r) == Flip(fixed, rd, m.env, old(m.world), key, state)
  {
    if state == Some(DISABLE) || state == Some(ENABLE) {
      if key.None? {
        r := Err(Errors.UnboundLocal);
      } else {
        var k := key.value;
        r := Reg.SetRegOn(m, fixed, rd, k.path, Some(k.name), Some(Num(if state == Some(DISABLE) then 0 else 1)),
                          Some(RegTypes.IntArg(k.regType)), true, false, true);
      }
    } else if state == Some(NONE) {
      if key.None? {
        r := Err(Errors.UnboundLocal);
      } else {
        var k := key.value;
        var t := Reg.TestRegOn(m, rd, k.path, Some(k.name), false, true);
        if t.Err? {
          r := Err(t.error);
        } else if t.value {
          r := Reg.DelRegOn(m, rd, k.path, Some(k.name), false, true);
        } else {
          r := Ok(());
        }
      }
    } else {
      r := Ok(());
    }
  }

  // ---------------------------------------------------------------------
  // The device object

  /** A `Touchscreen` or `Touchpad` object: its class attributes (the
      profile) and, since a `Device` is an `Observable`, its observers. */
  class Device {
    const profile: Profile
    const observable: Observe.Observable

    constructor (profile: Profile)
      ensures this.profile == profile && fresh(observable) && observable.observers == {}
    {
      this.profile := profile;
      observable := new Observe.Observable();
    }

    /** `toggle(state, mode, elevate, auto_elevate)`: `_toggle` run on the
        machine as the code reads the runner and pnputil, over `set_reg` and
        the pnputil table as written (`fixed` false) or as intended (`fixed`
        true), then, only if it returned normally, one notification of each
        observer. The elevated retries happen inside `_toggle` and notify
        nobody. */
    method Toggle(m: Machine, fixed: bool, state: Option<string>, mode: Option<string>, elevate: bool, autoElevate: bool)
      returns (r: Result<(), Error>)
      modifies m, observable.observers
      ensures var t := ToggleWith(fixed, Reg.Actual(m.env), Classifier(fixed), m.env, old(m.world), profile, state, mode, elevate, autoElevate);
        m.world == t.world
        && (t.result.Err? ==> r == t.result && forall o :: o in observable.observers ==> o.updates == old(o.updates))
        && (t.result.Ok? ==> (r.Ok? <==> forall o :: o in observable.observers ==> o.failure.None?))
        && (r.Ok? ==> forall o :: o in observable.observers ==> o.updates == old(o.updates) + 1)
    {
      Reg.ActualRuns(m.env);
      r := ToggleObserved(m, fixed, Reg.Actual(m.env), Classifier(fixed), state, mode, elevate, autoElevate);
    }

    /** `toggle` over any reading of the runner and of pnputil. */
    method ToggleObserved(m: Machine, fixed: bool, rd: Reg.Reading, pnp: string -> Option<PnpErrors.Kind>,
                          state: Option<string>, mode: Option<string>, elevate: bool, autoElevate: bool)
      returns (r: Result<(), Error>)
      requires Reg.Runs(rd, m.env)
      modifies m, observable.observers
      ensures var t := ToggleWith(fixed, rd, pnp, m.env, old(m.world), profile, state, mode, elevate, autoElevate);
        m.world == t.world
        && (t.result.Err? ==> r == t.result && forall o :: o in observable.observers ==> o.updates == old(o.updates))
        && (t.result.Ok? ==> (r.Ok? <==> forall o :: o in observable.observers ==> o.failure.None?))
        && (r.Ok? ==> forall o :: o in observable.observers ==> o.updates == old(o.updates) + 1)
    {
      var t := ToggleOn(m, fixed, rd, pnp, profile, state, mode, elevate, autoElevate);
      r := observable.Observed(t);
    }

    /** The wrappers `disable`, `enable` and `clear`: `toggle` of that
        state, unelevated, with elevation offered. */
    method Disable(m: Machine, fixed: bool, mode: Option<string>) returns (r: Result<(), Error>)
      modifies m, observable.observers
      ensures var t := ToggleWith(fixed, Reg.Actual(m.env), Classifier(fixed), m.env, old(m.world), profile, Some(DISABLE), mode, false, true);
        m.world == t.world && (t.result.Err? ==> r == t.result)
        && (r.Ok? ==> forall o :: o in observable.observers ==> o.updates == old(o.updates) + 1)
    {
      r := Toggle(m, fixed, Some(DISABLE), mode, false, true);
    }

    method Enable(m: Machine, fixed: bool, mode: Option<string>) returns (r: Result<(), Error>)
      modifies m, observable.observers
      ensures var t := ToggleWith(fixed, Reg.Actual(m.env), Classifier(fixed), m.env, old(m.world), profile, Some(ENABLE), mode, false, true);
        m.world == t.world && (t.result.Err? ==> r == t.result)
        && (r.Ok? ==> forall o :: o in observable.observers ==> o.updates == old(o.updates) + 1)
    {
      r := Toggle(m, fixed, Some(ENABLE), mode, false, true);
    }

    method Clear(m: Machine, fixed: bool, mode: Option<string>) returns (r: Result<(), Error>)
      modifies m, observable.observers
      ensures var t := ToggleWith(fixed, Reg.Actual(m.env), Classifier(fixed), m.env, old(m.world), profile, Some(NONE), mode, false, true);
        m.world == t.world && (t.result.Err? ==> r == t.result)
        && (r.Ok? ==> forall o :: o in observable.observers ==> o.updates == old(o.updates) + 1)
    {
      r := Toggle(m, fixed, Some(NONE), mode, false, true);
    }
  }
}
