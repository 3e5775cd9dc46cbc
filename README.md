# TouchManager device and registry core, in Dafny

TouchManager (`touchdc`) switches a Windows touchscreen or touchpad on and
off. It does this in two ways. It can disable or enable the device instance
through `pnputil`. It can also write the `TouchGate`/`Enabled` values in the
machine's or the user's registry hive through PowerShell. This project
models the decision logic of that core and proves properties of it:

- **The three error tables** (`cmd_errors.py`, `reg_errors.py`,
  `pnp_errors.py`). Each is an ordered `ERROR_MAP` of error kinds and their
  regular expressions. `check_error` raises the first eligible kind with a
  matching pattern. Modules: `Regex` (the fragment of `re` the tables use, as
  a small pattern datatype with a search predicate), `Classify` (the shared
  first-match search), `CmdErrors`, `RegErrors` and `PnpErrors` (the tables).
- **The command runner** `Run` (`run.py`). It models `safe_path`, the
  read-back and sanity checks of the elevated launch, and the access-denied,
  consent and single-retry logic of `run_ps`. It also models `test_ps`.
- **The registry accessor** (`reg.py`). `RegTypes` holds the type tables,
  `normalise` and `get_name`. `Reg` holds `handle_error`, `test_reg`,
  `get_reg`, `set_reg` and `del_reg` over an abstract registry.
- **The device model** `Model` (`model.py`). It covers `get_device` and its
  parsing of the `pnputil` listing, `get_field`, the status properties,
  `_check_key`, `user_active`, `_check`, `_toggle`, the observed `toggle` and
  its wrappers, and the `Touchscreen` and `Touchpad` profiles.
- **The observer** `Observe` (`observe.py`): `attach`, `detach`, `notify`
  and the `observed` decorator, as classes with a mutable observer set.
- **The controller helpers** `Controller` (`controller/base.py`):
  `_get_const` and `_get_name`.

`Errors` gathers the exception classes and the two `handle_error`
decorators. `Text` models the Python string methods the code calls (`strip`,
`lower`, `upper`, `capitalize`, `split`, `splitlines`, `in`, `int`).

The world outside the process is `Shell`. A `Registry` is a set of keys and
a map from (key, value name) to a typed value. Each PowerShell process is
one `Step` over a `World`. A `World` holds the registry, the file `get_reg`
reads its JSON answer from, and a log of the commands run and the elevation
prompts shown. An `Env` fixes what the code cannot see:

- the user's answer to every elevation prompt;
- which commands are refused, unelevated or elevated, and the text a refusal
  prints;
- what `pnputil` and `echo` print;
- what each command does.

`Shell.Faithful(env)` says the commands act as the PowerShell cmdlets do on
the registry: `New-Item -Force` creates the key and every missing key above
it (`Shell.Above`), and `Shell.Consistent` keeps the registry a tree. `Shell.Machine` is the same world as a mutable object. The
`...On` methods run the code step by step on a `Machine`. Each one is proved
equal to the function that specifies it.

Most registry and device functions take a `Reg.Reading`. A reading is the
four ways the code interprets what it is given:

- the runner's test for a refusal;
- the elevation wrapper's verdict;
- the registry table's verdict on a command's output;
- the type normalisation.

Control-flow lemmas (`...With`) hold for any reading. `Reg.Actual(env)` is
the reading the code performs. The lemmas about it need only the assumptions
named under "Left out".

Where the code departs from what it evidently means (see "Findings"), the
operation takes a flag `fixed`: false is the code as written, true the
corrected code. `set_reg` (`Reg.SetRegWith`) and everything above it in
`_toggle` and `toggle` carry the flag, and `Model.Classifier(fixed)` picks the
pnputil table as written or corrected. Lemmas named `...AsWritten` state what
the written code does where the two differ.

## Model

| member | source | states |
|---|---|---|
| Classify.FirstMatch | touchdc/system/command/run/cmd_errors.py:63-69 | the kind returned is an eligible row that fires with no earlier row firing; nothing is returned exactly when no eligible row fires |
| Classify.FirstMatchFold | touchdc/system/command/run/cmd_errors.py:68 | two outputs that agree once lower-cased get the same verdict (re.IGNORECASE) |
| Regex.SearchFold | touchdc/system/command/run/cmd_errors.py:68 | a case-insensitive search cannot tell apart texts equal up to case |
| Classify.RcInert | touchdc/system/pnp_errors.py:68 | a return-code text in which no pattern is found changes no verdict |
| CmdErrors.TableOrder | touchdc/system/command/run/cmd_errors.py:29-49 | the table tries AccessDenied, UserAborted, CommandNotFound, PowershellDisabled in that order, each with its own patterns |
| CmdErrors.CheckError | touchdc/system/command/run/cmd_errors.py:52-69 | the kind raised is eligible and matches, no eligible kind earlier in the table matches, and it returns normally exactly when no eligible kind matches |
| CmdErrors.CheckErrorFold | touchdc/system/command/run/cmd_errors.py:52-69 | matching ignores case, and the exit code never changes the verdict |
| CmdErrors.CheckErrorOne | touchdc/system/command/run/cmd_errors.py:58-61 | a single class restricts exactly as a one-element list does |
| CmdErrors.NotDeniedWithout | touchdc/system/command/run/cmd_errors.py:29-35 | output containing neither a 'c' nor an 'm' (in either case) is never access-denied |
| RegErrors.TableOrder | touchdc/system/command/reg/reg_errors.py:24-42 | the table tries Permission, ItemNotFound, ItemExists in that order, each with its own patterns; the aborted kind, which no row names, ranks last with none |
| RegErrors.CheckError | touchdc/system/command/reg/reg_errors.py:44-61 | first eligible matching kind in table order; no eligible match means a normal return |
| RegErrors.CheckErrorFold | touchdc/system/command/reg/reg_errors.py:60 | matching ignores case, and the exit code is ignored |
| RegErrors.CheckErrorOne | touchdc/system/command/reg/reg_errors.py:50-53 | a single class is treated as a one-element list |
| RegErrors.NotFoundText | touchdc/system/command/reg/reg_errors.py:31-36 | text holding "cannot find path" or "does not exist", and no permission pattern, raises ItemNotFound |
| RegErrors.NoPermissionWithout | touchdc/system/command/reg/reg_errors.py:25-30 | text containing none of 'a', 'm' and 'u', in either case, is never a permission error (each permission pattern needs one of these letters) |
| RegErrors.MissingValueIsNotFound | touchdc/system/command/reg/reg_errors.py:31-36 | the .NET message for a missing value ("... does not exist") is classified ItemNotFound |
| PnpErrors.TableOrder | touchdc/system/pnp_errors.py:33-50 | the table tries Permission, OperationAborted, NotFound, PropertyExists in that order |
| PnpErrors.CheckError | touchdc/system/pnp_errors.py:52-69 | first eligible kind whose pattern matches the output ignoring case or `str(rc)` with case; no match is a normal return |
| PnpErrors.NoRcOutputDecides | touchdc/system/pnp_errors.py:68 | with no exit code the text "None" matches nothing, so the output alone decides |
| PnpErrors.RcTextParse | touchdc/system/pnp_errors.py:68 | `str(rc)` reads back as the exit code it was written from |
| PnpErrors.FiftyInOutputMisread | touchdc/system/pnp_errors.py:45-49 | as written, a listing line whose instance id contains "50" is read as PropertyExists |
| PnpErrors.CheckErrorFixed | touchdc/system/pnp_errors.py:52-69 | the corrected table: "50" is looked for in the exit code only; first-match contract as above |
| PnpErrors.FiftyInOutputFixed | touchdc/system/pnp_errors.py:45-49 | the corrected table finds no error in that line |
| PnpErrors.FixedAgrees | touchdc/system/pnp_errors.py:33-50 | on output without "50" the corrected table gives the verdict the written one gives |
| PnpErrors.FixedCodeFifty | touchdc/system/pnp_errors.py:48 | exit code 50 still means PropertyExists when no earlier kind matches |
| PnpErrors.FixedNeedsWording | touchdc/system/pnp_errors.py:45-49 | with no exit code, the corrected table reports PropertyExists only for "already enabled/disabled" text |
| Errors.RegHandleProperties | touchdc/system/command/reg/reg.py:152-164 | `handle_error` changes only UserAborted and AccessDenied, never yields either of them, and applying it twice changes nothing more |
| Errors.DeviceHandleAfterReg | touchdc/system/model.py:70-83 | the device's `handle_error` gives the same error after the registry's, is idempotent, and only yields OperationAborted or Permission when it changes an error |
| Run.SafePath | touchdc/system/command/run/run.py:19-21 | the escaped path is longer by exactly its number of single quotes |
| Run.SafePathRoundTrip | touchdc/system/command/run/run.py:19-21 | the result has every quote doubled, and collapsing `''` to `'` gives the input back |
| Run.SafePathPlain | touchdc/system/command/run/run.py:19-21 | a path without quotes is unchanged |
| Run.ReadBack | touchdc/system/command/run/run.py:117-129 | the elevated result is the files' text, and fails exactly when the trimmed exit-code text is not an integer |
| Run.ExitCodeRoundTrip | touchdc/system/command/run/run.py:124-129 | an exit code written to the file is read back as itself |
| Run.WrapperError | touchdc/system/command/run/run.py:112-115 | the wrapper process fails the call exactly when it prints something, with a classified command error or RuntimeError |
| Run.ElevatedWrapperRaises | touchdc/system/command/run/run.py:112-115 | wrapper output raises, RuntimeError exactly when no command kind matches it, and nothing changes |
| Run.ElevatedReadsBack | touchdc/system/command/run/run.py:117-123 | a silent wrapper returns the elevated command's reply, less one trailing line break per stream |
| Run.LaunchOn | touchdc/system/command/run/run.py:49-160 | the launch on the machine equals its specification |
| Run.RunPsOn | touchdc/system/command/run/run.py:24-188 | `run_ps` on the machine equals its specification, retry included |
| Run.NotDeniedReturned | touchdc/system/command/run/run.py:162-177 | a reply that is not access-denied is returned unchanged |
| Run.ConsentRetry | touchdc/system/command/run/run.py:164-169 | denied, auto-elevating and unelevated: the user is asked; yes reruns elevated with defaults, no raises UserAborted |
| Run.NoRetry | touchdc/system/command/run/run.py:170-177 | denied when already elevated or not auto-elevating: raised only with `check`, otherwise returned unchanged |
| Run.RetriedAtMostOnce | touchdc/system/command/run/run.py:162-169 | one call runs the command at most twice, the second time elevated after one prompt |
| Run.UnelevatedErrors | touchdc/system/command/run/run.py:162-177 | unelevated, `run_ps` raises only AccessDenied or UserAborted itself; anything else comes from the elevated retry |
| Run.TestPsAlwaysTrue | touchdc/system/command/run/run.py:190-201 | as written, `test_ps` answers True in every world |
| Run.TestPsDetects | touchdc/system/command/run/run.py:190-201 | corrected `test_ps` answers False exactly when the echo's output shows disabled PowerShell |
| Run.TestPsOn | touchdc/system/command/run/run.py:190-201 | the corrected `test_ps` on the machine equals its specification |
| RegTypes.Clamp | touchdc/system/command/reg/reg.py:106-108 | the result is always supported; supported codes are kept and others become 0 |
| RegTypes.NormaliseOne | touchdc/system/command/reg/reg.py:85-108 | each argument yields a supported code, or ValueError for an unknown name and TypeError for a non-int, non-str |
| RegTypes.NormaliseAll | touchdc/system/command/reg/reg.py:84-109 | the codes are the arguments' codes in order, or the first argument's error |
| RegTypes.Normalise | touchdc/system/command/reg/reg.py:73-114 | one argument gives a scalar, any other number a list; it fails exactly when some argument fails |
| RegTypes.NormaliseIdempotent | touchdc/system/command/reg/reg.py:106-108 | normalising a normalised code gives it back |
| RegTypes.RegPrefixWinApiOnly | touchdc/system/command/reg/reg.py:92-95 | a `REG_` name not in the WinAPI table is a ValueError; the .NET table is not consulted |
| RegTypes.NoneIsZero | touchdc/system/command/reg/reg.py:96-100 | " none " normalises to 0 through `REG_NONE`, not to -1 |
| RegTypes.GetNameOne | touchdc/system/command/reg/reg.py:128-145 | `get_name` fails exactly when `normalise` fails, with the same error |
| RegTypes.GetNameAll | touchdc/system/command/reg/reg.py:128-145 | the loop collects one name per argument, in argument order; failure exactly when normalisation fails |
| RegTypes.GetName | touchdc/system/command/reg/reg.py:117-149 | the bare name for one argument and the list of names, in argument order, otherwise; failure exactly when normalisation fails |
| RegTypes.NameRoundTrip | touchdc/system/command/reg/reg.py:117-149 | every supported code has a name (plain or pretty), and normalising that name gives the code back, except -1 which comes back as 0 |
| Reg.Judge | touchdc/system/command/reg/reg.py:356-367 | blank output is success; otherwise a permission match is a refusal, and other output is its registry error or RuntimeError |
| Reg.Settled | touchdc/system/command/reg/reg.py:356-367 | a write succeeds exactly when it ran and its output is blank; a refusal is the permission error |
| Reg.Handled | touchdc/system/command/reg/reg.py:152-164 | `handle_error` keeps results and the world, and maps only the error |
| Reg.Answer | touchdc/system/command/reg/reg.py:180-187 | Test-Path's trimmed, lower-cased "true"/"false" is the answer; anything else is an error |
| Reg.Found | touchdc/system/command/reg/reg.py:189-195 | with a name: False exactly on ItemNotFound, True exactly when the read succeeds, other errors pass through |
| Reg.TestRegNamed | touchdc/system/command/reg/reg.py:189-195 | `test_reg` with a name is `get_reg` read as presence, in the same world |
| Reg.TestRegKey | touchdc/system/command/reg/reg.py:180-187 | on a faithful registry, `test_reg(path)` says whether the key exists, by one command that changes nothing |
| Reg.TestRegValue | touchdc/system/command/reg/reg.py:189-195 | on a faithful registry, `test_reg(path, name)` says whether the value exists |
| Reg.ValueRead | touchdc/system/command/reg/reg.py:268-293 | `get_reg` succeeds exactly when the script ran silently and left an answer, which is the data and its clamped type; classified output is raised |
| Reg.Held | touchdc/system/command/reg/reg.py:268-293 | what a registry holds: data and a supported type, or ItemNotFound exactly when the key or value is missing |
| Reg.GetRegReads | touchdc/system/command/reg/reg.py:197-293 | on a faithful registry `get_reg` returns what is held, and changes nothing but the exchange file |
| Reg.Params | touchdc/system/command/reg/reg.py:311-316 | a value write needs name, value and type all given; a bare key needs all three absent; any other mix is a ValueError |
| Reg.SkipReads | touchdc/system/command/reg/reg.py:318-324 | with `skip`, a value already held with the same data and type returns with no write; otherwise the write follows the read |
| Reg.SetRegPuts | touchdc/system/command/reg/reg.py:297-367 | on a faithful registry the corrected `set_reg` stores a value whose data fits its normalised type (`Shell.Fits`) with that type, creates its key and every missing key above it (`New-Item -Force`), adds no other key, and leaves every other value alone |
| Reg.SetThenTestAbove | touchdc/system/command/reg/reg.py:299-352 | after the corrected `set_reg` of a value that fits its type, `test_reg` finds every key above the value's key: the intermediate keys are created |
| Reg.SetThenGet | touchdc/system/command/reg/reg.py:297-367 | `get_reg` after the corrected `set_reg` returns what was set, for data that fits its type |
| Reg.SetTwice | touchdc/system/command/reg/reg.py:318-324 | repeating a write of the corrected `set_reg` with `skip`, for data that fits its type, only reads and changes nothing |
| Reg.SetRegKey | touchdc/system/command/reg/reg.py:326-344 | a bare-key call of the corrected `set_reg` adds the key and the missing keys above it (a no-op when it exists) and keeps every value; as written it raises on an absent key (Reg.SetRegAsWrittenNoNewKey) |
| Reg.SetKeyThenTest | touchdc/system/command/reg/reg.py:326-329 | `test_reg` after a bare-key call of the corrected `set_reg` is True |
| Reg.CreationGuard | touchdc/system/command/reg/reg.py:334-344 | on an absent path the written guard raises RuntimeError; the corrected one proceeds to New-Item |
| Reg.WriteGuardAsWritten | touchdc/system/command/reg/reg.py:343-344 | as written, the branch for an absent path always raises RuntimeError after testing twice |
| Reg.SetRegAsWrittenNoNewKey | touchdc/system/command/reg/reg.py:343-344 | as written, `set_reg` never creates a key: on an absent path it raises RuntimeError and the registry is unchanged |
| Reg.SetRegRetryAsWritten | touchdc/system/command/reg/reg.py:361-363 | as written, a value write refused both unelevated and elevated, the user agreeing to elevate (asked twice), ends in ValueError, because the retry drops value and type |
| Reg.SkipThenWriteAsWritten | touchdc/system/command/reg/reg.py:318-324 | as written, `skip` only adds the first read: a value not yet held is then written exactly as without `skip` |
| Reg.SetRegSkipRetryAsWritten | touchdc/system/command/reg/reg.py:318-363 | the same refused write with `skip`, the value not yet held, also ends in ValueError with the registry unchanged |
| Reg.RetryAsWrittenRaises | touchdc/system/command/reg/reg.py:311-316 | the call the written retry makes (a name, no value, no type) fails the parameter check with ValueError and runs nothing |
| Reg.SetRegRetry | touchdc/system/command/reg/reg.py:356-367 | the corrected retry runs the write elevated and reports the permission error when that is refused too |
| Reg.Removal | touchdc/system/command/reg/reg.py:409-417 | the whole key is removed exactly when no name is given and the path is not empty; otherwise the named value |
| Reg.DelRegSkips | touchdc/system/command/reg/reg.py:406-407 | nothing is run after `test_reg` answers False |
| Reg.DelRegKey | touchdc/system/command/reg/reg.py:409-417 | on a faithful registry deleting a key removes it and everything below it, and keeps the rest |
| Reg.DelRegValue | touchdc/system/command/reg/reg.py:409-417 | deleting a value removes exactly that value and keeps every key |
| Reg.DelThenTest | touchdc/system/command/reg/reg.py:369-428 | `test_reg` after `del_reg` is False |
| Reg.TestRegOn | touchdc/system/command/reg/reg.py:168-195 | `test_reg` on the machine equals its specification |
| Reg.GetRegOn | touchdc/system/command/reg/reg.py:199-293 | `get_reg` on the machine equals its specification |
| Reg.SetRegOn | touchdc/system/command/reg/reg.py:299-367 | `set_reg` on the machine equals its specification |
| Reg.DelRegOn | touchdc/system/command/reg/reg.py:371-428 | `del_reg` on the machine equals its specification |
| Model.Check | touchdc/system/model.py:276-283 | valid exactly when each given argument is one of its constants, the device is not "none", and a profile without a machine key has no system mode |
| Model.CheckRefuses | touchdc/system/model.py:385-388 | device mode with state none, and the touchpad's system mode, are refused |
| Model.ToggleRejects | touchdc/system/model.py:289-292 | a refused (state, mode) raises InvalidOperation before any command is run |
| Model.Mentions | touchdc/system/model.py:132 | a block is mentioned exactly when some name occurs in it, ignoring case |
| Model.ParseBlocks | touchdc/system/model.py:129-137 | the parsing loop returns the kept blocks in order, each read into its fields |
| Model.ReadBlock | touchdc/system/model.py:133-137 | the inner loop appends one dictionary holding the block's settings |
| Model.FieldsLastWins | touchdc/system/model.py:133-137 | a key is set exactly when some line sets it, and its value is the last such line's |
| Model.BlockKeysClean | touchdc/system/model.py:133-137 | every field key is stripped and has no ':' |
| Model.KeepSound | touchdc/system/model.py:130-132 | every kept block comes from a blank-line-separated block that passes the filter |
| Model.KeepComplete | touchdc/system/model.py:130-132 | every block that passes the filter is kept; nothing is kept exactly when none passes |
| Model.Resolve | touchdc/system/model.py:110-113 | no names means the class's names; one name means a one-element list |
| Model.Chosen | touchdc/system/model.py:139-145 | `get_all` returns every kept block; otherwise exactly one is needed, else DeviceNotFound |
| Model.GetDeviceReads | touchdc/system/model.py:129-145 | with no error found, the result is all blocks, or the single block, or DeviceNotFound |
| Model.GetDeviceRetried | touchdc/system/model.py:120-123 | a permission error, auto-elevating and unelevated, with consent, reruns elevated with the same names and `get_all` |
| Model.GetDeviceDeclined | touchdc/system/model.py:120-125 | refused consent raises OperationAborted |
| Model.GetDeviceDenied | touchdc/system/model.py:126-127 | a permission error when already elevated or not auto-elevating is raised |
| Model.GetDeviceRaises | touchdc/system/model.py:118-127 | any other classified kind is raised as itself |
| Model.GetDeviceFails | touchdc/system/model.py:85-116 | an error from `run_ps` is raised through `handle_error` |
| Model.GetDeviceAsksOnce | touchdc/system/model.py:116-124 | `get_device` prompts at most once, and never when elevated or not auto-elevating |
| Model.VendorListingAsWritten | touchdc/system/model.py:116-119 | as written, a listing whose instance id contains "50" raises PropertyExists |
| Model.VendorListingFixed | touchdc/system/model.py:116-119 | with the corrected table that listing is parsed |
| Model.GetDeviceOn | touchdc/system/model.py:85-145 | `get_device` on the machine equals its specification |
| Model.EnumeratedOn | touchdc/system/model.py:118-145 | what follows the enumeration's output on the machine (retry, refusal, parse) equals its specification |
| Model.GetFieldWith | touchdc/system/model.py:147-164 | the field is the device's entry for the capitalised name; strict raises PropertyNotFound instead of returning None |
| Model.StatusWith | touchdc/system/model.py:147-164 | the status is the strict `Status` field |
| Model.ByStatus | touchdc/system/model.py:177-206 | a status property is its test on the status, and passes errors through |
| Model.StatusesAgree | touchdc/system/model.py:177-206 | running implies enabled and working; not enabled implies not running and working; not working implies enabled and not running |
| Model.DeviceStatusesAgree | touchdc/system/model.py:177-206 | the three properties fail together, and when they succeed their values agree as above |
| Model.DeviceExistsWith | touchdc/system/model.py:166-175 | False exactly on DeviceNotFound, True exactly when a device is found, other errors pass through |
| Model.Tri | touchdc/system/model.py:231-239 | the tri-state is False exactly for data 0 and True exactly for data 1, both only when the normalised types agree |
| Model.CheckKeyReads | touchdc/system/model.py:215-239 | on a faithful registry `_check_key` reads the stored tri-state, None when the value is missing |
| Model.SystemEnabledWith | touchdc/system/model.py:241-244 | the machine key's tri-state; NotImplementedError without a machine key (Touchpad, line 382-383) |
| Model.Precedence | touchdc/system/model.py:256-272 | a user setting decides when present; otherwise the device is active unless the machine key says False |
| Model.UserActiveReads | touchdc/system/model.py:251-274 | on a faithful registry `user_active` is enabled-and-active by that precedence |
| Model.Handled | touchdc/system/model.py:70-83 | the device's `handle_error` keeps results and the world |
| Model.HandledTwice | touchdc/system/model.py:70-83 | the device's `handle_error` is idempotent |
| Model.KeyFor | touchdc/system/model.py:322-326 | system mode uses the machine key, user mode the user key, and no other mode names a key |
| Model.ToggleUnbound | touchdc/system/model.py:322-334 | with no mode, any valid state fails with UnboundLocalError |
| Model.SwitchSettles | touchdc/system/model.py:300-320 | device mode succeeds exactly on already-enabled/disabled or on "success" in the output; otherwise the kind found, else PnpError, or AttributeError when the state is `None` (its message capitalises the state) |
| Model.SwitchRetried | touchdc/system/model.py:304-308 | a permission error with consent reruns the whole toggle elevated |
| Model.SwitchDeclined | touchdc/system/model.py:304-310 | refused consent raises OperationAborted |
| Model.SwitchDenied | touchdc/system/model.py:304-312 | a permission error when already elevated or not auto-elevating is raised |
| Model.ToggleSetsWith | touchdc/system/model.py:328-331 | over `set_reg` as intended on any key, and as written on a key that exists: on a key whose type takes the number (`DWord` or `QWord`), DISABLE stores 0 and ENABLE stores 1 with the key's type, no other value changes, only the key's own key and the keys above it can appear, and every value stays under a key |
| Model.ToggleWrites | touchdc/system/model.py:328-331 | a registry mode turned on or off is exactly the `set_reg` of 0 or 1 with the key's type, with `skip` and elevation offered, under `handle_error` |
| Model.ToggleAsWrittenNoKey | touchdc/system/model.py:328-331 | as written, turning a registry mode on or off while its key is absent raises RuntimeError from `set_reg`'s guard and leaves the registry unchanged |
| Model.ToggleRetryAsWritten | touchdc/system/model.py:328-331 | as written, a registry write refused unelevated and elevated, the user agreeing to elevate, ends in ValueError from `set_reg`'s retry and leaves the registry unchanged |
| Model.ToggleSwitches | touchdc/system/model.py:289-295 | a valid state in the device mode runs the device branch, under `handle_error` |
| Model.SwitchRaises | touchdc/system/model.py:294-295 | when `get_device` raises, the device branch raises the same error in the world the enumeration left |
| Model.SwitchStopsAtListing | touchdc/system/model.py:294-295 | when `get_device` raises a device error other than a refusal or an abort, the device mode raises that error unchanged and runs no switch |
| Model.ToggleDeviceAsWritten | touchdc/system/model.py:294-295 | as written, the device mode on a listing holding "50" raises PropertyExists after the one enumeration, and nothing is switched |
| Model.ToggleClearsWith | touchdc/system/model.py:332-334 | NONE removes the value when present, touching nothing else |
| Model.ProfilesFit | touchdc/system/model.py:365-376 | both profiles' keys are `DWord`s (type 4), so the 0 and 1 a toggle writes fit them |
| Model.ToggleThenCheck | touchdc/system/model.py:322-334 | after a registry toggle, `_check_key` reads the state it set (none after a clear), on a key whose type takes 0 and 1; over `set_reg` as intended on any key, and as written when the key exists or the state is none |
| Model.ToggleOn | touchdc/system/model.py:285-334 | `_toggle` on the machine equals its specification, for `set_reg` and the pnputil table as written or as intended |
| Model.SwitchOn | touchdc/system/model.py:294-320 | the device-mode branch on the machine equals its specification, for either reading of the callees |
| Model.SwitchedOn | touchdc/system/model.py:300-320 | what follows the switch's output on the machine (retry, refusal, success) equals its specification, for either reading of the callees |
| Model.FlipOn | touchdc/system/model.py:322-334 | the registry-mode branch on the machine equals its specification, over `set_reg` as written or as intended |
| Model.Device.constructor | touchdc/system/model.py:66-68 | a new device has its profile and a fresh observable with no observers |
| Model.Device.Toggle | touchdc/system/model.py:336-339 | `toggle` does what `_toggle` does to the world, over `set_reg` and the pnputil table as written or as intended; a failure notifies no observer, and a success notifies each observer exactly once, failing only if an observer fails |
| Model.Device.ToggleObserved | touchdc/system/model.py:336-339 | the same for any reading of the runner and of pnputil: `_toggle`'s effect on the world, then the observers notified once only after a normal return |
| Model.Device.Disable | touchdc/system/model.py:343-344 | `disable(mode)` is `toggle(DISABLE, mode)`, over the callees as written or as intended |
| Model.Device.Enable | touchdc/system/model.py:346-347 | `enable(mode)` is `toggle(ENABLE, mode)`, over the callees as written or as intended |
| Model.Device.Clear | touchdc/system/model.py:349-350 | `clear(mode)` is `toggle(NONE, mode)`, over the callees as written or as intended |
| Observe.Observable.constructor | touchdc/utils/observe.py:70-72 | a new observable has no observers |
| Observe.Observable.Attach | touchdc/utils/observe.py:74-84 | an observer is added once; anything else is a ValueError and changes nothing |
| Observe.Observable.Detach | touchdc/utils/observe.py:86-97 | an observer is removed whether or not it was there; anything else is a ValueError |
| Observe.Observable.Notify | touchdc/utils/observe.py:99-105 | succeeds exactly when no observer fails; then every observer is updated once; a failure is some observer's error; no observer is updated twice |
| Observe.Observable.Observed | touchdc/utils/observe.py:107-123 | an error passes through with no notification; a result is returned after each observer is notified once, unless an observer fails |
| Observe.Observer.Update | touchdc/utils/observe.py:132-139 | an observer records the notification, or raises its own error |
| Controller.GetConst | touchdc/controller/base.py:58-69 | True, False and None give ENABLE, DISABLE and NONE; every other value is a ValueError |
| Controller.GetName | touchdc/controller/base.py:71-76 | a name exactly for the three state constants |
| Controller.ShownEnabled | touchdc/controller/base.py:73-74 | ENABLE is shown as "Enabled" |
| Controller.ShownDisabled | touchdc/controller/base.py:73-74 | DISABLE is shown as "Disabled" |
| Controller.ShownNone | touchdc/controller/base.py:75-76 | NONE is shown as "None" |
| Controller.ShownApart | touchdc/controller/base.py:58-76 | each accepted value has a name, and the three accepted values have three different names |

## Left out

- Process plumbing is not modelled: the temporary files and their cleanup, UTF-16/UTF-8 encodings and the BOM, the PowerShell command strings (beyond `safe_path`), and the hidden-window start-up. A command is a `Shell.Command` naming what it does. Its effect is one `Shell.Step`.
- The JSON exchange of `get_reg` is a single typed value left in the world by the read script. Malformed JSON (the RuntimeError at reg.py:292-293) is not modelled.
- Modelling assumptions. These are not code of the repository. They stand for the behaviour of Windows and PowerShell:
  - `Shell.Faithful(env)`: each command acts on the registry as its cmdlet does, as far as `Shell.Cmdlet` describes it. On a key that exists, the modelled `New-Item -Force` drops the key's values and keeps its subkeys. The corrected `set_reg` calls it only on an absent key.
  - `Reg.MissingReported(env)`: a missing key or value is reported by a message the registry table classifies as ItemNotFound and the runner does not take for a refusal.
  - `Reg.SilentWrapper(env)` and `Reg.RefusalReported(env)`: the elevating wrapper prints nothing, and the refusal text is recognised.
  - `Reg.WritesAllowed` and `Model.ToggleAllowed`: the commands a property needs are not refused.
- `Reg.SetRegPuts`, `Reg.SetThenGet`, `Reg.SetTwice`, `Reg.SetThenTestAbove`, `Reg.SetRegHeldWith`, `Model.ToggleSetsWith`, `Model.ToggleThenCheck`: these hold only for data that fits its type (`Shell.Fits`). `Shell.Cmdlet` stores the data as given. The code passes it as the text `'{value}'` (reg.py:331, reg.py:348), and PowerShell converts that text to the type. A number written as a `String` reads back as text. A repeated write with `skip` then compares text with a number and writes again. A text that does not convert to a `DWord` makes PowerShell fail, and the code raises RuntimeError. A single quote in the data or in the value name ends the quoted text. The model does not capture any of these. Both profiles write 0 and 1 to `DWord` keys (`Model.ProfilesFit`), which fit.
- The user's answer to the elevation prompt is the fixed `Env.consent`. The dialog is not modelled.
- `Run.LaunchAfter`, `Run.ElevatedWrapperRaises`: any output of the elevating wrapper (`Env.wrapper`) is taken to mean that the command did not run, as for a cancelled UAC prompt. A wrapper that fails after the elevated process has finished (writing the exit-code file, or `Convert-Utf8NoBom`, run.py:92-97) leaves the command's effect in place. The model does not capture that.
- `run_ps`'s `propogate` argument is not modelled, because no caller in the core passes it. The `cmd or "`n"` substitution for an empty command is not modelled either.
- Regular expressions are modelled only for the constructs the tables use. Case-insensitive matching and `\s`/`\b` are modelled through `Text.Lower` and `Text.IsSpace`/`Text.IsWord`, which cover ASCII and Latin-1 only. The same `Text.LowerStr` and `Text.Strip` serve `Model.Mentions` (the name filter of the listing), `Model.Listing` (the text `get_device` classifies) and `Model.SwitchOutput` (the text `_toggle` reads after a switch). Full Unicode case folding is out of scope.
- `Text.UpperStr`, and with it `RegTypes.NormaliseOne`, upper-case ASCII and Latin-1 letters only. Python's `str.upper` also maps letters such as 'ſ' to 'S' and 'ı' to 'I', so a type name like "bınary" normalises to 3 in the code and is a ValueError in the model.
- `Text.Lines` differs from `splitlines` on `\r\n` pairs and trailing breaks (extra empty lines). The parsing reads only lines that contain ':', so the result is the same.
- `Observe`: the observers are a plain set and not a `WeakSet`, so garbage collection of observers is not modelled. Changing the set during a notification is not modelled either. The import-time `pip` fallback for `weakrefset` is left out.
- `Observe.Observer.Update` stands for any observer's own `update`. It either counts the notification or fails with the observer's fixed error.
- `Model.Device` holds an `Observe.Observable` where the Python class inherits from it. The observers and the notification are the same.
- `Model.ToggleSetsWith`, `Model.ToggleThenCheck`: for `set_reg` as written they are stated only on a key that already exists (or, for `ToggleThenCheck`, a clear). On an absent key the written code raises instead, which `Model.ToggleAsWrittenNoKey` states.
- `Model.ToggleRetryAsWritten`: it is stated over any reading that refuses the write both ways (`Reg.RefusedAlways`). `Reg.ActualRefusedAlways` shows when the code's own reading does.
- `Model.Device.Disable`, `Model.Device.Enable`, `Model.Device.Clear`: these state only the world change, the error and the notification count on success. The rest of `Device.Toggle`'s contract applies to them through that method.
- Only the `Touchscreen` and `Touchpad` profiles are modelled. The base `Device`'s placeholder keys (`('', '', 0)`) and empty `DEVICE_NAMES` are not.
- The docstring of `get_device` (model.py:90) says that `get_all` ignores `names` and returns every HIDClass device. The code still filters the blocks by `names` (model.py:129-132) and only skips the one-device check. The model follows the code: the parse (`Model.ParseBlocks`, with the filter `Model.Mentions`) takes no `get_all`, and `Model.Chosen` returns every kept block when it is set.
- `get_problem` (model.py:208-213) is not modelled. It only makes two non-strict `get_field` calls, and `Model.GetFieldWith` covers those.
- `reset` and `open` (model.py:354-360) are not modelled. They are empty placeholders.
- `get_device` and `_toggle` call `run_ps` with `auto_elevate=False` and do their own retry. That retry is modelled, and it is bounded by the `elevate` flag.

## Findings

| source | as written | input that shows it | evidently intended | confidence | as-written member | corrected member |
|---|---|---|---|---|---|---|
| touchdc/system/command/reg/reg.py:363 | the permission retry calls `set_reg(path, name, elevate=True)`, dropping `value` and `reg_type`, so a value write fails its own parameter check with ValueError | `set_reg(p, 'TouchGate', 0, 4)` on an existing key whose write is refused both unelevated and elevated, the user agreeing to elevate (asked twice) | retry the same write elevated, passing `value` and `reg_type` too | not executed | Reg.SetRegRetryAsWritten | Reg.SetRegRetry |
| touchdc/system/command/reg/reg.py:343-344 | the guard raises when `test_reg` says the path is absent, so the New-Item branch never runs and an absent key is never created | `set_reg('HKCU:\\Software\\New', 'v', 1, 4)` where the key does not exist | raise only when the path unexpectedly exists | not executed | Reg.SetRegAsWrittenNoNewKey | Reg.SetRegPuts |
| touchdc/system/command/run/run.py:190-201 | `run_ps` unelevated classifies only AccessDenied, so PowershellDisabledError never reaches `test_ps`, which therefore always answers True | an `echo hello` that prints "This program is blocked by group policy." | answer False when the output shows disabled PowerShell | not executed | Run.TestPsAlwaysTrue | Run.TestPsDetects |
| touchdc/system/pnp_errors.py:48 | the pattern `50`, meant for exit code 50, is also searched in the output, so `get_device` (model.py:116-119) raises PropertyExists on any listing containing "50" | a listing holding the instance id `HID\VID_1050&PID_0001` | look for `50` in the exit code only | not executed | Model.VendorListingAsWritten | Model.VendorListingFixed |
