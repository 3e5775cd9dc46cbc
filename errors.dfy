/** The exceptions the core raises, gathered into one type, and the two
    `handle_error` decorators that translate the command runner's errors into
    the registry's and the device model's own. */
module Errors {
  import CmdErrors
  import RegErrors
  import PnpErrors

  datatype Error =
    | Command(cmd: CmdErrors.Kind)     // the classes of `cmd_errors.py`
    | Registry(reg: RegErrors.Kind)    // the classes of `reg_errors.py`
    | Device(dev: PnpErrors.Kind)      // the classified classes of `pnp_errors.py`
    | Pnp                              // `PnpError` itself
    | PropertyNotFound                 // `DevicePropertyNotFoundError`
    | InvalidOperation                 // `DeviceInvalidOperationError`
    | Runtime                          // `RuntimeError`
    | Value                            // `ValueError`
    | Type                             // `TypeError`
    | Assertion                        // `AssertionError`
    | NotImplemented                   // `NotImplementedError`
    | Key                              // `KeyError`
    | UnboundLocal                     // `UnboundLocalError`
    | Attribute                        // `AttributeError`

  /** `Reg.handle_error`: a cancelled elevation becomes the registry's
      "aborted" error and a denied command its permission error; every other
      error passes through. */
  function RegHandle(e: Error): Error {
    if e == Command(CmdErrors.UserAborted) then Registry(RegErrors.OperationAborted)
    else if e == Command(CmdErrors.AccessDenied) then Registry(RegErrors.Permission)
    else e
  }

  /** `Device.handle_error`: the same two translations, from either the
      command runner's or the registry's classes. */
  function DeviceHandle(e: Error): Error {
    if e == Command(CmdErrors.UserAborted) || e == Registry(RegErrors.OperationAborted) then
      Device(PnpErrors.OperationAborted)
    else if e == Command(CmdErrors.AccessDenied) || e == Registry(RegErrors.Permission) then
      Device(PnpErrors.Permission)
    else e
  }

  /** After the registry decorator no "aborted" or "denied" command error is
      left, nothing else is touched, and applying it twice changes nothing. */
  lemma RegHandleProperties(e: Error)
    ensures RegHandle(e) != Command(CmdErrors.UserAborted) && RegHandle(e) != Command(CmdErrors.AccessDenied)
    ensures RegHandle(e) != e ==> e == Command(CmdErrors.UserAborted) || e == Command(CmdErrors.AccessDenied)
    ensures RegHandle(RegHandle(e)) == RegHandle(e)
  {
  }

  /** The device decorator sees through the registry one: translating first
      to a registry error and then to a device error is the same as
      translating straight to the device error. */
  lemma DeviceHandleAfterReg(e: Error)
    ensures DeviceHandle(RegHandle(e)) == DeviceHandle(e)
    ensures DeviceHandle(DeviceHandle(e)) == DeviceHandle(e)
    ensures DeviceHandle(e) != e ==> DeviceHandle(e) == Device(PnpErrors.OperationAborted) || DeviceHandle(e) == Device(PnpErrors.Permission)
  {
  }
}
