/** The two conversion helpers of the controllers' base class
    (`controller/base.py`): a tri-state switch value to the device's state
    constant, and a state constant to the text shown for it. */
module Controller {
  import opened Wrappers
  import opened Text
  import Errors
  import Model

  /** The Python values `_get_const` may be given: the two booleans, `None`,
      and anything else (an integer or a string, say). */
  datatype Value = Bool(b: bool) | Nothing | Int(i: int) | Str(s: string)

  /** `Base._get_const(val)`: `True`, `False` and `None` are told apart by
      identity, so `1` and `0` are not booleans here and, like every other
      value, are a `ValueError`. */
  function GetConst(v: Value): (r: Result<string, Errors.Error>)
    ensures r.Ok? <==> v.Bool? || v.Nothing?
    ensures v == Bool(true) ==> r == Ok(Model.ENABLE)
    ensures v == Bool(false) ==> r == Ok(Model.DISABLE)
    ensures v == Nothing ==> r == Ok(Model.NONE)
    ensures r.Err? ==> r.error == Errors.Value
  {
    if v == Bool(true) then Ok(Model.ENABLE)
    else if v == Bool(false) then Ok(Model.DISABLE)
    else if v == Nothing then Ok(Model.NONE)
    else Err(Errors.Value)
  }

  /** `Base._get_name(const)`: the constant capitalised, with a "d" for
      the two switch states; nothing for any other constant. */
  function GetName(c: string): (r: Option<string>)
    ensures r.Some? <==> c == Model.ENABLE || c == Model.DISABLE || c == Model.NONE
  {
    if c == Model.ENABLE || c == Model.DISABLE then Some(Capitalize(c) + "d")
    else if c == Model.NONE then Some(Capitalize(c))
    else None
  }

  /** `capitalize()` of a lower-case word upper-cases its first letter. */
  lemma Capitalized(s: string, t: string)
    requires |s| > 0 && forall i :: 0 <= i < |s| ==> 'a' <= s[i] <= 'z'
    requires |t| == |s| && t[0] == Upper(s[0]) && t[1..] == s[1..]
    ensures Capitalize(s) == t
  {
    assert LowerStr(s[1..]) == s[1..];
  }

  /** The texts shown for the three states. */
  lemma ShownEnabled()
    ensures GetName(Model.ENABLE) == Some("Enabled")
  {
    Capitalized(Model.ENABLE, "Enable");
    assert "Enable" + "d" == "Enabled";
  }

  lemma ShownDisabled()
    ensures GetName(Model.DISABLE) == Some("Disabled")
  {
    Capitalized(Model.DISABLE, "Disable");
    assert "Disable" + "d" == "Disabled";
  }

  lemma ShownNone()
    ensures GetName(Model.NONE) == Some("None")
  {
    Capitalized(Model.NONE, "None");
  }

  /** Every value `_get_const` accepts is shown, and the three accepted
      values are shown by three different texts. */
  lemma ShownApart(a: Value, b: Value)
    requires GetConst(a).Ok? && GetConst(b).Ok?
    ensures GetName(GetConst(a).value).Some?
    ensures a != b ==> GetName(GetConst(a).value) != GetName(GetConst(b).value)
  {
    ShownEnabled();
    ShownDisabled();
    ShownNone();
  }
}
