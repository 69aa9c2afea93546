/** The `BaseValidator` interface of src/claws/validation/base_validator.py:
    the constructor runs the setup check, and the default setup check and
    the default value check accept everything. */
module ValidatorBase {
  import opened Exceptions

  /** `BaseValidator._validate_setup`: no configuration is refused. */
  function DefaultSetup(): (r: Outcome)
    ensures r.Pass?
  {
    Pass
  }

  /** `BaseValidator.check`: no value is refused. */
  function DefaultCheck(value: string): (r: Outcome)
    ensures r.Pass?
  {
    Pass
  }

  /** `BaseValidator.__init__` applied to a configured validator `v`: the
      constructor runs `setup` once and either hands back `v` unchanged or
      raises exactly what that one run raised. */
  function Construct<V>(v: V, setup: V -> Outcome): (r: Result<V>)
    ensures r.Ok? <==> setup(v).Pass?
    ensures r.Ok? ==> r.value == v
    ensures r.Err? ==> r.error == setup(v).error
  {
    match setup(v)
    case Pass => Ok(v)
    case Fail(e) => Err(e)
  }
}
