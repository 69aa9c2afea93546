/** The concrete validators of src/claws/validation/validators.py and the
    kind-name registry `VALIDATOR_MAP`. Each validator is its constructor's
    configuration; `Setup` is `_validate_setup` and `Check` is `check`, both
    returning `Pass` or the exception they raise. The code's defects are kept
    as they are: the misspelt `_max_lenth` attribute, the max-only integer
    branch that compares against `None`, and constructors that never call the
    base constructor and so never run `_validate_setup`. */
module Validators {
  import opened Exceptions
  import opened Decimal
  import ValidatorBase

  /** What the validators take from Python's runtime and do not define: the
      regular-expression engine and `float`. */
  datatype Runtime = Runtime(
    compileError: string -> Option<string>,  // `re.compile(p)`: the `re.error` message, or None when `p` compiles
    matchAtStart: (string, string) -> bool,  // `re.compile(p).match(v)` is not None
    parseFloat: string -> Option<real>,      // `float(v)`, None where it raises `ValueError`
    floatRepr: real -> string)               // `str(x)` of a float

  /** A validator object, by class, holding what its constructor stored. */
  datatype Validator =
    | BaseValidator
    | StringValidator(minLength: int, maxLength: Option<int>)
    | RegexStringValidator(regex: string, errMsg: string, defaultMsg: string)
    | IntegerValidator(min: Option<int>, max: Option<int>)
    | FloatValidator(min: Option<int>, max: Option<int>)

  // ---------------------------------------------------------------- construction

  /** `BaseValidator()`: the only constructor that runs `_validate_setup`. */
  function NewBaseValidator(): (r: Result<Validator>)
    ensures r == Ok(BaseValidator)
  {
    ValidatorBase.Construct(BaseValidator, Setup)
  }

  /** `StringValidator(min_length, max_length)`. It overrides `__init__`
      without calling the base one, so it cannot fail: a `None` minimum is
      stored as 0 and nothing is checked. */
  function NewStringValidator(minLength: Option<int> := None, maxLength: Option<int> := None): (v: Validator)
    ensures v.StringValidator? && v.maxLength == maxLength
    ensures minLength.None? ==> v.minLength == 0
    ensures minLength.Some? ==> v.minLength == minLength.value
    ensures KindOf(v) == Some(StringKind)
  {
    StringValidator(if minLength.Some? then minLength.value else 0, maxLength)
  }

  /** The message `RegexStringValidator` falls back on. */
  function DefaultRegexMessage(regex: string): string {
    "Must match regex pattern: " + regex
  }

  /** `RegexStringValidator(regex, err_msg)`: fails only when the pattern
      does not compile; setup is not run. */
  function NewRegexStringValidator(regex: string, errMsg: string := "", rt: Runtime): (r: Result<Validator>)
    ensures r.Ok? <==> rt.compileError(regex).None?
    ensures r.Ok? ==> r.value == RegexStringValidator(regex, errMsg, DefaultRegexMessage(regex))
    ensures r.Err? ==> r.error == Error(PatternError, rt.compileError(regex).value)
  {
    match rt.compileError(regex)
    case Some(msg) => Err(Error(PatternError, msg))
    case None => Ok(RegexStringValidator(regex, errMsg, DefaultRegexMessage(regex)))
  }

  /** `IntegerValidator(min, max)`: stores both bounds, checks nothing, and
      no bound configuration is refused by its (inherited default) setup. */
  function NewIntegerValidator(min: Option<int> := None, max: Option<int> := None): (v: Validator)
    ensures v.IntegerValidator? && v.min == min && v.max == max
    ensures Setup(v).Pass?
    ensures KindOf(v) == Some(IntegerKind)
  {
    IntegerValidator(min, max)
  }

  /** `FloatValidator(min, max)`: inherits `IntegerValidator.__init__`, so
      it stores the same bounds and its setup refuses nothing either. */
  function NewFloatValidator(min: Option<int> := None, max: Option<int> := None): (v: Validator)
    ensures v.FloatValidator? && v.min == min && v.max == max
    ensures Setup(v).Pass?
    ensures KindOf(v) == Some(FloatKind)
  {
    FloatValidator(min, max)
  }

  // ---------------------------------------------------------------- setup

  /** Python's message for reading the misspelt attribute `_max_lenth`. */
  const MaxLenthMissing: string := "'StringValidator' object has no attribute '_max_lenth'"

  /** `StringValidator._validate_setup`. A negative minimum is refused before
      the maximum is looked at; any given maximum (0 included) then reads the
      misspelt `_max_lenth` and raises `AttributeError`, so setup passes only
      with a non-negative minimum and no maximum, and it never reports a bad
      maximum as a configuration error. */
  function StringSetup(minLength: int, maxLength: Option<int>): (r: Outcome)
    ensures minLength < 0 ==>
      r == Fail(Error(ValidationConfigError, "min_length must be >= 0, got " + IntToString(minLength)))
    ensures minLength >= 0 && maxLength.Some? ==> r == Fail(Error(AttributeError, MaxLenthMissing))
    ensures r.Pass? <==> minLength >= 0 && maxLength.None?
    ensures r.Fail? && r.error.kind == ValidationConfigError ==> minLength < 0
  {
    if minLength < 0 then
      Fail(Error(ValidationConfigError, "min_length must be >= 0, got " + IntToString(minLength)))
    else if maxLength.Some? then
      Fail(Error(AttributeError, MaxLenthMissing))
    else
      Pass
  }

  /** `_validate_setup`, by class: only `StringValidator` overrides the default. */
  function Setup(v: Validator): (r: Outcome)
    ensures !v.StringValidator? ==> r.Pass?
    ensures v.StringValidator? ==> r == StringSetup(v.minLength, v.maxLength)
  {
    match v
    case StringValidator(minLength, maxLength) => StringSetup(minLength, maxLength)
    case _ => ValidatorBase.DefaultSetup()
  }

  // ---------------------------------------------------------------- checks

  /** Python truthiness of an optional integer: neither `None` nor 0. */
  predicate Truthy(n: Option<int>) {
    n.Some? && n.value != 0
  }

  /** `StringValidator.check`. With a truthy maximum the length must lie
      strictly between the bounds; otherwise only a length below the minimum
      fails, so a length equal to the minimum passes. */
  function StringCheck(minLength: int, maxLength: Option<int>, value: string): (r: Outcome)
    ensures Truthy(maxLength) ==> (r.Pass? <==> minLength < |value| < maxLength.value)
    ensures !Truthy(maxLength) ==> (r.Pass? <==> minLength <= |value|)
    ensures r.Fail? ==> r.error.kind == ValidationError
    ensures r.Fail? && Truthy(maxLength) ==>
      r.error.msg == "String length must be > " + IntToString(minLength) + " and < "
                     + IntToString(maxLength.value) + ", got " + IntToString(|value|)
    ensures r.Fail? && !Truthy(maxLength) ==>
      r.error.msg == "String length must be > " + IntToString(minLength)
  {
    var strLen := |value|;
    if Truthy(maxLength) && !(minLength < strLen < maxLength.value) then
      Fail(Error(ValidationError, "String length must be > " + IntToString(minLength) + " and < "
                                  + IntToString(maxLength.value) + ", got " + IntToString(strLen)))
    else if strLen < minLength then
      Fail(Error(ValidationError, "String length must be > " + IntToString(minLength)))
    else
      Pass
  }

  /** `RegexStringValidator.check`: fails exactly when the pattern does not
      match at the start of the value, with the custom message when there is
      one and the stored default otherwise. */
  function RegexCheck(regex: string, errMsg: string, defaultMsg: string, value: string,
                      matchAtStart: (string, string) -> bool): (r: Outcome)
    ensures r.Pass? <==> matchAtStart(regex, value)
    ensures r.Fail? ==> r.error.kind == ValidationError
    ensures r.Fail? && errMsg != "" ==> r.error.msg == errMsg
    ensures r.Fail? && errMsg == "" ==> r.error.msg == defaultMsg
  {
    if !matchAtStart(regex, value) then
      Fail(Error(ValidationError, if errMsg != "" then errMsg else defaultMsg))
    else
      Pass
  }

  /** The sign of `c - bound`, for an integer `c`. */
  function IntCompare(c: int, bound: int): int {
    if c < bound then -1 else if c > bound then 1 else 0
  }

  /** The sign of `c - bound`, for a float `c`: Python compares a float with
      an integer exactly. */
  function RealCompare(c: real, bound: int): int {
    if c < bound as real then -1 else if c > bound as real then 1 else 0
  }

  /** Python's message when `converted > self._min` meets `_min = None`. */
  function NoneComparison(typeName: string): string {
    "'>' not supported between instances of '" + typeName + "' and 'NoneType'"
  }

  /** The bound branches of `IntegerValidator.check`, which `FloatValidator`
      inherits; `compare` orders the converted value against a bound, `show`
      prints it and `typeName` is its Python class. Both bounds: exclusive on
      both ends. Minimum only: inclusive. Maximum only: the code compares with
      the unset minimum and raises `TypeError` whatever the value. */
  function CheckBounds<N>(min: Option<int>, max: Option<int>, converted: N,
                          compare: (N, int) -> int, show: N -> string, typeName: string): (r: Outcome)
    ensures min.Some? && max.Some? ==>
      (r.Pass? <==> compare(converted, min.value) > 0 && compare(converted, max.value) < 0)
    ensures min.Some? && max.None? ==> (r.Pass? <==> compare(converted, min.value) >= 0)
    ensures min.None? && max.Some? ==> r == Fail(Error(TypeError, NoneComparison(typeName)))
    ensures min.None? && max.None? ==> r.Pass?
    ensures r.Fail? && min.Some? && max.Some? ==>
      r.error == Error(ValidationError, "Must be between " + IntToString(min.value) + " and "
                                        + IntToString(max.value) + ", got " + show(converted))
    ensures r.Fail? && min.Some? && max.None? ==>
      r.error == Error(ValidationError, "Must be > " + IntToString(min.value) + ", got " + show(converted))
  {
    if min.Some? && max.Some? then
      if !(compare(converted, min.value) > 0 && compare(converted, max.value) < 0) then
        Fail(Error(ValidationError, "Must be between " + IntToString(min.value) + " and "
                                    + IntToString(max.value) + ", got " + show(converted)))
      else Pass
    else if min.Some? then
      if compare(converted, min.value) < 0 then
        Fail(Error(ValidationError, "Must be > " + IntToString(min.value) + ", got " + show(converted)))
      else Pass
    else if max.Some? then
      Fail(Error(TypeError, NoneComparison(typeName)))
    else
      Pass
  }

  /** `IntegerValidator.check`: a value that is not an integer fails with
      "Not an int" before any bound is consulted; otherwise the converted
      integer meets the bound branches. */
  function IntegerCheck(min: Option<int>, max: Option<int>, value: string): (r: Outcome)
    ensures ParseInt(value).None? ==> r == Fail(Error(ValidationError, "Not an int"))
    ensures ParseInt(value).Some? && min.Some? && max.Some? ==>
      (r.Pass? <==> min.value < ParseInt(value).value < max.value)
    ensures ParseInt(value).Some? && min.Some? && max.None? ==>
      (r.Pass? <==> ParseInt(value).value >= min.value)
    ensures ParseInt(value).Some? && min.None? && max.Some? ==>
      r == Fail(Error(TypeError, NoneComparison("int")))
    ensures min.None? && max.None? ==> (r.Pass? <==> ParseInt(value).Some?)
    ensures r.Fail? && ParseInt(value).Some? && min.Some? && max.Some? ==>
      r.error == Error(ValidationError, "Must be between " + IntToString(min.value) + " and "
                       + IntToString(max.value) + ", got " + IntToString(ParseInt(value).value))
    ensures r.Fail? && ParseInt(value).Some? && min.Some? && max.None? ==>
      r.error == Error(ValidationError, "Must be > " + IntToString(min.value) + ", got "
                       + IntToString(ParseInt(value).value))
  {
    match ParseInt(value)
    case None => Fail(Error(ValidationError, "Not an int"))
    case Some(converted) => CheckBounds(min, max, converted, IntCompare, IntToString, "int")
  }

  /** `FloatValidator.check`: the same bound branches after `float(value)`,
      failing with "Not a float" when the value does not convert. */
  function FloatCheck(min: Option<int>, max: Option<int>, value: string, rt: Runtime): (r: Outcome)
    ensures rt.parseFloat(value).None? ==> r == Fail(Error(ValidationError, "Not a float"))
    ensures rt.parseFloat(value).Some? && min.Some? && max.Some? ==>
      (r.Pass? <==> min.value as real < rt.parseFloat(value).value < max.value as real)
    ensures rt.parseFloat(value).Some? && min.Some? && max.None? ==>
      (r.Pass? <==> rt.parseFloat(value).value >= min.value as real)
    ensures rt.parseFloat(value).Some? && min.None? && max.Some? ==>
      r == Fail(Error(TypeError, NoneComparison("float")))
    ensures min.None? && max.None? ==> (r.Pass? <==> rt.parseFloat(value).Some?)
    ensures r.Fail? && rt.parseFloat(value).Some? && min.Some? && max.Some? ==>
      r.error == Error(ValidationError, "Must be between " + IntToString(min.value) + " and "
                       + IntToString(max.value) + ", got " + rt.floatRepr(rt.parseFloat(value).value))
    ensures r.Fail? && rt.parseFloat(value).Some? && min.Some? && max.None? ==>
      r.error == Error(ValidationError, "Must be > " + IntToString(min.value) + ", got "
                       + rt.floatRepr(rt.parseFloat(value).value))
  {
    match rt.parseFloat(value)
    case None => Fail(Error(ValidationError, "Not a float"))
    case Some(converted) => CheckBounds(min, max, converted, RealCompare, rt.floatRepr, "float")
  }

  /** `check`, by class: `BaseValidator` keeps the accepting default, the
      others their own check, `FloatValidator` inheriting the integer bound
      branches after its own conversion. */
  function Check(v: Validator, value: string, rt: Runtime): (r: Outcome)
    ensures v.BaseValidator? ==> r.Pass?
    ensures v.StringValidator? ==> r == StringCheck(v.minLength, v.maxLength, value)
    ensures v.RegexStringValidator? ==> r == RegexCheck(v.regex, v.errMsg, v.defaultMsg, value, rt.matchAtStart)
    ensures v.IntegerValidator? ==> r == IntegerCheck(v.min, v.max, value)
    ensures v.FloatValidator? ==> r == FloatCheck(v.min, v.max, value, rt)
  {
    match v
    case BaseValidator => ValidatorBase.DefaultCheck(value)
    case StringValidator(minLength, maxLength) => StringCheck(minLength, maxLength, value)
    case RegexStringValidator(regex, errMsg, defaultMsg) =>
      RegexCheck(regex, errMsg, defaultMsg, value, rt.matchAtStart)
    case IntegerValidator(min, max) => IntegerCheck(min, max, value)
    case FloatValidator(min, max) => FloatCheck(min, max, value, rt)
  }

  // ---------------------------------------------------------------- registry

  /** The classes `VALIDATOR_MAP` can hand out. */
  datatype Kind = StringKind | RegexKind | IntegerKind | FloatKind

  /** `VALIDATOR_MAP`. */
  const ValidatorMap: map<string, Kind> :=
    map["string" := StringKind, "regex" := RegexKind, "integer" := IntegerKind, "float" := FloatKind]

  /** The class of a validator, as a registry kind (`BaseValidator` has none). */
  function KindOf(v: Validator): Option<Kind> {
    match v
    case BaseValidator => None
    case StringValidator(_, _) => Some(StringKind)
    case RegexStringValidator(_, _, _) => Some(RegexKind)
    case IntegerValidator(_, _) => Some(IntegerKind)
    case FloatValidator(_, _) => Some(FloatKind)
  }

  // ---------------------------------------------------------------- properties

  /** A `None` minimum length is the same validator as a minimum of 0, so
      setup and every check agree. */
  lemma NoneMinLengthIsZero(maxLength: Option<int>, value: string, rt: Runtime)
    ensures NewStringValidator(None, maxLength) == NewStringValidator(Some(0), maxLength)
    ensures Setup(NewStringValidator(None, maxLength)) == Setup(NewStringValidator(Some(0), maxLength))
    ensures Check(NewStringValidator(None, maxLength), value, rt)
         == Check(NewStringValidator(Some(0), maxLength), value, rt)
  {
  }

  /** The subclasses override `__init__` without calling the base one, so a
      configuration that `_validate_setup` refuses still constructs, where
      the base constructor would have raised. */
  lemma SubclassConstructorsSkipSetup(minLength: int, maxLength: Option<int>)
    requires minLength < 0 || maxLength.Some?
    ensures NewStringValidator(Some(minLength), maxLength) == StringValidator(minLength, maxLength)
    ensures Setup(NewStringValidator(Some(minLength), maxLength)).Fail?
    ensures ValidatorBase.Construct(NewStringValidator(Some(minLength), maxLength), Setup).Err?
  {
  }

  /** The boundaries of `StringValidator.check`: exclusive on both sides with
      a maximum, inclusive with a minimum only, and a maximum of 0 is unset. */
  lemma StringCheckBoundaries(rt: Runtime)
    ensures Check(NewStringValidator(Some(2), Some(5)), "abc", rt).Pass?
    ensures Check(NewStringValidator(Some(2), Some(5)), "ab", rt).Fail?
    ensures Check(NewStringValidator(Some(2), Some(5)), "abcde", rt).Fail?
    ensures Check(NewStringValidator(Some(2), Some(5)), "a", rt).Fail?
    ensures Check(NewStringValidator(Some(2), Some(5)), "abcdef", rt).Fail?
    ensures Check(NewStringValidator(Some(3)), "abc", rt).Pass?
    ensures Check(NewStringValidator(Some(3), Some(0)), "abc", rt).Pass?
    ensures Check(NewStringValidator(Some(3), Some(0)), "ab", rt).Fail?
    ensures Setup(NewStringValidator(Some(-1))).Fail?
    ensures Setup(NewStringValidator(Some(-1))).error.kind == ValidationConfigError
  {
  }

  /** A constructed `RegexStringValidator` fails exactly when its pattern
      does not match at the start, with the custom message when it is
      non-empty and "Must match regex pattern: <regex>" otherwise. */
  lemma RegexValidatorMessage(regex: string, errMsg: string, value: string, rt: Runtime)
    requires NewRegexStringValidator(regex, errMsg, rt).Ok?
    ensures Check(NewRegexStringValidator(regex, errMsg, rt).value, value, rt).Pass?
        <==> rt.matchAtStart(regex, value)
    ensures Check(NewRegexStringValidator(regex, errMsg, rt).value, value, rt).Fail? ==>
      Check(NewRegexStringValidator(regex, errMsg, rt).value, value, rt).error
        == Error(ValidationError, if errMsg != "" then errMsg else "Must match regex pattern: " + regex)
  {
  }

  /** `IntegerValidator.check` on the decimal text of an integer `n` decides
      on `n` itself: exclusive bounds when both are set, `n >= min` with a
      minimum only, `TypeError` with a maximum only, and a pass with none. */
  lemma IntegerCheckOnDecimal(min: Option<int>, max: Option<int>, n: int)
    ensures min.Some? && max.Some? ==>
      (IntegerCheck(min, max, IntToString(n)).Pass? <==> min.value < n < max.value)
    ensures min.Some? && max.None? ==> (IntegerCheck(min, max, IntToString(n)).Pass? <==> n >= min.value)
    ensures min.None? && max.Some? ==>
      IntegerCheck(min, max, IntToString(n)) == Fail(Error(TypeError, NoneComparison("int")))
    ensures min.None? && max.None? ==> IntegerCheck(min, max, IntToString(n)).Pass?
  {
  }

  /** With both bounds 0 and 10: "5" passes, "15" and "10" fail on the range,
      "abc" fails the conversion. */
  lemma IntegerCheckExamples()
    ensures IntegerCheck(Some(0), Some(10), "5").Pass?
    ensures IntegerCheck(Some(0), Some(10), "15").Fail?
    ensures IntegerCheck(Some(0), Some(10), "15").error.msg == "Must be between 0 and 10, got 15"
    ensures IntegerCheck(Some(0), Some(10), "10").Fail?
    ensures IntegerCheck(Some(0), Some(10), "abc") == Fail(Error(ValidationError, "Not an int"))
    ensures IntegerCheck(Some(3), None, "3").Pass?
    ensures IntegerCheck(None, Some(10), "5").error.kind == TypeError
  {
  }

  /** `FloatValidator` reuses the integer bound branches: on a float holding
      an integral value it decides exactly as `IntegerValidator` does on that
      integer. */
  lemma FloatBoundsAgreeWithInteger(min: Option<int>, max: Option<int>, n: int, show: real -> string)
    ensures CheckBounds(min, max, n as real, RealCompare, show, "float").Pass?
        <==> CheckBounds(min, max, n, IntCompare, IntToString, "int").Pass?
  {
  }

  /** `VALIDATOR_MAP` has exactly the four kinds, each naming its class. */
  lemma ValidatorMapContents(rt: Runtime)
    ensures ValidatorMap.Keys == {"string", "regex", "integer", "float"}
    ensures |ValidatorMap| == 4
    ensures KindOf(NewStringValidator()) == Some(ValidatorMap["string"])
    ensures forall regex :: NewRegexStringValidator(regex, "", rt).Ok? ==>
      KindOf(NewRegexStringValidator(regex, "", rt).value) == Some(ValidatorMap["regex"])
    ensures KindOf(NewIntegerValidator()) == Some(ValidatorMap["integer"])
    ensures KindOf(NewFloatValidator()) == Some(ValidatorMap["float"])
    ensures KindOf(BaseValidator).None?
  {
  }

  /** `BaseValidator` constructs, and its default check accepts every value. */
  lemma BaseValidatorAcceptsEverything(value: string, rt: Runtime)
    ensures NewBaseValidator() == Ok(BaseValidator)
    ensures Setup(BaseValidator).Pass?
    ensures Check(BaseValidator, value, rt).Pass?
  {
  }
}
