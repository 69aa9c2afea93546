# claws validators, reader dispatch and schema fields, in Dafny

This project models three parts of the `claws` configuration tool:

- **Validators** (`src/claws/validation`). There is a `BaseValidator` interface and four concrete
  validators: `StringValidator` (length bounds), `RegexStringValidator` (pattern match at the start
  of the value), `IntegerValidator` (integer range) and `FloatValidator` (the same range after
  `float()`). The `VALIDATOR_MAP` registry names them.
  - Each validator is a value of the datatype `Validators.Validator` holding what its constructor stored.
  - `_validate_setup` is `Validators.Setup` and `check` is `Validators.Check`. Both return `Pass` or
    `Fail(Error(kind, msg))`, where `Fail` stands for the exception the Python code raises.
- **Reader dispatch** (`conf_readers.py`). `conf_reader_factory` looks an extension up in
  `_CONF_READER_MAP`. It returns a reader tag or fails with `UnsupportedFileTypeError`.
- **Schema field insertion** (`conf.py`). The class `Conf.TomlConf` holds the in-memory TOML
  document. Its method `AddField` builds the six-key record and stores it under `fields[location]`.
  It is proved against the pure function `Conf.WithField`.

`str(n)` for integers and the `int(value)` conversion are written out in module `Decimal`, and
reading back what `str` prints gives the same integer (`Decimal.IntToStringRoundTrip`). Three
things the validators take from Python's runtime are parameters, bundled in `Validators.Runtime`:
the regular-expression engine (`re.compile`, `re.match`), `float()`, and the printing of floats.

## Behaviour kept as the code has it

The code has these defects and peculiarities. The model keeps each one as written, as an explicit outcome.

- `StringValidator._validate_setup` reads the misspelt attribute `_max_lenth`
  (`validators.py:21`), where the message on the next lines names `_max_length`. So setup raises `AttributeError` whenever `max_length` is given, 0
  included. A bad maximum is never reported as a `ValidationConfigError`. A negative
  `min_length` is refused first.
- In `IntegerValidator.check`, the max-only branch compares against `_min`, which is `None`
  (`validators.py:75`). So every convertible value raises `TypeError` there. The message
  `Must be < {self._max}` on the next line shows that `converted > self._max` was meant.
- `StringValidator`, `RegexStringValidator` and `IntegerValidator` each override `__init__`
  without calling `BaseValidator.__init__`. `FloatValidator` inherits `IntegerValidator`'s. So no
  concrete validator runs `_validate_setup` when it is constructed. Only a plain `BaseValidator()`
  does.
- `StringValidator.check` has two different rules:
  - when `max_length` is truthy, both bounds are exclusive;
  - when `max_length` is `None` or 0, the minimum is inclusive.

  `IntegerValidator.check` treats a bound of 0 as set, because it tests `is not None`. There,
  both bounds are exclusive when both are set, and the minimum is inclusive when only it is set.

## Model

| member | source | states |
|---|---|---|
| `ValidatorBase.Construct` | src/claws/validation/base_validator.py:7-8 | the base constructor's outcome is that of one setup run: it returns the validator unchanged iff setup passes, else raises exactly setup's error |
| `ValidatorBase.DefaultSetup` | src/claws/validation/base_validator.py:10-11 | the default setup accepts every configuration |
| `ValidatorBase.DefaultCheck` | src/claws/validation/base_validator.py:13-14 | the default check accepts every value |
| `Validators.NewBaseValidator` | src/claws/validation/base_validator.py:7-11 | a plain `BaseValidator()` always constructs |
| `Validators.NewStringValidator` | src/claws/validation/validators.py:11-13 | construction cannot fail: a `None` minimum is stored as 0, any other minimum and the maximum as given; the result is of the registry's string kind |
| `Validators.NewIntegerValidator` | src/claws/validation/validators.py:57-59 | construction cannot fail: both bounds are stored as given and no bound configuration is refused by setup; the result is of the registry's integer kind |
| `Validators.NewFloatValidator` | src/claws/validation/validators.py:85 | the inherited constructor stores both bounds as given, refuses nothing in setup, and gives the registry's float kind |
| `Validators.NewRegexStringValidator` | src/claws/validation/validators.py:43-46 | construction fails iff the pattern does not compile; otherwise it stores the pattern, the custom message and "Must match regex pattern: <regex>" |
| `Validators.StringSetup` | src/claws/validation/validators.py:15-24 | a negative minimum raises `ValidationConfigError` with its message, whatever the maximum; otherwise any given maximum raises `AttributeError` (the `_max_lenth` typo); passes iff minimum >= 0 and no maximum; a configuration error implies a negative minimum |
| `Validators.Setup` | src/claws/validation/base_validator.py:10-11 | every class except `StringValidator` inherits the accepting default setup |
| `Validators.StringCheck` | src/claws/validation/validators.py:26-37 | with a truthy maximum: passes iff min < len < max; with a `None` or 0 maximum: passes iff len >= min; every failure is a `ValidationError` with the message of the branch that fired |
| `Validators.RegexCheck` | src/claws/validation/validators.py:48-51 | passes iff the pattern matches at the start; the failure message is the custom one when non-empty, else the stored default |
| `Validators.CheckBounds` | src/claws/validation/validators.py:64-76 | both bounds: passes iff min < v < max, else `ValidationError` "Must be between <min> and <max>, got <v>"; minimum only: passes iff v >= min, else `ValidationError` "Must be > <min>, got <v>"; maximum only: always `TypeError`; no bounds: always passes |
| `Validators.IntegerCheck` | src/claws/validation/validators.py:61-82 | a non-integer fails with "Not an int" whatever the bounds; otherwise the integer bound rules above, each range failure a `ValidationError` with its message naming the converted integer; with no bounds it passes iff the value is an integer |
| `Validators.Check` | src/claws/validation/validators.py:26-90 | `check` by class: `BaseValidator` accepts every value; each other class gives the outcome of its own check, `FloatValidator` the integer bound branches after `float()` |
| `Validators.FloatCheck` | src/claws/validation/validators.py:85-90 | a non-float fails with "Not a float"; otherwise the same bound rules on the real value, compared exactly with the integer bounds, each range failure a `ValidationError` whose message prints the converted float |
| `Validators.NoneMinLengthIsZero` | src/claws/validation/validators.py:11-12 | `min_length=None` gives the same validator, setup outcome and checks as `min_length=0` |
| `Validators.SubclassConstructorsSkipSetup` | src/claws/validation/validators.py:11-13 | a string configuration that setup refuses still constructs, storing its arguments, where the base constructor would have raised |
| `Validators.StringCheckBoundaries` | src/claws/validation/validators.py:26-37 | (2,5) accepts "abc" and rejects "a", "ab", "abcde", "abcdef"; min 3 alone accepts "abc"; a maximum of 0 is unset; min -1 fails setup with a configuration error |
| `Validators.RegexValidatorMessage` | src/claws/validation/validators.py:43-51 | a constructed regex validator fails iff its pattern does not match at the start, with `err_msg` when non-empty, else "Must match regex pattern: <regex>" |
| `Validators.IntegerCheckOnDecimal` | src/claws/validation/validators.py:61-82 | on the decimal text of n the check decides on n: exclusive both ends, n >= min with a minimum only, `TypeError` with a maximum only, pass with no bounds |
| `Validators.IntegerCheckExamples` | src/claws/validation/validators.py:61-76 | (0,10) accepts "5", rejects "15" with "Must be between 0 and 10, got 15", rejects "10", rejects "abc" with "Not an int"; min 3 accepts "3"; max alone raises `TypeError` |
| `Validators.FloatBoundsAgreeWithInteger` | src/claws/validation/validators.py:85-90 | on a float with an integral value the inherited bound rules decide as they do for that integer |
| `Validators.ValidatorMapContents` | src/claws/validation/validators.py:93-98 | the registry has exactly the keys string, regex, integer, float, each naming the class of the validator built by that constructor; `BaseValidator` is not registered |
| `Validators.BaseValidatorAcceptsEverything` | src/claws/validation/base_validator.py:4-14 | `BaseValidator()` constructs, its setup passes and its check accepts every value |
| `Decimal.NatToString` | src/claws/validation/validators.py:32-33 | the decimal text of a natural number is non-empty, all digits, with no leading zero |
| `Decimal.IntToString` | src/claws/validation/validators.py:32-33 | the printed form is Python's canonical decimal: "-" iff the integer is negative, then digits denoting its absolute value, with no leading zero |
| `Decimal.ParseInt` | src/claws/validation/validators.py:80 | a string converts iff it is a non-empty run of digits, or a "+" or "-" followed by one; the value is the digits' value, negated after "-" |
| `Decimal.IntToStringRoundTrip` | src/claws/validation/validators.py:78-82 | converting the printed form of any integer gives that integer back |
| `ConfReaders.ConfReaderFactory` | src/claws/conf_readers.py:36-41 | succeeds iff the extension is ".env", ".json" or ".toml", returning the reader registered under it; otherwise `UnsupportedFileTypeError` with "Unsupported config file type: <ext>" |
| `ConfReaders.FactoryFindsEachReader` | src/claws/conf_readers.py:29-39 | each reader is returned for its own extension and for no other |
| `ConfReaders.FactoryTable` | src/claws/conf_readers.py:29-33 | ".env" gives `read_env`, ".json" gives `read_json`, ".toml" gives `read_toml` |
| `ConfReaders.LookupIsExact` | src/claws/conf_readers.py:38-41 | "env", ".ENV", ".Json", ".yaml" and "" are unsupported: no dot stripping, no case folding |
| `Conf.FieldTable` | src/claws/conf.py:41-47 | a field record has exactly the six keys name, type, display_name, default, help, remove_if_empty |
| `Conf.ReadFieldTable` | src/claws/conf.py:41-47 | reads back exactly the tables built as field records: a table that reads is the record built from what it reads as, and one that does not read is no field record |
| `Conf.FieldTableRoundTrip` | src/claws/conf.py:41-47 | reading a field record back gives the arguments it was built from |
| `Conf.WithField` | src/claws/conf.py:40-50 | `fields` exists afterwards; it is created holding only the new location when absent; otherwise its other locations are unchanged; other top-level keys are unchanged; the record at `location` reads back as the arguments |
| `Conf.TomlConf.constructor` | src/claws/conf.py:12-22 | the document is the loaded one when the file exists, else empty |
| `Conf.TomlConf.AddConfTable` | src/claws/conf.py:24-25 | leaves the document unchanged |
| `Conf.TomlConf.AddStructure` | src/claws/conf.py:27-28 | leaves the document unchanged |
| `Conf.TomlConf.AddField` | src/claws/conf.py:30-50 | modifies only the in-memory document, which becomes `WithField` of the old one with the given arguments |
| `Conf.AddFieldWithDefaults` | src/claws/conf.py:35-38 | omitted arguments are stored as display_name "", default "", help "" and remove_if_empty false |

## Left out

- `TomlConf._load_file` and `dump` (file I/O through tomlkit). The loaded document is a constructor argument, and writing is not modelled. `AddField` changes only `doc`.
- The bodies of `read_env`, `read_json` and `read_toml`, and `EnvReader` in `src/claws/env.py`. They are thin wrappers over dotenv, json and tomlkit, and a reader is only a tag here.
- `src/claws/main.py`. It is command-line plumbing, and it calls `TomlConf.create` and `TomlConf.validate`, which `conf.py` does not define. Taking the suffix of a path is also part of that plumbing.
- The regular-expression engine and `re.error` messages. They are the parameters `Runtime.compileError` and `Runtime.matchAtStart`.
- Decimal.ParseInt: accepts only an optional sign followed by ASCII digits. Python's `int()` also allows surrounding whitespace, underscores between digits and non-ASCII digits. Python 3.10.7 and later also refuse, with `ValueError`, to convert text of more than 4300 digits, which `IntegerValidator` reports as "Not an int"; the model converts such text, and `Decimal.IntToString` and `Decimal.IntToStringRoundTrip` likewise ignore that `str()` refuses integers of more than 4300 digits. Non-string values are not modelled: `int()` converts some (`int(3.9)`, `int(True)`) and raises `TypeError` for others (`int(None)`).
- Validators.IntegerCheckOnDecimal: holds for integers of any length; under the 4300-digit limit described on the `Decimal.ParseInt` line, Python reports "Not an int" for the text of an integer with more digits.
- Validators.FloatCheck: `float()` and the printing of floats are parameters (`Runtime.parseFloat`, `Runtime.floatRepr`). Converted values are exact reals, so NaN and the infinities are not modelled.
- Values given to `check` are strings. The failures of `len()` and of `re.match` on other Python types are not modelled.
- The configuration values are integers, because the constructors' annotations say so. Other Python objects passed as bounds are not modelled.
- Conf.TomlConf.AddField: requires that `location` is not already under `fields`. tomlkit's behaviour when a key is appended twice is not modelled.
- The document is a map from top-level key to a table of tables. Two things are lost:
  - tomlkit's key order, and where the new `fields` table is placed;
  - the sharing between an existing `fields` table and the document, which is modelled by value.

  Top-level values that are not tables of tables are not represented.
- Flattening, type inference, synchronization and a validation runner are not implemented by any of the modelled files, so they are not part of this model. Neither is the construction of validators from keyword tables, including the handling of unknown parameter names.
- The exception classes in `src/claws/exceptions.py` and `src/claws/validation/exceptions.py` are the cases of `Exceptions.ErrorKind`. Their class hierarchy under `ClawsError` is not modelled.
