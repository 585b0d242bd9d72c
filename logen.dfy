/**
 * The log generator function: it merges its configuration from a file, the
 * environment and defaults, converts and validates the two counts, generates
 * `num_messages` random messages of `message_size` characters, sends them in
 * one batch, and maps each kind of failure to an HTTP status.
 *
 * Configuration values are Python objects as far as `int()` and truthiness
 * see them. The file's contents (as loaded), the clock, the random draws and the
 * logging service's answer are parameters.
 */
module LogGen {
  import opened Wrappers
  import opened Text

  /** The upper bound on both counts. */
  const MaxCount: int := 100000

  const NumKey := "num_messages"
  const SizeKey := "message_size"
  const LogIdKey := "log_id"
  const DefaultLogId := "your-log-id"

  /** The three configuration keys are different strings. */
  lemma KeysDistinct()
    ensures NumKey != SizeKey && NumKey != LogIdKey && SizeKey != LogIdKey
  {
    assert NumKey[0] != SizeKey[0] && NumKey[0] != LogIdKey[0] && SizeKey[0] != LogIdKey[0];
  }

  const NoEntriesText := "No log entries were successfully generated"

  // The messages of the source, kept as named constants.
  const LogIdMissingText := "log_id is required and cannot be empty"
  const NumNotPositiveText := "num_messages must be greater than 0"
  const NumTooLargeText := "num_messages exceed 100000. for more, relax the validation in the validate_config def"
  const NumNotIntegerText := "num_messages must be a valid integer"
  const SizeNotPositiveText := "message_size must be greater than 0"
  const SizeTooLargeText := "message_size cannot exceed 100000"
  const SizeNotIntegerText := "message_size must be a valid integer"
  const FloatInfinityText := "cannot convert float infinity to integer"
  const FloatNaNText := "cannot convert float NaN to integer"
  const InvalidLiteralText := "invalid literal for int() with base 10: '"
  const NotConvertiblePrefix := "int() argument must be a string, a bytes-like object or a real number, not '"
  const ValidationFailed := "Configuration validation failed: "
  const InvalidNumericText := "Invalid numeric configuration: "
  const MessageNotPositiveText := "Failed to generate log message: Message size must be greater than 0"
  const MessageTooLargeText := "Failed to generate log message: Message size cannot exceed 100000"
  const ServiceErrorText := "OCI service error: "
  const ClientErrorText := "OCI client error: "
  const SendFailedText := "Failed to send logs to OCI: "
  const ClientInitText := "Failed to initialize OCI client: "
  const ConfigErrorTitle := "Configuration error"
  const GenerationErrorTitle := "Log generation error"
  const OciErrorTitle := "OCI service error"
  const InternalErrorTitle := "Internal server error"

  /** What can be wrong with one count. */
  datatype RangeKind = NotPositive | TooLarge | NotInteger

  /** The problems validate_config can report. */
  datatype Problem = LogIdMissing | NumProblem(kind: RangeKind) | SizeProblem(kind: RangeKind)

  /** The two numeric settings. */
  datatype Count = NumCount | SizeCount

  function CountProblem(count: Count, k: RangeKind): Problem {
    match count
    case NumCount => NumProblem(k)
    case SizeCount => SizeProblem(k)
  }

  function ProblemText(p: Problem): string {
    match p
    case LogIdMissing => LogIdMissingText
    case NumProblem(NotPositive) => NumNotPositiveText
    case NumProblem(TooLarge) => NumTooLargeText
    case NumProblem(NotInteger) => NumNotIntegerText
    case SizeProblem(NotPositive) => SizeNotPositiveText
    case SizeProblem(TooLarge) => SizeTooLargeText
    case SizeProblem(NotInteger) => SizeNotIntegerText
  }

  /** Size of `string.ascii_letters + string.digits`. */
  const AlphabetSize: nat := 62

  /** Character `k` of `string.ascii_letters + string.digits`: lower case, upper case, then digits. */
  function AlphabetChar(k: nat): (c: char)
    requires k < AlphabetSize
    ensures IsAlphanumeric(c)
  {
    if k < 26 then (('a' as int) + k) as char
    else if k < 52 then (('A' as int) + k - 26) as char
    else (('0' as int) + k - 52) as char
  }

  /** The position of an ASCII letter or digit in the alphabet. */
  function AlphabetIndex(c: char): (k: nat)
    requires IsAlphanumeric(c)
    ensures k < AlphabetSize && AlphabetChar(k) == c
  {
    if 'a' <= c <= 'z' then (c as int) - ('a' as int)
    else if 'A' <= c <= 'Z' then (c as int) - ('A' as int) + 26
    else (c as int) - ('0' as int) + 52
  }

  predicate IsAlphanumeric(c: char) {
    ('a' <= c <= 'z') || ('A' <= c <= 'Z') || ('0' <= c <= '9')
  }

  /** A float as `int()` and truthiness see it: its truncation and whether a fraction was dropped. */
  datatype PyFloat = Finite(truncated: int, fraction: bool) | Infinite | NotANumber

  /** A configuration value: what JSON, INI or the environment can supply. */
  datatype PyValue =
    | PyNone
    | PyBool(b: bool)
    | PyInt(i: int)
    | PyFloatValue(f: PyFloat)
    | PyStr(s: string)
    | PyList(len: nat)
    | PyDict(len: nat)

  /** The exceptions the handler tells apart. */
  datatype PyError =
    | ConfigError(text: string)
    | LogGenerationError(text: string)
    | OCIError(text: string)
    | OtherError(text: string)

  /** The exceptions `int(x)` raises. */
  datatype IntFailure = IntValueError(text: string) | IntTypeError(text: string) | IntOverflowError(text: string)

  predicate Truthy(v: PyValue) {
    match v
    case PyNone => false
    case PyBool(b) => b
    case PyInt(i) => i != 0
    case PyFloatValue(f) => !(f.Finite? && f.truncated == 0 && !f.fraction)
    case PyStr(s) => |s| > 0
    case PyList(n) => n > 0
    case PyDict(n) => n > 0
  }

  function TypeName(v: PyValue): string {
    match v
    case PyNone => "NoneType"
    case PyBool(_) => "bool"
    case PyInt(_) => "int"
    case PyFloatValue(_) => "float"
    case PyStr(_) => "str"
    case PyList(_) => "list"
    case PyDict(_) => "dict"
  }

  /** `int(f)` for a float: truncation toward zero; infinity and NaN have no integer. */
  function FloatToInt(f: PyFloat): (r: Result<int, IntFailure>)
    ensures r.Ok? <==> f.Finite?
    ensures r.Ok? ==> r.value == f.truncated
    ensures r.Err? ==> (r.error.IntOverflowError? <==> f.Infinite?) && !r.error.IntTypeError?
  {
    match f
    case Finite(t, _) => Ok(t)
    case Infinite => Err(IntOverflowError(FloatInfinityText))
    case NotANumber => Err(IntValueError(FloatNaNText))
  }

  /** `int(s)` for a string: a decimal literal, else ValueError. */
  function StrToInt(s: string): (r: Result<int, IntFailure>)
    ensures r.Ok? <==> PyIntOfString(s).Some?
    ensures r.Ok? ==> r.value == PyIntOfString(s).value
    ensures r.Err? ==> r.error.IntValueError?
  {
    match PyIntOfString(s)
    case Some(i) => Ok(i)
    case None => Err(IntValueError(InvalidLiteralText + s + "'"))
  }

  /** `int("\xa010\u3000") == 10`: Unicode spaces around the digits are stripped too. */
  lemma UnicodeSpacesAreStripped()
    ensures StrToInt("\U{00a0}10\U{3000}") == Ok(10)
  {
    assert Strip("\U{00a0}10\U{3000}") == "10" by {
      assert StripLeft("\U{00a0}10\U{3000}") == "10\U{3000}" by {
        assert "\U{00a0}10\U{3000}"[1..] == "10\U{3000}";
      }
      assert StripRight("10\U{3000}") == "10" by {
        assert "10\U{3000}"[..2] == "10";
        assert StripRight("10") == "10";
      }
    }
    assert WellFormedDigits("10");
    assert DigitsValue("10") == 10 by {
      assert "10"[..1] == "1";
      assert "1"[..0] == "";
    }
  }

  /** Python's `int(v)`. */
  function ToInt(v: PyValue): (r: Result<int, IntFailure>)
    ensures (r.Err? && r.error.IntTypeError?) <==> v.PyNone? || v.PyList? || v.PyDict?
    ensures (r.Err? && r.error.IntOverflowError?) <==> v == PyFloatValue(Infinite)
  {
    match v
    case PyBool(b) => Ok(if b then 1 else 0)
    case PyInt(i) => Ok(i)
    case PyFloatValue(f) => FloatToInt(f)
    case PyStr(s) => StrToInt(s)
    case _ => Err(IntTypeError(NotConvertibleText(v)))
  }

  function NotConvertibleText(v: PyValue): string {
    NotConvertiblePrefix + TypeName(v) + "'"
  }

  /** `int(str(i)) == i`: an environment value written from an integer converts back to it. */
  lemma DecimalStringConverts(i: int)
    ensures ToInt(PyStr(IntToString(i))) == Ok(i)
  {
    IntRoundTrip(i);
  }

  function Get(c: map<string, PyValue>, key: string, default: PyValue): PyValue {
    if key in c then c[key] else default
  }

  predicate LogIdPresent(c: map<string, PyValue>) {
    LogIdKey in c && Truthy(c[LogIdKey])
  }

  predicate InRange(r: Result<int, IntFailure>) {
    r.Ok? && 1 <= r.value <= MaxCount
  }

  /** A configuration validate_config accepts. */
  ghost predicate ConfigValid(c: map<string, PyValue>) {
    && LogIdPresent(c)
    && InRange(ToInt(Get(c, NumKey, PyInt(10))))
    && InRange(ToInt(Get(c, SizeKey, PyInt(256))))
  }

  /**
   * The problem with one count, if any. Both range checks run, but no
   * integer is both at most 0 and above the maximum, so at most one is found.
   */
  function RangeProblem(r: Result<int, IntFailure>): (k: Option<RangeKind>)
    ensures k == Some(NotInteger) <==> r.Err?
    ensures k == Some(NotPositive) <==> r.Ok? && r.value <= 0
    ensures k == Some(TooLarge) <==> r.Ok? && r.value > MaxCount
    ensures k == None <==> InRange(r)
  {
    if r.Err? then Some(NotInteger)
    else if r.value <= 0 then Some(NotPositive)
    else if r.value > MaxCount then Some(TooLarge)
    else None
  }

  /** The list of problems found, in order: log_id, then num_messages, then message_size. */
  function ProblemList(logIdOk: bool, num: Option<RangeKind>, size: Option<RangeKind>): (ps: seq<Problem>)
    ensures |ps| <= 3
    ensures LogIdMissing in ps <==> !logIdOk
    ensures forall k :: NumProblem(k) in ps <==> num == Some(k)
    ensures forall k :: SizeProblem(k) in ps <==> size == Some(k)
    ensures ps == [] <==> logIdOk && num.None? && size.None?
  {
    (if logIdOk then [] else [LogIdMissing]) + CountPart(NumCount, num) + CountPart(SizeCount, size)
  }

  /** The problem one count contributes, if any. */
  function CountPart(count: Count, k: Option<RangeKind>): (ps: seq<Problem>)
    ensures |ps| <= 1
  {
    if k.Some? then [CountProblem(count, k.value)] else []
  }

  /** The texts of the problems found, in order. */
  function ProblemTexts(ps: seq<Problem>): (texts: seq<string>)
    ensures |texts| == |ps| && forall i :: 0 <= i < |ps| ==> texts[i] == ProblemText(ps[i])
  {
    seq(|ps|, i requires 0 <= i < |ps| => ProblemText(ps[i]))
  }

  /** The message of the ConfigError raised for the problems found. */
  function ValidationFailedText(ps: seq<Problem>): (t: string)
    ensures |t| >= |ValidationFailed| && t[..|ValidationFailed|] == ValidationFailed
  {
    ValidationFailed + Join(ProblemTexts(ps), "; ")
  }

  /**
   * The errors validate_config collects, in the order it appends them; Err is
   * the text of an OverflowError, which escapes validate_config unchanged.
   */
  function ValidationErrors(c: map<string, PyValue>): (r: Result<seq<Problem>, string>)
    ensures r.Ok? ==> |r.value| <= 3
    ensures r == Ok([]) <==> ConfigValid(c)
  {
    var n := ToInt(Get(c, NumKey, PyInt(10)));
    var s := ToInt(Get(c, SizeKey, PyInt(256)));
    if n.Err? && n.error.IntOverflowError? then Err(n.error.text)
    else if s.Err? && s.error.IntOverflowError? then Err(s.error.text)
    else Ok(ProblemList(LogIdPresent(c), RangeProblem(n), RangeProblem(s)))
  }

  /**
   * What validate_config reports: an OverflowError from either count, or
   * else exactly one entry per problem: a missing log_id, and for each count
   * the one problem RangeProblem finds with it.
   */
  lemma ValidationErrorsMeaning(c: map<string, PyValue>)
    ensures var n := ToInt(Get(c, NumKey, PyInt(10)));
            var s := ToInt(Get(c, SizeKey, PyInt(256)));
            var r := ValidationErrors(c);
            && (r.Err? <==> (n.Err? && n.error.IntOverflowError?) || (s.Err? && s.error.IntOverflowError?))
            && (r.Ok? ==>
                  && (LogIdMissing in r.value <==> !LogIdPresent(c))
                  && (forall k :: NumProblem(k) in r.value <==> RangeProblem(n) == Some(k))
                  && (forall k :: SizeProblem(k) in r.value <==> RangeProblem(s) == Some(k)))
  {
  }

  /**
   * One numeric block of validate_config (lines 115-122 for num_messages,
   * 124-131 for message_size) once int() has not raised OverflowError: a
   * ValueError or TypeError appends the "valid integer" problem, otherwise the
   * two range checks each append theirs.
   */
  method AppendCountProblems(errors: seq<Problem>, r: Result<int, IntFailure>, count: Count)
    returns (extended: seq<Problem>)
    requires !(r.Err? && r.error.IntOverflowError?)
    ensures extended == errors + CountPart(count, RangeProblem(r))
  {
    extended := errors;
    if r.Err? {
      extended := extended + [CountProblem(count, NotInteger)];
      return;
    }
    if r.value <= 0 {
      extended := extended + [CountProblem(count, NotPositive)];
    }
    if r.value > MaxCount {
      extended := extended + [CountProblem(count, TooLarge)];
    }
  }

  /** validate_config: append each problem found, then raise them together. */
  method ValidateConfig(c: map<string, PyValue>) returns (r: Outcome<PyError>)
    ensures ValidationErrors(c).Err? ==> r == Fail(OtherError(ValidationErrors(c).error))
    ensures ValidationErrors(c).Ok? ==>
              r == if ValidationErrors(c).value == [] then Pass
                   else Fail(ConfigError(ValidationFailedText(ValidationErrors(c).value)))
    ensures r == Pass <==> ConfigValid(c)
  {
    var errors: seq<Problem> := [];
    if !(LogIdKey in c) || !Truthy(c[LogIdKey]) {
      errors := errors + [LogIdMissing];
    }
    ghost var head := errors;
    var n := ToInt(Get(c, NumKey, PyInt(10)));
    if n.Err? && n.error.IntOverflowError? {
      return Fail(OtherError(n.error.text));
    }
    errors := AppendCountProblems(errors, n, NumCount);
    var s := ToInt(Get(c, SizeKey, PyInt(256)));
    if s.Err? && s.error.IntOverflowError? {
      return Fail(OtherError(s.error.text));
    }
    errors := AppendCountProblems(errors, s, SizeCount);
    assert head == (if LogIdPresent(c) then [] else [LogIdMissing]);
    assert errors == head + CountPart(NumCount, RangeProblem(n)) + CountPart(SizeCount, RangeProblem(s));
    assert ValidationErrors(c) == Ok(errors);
    if errors != [] {
      return Fail(ConfigError(ValidationFailedText(errors)));
    }
    return Pass;
  }

  /** The three environment variables; None when a variable is not set. */
  datatype Environment = Environment(numMessages: Option<string>, messageSize: Option<string>, logId: Option<string>)

  /** The environment entries in the order get_config visits them. */
  function EnvEntries(env: Environment): seq<(string, Option<string>)> {
    [(NumKey, env.numMessages), (SizeKey, env.messageSize), (LogIdKey, env.logId)]
  }

  /** The environment value for a configuration key. */
  function EnvValue(env: Environment, key: string): Option<string> {
    if key == NumKey then env.numMessages
    else if key == SizeKey then env.messageSize
    else if key == LogIdKey then env.logId
    else None
  }

  /** The override made by one entry, if its variable is set. */
  function Override(entry: (string, Option<string>)): map<string, PyValue> {
    if entry.1.Some? then map[entry.0 := PyStr(entry.1.value)] else map[]
  }

  /** The overrides made by the first entries, later ones winning. */
  function Overrides(entries: seq<(string, Option<string>)>): map<string, PyValue>
    decreases |entries|
  {
    if |entries| == 0 then map[]
    else Overrides(entries[..|entries| - 1]) + Override(entries[|entries| - 1])
  }

  /** One more iteration of the override loop adds the override of the next entry. */
  lemma OverridesStep(file: map<string, PyValue>, entries: seq<(string, Option<string>)>, i: nat)
    requires i < |entries|
    ensures file + Overrides(entries[..i + 1])
            == if entries[i].1.Some? then (file + Overrides(entries[..i]))[entries[i].0 := PyStr(entries[i].1.value)]
               else file + Overrides(entries[..i])
  {
    assert entries[..i + 1][..i] == entries[..i];
  }

  /** `dict.setdefault`: the pair is added only when the key is missing. */
  function SetDefault(m: map<string, PyValue>, key: string, v: PyValue): map<string, PyValue> {
    if key in m then m else m[key := v]
  }

  /** The three setdefault calls put the defaults under what is there. */
  lemma SetDefaultsLayer(m: map<string, PyValue>)
    ensures SetDefault(SetDefault(SetDefault(m, NumKey, PyInt(10)), SizeKey, PyInt(256)), LogIdKey, PyStr(DefaultLogId))
            == Defaults + m
  {
    var r := SetDefault(SetDefault(SetDefault(m, NumKey, PyInt(10)), SizeKey, PyInt(256)), LogIdKey, PyStr(DefaultLogId));
    assert r.Keys == (Defaults + m).Keys;
  }

  /** The environment's overrides: every set variable, as a string. */
  function EnvOverrides(env: Environment): (m: map<string, PyValue>)
    ensures forall k :: k in m <==> EnvValue(env, k).Some?
    ensures forall k :: k in m ==> m[k] == PyStr(EnvValue(env, k).value)
  {
    KeysDistinct();
    map k | k in {NumKey, SizeKey, LogIdKey} && EnvValue(env, k).Some? :: PyStr(EnvValue(env, k).value)
  }

  /** The override loop over the three entries makes exactly the environment's overrides. */
  lemma OverrideLoopMatches(env: Environment)
    ensures Overrides(EnvEntries(env)) == EnvOverrides(env)
  {
    KeysDistinct();
    var e := EnvEntries(env);
    assert e[..2][..1][..0] == [];
    assert Overrides(e[..2][..1]) == Override(e[0]);
    assert Overrides(e[..2]) == Override(e[0]) + Override(e[1]);
    var m := Override(e[0]) + Override(e[1]) + Override(e[2]);
    assert Overrides(e) == m;
    var o := EnvOverrides(env);
    forall k | k in m
      ensures k in o && m[k] == o[k]
    {
    }
    assert m.Keys == o.Keys;
  }

  const Defaults: map<string, PyValue> := map[NumKey := PyInt(10), SizeKey := PyInt(256), LogIdKey := PyStr(DefaultLogId)]

  /** The merged configuration: defaults under the file's values, under the environment's. */
  function Layered(file: map<string, PyValue>, env: Environment): (c: map<string, PyValue>)
    ensures NumKey in c && SizeKey in c && LogIdKey in c
  {
    Defaults + (file + EnvOverrides(env))
  }

  /**
   * Precedence of the merge: a set environment variable wins, then the
   * file, then the defaults; no other key appears.
   */
  lemma LayeredPrecedence(file: map<string, PyValue>, env: Environment)
    ensures var c := Layered(file, env);
            && (forall k :: k in c <==> k in file || k in Defaults)
            && (forall k :: EnvValue(env, k).Some? ==> k in c && c[k] == PyStr(EnvValue(env, k).value))
            && (forall k :: EnvValue(env, k).None? && k in file ==> c[k] == file[k])
            && (forall k :: k in Defaults && EnvValue(env, k).None? && k !in file ==> c[k] == Defaults[k])
  {
  }

  /** Lines 139-165: update from the file, the override loop, then setdefault for each key. */
  method MergeConfig(file: map<string, PyValue>, env: Environment) returns (config: map<string, PyValue>)
    ensures config == Layered(file, env)
  {
    config := map[];
    config := config + file;
    var entries := EnvEntries(env);
    for i := 0 to |entries|
      invariant config == file + Overrides(entries[..i])
    {
      OverridesStep(file, entries, i);
      var key := entries[i].0;
      var value := entries[i].1;
      if value.Some? {
        config := config[key := PyStr(value.value)];
      }
    }
    assert entries[..|entries|] == entries;
    OverrideLoopMatches(env);
    ghost var merged := config;
    KeysDistinct();
    SetDefaultsLayer(merged);
    if NumKey !in config {
      config := config[NumKey := PyInt(10)];
    }
    if SizeKey !in config {
      config := config[SizeKey := PyInt(256)];
    }
    if LogIdKey !in config {
      config := config[LogIdKey := PyStr(DefaultLogId)];
    }
    assert config == SetDefault(SetDefault(SetDefault(merged, NumKey, PyInt(10)), SizeKey, PyInt(256)), LogIdKey, PyStr(DefaultLogId));
  }

  /** How a failed int() surfaces from get_config: ValueError and TypeError become ConfigError. */
  function ConversionFailure(e: IntFailure): PyError {
    match e
    case IntOverflowError(t) => OtherError(t)
    case IntValueError(t) => ConfigError(InvalidNumericText + t)
    case IntTypeError(t) => ConfigError(InvalidNumericText + t)
  }

  /** The integer value under `key`, 0 when there is none. */
  function CountOf(c: map<string, PyValue>, key: string): int {
    if key in c && c[key].PyInt? then c[key].i else 0
  }

  /** Lines 167-178 on a merged configuration: convert both counts, then validate. */
  function Finalize(c: map<string, PyValue>): (r: Result<map<string, PyValue>, PyError>)
    requires NumKey in c && SizeKey in c
    ensures r.Ok? <==> LogIdPresent(c) && InRange(ToInt(c[NumKey])) && InRange(ToInt(c[SizeKey]))
    ensures r.Ok? ==> && r.value.Keys == c.Keys
                      && r.value[NumKey] == PyInt(ToInt(c[NumKey]).value)
                      && r.value[SizeKey] == PyInt(ToInt(c[SizeKey]).value)
                      && (forall k :: k in c && k != NumKey && k != SizeKey ==> r.value[k] == c[k])
                      && ConfigValid(r.value)
    ensures ToInt(c[NumKey]).Err? ==> r == Err(ConversionFailure(ToInt(c[NumKey]).error))
    ensures ToInt(c[NumKey]).Ok? && ToInt(c[SizeKey]).Err? ==> r == Err(ConversionFailure(ToInt(c[SizeKey]).error))
    ensures ToInt(c[NumKey]).Ok? && ToInt(c[SizeKey]).Ok? && r.Err? ==>
              r.error.ConfigError? && |r.error.text| >= |ValidationFailed| && r.error.text[..|ValidationFailed|] == ValidationFailed
  {
    match ToInt(c[NumKey])
    case Err(e) => Err(ConversionFailure(e))
    case Ok(n) =>
      match ToInt(c[SizeKey])
      case Err(e) => Err(ConversionFailure(e))
      case Ok(s) =>
        var converted := c[NumKey := PyInt(n)][SizeKey := PyInt(s)];
        assert Get(converted, NumKey, PyInt(10)) == PyInt(n) && Get(converted, SizeKey, PyInt(256)) == PyInt(s);
        assert LogIdPresent(converted) == LogIdPresent(c);
        match ValidationErrors(converted)
        case Err(e) => Err(OtherError(e))
        case Ok(errors) =>
          if errors == [] then Ok(converted) else Err(ConfigError(ValidationFailedText(errors)))
  }

  /** get_config: the merged configuration, converted and validated. */
  method GetConfig(file: map<string, PyValue>, env: Environment) returns (r: Result<map<string, PyValue>, PyError>)
    ensures r == Finalize(Layered(file, env))
  {
    var config := MergeConfig(file, env);
    var n := ToInt(config[NumKey]);
    if n.Err? {
      return Err(ConversionFailure(n.error));
    }
    config := config[NumKey := PyInt(n.value)];
    var s := ToInt(config[SizeKey]);
    if s.Err? {
      return Err(ConversionFailure(s.error));
    }
    config := config[SizeKey := PyInt(s.value)];
    var v := ValidateConfig(config);
    if v.Fail? {
      return Err(v.error);
    }
    return Ok(config);
  }

  /** A configuration whose counts are decimal strings in range and whose log_id is set passes get_config's last steps. */
  lemma FinalizeDecimalCounts(c: map<string, PyValue>, n: int, s: int)
    requires 1 <= n <= MaxCount && 1 <= s <= MaxCount
    requires NumKey in c && SizeKey in c && LogIdPresent(c)
    requires c[NumKey] == PyStr(IntToString(n)) && c[SizeKey] == PyStr(IntToString(s))
    ensures Finalize(c).Ok?
    ensures CountOf(Finalize(c).value, NumKey) == n && CountOf(Finalize(c).value, SizeKey) == s
    ensures Finalize(c).value[LogIdKey] == c[LogIdKey]
  {
    KeysDistinct();
    DecimalStringConverts(n);
    DecimalStringConverts(s);
  }

  /**
   * Environment counts win over the file: with both variables set to
   * decimal counts in range and a non-empty LOG_ID, the configuration holds
   * exactly those counts and that id, whatever the file says.
   */
  lemma {:induction false} EnvironmentCountsWin(file: map<string, PyValue>, env: Environment, n: int, s: int)
    requires 1 <= n <= MaxCount && 1 <= s <= MaxCount
    requires env.numMessages == Some(IntToString(n)) && env.messageSize == Some(IntToString(s))
    requires env.logId.Some? && env.logId.value != ""
    ensures Finalize(Layered(file, env)).Ok?
    ensures CountOf(Finalize(Layered(file, env)).value, NumKey) == n
    ensures CountOf(Finalize(Layered(file, env)).value, SizeKey) == s
    ensures Finalize(Layered(file, env)).value[LogIdKey] == PyStr(env.logId.value)
  {
    var c := Layered(file, env);
    LayeredPrecedence(file, env);
    assert EnvValue(env, NumKey) == Some(IntToString(n));
    assert EnvValue(env, SizeKey) == Some(IntToString(s));
    assert EnvValue(env, LogIdKey) == env.logId;
    FinalizeDecimalCounts(c, n, s);
  }

  /** Without a file and environment, the defaults 10, 256 and "your-log-id" pass validation. */
  lemma DefaultsAreValid()
    ensures Finalize(Layered(map[], Environment(None, None, None))) == Ok(Defaults)
  {
    var env := Environment(None, None, None);
    assert EnvValue(env, NumKey).None? && EnvValue(env, SizeKey).None? && EnvValue(env, LogIdKey).None?;
    var c := Layered(map[], env);
    assert c.Keys == Defaults.Keys;
    assert c == Defaults;
    assert Defaults[NumKey := PyInt(10)][SizeKey := PyInt(256)] == Defaults;
    assert ValidationErrors(Defaults) == Ok([]);
  }

  /** generate_log_message: the size checks, then `size` characters drawn from the alphabet by `pick`. */
  function GenerateLogMessage(size: int, pick: nat -> nat): (r: Result<string, PyError>)
    ensures r.Ok? <==> 1 <= size <= MaxCount
    ensures r.Ok? ==> r.value == DrawMessage(size, pick)
    ensures size <= 0 ==> r == Err(LogGenerationError(MessageNotPositiveText))
    ensures size > MaxCount ==> r == Err(LogGenerationError(MessageTooLargeText))
  {
    if size <= 0 then Err(LogGenerationError(MessageNotPositiveText))
    else if size > MaxCount then Err(LogGenerationError(MessageTooLargeText))
    else Ok(DrawMessage(size, pick))
  }

  /** `random.choices(alphabet, k=size)`, the `i`-th choice being `pick(i)`. */
  function DrawMessage(size: nat, pick: nat -> nat): (m: string)
    ensures |m| == size
  {
    if size == 0 then [] else DrawMessage(size - 1, pick) + [AlphabetChar(pick(size - 1) % AlphabetSize)]
  }

  /** Character `i` of a drawn message is the alphabet character chosen by `pick(i)`. */
  lemma {:induction false} DrawMessageAt(size: nat, pick: nat -> nat, i: nat)
    requires i < size
    ensures DrawMessage(size, pick)[i] == AlphabetChar(pick(i) % AlphabetSize)
  {
    if i < size - 1 {
      DrawMessageAt(size - 1, pick, i);
    }
  }

  /** A generated message has exactly `size` characters, each an ASCII letter or digit. */
  lemma GeneratedMessageShape(size: int, pick: nat -> nat)
    requires GenerateLogMessage(size, pick).Ok?
    ensures |GenerateLogMessage(size, pick).value| == size
    ensures forall i :: 0 <= i < size ==> IsAlphanumeric(GenerateLogMessage(size, pick).value[i])
  {
    forall i | 0 <= i < size
      ensures IsAlphanumeric(GenerateLogMessage(size, pick).value[i])
    {
      DrawMessageAt(size, pick, i);
    }
  }

  /** Every string of an allowed length over the alphabet is a possible message. */
  lemma AnyAlphabetStringCanBeDrawn(target: string)
    requires 1 <= |target| <= MaxCount
    requires forall i :: 0 <= i < |target| ==> IsAlphanumeric(target[i])
    ensures exists pick: nat -> nat :: GenerateLogMessage(|target|, pick) == Ok(target)
  {
    var pick := (i: nat) => if i < |target| then AlphabetIndex(target[i]) else 0;
    var m := DrawMessage(|target|, pick);
    forall i | 0 <= i < |target|
      ensures m[i] == target[i]
    {
      DrawMessageAt(|target|, pick, i);
    }
    assert m == target;
    assert GenerateLogMessage(|target|, pick) == Ok(target);
  }

  datatype Entry = Entry(data: string, id: string, time: string)

  /** The entry id `log-<n>` for a draw of `random.randint(100000, 999999)`. */
  function EntryId(draw: nat): string {
    "log-" + IntToString(100000 + draw % 900000)
  }

  /** An entry id is `log-` followed by a six-digit number. */
  lemma EntryIdIsNumbered(draw: nat)
    ensures |EntryId(draw)| >= 4 && EntryId(draw)[..4] == "log-"
    ensures PyIntOfString(EntryId(draw)[4..]).Some?
    ensures 100000 <= PyIntOfString(EntryId(draw)[4..]).value <= 999999
  {
    var n := 100000 + draw % 900000;
    IntRoundTrip(n);
    assert EntryId(draw)[4..] == IntToString(n);
  }

  /** The entries the first `count` iterations append: a message whose generation fails is skipped. */
  function DrawnEntries(count: nat, size: int, pick: nat -> nat -> nat, idDraw: nat -> nat, isoTime: string): (es: seq<Entry>)
    ensures |es| == if 1 <= size <= MaxCount then count else 0
  {
    if count == 0 then []
    else DrawnEntries(count - 1, size, pick, idDraw, isoTime) + NextEntry(size, pick(count - 1), idDraw(count - 1), isoTime)
  }

  /** What one iteration appends: the entry, or nothing when generation fails. */
  function NextEntry(size: int, pick: nat -> nat, idDraw: nat, isoTime: string): (es: seq<Entry>)
    ensures |es| == if 1 <= size <= MaxCount then 1 else 0
  {
    match GenerateLogMessage(size, pick)
    case Ok(m) => [Entry(m, EntryId(idDraw), isoTime)]
    case Err(_) => []
  }

  /** Entry `i` holds message `i` drawn with `pick(i)`, the id drawn with `idDraw(i)`, and the batch time. */
  lemma {:induction false} DrawnEntriesShape(count: nat, size: int, pick: nat -> nat -> nat, idDraw: nat -> nat, isoTime: string, i: nat)
    requires i < |DrawnEntries(count, size, pick, idDraw, isoTime)|
    ensures var e := DrawnEntries(count, size, pick, idDraw, isoTime)[i];
            && GenerateLogMessage(size, pick(i)) == Ok(e.data)
            && e.id == EntryId(idDraw(i)) && e.time == isoTime
  {
    var prev := DrawnEntries(count - 1, size, pick, idDraw, isoTime);
    var es := DrawnEntries(count, size, pick, idDraw, isoTime);
    assert es == prev + NextEntry(size, pick(count - 1), idDraw(count - 1), isoTime);
    if i < |prev| {
      DrawnEntriesShape(count - 1, size, pick, idDraw, isoTime, i);
      assert es[i] == prev[i];
    } else {
      assert i == count - 1;
      assert es[i] == NextEntry(size, pick(i), idDraw(i), isoTime)[0];
    }
  }

  /** The entry-building loop of the handler: a LogGenerationError skips that entry. */
  method BuildEntries(n: int, size: int, pick: nat -> nat -> nat, idDraw: nat -> nat, isoTime: string)
    returns (entries: seq<Entry>)
    ensures |entries| <= if n < 0 then 0 else n
    ensures 1 <= size <= MaxCount && n >= 0 ==> |entries| == n
    ensures !(1 <= size <= MaxCount) ==> entries == []
    ensures entries == DrawnEntries(if n < 0 then 0 else n, size, pick, idDraw, isoTime)
  {
    var count: nat := if n < 0 then 0 else n;
    entries := [];
    var i := 0;
    while i < count
      invariant 0 <= i <= count
      invariant entries == DrawnEntries(i, size, pick, idDraw, isoTime)
    {
      var message := GenerateLogMessage(size, pick(i));
      if message.Ok? {
        entries := entries + [Entry(message.value, EntryId(idDraw(i)), isoTime)];
      }
      assert DrawnEntries(i + 1, size, pick, idDraw, isoTime) == DrawnEntries(i, size, pick, idDraw, isoTime) + NextEntry(size, pick(i), idDraw(i), isoTime);
      i := i + 1;
    }
  }

  /** How the put_logs call ended. */
  datatype SendReply = Sent | SendServiceError(text: string) | SendClientError(text: string) | SendFailed(text: string)

  /** The body of the function's response. */
  datatype Body =
    | Report(count: nat, config: map<string, PyValue>, timestamp: string)
    | Problem(error: string, message: string, kind: string)

  datatype Response = Response(status: int, body: Body)

  /** The batch handed to the logging service. */
  datatype Batch = Batch(logId: PyValue, entries: seq<Entry>, time: string)

  /** send_logs_to_oci: the OCIError for a failed put_logs. */
  function SendFailure(reply: SendReply): PyError
    requires !reply.Sent?
  {
    match reply
    case SendServiceError(t) => OCIError(ServiceErrorText + t)
    case SendClientError(t) => OCIError(ClientErrorText + t)
    case SendFailed(t) => OCIError(SendFailedText + t)
  }

  /** The except clauses of the handler. */
  function ErrorResponse(e: PyError): (r: Response)
    ensures r.status == 400 <==> e.ConfigError?
    ensures r.status == 500 <==> !e.ConfigError?
    ensures r.body.Problem? && r.body.message == e.text
    ensures r.body.kind == match e
                           case ConfigError(_) => "ConfigError"
                           case LogGenerationError(_) => "LogGenerationError"
                           case OCIError(_) => "OCIError"
                           case OtherError(_) => "UnexpectedError"
  {
    match e
    case ConfigError(t) => Response(400, Problem(ConfigErrorTitle, t, "ConfigError"))
    case LogGenerationError(t) => Response(500, Problem(GenerationErrorTitle, t, "LogGenerationError"))
    case OCIError(t) => Response(500, Problem(OciErrorTitle, t, "OCIError"))
    case OtherError(t) => Response(500, Problem(InternalErrorTitle, t, "UnexpectedError"))
  }

  /** A configuration as get_config returns it: both counts are integers in range and log_id is set. */
  predicate Settled(c: map<string, PyValue>) {
    && LogIdPresent(c)
    && NumKey in c && c[NumKey].PyInt? && 1 <= c[NumKey].i <= MaxCount
    && SizeKey in c && c[SizeKey].PyInt? && 1 <= c[SizeKey].i <= MaxCount
  }

  /** get_config returns a settled configuration, or raises ConfigError or another error. */
  lemma FinalizeSettles(file: map<string, PyValue>, env: Environment)
    ensures Finalize(Layered(file, env)).Ok? ==> Settled(Finalize(Layered(file, env)).value)
    ensures Finalize(Layered(file, env)).Err? ==>
              Finalize(Layered(file, env)).error.ConfigError? || Finalize(Layered(file, env)).error.OtherError?
  {
  }

  /**
   * The handler after get_config: `clientFault` is the error text when no
   * logging client can be created; `send` is the answer to put_logs. The
   * second component is the batch handed to put_logs, if it is called.
   */
  function Respond(
    config: Result<map<string, PyValue>, PyError>, clientFault: Option<string>,
    pick: nat -> nat -> nat, idDraw: nat -> nat, isoTime: string, send: SendReply): (Response, Option<Batch>)
  {
    match config
    case Err(e) => (ErrorResponse(e), None)
    case Ok(c) =>
      if clientFault.Some? then (ErrorResponse(OCIError(ClientInitText + clientFault.value)), None)
      else
        var n := CountOf(c, NumKey);
        var entries := DrawnEntries(if n < 0 then 0 else n, CountOf(c, SizeKey), pick, idDraw, isoTime);
        var batch := Batch(if LogIdKey in c then c[LogIdKey] else PyNone, entries, isoTime);
        if entries == [] then (ErrorResponse(LogGenerationError(NoEntriesText)), None)
        else if !send.Sent? then (ErrorResponse(SendFailure(send)), Some(batch))
        else (Response(200, Report(|entries|, c, isoTime)), Some(batch))
  }

  /** The handler: configuration, client, the entries, then put_logs. */
  method Handler(
    file: map<string, PyValue>, env: Environment, clientFault: Option<string>,
    pick: nat -> nat -> nat, idDraw: nat -> nat, isoTime: string, send: SendReply)
    returns (resp: Response, sent: Option<Batch>)
    ensures (resp, sent) == Respond(Finalize(Layered(file, env)), clientFault, pick, idDraw, isoTime, send)
  {
    sent := None;
    var config := GetConfig(file, env);
    if config.Err? {
      resp := ErrorResponse(config.error);
      return;
    }
    if clientFault.Some? {
      resp := ErrorResponse(OCIError(ClientInitText + clientFault.value));
      return;
    }
    var c := config.value;
    FinalizeSettles(file, env);
    var entries := BuildEntries(c[NumKey].i, c[SizeKey].i, pick, idDraw, isoTime);
    if entries == [] {
      resp := ErrorResponse(LogGenerationError(NoEntriesText));
      return;
    }
    sent := Some(Batch(c[LogIdKey], entries, isoTime));
    if !send.Sent? {
      resp := ErrorResponse(SendFailure(send));
      return;
    }
    resp := Response(200, Report(|entries|, c, isoTime));
  }

  /**
   * On a settled configuration or an error from get_config, the handler
   * answers 200, 400 or 500; 400 exactly for a ConfigError. A settled
   * configuration always yields `num_messages` entries, so the "no entries"
   * error cannot occur, and put_logs is called exactly when a client exists.
   */
  lemma HandlerStatus(
    config: Result<map<string, PyValue>, PyError>, clientFault: Option<string>,
    pick: nat -> nat -> nat, idDraw: nat -> nat, isoTime: string, send: SendReply)
    requires config.Ok? ==> Settled(config.value)
    requires config.Err? ==> config.error.ConfigError? || config.error.OtherError?
    ensures var (resp, sent) := Respond(config, clientFault, pick, idDraw, isoTime, send);
            && (resp.status == 200 || resp.status == 400 || resp.status == 500)
            && (resp.status == 400 <==> config.Err? && config.error.ConfigError?)
            && (resp.status == 200 <==> config.Ok? && clientFault.None? && send.Sent?)
            && (sent.Some? <==> config.Ok? && clientFault.None?)
            && resp.body != Problem(GenerationErrorTitle, NoEntriesText, "LogGenerationError")
  {
    if config.Ok? && clientFault.None? {
      var c := config.value;
      assert |DrawnEntries(c[NumKey].i, c[SizeKey].i, pick, idDraw, isoTime)| == c[NumKey].i;
    }
  }

  /**
   * On a call of put_logs with a settled configuration: the batch goes to the
   * configured log_id and holds exactly `num_messages` entries, each a
   * message of `message_size` letters and digits stamped with the batch
   * time; a failed put_logs gives its OCIError, a successful one a report
   * with that count.
   */
  lemma {:induction false} HandlerBatch(
    c: map<string, PyValue>, clientFault: Option<string>,
    pick: nat -> nat -> nat, idDraw: nat -> nat, isoTime: string, send: SendReply, i: nat)
    requires Settled(c) && clientFault.None?
    ensures var (resp, sent) := Respond(Ok(c), clientFault, pick, idDraw, isoTime, send);
            && sent.Some?
            && sent.value.logId == c[LogIdKey]
            && |sent.value.entries| == c[NumKey].i
            && (i < |sent.value.entries| ==>
                  && |sent.value.entries[i].data| == c[SizeKey].i
                  && (forall j :: 0 <= j < |sent.value.entries[i].data| ==> IsAlphanumeric(sent.value.entries[i].data[j]))
                  && sent.value.entries[i].time == isoTime)
            && (!send.Sent? ==> resp == ErrorResponse(SendFailure(send)))
            && (send.Sent? ==> resp == Response(200, Report(c[NumKey].i, c, isoTime)))
  {
    var n := c[NumKey].i;
    var size := c[SizeKey].i;
    var entries := DrawnEntries(n, size, pick, idDraw, isoTime);
    if i < |entries| {
      DrawnEntriesShape(n, size, pick, idDraw, isoTime, i);
      GeneratedMessageShape(size, pick(i));
    }
  }
}
