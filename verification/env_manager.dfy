/** The configuration getters of `env_manager`. The process environment that
    `load_dotenv` and `os.getenv` consult is passed in explicitly as a map from
    variable name to text. Every getter first applies the same guard: a variable
    that is absent or holds the empty string is "not set" and raises an error
    whose message names it. Only then is the text converted. */
module EnvManager {
  import opened Wrappers
  import opened Maps
  import IntLiteral

  type Env = map<string, string>

  /** A `pathlib.Path`, represented by the text it was built from. */
  datatype Path = Path(text: string)

  /** The `ValueError`s the getters raise: the guard's, and the two of `int()`, for a
      text that is not an integer literal and for one with too many digits. */
  datatype ConfigError =
    | NotSet(name: string)
    | InvalidIntLiteral(text: string)
    | DigitLimitExceeded(digits: nat)

  const NotSetSuffix := " is not set in the .env file."

  /** The text of the `ValueError`. Only a not-set message ends with the fixed
      suffix, and what precedes the suffix there is exactly the variable's name; the
      messages of `int()` end in a quote or in "limit". */
  function Message(e: ConfigError): (m: string)
    ensures NameInMessage(m) == if e.NotSet? then Some(e.name) else None
  {
    match e
    case NotSet(name) =>
      var m := name + NotSetSuffix;
      assert m[|m| - |NotSetSuffix|..] == NotSetSuffix && m[..|m| - |NotSetSuffix|] == name;
      m
    case InvalidIntLiteral(text) =>
      var m := "invalid literal for int() with base 10: '" + text + "'";
      NoSuffixWithoutFullStop(m);
      m
    case DigitLimitExceeded(digits) =>
      var m := "Exceeds the limit (" + IntLiteral.Show(IntLiteral.MaxStrDigits)
        + " digits) for integer string conversion: value has " + IntLiteral.Show(digits)
        + " digits; use sys.set_int_max_str_digits() to increase the limit";
      NoSuffixWithoutFullStop(m);
      m
  }

  /** Recovers the variable name from a not-set message, or `None` for any other text. */
  function NameInMessage(msg: string): Option<string> {
    if |msg| >= |NotSetSuffix| && msg[|msg| - |NotSetSuffix|..] == NotSetSuffix
    then Some(msg[..|msg| - |NotSetSuffix|])
    else None
  }

  /** The suffix ends in a full stop, so a text that does not cannot carry it. */
  lemma NoSuffixWithoutFullStop(msg: string)
    requires |msg| > 0 && msg[|msg| - 1] != '.'
    ensures NameInMessage(msg) == None
  {
    if |msg| >= |NotSetSuffix| {
      assert msg[|msg| - |NotSetSuffix|..][|NotSetSuffix| - 1] == msg[|msg| - 1];
    }
  }

  /** The message of a not-set error names exactly the missing variable. */
  lemma NotSetMessageNamesVariable(name: string)
    ensures NameInMessage(Message(NotSet(name))) == Some(name)
  {
  }

  /** Two variables' not-set errors can be told apart by their messages alone. */
  lemma NotSetMessageInjective(a: string, b: string)
    requires Message(NotSet(a)) == Message(NotSet(b))
    ensures a == b
  {
    NotSetMessageNamesVariable(a);
    NotSetMessageNamesVariable(b);
  }

  /** The guard every getter starts with: `os.getenv(name)`, then `if not value: raise`.
      `not value` is true both for a missing variable (`None`) and for the empty string. */
  function Require(env: Env, name: string): (r: Result<string, ConfigError>)
    ensures r.Err? <==> name !in env || env[name] == ""
    ensures r.Err? ==> r.error == NotSet(name)
    ensures r.Ok? ==> r.value == env[name] && |r.value| > 0
  {
    if name in env && env[name] != "" then Ok(env[name]) else Err(NotSet(name))
  }

  /** `get_path(var_name)`: the variable's text as a path. */
  function GetPath(env: Env, name: string): (r: Result<Path, ConfigError>)
    ensures r.Ok? <==> name in env && env[name] != ""
    ensures r.Ok? ==> r.value.text == env[name]
    ensures r.Err? ==> r.error == NotSet(name) && Message(r.error) == name + " is not set in the .env file."
  {
    var text :- Require(env, name);
    Ok(Path(text))
  }

  /** Shared by `get_radius` and `get_timeframe`: the guard, then `int(value)`. */
  function GetInt(env: Env, name: string): (r: Result<int, ConfigError>)
    ensures r == Err(NotSet(name)) <==> name !in env || env[name] == ""
    ensures r.Ok? <==> name in env && env[name] != "" && IntLiteral.Parse(env[name]).Ok?
    ensures r.Ok? ==> IntLiteral.Parse(env[name]) == Ok(r.value)
    ensures name in env && env[name] != "" && IntLiteral.Parse(env[name]) == Err(IntLiteral.InvalidLiteral)
      ==> r == Err(InvalidIntLiteral(env[name]))
    ensures name in env && IntLiteral.Parse(env[name]).Err? && IntLiteral.Parse(env[name]).error.ExceedsDigitLimit?
      ==> r == Err(DigitLimitExceeded(IntLiteral.Parse(env[name]).error.digits))
  {
    var text :- Require(env, name);
    match IntLiteral.Parse(text)
    case Ok(n) => Ok(n)
    case Err(InvalidLiteral) => Err(InvalidIntLiteral(text))
    case Err(ExceedsDigitLimit(digits)) => Err(DigitLimitExceeded(digits))
  }

  /** `get_radius()`: the search radius in meters, from `RADIUS`. */
  function GetRadius(env: Env): (r: Result<int, ConfigError>)
    ensures r == Err(NotSet("RADIUS")) <==> "RADIUS" !in env || env["RADIUS"] == ""
    ensures r.Ok? <==> "RADIUS" in env && env["RADIUS"] != "" && IntLiteral.Parse(env["RADIUS"]).Ok?
    ensures r.Ok? ==> IntLiteral.Parse(env["RADIUS"]) == Ok(r.value)
    ensures "RADIUS" in env && env["RADIUS"] != "" && IntLiteral.Parse(env["RADIUS"]) == Err(IntLiteral.InvalidLiteral)
      ==> r == Err(InvalidIntLiteral(env["RADIUS"]))
    ensures "RADIUS" in env && IntLiteral.Parse(env["RADIUS"]).Err? && IntLiteral.Parse(env["RADIUS"]).error.ExceedsDigitLimit?
      ==> r == Err(DigitLimitExceeded(IntLiteral.Parse(env["RADIUS"]).error.digits))
  {
    GetInt(env, "RADIUS")
  }

  /** `get_timeframe()`: the departure time frame in minutes, from `TIMEFRAME`. */
  function GetTimeframe(env: Env): (r: Result<int, ConfigError>)
    ensures r == Err(NotSet("TIMEFRAME")) <==> "TIMEFRAME" !in env || env["TIMEFRAME"] == ""
    ensures r.Ok? <==> "TIMEFRAME" in env && env["TIMEFRAME"] != "" && IntLiteral.Parse(env["TIMEFRAME"]).Ok?
    ensures r.Ok? ==> IntLiteral.Parse(env["TIMEFRAME"]) == Ok(r.value)
    ensures "TIMEFRAME" in env && env["TIMEFRAME"] != "" && IntLiteral.Parse(env["TIMEFRAME"]) == Err(IntLiteral.InvalidLiteral)
      ==> r == Err(InvalidIntLiteral(env["TIMEFRAME"]))
    ensures "TIMEFRAME" in env && IntLiteral.Parse(env["TIMEFRAME"]).Err? && IntLiteral.Parse(env["TIMEFRAME"]).error.ExceedsDigitLimit?
      ==> r == Err(DigitLimitExceeded(IntLiteral.Parse(env["TIMEFRAME"]).error.digits))
  {
    GetInt(env, "TIMEFRAME")
  }

  /** `get_longitude()`, up to its guard: the success value is the unconverted
      text that Python goes on to turn into a rounded float. */
  function GetLongitude(env: Env): (r: Result<string, ConfigError>)
    ensures r.Err? <==> "LONGITUDE" !in env || env["LONGITUDE"] == ""
    ensures r.Err? ==> r.error == NotSet("LONGITUDE")
    ensures r.Ok? ==> r.value == env["LONGITUDE"]
  {
    Require(env, "LONGITUDE")
  }

  /** `get_latitutde()` (so spelled in the source), up to its guard, like `GetLongitude`. */
  function GetLatitude(env: Env): (r: Result<string, ConfigError>)
    ensures r.Err? <==> "LATITUDE" !in env || env["LATITUDE"] == ""
    ensures r.Err? ==> r.error == NotSet("LATITUDE")
    ensures r.Ok? ==> r.value == env["LATITUDE"]
  {
    Require(env, "LATITUDE")
  }

  /** Writing an integer into a variable and reading it back with the integer
      getter yields that integer, as long as it has at most `MaxStrDigits` digits;
      a longer one is refused with its digit count. */
  lemma {:induction false} GetIntRoundTrip(env: Env, name: string, n: int)
    ensures IntLiteral.DecimalDigits(n) <= IntLiteral.MaxStrDigits ==>
      GetInt(env[name := IntLiteral.Show(n)], name) == Ok(n)
    ensures IntLiteral.DecimalDigits(n) > IntLiteral.MaxStrDigits ==>
      GetInt(env[name := IntLiteral.Show(n)], name) == Err(DigitLimitExceeded(IntLiteral.DecimalDigits(n)))
  {
    var env' := env[name := IntLiteral.Show(n)];
    IntLiteral.ParseShow(n);
    assert Require(env', name) == Ok(IntLiteral.Show(n));
  }

  /** Storing a text under a name and reading it back with `get_path` gives the path of
      that very text, unless the text is empty, which counts as not set. */
  lemma GetPathRoundTrip(env: Env, name: string, text: string)
    ensures GetPath(env[name := text], name) == if text == "" then Err(NotSet(name)) else Ok(Path(text))
  {
  }

  /** `not value` only catches the empty string: a value of nothing but whitespace
      passes the guard, and it is `int()` that rejects it, naming the text. */
  lemma BlankIntIsInvalidLiteral(env: Env, name: string, text: string)
    requires text != "" && IntLiteral.AllSpace(text)
    ensures GetInt(env[name := text], name) == Err(InvalidIntLiteral(text))
  {
    IntLiteral.ParseBlank(text);
  }

  /** A radius written in decimal reads back unchanged; so does a time frame. */
  lemma RadiusAndTimeframeRoundTrip(env: Env, radius: int, timeframe: int)
    ensures IntLiteral.DecimalDigits(radius) <= IntLiteral.MaxStrDigits ==>
      GetRadius(env["RADIUS" := IntLiteral.Show(radius)]) == Ok(radius)
    ensures IntLiteral.DecimalDigits(timeframe) <= IntLiteral.MaxStrDigits ==>
      GetTimeframe(env["TIMEFRAME" := IntLiteral.Show(timeframe)]) == Ok(timeframe)
  {
    GetIntRoundTrip(env, "RADIUS", radius);
    GetIntRoundTrip(env, "TIMEFRAME", timeframe);
  }

  /** The guard and the getters built on it read one variable: two environments
      that agree on it, whatever else they hold, give the same outcome. */
  lemma ReadsOnlyNamedVariable(env: Env, env': Env, name: string)
    requires AgreeOn(env, env', name)
    ensures Require(env', name) == Require(env, name)
    ensures GetPath(env', name) == GetPath(env, name)
    ensures GetInt(env', name) == GetInt(env, name)
  {
  }

  /** Each fixed-name getter's outcome depends on its own variable only. */
  lemma GettersReadOnlyTheirVariable(env: Env, env': Env)
    ensures AgreeOn(env, env', "RADIUS") ==> GetRadius(env') == GetRadius(env)
    ensures AgreeOn(env, env', "TIMEFRAME") ==> GetTimeframe(env') == GetTimeframe(env)
    ensures AgreeOn(env, env', "LONGITUDE") ==> GetLongitude(env') == GetLongitude(env)
    ensures AgreeOn(env, env', "LATITUDE") ==> GetLatitude(env') == GetLatitude(env)
  {
  }

  /** The values the getter tests read back. */
  lemma TestSuiteValues()
    ensures GetPath(map["DATA_DIR" := "tmp_path"], "DATA_DIR") == Ok(Path("tmp_path"))
    ensures GetRadius(map["RADIUS" := "500"]) == Ok(500)
    ensures GetTimeframe(map["TIMEFRAME" := "30"]) == Ok(30)
  {
    assert IntLiteral.Show(500) == "500";
    assert IntLiteral.Show(30) == "30";
    GetIntRoundTrip(map[], "RADIUS", 500);
    GetIntRoundTrip(map[], "TIMEFRAME", 30);
  }

  /** The messages the getter tests expect when the variable is absent. */
  lemma TestSuiteMessages()
    ensures Message(GetPath(map[], "TMP_PATH").error) == "TMP_PATH" + " is not set in the .env file."
    ensures Message(GetLatitude(map[]).error) == "LATITUDE" + " is not set in the .env file."
    ensures Message(GetLongitude(map[]).error) == "LONGITUDE" + " is not set in the .env file."
    ensures Message(GetRadius(map[]).error) == "RADIUS" + " is not set in the .env file."
    ensures Message(GetTimeframe(map[]).error) == "TIMEFRAME" + " is not set in the .env file."
  {
  }
}
