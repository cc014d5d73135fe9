// Server configuration (src/config.rs): the defaults, and loading from the
// environment, which starts from the defaults and overwrites one field per
// variable that is set, stopping at the first numeric or boolean variable
// whose text does not parse. The environment is a map from variable name
// to value; unsigned widths are those of a 64-bit target.

module ServerConfig {
  import opened Wrappers
  import opened Decimal
  import opened Errors

  const U16Max: nat := 0xFFFF
  const U64Max: nat := 0xFFFF_FFFF_FFFF_FFFF
  const UsizeMax: nat := U64Max

  datatype Config = Config(
    host: string,
    port: nat,
    chromePath: Option<string>,
    chromeDataDir: Option<string>,
    maxBrowsers: nat,
    maxPagesPerBrowser: nat,
    sessionTimeout: nat,
    defaultTimeout: nat,
    stealthEnabled: bool,
    logLevel: string)

  /** Config::default. */
  const DefaultConfig: Config :=
    Config("127.0.0.1", 50051, None, None, 10, 20, 3600, 30000, true, "info")

  /** `str::parse` for an unsigned integer type whose largest value is max: an optional '+', then at least one decimal digit, and no overflow. */
  function ParseUnsigned(s: string, max: nat): (r: Option<nat>)
    ensures r.Some? ==> r.value <= max
  {
    var digits := if |s| > 0 && s[0] == '+' then s[1..] else s;
    if digits == [] then None
    else
      var v := ParseDigits(digits);
      if v.Some? && v.value <= max then v else None
  }

  /** The value of a string of decimal digits, or None when some character is not a digit. */
  function ParseDigits(s: string): (r: Option<nat>)
    decreases |s|
  {
    if s == [] then Some(0)
    else
      var init := ParseDigits(s[..|s| - 1]);
      var last := s[|s| - 1];
      if init.Some? && IsDigit(last) then Some(init.value * 10 + (last as int - '0' as int)) else None
  }

  lemma {:induction false} ParseDigitsText(n: nat)
    ensures ParseDigits(NatText(n)) == Some(n)
    decreases n
  {
    var s := NatText(n);
    if n < 10 {
      assert s[..0] == [];
    } else {
      assert s[..|s| - 1] == NatText(n / 10);
      ParseDigitsText(n / 10);
    }
  }

  /** `str::parse::<bool>`: exactly "true" or "false". */
  function ParseBool(s: string): (r: Option<bool>)
    ensures r.Some? <==> s == "true" || s == "false"
    ensures r.Some? ==> (r.value <==> s == "true")
  {
    if s == "true" then Some(true) else if s == "false" then Some(false) else None
  }

  /** The decimal text of every representable value parses back to it, and no larger value parses. */
  lemma ParseUnsignedText(n: nat, max: nat)
    ensures ParseUnsigned(NatText(n), max) == if n <= max then Some(n) else None
  {
    var s := NatText(n);
    assert IsDigit(s[0]);
    ParseDigitsText(n);
  }

  /** How each variable is read. */
  datatype ValueKind = Text | OptText | U16 | Usize | U64 | Bool

  datatype Setting = Setting(name: string, kind: ValueKind)

  /** The variables in the order from_env reads them. */
  const Settings: seq<Setting> := [
    Setting("CHASER_HOST", Text),
    Setting("CHASER_PORT", U16),
    Setting("CHASER_CHROME_PATH", OptText),
    Setting("CHASER_DATA_DIR", OptText),
    Setting("CHASER_MAX_BROWSERS", Usize),
    Setting("CHASER_MAX_PAGES", Usize),
    Setting("CHASER_SESSION_TIMEOUT", U64),
    Setting("CHASER_DEFAULT_TIMEOUT", U64),
    Setting("CHASER_STEALTH", Bool),
    Setting("CHASER_LOG_LEVEL", Text)]

  predicate Parses(kind: ValueKind, v: string)
  {
    match kind
    case Text => true
    case OptText => true
    case U16 => ParseUnsigned(v, U16Max).Some?
    case Usize => ParseUnsigned(v, UsizeMax).Some?
    case U64 => ParseUnsigned(v, U64Max).Some?
    case Bool => ParseBool(v).Some?
  }

  /** A variable that is set to text its type does not accept. */
  predicate Refused(env: map<string, string>, st: Setting)
  {
    st.name in env && !Parses(st.kind, env[st.name])
  }

  /** The first refused variable at index k or later of the table. */
  function FirstInvalidFrom(env: map<string, string>, k: nat): Option<string>
    decreases |Settings| - k
  {
    if k >= |Settings| then None
    else if Refused(env, Settings[k]) then Some(Settings[k].name)
    else FirstInvalidFrom(env, k + 1)
  }

  /** The first refused variable in reading order. */
  function FirstInvalid(env: map<string, string>): Option<string>
  {
    FirstInvalidFrom(env, 0)
  }

  /** Entry i of the table, at index k or later, is refused and every entry from k up to it is accepted. */
  predicate FirstRefusedAt(env: map<string, string>, k: nat, i: nat)
  {
    k <= i < |Settings| && Refused(env, Settings[i]) && forall j :: k <= j < i ==> !Refused(env, Settings[j])
  }

  lemma {:induction false} FirstInvalidFromIsFirst(env: map<string, string>, k: nat)
    ensures FirstInvalidFrom(env, k).Some? ==>
              exists i: nat :: FirstRefusedAt(env, k, i) && Settings[i].name == FirstInvalidFrom(env, k).value
    ensures FirstInvalidFrom(env, k).None? <==> forall i :: k <= i < |Settings| ==> !Refused(env, Settings[i])
    decreases |Settings| - k
  {
    if k < |Settings| {
      FirstInvalidFromIsFirst(env, k + 1);
      if Refused(env, Settings[k]) {
        assert FirstRefusedAt(env, k, k);
      } else if FirstInvalidFrom(env, k + 1).Some? {
        var i: nat :| FirstRefusedAt(env, k + 1, i) && Settings[i].name == FirstInvalidFrom(env, k + 1).value;
        assert FirstRefusedAt(env, k, i);
      }
    }
  }

  /** FirstInvalid names a refused variable all of whose predecessors were accepted; None means every variable is accepted. */
  lemma FirstInvalidIsFirst(env: map<string, string>)
    ensures FirstInvalid(env).Some? ==>
              exists i: nat :: FirstRefusedAt(env, 0, i) && Settings[i].name == FirstInvalid(env).value
    ensures FirstInvalid(env).None? <==> forall i :: 0 <= i < |Settings| ==> !Refused(env, Settings[i])
  {
    FirstInvalidFromIsFirst(env, 0);
  }

  /** The text of a variable, or the default when it is unset. */
  function TextOr(env: map<string, string>, name: string, default: string): string
  {
    if name in env then env[name] else default
  }

  /** The parsed value of a variable, or the default when it is unset or does not parse. */
  function NumberOr(env: map<string, string>, name: string, max: nat, default: nat): nat
  {
    if name in env && ParseUnsigned(env[name], max).Some? then ParseUnsigned(env[name], max).value else default
  }

  /** The parsed flag of a variable, or the default when it is unset or does not parse. */
  function BoolOr(env: map<string, string>, name: string, default: bool): bool
  {
    if name in env && ParseBool(env[name]).Some? then ParseBool(env[name]).value else default
  }

  /** The largest value of an unsigned kind. */
  function MaxOf(kind: ValueKind): nat
  {
    match kind
    case U16 => U16Max
    case Usize => UsizeMax
    case _ => U64Max
  }

  /** The numeric arm of parse_env_var!: an unset variable keeps the current value; a set one must parse. */
  method ParseNumberVar(env: map<string, string>, st: Setting, current: nat) returns (r: Result<nat, Error>)
    requires st.kind.U16? || st.kind.Usize? || st.kind.U64?
    ensures r.Err? <==> Refused(env, st)
    ensures r.Err? ==> r.error == Configuration("Invalid " + st.name)
    ensures r.Ok? ==> r.value == NumberOr(env, st.name, MaxOf(st.kind), current)
  {
    r := Ok(current);
    if st.name in env {
      var v := ParseUnsigned(env[st.name], MaxOf(st.kind));
      if v.None? {
        return Err(Configuration("Invalid " + st.name));
      }
      r := Ok(v.value);
    }
  }

  /** The boolean arm of parse_env_var!. */
  method ParseBoolVar(env: map<string, string>, st: Setting, current: bool) returns (r: Result<bool, Error>)
    requires st.kind.Bool?
    ensures r.Err? <==> Refused(env, st)
    ensures r.Err? ==> r.error == Configuration("Invalid " + st.name)
    ensures r.Ok? ==> r.value == BoolOr(env, st.name, current)
  {
    r := Ok(current);
    if st.name in env {
      var v := ParseBool(env[st.name]);
      if v.None? {
        return Err(Configuration("Invalid " + st.name));
      }
      r := Ok(v.value);
    }
  }

  /** The configuration from_env builds when no variable is refused: each field from its variable when set, else its default. */
  function Loaded(env: map<string, string>): Config
  {
    Config(
      TextOr(env, "CHASER_HOST", DefaultConfig.host),
      NumberOr(env, "CHASER_PORT", U16Max, DefaultConfig.port),
      if "CHASER_CHROME_PATH" in env then Some(env["CHASER_CHROME_PATH"]) else None,
      if "CHASER_DATA_DIR" in env then Some(env["CHASER_DATA_DIR"]) else None,
      NumberOr(env, "CHASER_MAX_BROWSERS", UsizeMax, DefaultConfig.maxBrowsers),
      NumberOr(env, "CHASER_MAX_PAGES", UsizeMax, DefaultConfig.maxPagesPerBrowser),
      NumberOr(env, "CHASER_SESSION_TIMEOUT", U64Max, DefaultConfig.sessionTimeout),
      NumberOr(env, "CHASER_DEFAULT_TIMEOUT", U64Max, DefaultConfig.defaultTimeout),
      BoolOr(env, "CHASER_STEALTH", DefaultConfig.stealthEnabled),
      TextOr(env, "CHASER_LOG_LEVEL", DefaultConfig.logLevel))
  }

  /** Config::from_env. */
  method FromEnv(env: map<string, string>) returns (r: Result<Config, Error>)
    ensures r.Err? <==> FirstInvalid(env).Some?
    ensures r.Err? ==> r.error == Configuration("Invalid " + FirstInvalid(env).value)
    ensures r.Ok? ==> r.value == Loaded(env)
  {
    var config := DefaultConfig;
    if "CHASER_HOST" in env {
      config := config.(host := env["CHASER_HOST"]);
    }
    assert FirstInvalid(env) == FirstInvalidFrom(env, 1);
    var port := ParseNumberVar(env, Setting("CHASER_PORT", U16), config.port);
    if port.Err? {
      return Err(port.error);
    }
    config := config.(port := port.value);
    assert FirstInvalid(env) == FirstInvalidFrom(env, 2);
    if "CHASER_CHROME_PATH" in env {
      config := config.(chromePath := Some(env["CHASER_CHROME_PATH"]));
    }
    if "CHASER_DATA_DIR" in env {
      config := config.(chromeDataDir := Some(env["CHASER_DATA_DIR"]));
    }
    assert FirstInvalidFrom(env, 2) == FirstInvalidFrom(env, 4);
    var maxBrowsers := ParseNumberVar(env, Setting("CHASER_MAX_BROWSERS", Usize), config.maxBrowsers);
    if maxBrowsers.Err? {
      return Err(maxBrowsers.error);
    }
    config := config.(maxBrowsers := maxBrowsers.value);
    assert FirstInvalid(env) == FirstInvalidFrom(env, 5);
    var maxPagesPerBrowser := ParseNumberVar(env, Setting("CHASER_MAX_PAGES", Usize), config.maxPagesPerBrowser);
    if maxPagesPerBrowser.Err? {
      return Err(maxPagesPerBrowser.error);
    }
    config := config.(maxPagesPerBrowser := maxPagesPerBrowser.value);
    assert FirstInvalid(env) == FirstInvalidFrom(env, 6);
    var sessionTimeout := ParseNumberVar(env, Setting("CHASER_SESSION_TIMEOUT", U64), config.sessionTimeout);
    if sessionTimeout.Err? {
      return Err(sessionTimeout.error);
    }
    config := config.(sessionTimeout := sessionTimeout.value);
    assert FirstInvalid(env) == FirstInvalidFrom(env, 7);
    var defaultTimeout := ParseNumberVar(env, Setting("CHASER_DEFAULT_TIMEOUT", U64), config.defaultTimeout);
    if defaultTimeout.Err? {
      return Err(defaultTimeout.error);
    }
    config := config.(defaultTimeout := defaultTimeout.value);
    assert FirstInvalid(env) == FirstInvalidFrom(env, 8);
    var stealth := ParseBoolVar(env, Setting("CHASER_STEALTH", Bool), config.stealthEnabled);
    if stealth.Err? {
      return Err(stealth.error);
    }
    config := config.(stealthEnabled := stealth.value);
    assert FirstInvalid(env) == FirstInvalidFrom(env, 10) == None;
    if "CHASER_LOG_LEVEL" in env {
      config := config.(logLevel := env["CHASER_LOG_LEVEL"]);
    }
    return Ok(config);
  }

  /** With none of the variables set, loading gives exactly the defaults. */
  lemma EmptyEnvironmentGivesDefaults(env: map<string, string>)
    requires forall i :: 0 <= i < |Settings| ==> Settings[i].name !in env
    ensures FirstInvalid(env).None?
    ensures TextOr(env, "CHASER_HOST", DefaultConfig.host) == "127.0.0.1"
    ensures NumberOr(env, "CHASER_PORT", U16Max, DefaultConfig.port) == 50051
    ensures NumberOr(env, "CHASER_MAX_BROWSERS", UsizeMax, DefaultConfig.maxBrowsers) == 10
    ensures NumberOr(env, "CHASER_MAX_PAGES", UsizeMax, DefaultConfig.maxPagesPerBrowser) == 20
    ensures NumberOr(env, "CHASER_SESSION_TIMEOUT", U64Max, DefaultConfig.sessionTimeout) == 3600
    ensures NumberOr(env, "CHASER_DEFAULT_TIMEOUT", U64Max, DefaultConfig.defaultTimeout) == 30000
    ensures TextOr(env, "CHASER_LOG_LEVEL", DefaultConfig.logLevel) == "info"
  {
    FirstInvalidIsFirst(env);
    assert Settings[0].name == "CHASER_HOST";
    assert Settings[1].name == "CHASER_PORT";
    assert Settings[4].name == "CHASER_MAX_BROWSERS";
    assert Settings[5].name == "CHASER_MAX_PAGES";
    assert Settings[6].name == "CHASER_SESSION_TIMEOUT";
    assert Settings[7].name == "CHASER_DEFAULT_TIMEOUT";
    assert Settings[9].name == "CHASER_LOG_LEVEL";
  }

  /** A port variable holding the decimal text of a port number is taken as that port; a larger number is refused. */
  lemma PortTextAccepted(env: map<string, string>, port: nat)
    requires "CHASER_PORT" in env && env["CHASER_PORT"] == NatText(port)
    ensures port <= U16Max ==> NumberOr(env, "CHASER_PORT", U16Max, DefaultConfig.port) == port
    ensures port > U16Max ==> FirstInvalid(env) == Some("CHASER_PORT")
  {
    ParseUnsignedText(port, U16Max);

  }
}
