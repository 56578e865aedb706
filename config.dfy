/** The start-up configuration of the bot: the list of Gemini API keys, the
    admin ids read from a comma-separated variable, and the checks that
    stop start-up. The process environment is a map from variable names to
    their values; a name missing from the map is an unset variable. */
module Config {
  import opened Common
  import opened Text

  const KeyNames: seq<string> := [
    "GEMINI_API_KEY_1", "GEMINI_API_KEY_2", "GEMINI_API_KEY_3",
    "GEMINI_API_KEY_4", "GEMINI_API_KEY_5", "GEMINI_API_KEY_6",
    "GEMINI_API_KEY_7", "GEMINI_API_KEY_8", "GEMINI_API_KEY_9",
    "GEMINI_API_KEY_10"]

  const DefaultAdminIds := "452131035"

  const TokenMissing := "TELEGRAM_BOT_TOKEN environment variable is not set!"
  const KeysMissing := "At least one GEMINI_API_KEY environment variable is required!"
  const AdminsMissing := "ADMIN_IDS environment variable is not set or invalid!"

  // ------------------------------------------------------------- API keys

  /** The values of the variables in `names` that are set, in order. */
  function SetValues(env: map<string, string>, names: seq<string>): (values: seq<string>)
    ensures |values| <= |names|
    ensures forall v :: v in values <==> exists i :: 0 <= i < |names| && names[i] in env && env[names[i]] == v
  {
    if names == [] then []
    else
      var rest := SetValues(env, names[1..]);
      assert forall i :: 1 <= i < |names| ==> names[i] == names[1..][i - 1];
      if names[0] in env then [env[names[0]]] + rest else rest
  }

  /** How many of `names` are set. */
  function SetCount(env: map<string, string>, names: seq<string>): nat
  {
    if names == [] then 0 else (if names[0] in env then 1 else 0) + SetCount(env, names[1..])
  }

  /** `GEMINI_API_KEYS`. */
  function ApiKeys(env: map<string, string>): seq<string>
  {
    SetValues(env, KeyNames)
  }

  /** Every set variable lands at the position given by the number of set
      variables before it: the values keep the order of the names, unset
      ones are skipped and set ones, empty strings included, are kept. */
  lemma {:induction false} SetValuesInOrder(env: map<string, string>, names: seq<string>, i: nat)
    requires i < |names| && names[i] in env
    ensures |SetValues(env, names)| == SetCount(env, names)
    ensures SetCount(env, names[..i]) < |SetValues(env, names)|
    ensures SetValues(env, names)[SetCount(env, names[..i])] == env[names[i]]
  {
    var rest := names[1..];
    if i == 0 {
      assert names[..0] == [];
      SetValuesLength(env, rest);
    } else {
      assert names[..i][1..] == rest[..i - 1];
      assert rest[i - 1] == names[i];
      SetValuesInOrder(env, rest, i - 1);
    }
  }

  lemma {:induction false} SetValuesLength(env: map<string, string>, names: seq<string>)
    ensures |SetValues(env, names)| == SetCount(env, names)
  {
    if names != [] {
      SetValuesLength(env, names[1..]);
    }
  }

  /** With no key variable set there is no key. */
  lemma NoKeysWhenNoneSet(env: map<string, string>)
    requires forall i :: 0 <= i < |KeyNames| ==> KeyNames[i] !in env
    ensures ApiKeys(env) == []
  {
    NoneSetNoValues(env, KeyNames);
  }

  lemma {:induction false} NoneSetNoValues(env: map<string, string>, names: seq<string>)
    requires forall i :: 0 <= i < |names| ==> names[i] !in env
    ensures SetValues(env, names) == []
  {
    if names != [] {
      assert forall i :: 0 <= i < |names[1..]| ==> names[1..][i] == names[i + 1];
      NoneSetNoValues(env, names[1..]);
    }
  }

  // ------------------------------------------------------------ admin ids

  /** A piece that `int(piece.strip())` is applied to: its stripped text is
      non-empty and all ASCII digits (`str.isdigit()`). */
  predicate IsIdPiece(piece: string)
  {
    Strip(piece) != [] && AllDigits(Strip(piece))
  }

  /** The comprehension over the pieces of `ADMIN_IDS.split(',')`. */
  function AdminPieces(pieces: seq<string>): (ids: seq<nat>)
    ensures |ids| <= |pieces|
  {
    if pieces == [] then []
    else
      var p := pieces[0];
      (if IsIdPiece(p) then [DigitsValue(Strip(p))] else []) + AdminPieces(pieces[1..])
  }

  /** `ADMIN_IDS`, with `452131035` when the variable is unset. */
  function AdminIds(env: map<string, string>): seq<nat>
  {
    var text := if "ADMIN_IDS" in env then env["ADMIN_IDS"] else DefaultAdminIds;
    AdminPieces(Split(text, ','))
  }

  /** The pieces are read independently and in order. */
  lemma {:induction false} AdminPiecesConcat(a: seq<string>, b: seq<string>)
    ensures AdminPieces(a + b) == AdminPieces(a) + AdminPieces(b)
  {
    if a != [] {
      var p := a[0];
      var first := if IsIdPiece(p) then [DigitsValue(Strip(p))] else [];
      assert (a + b)[1..] == a[1..] + b;
      assert (a + b)[0] == p;
      assert AdminPieces(a + b) == first + AdminPieces(a[1..] + b);
      AdminPiecesConcat(a[1..], b);
      JoinAssoc(first, AdminPieces(a[1..]), AdminPieces(b));
    } else {
      assert a + b == b;
    }
  }

  /** Empty, whitespace-only and signed pieces add no id. */
  lemma DroppedPieces(piece: string)
    requires Strip(piece) == [] || Strip(piece)[0] == '-' || Strip(piece)[0] == '+'
    ensures AdminPieces([piece]) == []
  {
    assert !IsIdPiece(piece);
  }

  /** With `ADMIN_IDS` unset the single default admin is used. */
  lemma DefaultAdmin(env: map<string, string>)
    requires "ADMIN_IDS" !in env
    ensures AdminIds(env) == [452131035]
  {
    var d := DefaultAdminIds;
    SplitWithoutSeparator(d, ',');
    assert Strip(d) == d by { StripKeepsTrimmed(d); }
    DefaultAdminValue();
  }

  lemma DefaultAdminValue()
    ensures AllDigits(DefaultAdminIds) && DigitsValue(DefaultAdminIds) == 452131035
  {
    assert DigitsValue("4") == 4;
    assert "45"[..1] == "4";
    assert DigitsValue("45") == 45;
    assert "452"[..2] == "45";
    assert DigitsValue("452") == 452;
    assert "4521"[..3] == "452";
    assert DigitsValue("4521") == 4521;
    assert "45213"[..4] == "4521";
    assert DigitsValue("45213") == 45213;
    assert "452131"[..5] == "45213";
    assert DigitsValue("452131") == 452131;
    assert "4521310"[..6] == "452131";
    assert DigitsValue("4521310") == 4521310;
    assert "45213103"[..7] == "4521310";
    assert DigitsValue("45213103") == 45213103;
    assert "452131035"[..8] == "45213103";
    assert DigitsValue("452131035") == 452131035;
  }

  /** The decimal texts of the ids, comma-joined. */
  function IdsText(ids: seq<nat>): seq<string>
    ensures |IdsText(ids)| == |ids|
    ensures forall k :: 0 <= k < |ids| ==> IdsText(ids)[k] == ToDecimal(ids[k])
  {
    seq(|ids|, k requires 0 <= k < |ids| => ToDecimal(ids[k]))
  }

  /** Ids written as `str(id)` joined by commas read back as the same ids,
      in order and with duplicates. */
  lemma {:induction false} AdminIdsRoundTrip(ids: seq<nat>)
    requires ids != []
    ensures AdminIds(map["ADMIN_IDS" := Join(IdsText(ids), ',')]) == ids
  {
    var pieces := IdsText(ids);
    forall k | 0 <= k < |pieces| ensures ',' !in pieces[k] {
      assert AllDigits(pieces[k]);
      forall j | 0 <= j < |pieces[k]| ensures pieces[k][j] != ',' {
        assert IsAsciiDigit(pieces[k][j]);
      }
    }
    SplitJoin(pieces, ',');
    ReadDecimals(ids);
  }

  lemma {:induction false} ReadDecimals(ids: seq<nat>)
    ensures AdminPieces(IdsText(ids)) == ids
  {
    if ids != [] {
      var s := ToDecimal(ids[0]);
      StripKeepsTrimmed(s);
      DecimalRoundTrip(ids[0]);
      assert IdsText(ids)[1..] == IdsText(ids[1..]);
      ReadDecimals(ids[1..]);
    }
  }

  // ---------------------------------------------------- numeric variables

  /** The variables read as `int(os.getenv(name, fallback))` or, for the
      three network delays, as `float(os.getenv(name, fallback))`. */
  datatype NumericVariable =
    | StartMaxRetries | StartRetryDelay | PreflightRetries | NetworkMaxAttempts
    | NetworkInitialDelay | NetworkMaxDelay | NetworkExponentialBase
    | ConnectionTimeout | ReadTimeout
  {
    function Name(): string
    {
      match this
      case StartMaxRetries => "BOT_START_MAX_RETRIES"
      case StartRetryDelay => "BOT_START_RETRY_DELAY"
      case PreflightRetries => "BOT_PREFLIGHT_RETRIES"
      case NetworkMaxAttempts => "NETWORK_RETRY_MAX_ATTEMPTS"
      case NetworkInitialDelay => "NETWORK_RETRY_INITIAL_DELAY"
      case NetworkMaxDelay => "NETWORK_RETRY_MAX_DELAY"
      case NetworkExponentialBase => "NETWORK_RETRY_EXPONENTIAL_BASE"
      case ConnectionTimeout => "BOT_CONNECTION_TIMEOUT"
      case ReadTimeout => "BOT_READ_TIMEOUT"
    }

    /** The number whose `str` is the fallback text. */
    function Fallback(): nat
    {
      match this
      case StartMaxRetries => 5
      case StartRetryDelay => 3
      case PreflightRetries => 3
      case NetworkMaxAttempts => 10
      case NetworkInitialDelay => 1
      case NetworkMaxDelay => 60
      case NetworkExponentialBase => 2
      case ConnectionTimeout => 30
      case ReadTimeout => 30
    }

    /** Read with `float` rather than `int`. */
    predicate IsFloat()
    {
      this == NetworkInitialDelay || this == NetworkMaxDelay || this == NetworkExponentialBase
    }
  }

  /** The numeric variables in the order the module reads them. */
  const NumericVariables: seq<NumericVariable> := [
    StartMaxRetries, StartRetryDelay, PreflightRetries, NetworkMaxAttempts,
    NetworkInitialDelay, NetworkMaxDelay, NetworkExponentialBase,
    ConnectionTimeout, ReadTimeout]

  /** Where the integer variables sit in the reading order. */
  lemma IntegerPositions()
    ensures NumericVariables[0] == StartMaxRetries && NumericVariables[1] == StartRetryDelay
    ensures NumericVariables[2] == PreflightRetries && NumericVariables[3] == NetworkMaxAttempts
    ensures NumericVariables[7] == ConnectionTimeout && NumericVariables[8] == ReadTimeout
  {
  }

  /** `os.getenv(name, fallback)`. */
  function GetEnv(env: map<string, string>, name: string, fallback: string): (value: string)
    ensures name !in env ==> value == fallback
    ensures name in env ==> value == env[name]
  {
    if name in env then env[name] else fallback
  }

  /** An exponent part: `e` or `E`, an optional sign and at least one digit. */
  predicate IsExponent(e: string)
  {
    |e| >= 2 && (e[0] == 'e' || e[0] == 'E') &&
    var digits := if e[1] == '+' || e[1] == '-' then e[2..] else e[1..];
    digits != [] && AllDigits(digits)
  }

  /** An unsigned decimal number: digits, an optional point and more
      digits, at least one digit in all, then an optional exponent. */
  predicate IsUnsignedDecimal(u: string)
  {
    var whole := DigitRunLength(u, 0);
    var point := whole < |u| && u[whole] == '.';
    var fraction := if point then DigitRunLength(u, whole + 1) else 0;
    var end := if point then whole + 1 + fraction else whole;
    whole + fraction > 0 && (end == |u| || IsExponent(u[end..]))
  }

  /** `inf`, `infinity` or `nan`, in any mix of cases. */
  predicate IsFloatWord(u: string)
  {
    var word := AsciiLower(u);
    word == "inf" || word == "infinity" || word == "nan"
  }

  /** `float(text)` succeeds: after stripping, an optional sign and then a
      decimal number or one of the words. */
  predicate IsFloatText(text: string)
  {
    var t := Strip(text);
    var u := if t != [] && (t[0] == '+' || t[0] == '-') then t[1..] else t;
    IsUnsignedDecimal(u) || IsFloatWord(u)
  }

  /** Every text `int` accepts, `float` accepts too. */
  lemma IntTextIsFloatText(text: string)
    requires ParseInt(text).Some?
    ensures IsFloatText(text)
  {
    var t := Strip(text);
    var u := if t[0] == '+' || t[0] == '-' then t[1..] else t;
    DigitsAreDecimal(u);
  }

  /** A non-empty text of digits is a decimal number without point. */
  lemma DigitsAreDecimal(u: string)
    requires u != [] && AllDigits(u)
    ensures IsUnsignedDecimal(u)
  {
  }

  /** The text a numeric variable is converted from: its value, or the
      decimal text of its fallback when it is unset. */
  function NumericText(env: map<string, string>, v: NumericVariable): string
  {
    GetEnv(env, v.Name(), ToDecimal(v.Fallback()))
  }

  /** The conversion of a numeric variable succeeds. */
  predicate Converts(env: map<string, string>, v: NumericVariable)
  {
    if v.IsFloat() then IsFloatText(NumericText(env, v)) else ParseInt(NumericText(env, v)).Some?
  }

  /** The `ValueError` message of a failed conversion. */
  function ConversionError(env: map<string, string>, v: NumericVariable): string
  {
    var quoted := "'" + NumericText(env, v) + "'";
    if v.IsFloat() then "could not convert string to float: " + quoted
    else "invalid literal for int() with base 10: " + quoted
  }

  /** Whether each numeric variable converts, in source order. */
  function Outcomes(env: map<string, string>): (ok: seq<bool>)
    ensures |ok| == |NumericVariables|
    ensures forall k :: 0 <= k < |ok| ==> ok[k] == Converts(env, NumericVariables[k])
  {
    seq(|NumericVariables|, k requires 0 <= k < |NumericVariables| => Converts(env, NumericVariables[k]))
  }

  /** The first position from `from` on that holds `false`. */
  function FirstFailure(ok: seq<bool>, from: nat): (r: Option<nat>)
    requires from <= |ok|
    ensures r.Some? ==> from <= r.value < |ok| && !ok[r.value]
    ensures forall k :: from <= k < |ok| && (r.None? || k < r.value) ==> ok[k]
    decreases |ok| - from
  {
    if from == |ok| then None
    else if !ok[from] then Some(from)
    else FirstFailure(ok, from + 1)
  }

  /** The position of the first numeric variable whose conversion raises. */
  function FirstMalformed(env: map<string, string>): Option<nat>
  {
    FirstFailure(Outcomes(env), 0)
  }

  /** Once no conversion raises, each integer variable has its value. */
  lemma IntegersConvert(env: map<string, string>)
    requires FirstMalformed(env).None?
    ensures Converts(env, StartMaxRetries) && Converts(env, StartRetryDelay)
    ensures Converts(env, PreflightRetries) && Converts(env, NetworkMaxAttempts)
    ensures Converts(env, ConnectionTimeout) && Converts(env, ReadTimeout)
  {
    IntegerPositions();
  }

  /** The value of a numeric variable that `int` reads. */
  function IntValue(env: map<string, string>, v: NumericVariable): int
    requires !v.IsFloat() && Converts(env, v)
  {
    ParseInt(NumericText(env, v)).value
  }

  // ----------------------------------------------------------- validation

  datatype Settings = Settings(
    token: string, apiKeys: seq<string>, adminIds: seq<nat>,
    databaseFile: string, logLevel: string, logFile: string,
    startMaxRetries: int, startRetryDelay: int, preflightRetries: int,
    networkMaxAttempts: int, connectionTimeout: int, readTimeout: int,
    environment: string)

  datatype Loaded = Loaded(settings: Settings) | Failed(message: string)

  /** The validation block: the first failing check, in source order. */
  function Validate(token: Option<string>, keys: seq<string>, admins: seq<nat>): (error: Option<string>)
    ensures error.None? <==> token.Some? && token.value != [] && keys != [] && admins != []
    ensures (token.None? || token.value == []) ==> error == Some(TokenMissing)
    ensures token.Some? && token.value != [] && keys == [] ==> error == Some(KeysMissing)
    ensures token.Some? && token.value != [] && keys != [] && admins == [] ==> error == Some(AdminsMissing)
  {
    if token.None? || token.value == [] then Some(TokenMissing)
    else if keys == [] then Some(KeysMissing)
    else if admins == [] then Some(AdminsMissing)
    else None
  }

  /** Loading the configuration module from an environment: the numeric
      conversions run first, in source order, and the first one that raises
      ends loading before the validation block is reached. */
  function Load(env: map<string, string>): (r: Loaded)
    ensures FirstMalformed(env).Some? ==>
              r == Failed(ConversionError(env, NumericVariables[FirstMalformed(env).value]))
    ensures FirstMalformed(env).None? ==>
              (r.Loaded? <==> "TELEGRAM_BOT_TOKEN" in env && env["TELEGRAM_BOT_TOKEN"] != []
                              && ApiKeys(env) != [] && AdminIds(env) != [])
    ensures r.Loaded? ==> r.settings.apiKeys != [] && r.settings.adminIds != [] && r.settings.token != []
  {
    match FirstMalformed(env)
    case Some(k) => Failed(ConversionError(env, NumericVariables[k]))
    case None => Validated(env)
  }

  /** The validation block, reached once every conversion has succeeded. */
  function Validated(env: map<string, string>): (r: Loaded)
    requires FirstMalformed(env).None?
    ensures r.Loaded? <==> "TELEGRAM_BOT_TOKEN" in env && env["TELEGRAM_BOT_TOKEN"] != []
                           && ApiKeys(env) != [] && AdminIds(env) != []
    ensures r.Loaded? ==> r.settings.apiKeys != [] && r.settings.adminIds != [] && r.settings.token != []
  {
    var token := if "TELEGRAM_BOT_TOKEN" in env then Some(env["TELEGRAM_BOT_TOKEN"]) else None;
    match Validate(token, ApiKeys(env), AdminIds(env))
    case Some(message) => Failed(message)
    case None => Loaded(ReadSettings(env, token.value))
  }

  /** The values the module holds after loading. */
  function ReadSettings(env: map<string, string>, token: string): (s: Settings)
    requires FirstMalformed(env).None?
    ensures s.token == token && s.apiKeys == ApiKeys(env) && s.adminIds == AdminIds(env)
  {
    IntegersConvert(env);
    Settings(
      token, ApiKeys(env), AdminIds(env),
      GetEnv(env, "DATABASE_FILE", "finplan.db"), GetEnv(env, "LOG_LEVEL", "INFO"),
      GetEnv(env, "LOG_FILE", "bot.log"),
      IntValue(env, StartMaxRetries), IntValue(env, StartRetryDelay),
      IntValue(env, PreflightRetries), IntValue(env, NetworkMaxAttempts),
      IntValue(env, ConnectionTimeout), IntValue(env, ReadTimeout),
      GetEnv(env, "ENVIRONMENT", "development"))
  }

  /** A loaded configuration holds what `int` makes of each integer
      variable, or of its fallback, and the text variables or their
      fallbacks as they are. */
  lemma LoadedValues(env: map<string, string>)
    requires Load(env).Loaded?
    ensures var s := Load(env).settings;
      && ParseInt(NumericText(env, StartMaxRetries)) == Some(s.startMaxRetries)
      && ParseInt(NumericText(env, StartRetryDelay)) == Some(s.startRetryDelay)
      && ParseInt(NumericText(env, PreflightRetries)) == Some(s.preflightRetries)
      && ParseInt(NumericText(env, NetworkMaxAttempts)) == Some(s.networkMaxAttempts)
      && ParseInt(NumericText(env, ConnectionTimeout)) == Some(s.connectionTimeout)
      && ParseInt(NumericText(env, ReadTimeout)) == Some(s.readTimeout)
    ensures var s := Load(env).settings;
      && s.databaseFile == GetEnv(env, "DATABASE_FILE", "finplan.db")
      && s.logLevel == GetEnv(env, "LOG_LEVEL", "INFO")
      && s.logFile == GetEnv(env, "LOG_FILE", "bot.log")
      && s.environment == GetEnv(env, "ENVIRONMENT", "development")
  {
    IntegersConvert(env);
  }

  /** An unset variable reads as its fallback number. */
  lemma UnsetReadsFallback(env: map<string, string>, v: NumericVariable)
    requires v.Name() !in env
    ensures ParseInt(NumericText(env, v)) == Some(v.Fallback())
  {
    ReadsDigits(ToDecimal(v.Fallback()));
    DecimalRoundTrip(v.Fallback());
  }

  /** With none of the numeric variables set no conversion raises. */
  lemma FallbacksConvert(env: map<string, string>)
    requires forall v: NumericVariable :: v.Name() !in env
    ensures FirstMalformed(env).None?
  {
    forall k | 0 <= k < |NumericVariables| ensures Converts(env, NumericVariables[k]) {
      FallbackConverts(env, NumericVariables[k]);
    }
  }

  /** Each fallback text converts. */
  lemma FallbackConverts(env: map<string, string>, v: NumericVariable)
    requires v.Name() !in env
    ensures Converts(env, v)
  {
    UnsetReadsFallback(env, v);
    if v.IsFloat() {
      IntTextIsFloatText(NumericText(env, v));
    }
  }

  /** A malformed `BOT_START_MAX_RETRIES` ends loading with `int`'s error
      whatever else is set or missing: the conversions come before the
      validation block. */
  lemma MalformedNumberBeforeValidation(env: map<string, string>)
    requires ParseInt(NumericText(env, StartMaxRetries)).None?
    ensures Load(env) == Failed("invalid literal for int() with base 10: "
                                + ("'" + GetEnv(env, "BOT_START_MAX_RETRIES", "5") + "'"))
  {
    assert NumericVariables[0] == StartMaxRetries;
    assert !Converts(env, StartMaxRetries);
  }
}
