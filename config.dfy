/** Application settings (src/config.py): the field defaults, the closed set of
    logging levels, and the Redis connection URL built from host, port and
    database number. */
module Config {

  import opened Wrappers

  /** The only values the `log_level` field accepts. */
  datatype LogLevel = DEBUG | INFO | WARNING | ERROR | CRITICAL

  datatype Settings = Settings(
    host: string,
    port: int,
    redisHost: string,
    redisPort: int,
    redisDb: int,
    sessionDir: string,
    logLevel: LogLevel,
    geminiApiKey: string,
    geminiModel: string)

  /** The three components a Redis URL is made of. */
  datatype RedisAddress = RedisAddress(host: string, port: int, db: int)

  const DEFAULT_HOST: string := "0.0.0.0"
  const DEFAULT_PORT: int := 8000
  const DEFAULT_REDIS_HOST: string := "redis"
  const DEFAULT_REDIS_PORT: int := 6379
  const DEFAULT_REDIS_DB: int := 0
  const DEFAULT_SESSION_DIR: string := "./data/sessions"
  const DEFAULT_LOG_LEVEL: LogLevel := INFO
  const DEFAULT_GEMINI_MODEL: string := "gemini-flash-2.5"

  // ---------------------------------------------------------------------------
  // Logging levels

  function LevelName(level: LogLevel): string
  {
    match level
    case DEBUG => "DEBUG"
    case INFO => "INFO"
    case WARNING => "WARNING"
    case ERROR => "ERROR"
    case CRITICAL => "CRITICAL"
  }

  /** Validation of a `log_level` value: exactly the five level names are
      accepted, anything else is rejected. */
  function ParseLogLevel(name: string): (r: Option<LogLevel>)
    ensures r.Some? <==> name in {"DEBUG", "INFO", "WARNING", "ERROR", "CRITICAL"}
    ensures r.Some? ==> LevelName(r.value) == name
  {
    if name == "DEBUG" then Some(DEBUG)
    else if name == "INFO" then Some(INFO)
    else if name == "WARNING" then Some(WARNING)
    else if name == "ERROR" then Some(ERROR)
    else if name == "CRITICAL" then Some(CRITICAL)
    else None
  }

  /** Every level survives the trip through its name. */
  lemma LevelNameRoundTrip(level: LogLevel)
    ensures ParseLogLevel(LevelName(level)) == Some(level)
  {
  }

  // ---------------------------------------------------------------------------
  // Decimal text of integers, as Python's `str` writes an `int`

  predicate IsDigit(ch: char)
  {
    '0' <= ch <= '9'
  }

  predicate IsDigits(s: string)
  {
    forall k :: 0 <= k < |s| ==> IsDigit(s[k])
  }

  function DigitChar(d: nat): (ch: char)
    requires d < 10
    ensures IsDigit(ch)
  {
    ('0' as int + d) as char
  }

  function DigitValue(ch: char): (d: nat)
    requires IsDigit(ch)
    ensures d < 10
  {
    ch as int - '0' as int
  }

  /** Decimal digits of `n`, most significant first, with no leading zero. */
  function DecimalString(n: nat): (s: string)
    ensures |s| > 0 && IsDigits(s)
    ensures s[0] == '0' <==> n == 0
    decreases n
  {
    if n < 10 then [DigitChar(n)] else DecimalString(n / 10) + [DigitChar(n % 10)]
  }

  /** The number a non-empty run of decimal digits denotes. */
  function DigitsValue(s: string): nat
    requires IsDigits(s)
    decreases |s|
  {
    if |s| == 0 then 0 else 10 * DigitsValue(s[..|s| - 1]) + DigitValue(s[|s| - 1])
  }

  lemma {:induction false} DecimalStringValue(n: nat)
    ensures DigitsValue(DecimalString(n)) == n
    decreases n
  {
    if n >= 10 {
      DecimalStringValue(n / 10);
      var s := DecimalString(n);
      assert s[..|s| - 1] == DecimalString(n / 10);
    }
  }

  /** Reads back an optional minus sign followed by decimal digits. */
  function ParseInt(s: string): Option<int>
  {
    if |s| > 1 && s[0] == '-' && IsDigits(s[1..]) then
      var magnitude: int := DigitsValue(s[1..]);
      Some(-magnitude)
    else if |s| > 0 && IsDigits(s) then Some(DigitsValue(s))
    else None
  }

  /** Python's `str` of an int: a minus sign for negative numbers, then the
      decimal digits of the magnitude. The text reads back as the same
      number and holds no URL separator. */
  function IntString(n: int): (s: string)
    ensures ParseInt(s) == Some(n)
    ensures ':' !in s && '/' !in s
  {
    var magnitude := if n < 0 then -n else n;
    var digits := DecimalString(magnitude);
    DecimalStringValue(magnitude);
    if n < 0 then
      assert ("-" + digits)[1..] == digits;
      "-" + digits
    else
      digits
  }

  // ---------------------------------------------------------------------------
  // The Redis URL

  /** The `redis_url` property: `redis://<host>:<port>/<db>`. */
  function RedisUrl(s: Settings): string
  {
    "redis://" + s.redisHost + ":" + IntString(s.redisPort) + "/" + IntString(s.redisDb)
  }

  /** Splits `s` at the last occurrence of `sep`: what comes before it and
      what comes after it. */
  function SplitLast(s: string, sep: char): (r: Option<(string, string)>)
    ensures r.Some? ==> r.value.0 + [sep] + r.value.1 == s && sep !in r.value.1
    decreases |s|
  {
    if |s| == 0 then None
    else if s[|s| - 1] == sep then Some((s[..|s| - 1], ""))
    else
      match SplitLast(s[..|s| - 1], sep)
      case None => None
      case Some((before, after)) => Some((before, after + [s[|s| - 1]]))
  }

  lemma {:induction false} SplitLastAt(before: string, sep: char, after: string)
    requires sep !in after
    ensures SplitLast(before + [sep] + after, sep) == Some((before, after))
    decreases |after|
  {
    var s := before + [sep] + after;
    if after == [] {
      assert s[..|s| - 1] == before;
    } else {
      var shorter := after[..|after| - 1];
      assert s[..|s| - 1] == before + [sep] + shorter;
      assert s[|s| - 1] == after[|after| - 1];
      SplitLastAt(before, sep, shorter);
      assert shorter + [after[|after| - 1]] == after;
    }
  }

  /** Reads the host, port and database back out of a Redis URL. The port and
      database are found after the LAST ':' and '/', so a host that itself
      holds those characters is still recovered whole. */
  function ParseRedisUrl(url: string): Option<RedisAddress>
  {
    if |url| < 8 || url[..8] != "redis://" then None
    else
      match SplitLast(url[8..], '/')
      case None => None
      case Some((hostPort, dbText)) =>
        match SplitLast(hostPort, ':')
        case None => None
        case Some((host, portText)) =>
          match (ParseInt(portText), ParseInt(dbText))
          case (Some(port), Some(db)) => Some(RedisAddress(host, port, db))
          case _ => None
  }

  /** The URL carries exactly the three Redis fields: they can be read back. */
  lemma RedisUrlRoundTrip(s: Settings)
    ensures ParseRedisUrl(RedisUrl(s)) == Some(RedisAddress(s.redisHost, s.redisPort, s.redisDb))
  {
    var portText, dbText := IntString(s.redisPort), IntString(s.redisDb);
    var url := RedisUrl(s);
    var hostPort := s.redisHost + ":" + portText;
    assert url[..8] == "redis://";
    assert url[8..] == hostPort + ['/'] + dbText;
    SplitLastAt(hostPort, '/', dbText);
    assert hostPort == s.redisHost + [':'] + portText;
    SplitLastAt(s.redisHost, ':', portText);
  }

  /** `redis_url` depends on the Redis host, port and database and on nothing
      else, and different Redis fields always give different URLs. */
  lemma RedisUrlDeterminedByRedisFields(s: Settings, t: Settings)
    ensures RedisUrl(s) == RedisUrl(t) <==>
      s.redisHost == t.redisHost && s.redisPort == t.redisPort && s.redisDb == t.redisDb
  {
    RedisUrlRoundTrip(s);
    RedisUrlRoundTrip(t);
  }

  // ---------------------------------------------------------------------------
  // Defaults

  /** The Redis URL of the default Redis fields. */
  lemma DefaultRedisUrl(s: Settings)
    requires s.redisHost == DEFAULT_REDIS_HOST
    requires s.redisPort == DEFAULT_REDIS_PORT && s.redisDb == DEFAULT_REDIS_DB
    ensures RedisUrl(s) == "redis://redis:6379/0"
  {
  }

  /** The settings when nothing overrides a default. The Gemini API key has
      no default and must be supplied. */
  function Defaults(geminiApiKey: string): (s: Settings)
    ensures s.host == "0.0.0.0" && s.port == 8000 && s.sessionDir == "./data/sessions"
    ensures s.geminiApiKey == geminiApiKey && s.geminiModel == "gemini-flash-2.5"
    ensures RedisUrl(s) == "redis://redis:6379/0"
    ensures LevelName(s.logLevel) == "INFO"
  {
    var s := Settings(DEFAULT_HOST, DEFAULT_PORT, DEFAULT_REDIS_HOST, DEFAULT_REDIS_PORT,
                      DEFAULT_REDIS_DB, DEFAULT_SESSION_DIR, DEFAULT_LOG_LEVEL,
                      geminiApiKey, DEFAULT_GEMINI_MODEL);
    DefaultRedisUrl(s);
    s
  }
}
