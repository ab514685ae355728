/**
 * The pure parts of the logging configuration: masking credentials in headers
 * before they are logged, truncating long response bodies, and turning a level
 * name or number into a numeric logging level.
 */
module LoggingConfig {
  import opened Wrappers
  import opened Text
  import opened Json
  import Auth

  /** Header names (lower-cased) whose values never reach the log. */
  const SENSITIVE_HEADERS: set<string> := {"authorization", "x-api-key", "cookie"}

  /** Longest formatted response body logged in full. */
  const MAX_LOG_BODY_LENGTH: nat := 1000

  /** The masked form of one header value. */
  function MaskedValue(key: string, value: string): string
  {
    if Lower(key) in SENSITIVE_HEADERS then
      if Lower(key) == "authorization" && StartsWith(value, "Bearer ") then "Bearer ***" else "***"
    else value
  }

  /** What `mask_sensitive_headers` returns: the same keys, each value passed through MaskedValue. */
  ghost function Masked(headers: map<string, string>): map<string, string>
  {
    map k | k in headers :: MaskedValue(k, headers[k])
  }

  /** `mask_sensitive_headers(headers)`: builds the masked copy one header at a time. */
  method MaskSensitiveHeaders(headers: map<string, string>) returns (masked: map<string, string>)
    ensures masked == Masked(headers)
  {
    masked := map[];
    var todo := headers.Keys;
    while todo != {}
      invariant todo <= headers.Keys
      invariant masked.Keys == headers.Keys - todo
      invariant forall k :: k in masked ==> masked[k] == MaskedValue(k, headers[k])
      decreases |todo|
    {
      var key :| key in todo;
      masked := masked[key := MaskedValue(key, headers[key])];
      todo := todo - {key};
    }
  }

  /** Masking keeps the key set; it touches exactly the sensitive headers, whose values become a fixed placeholder. */
  lemma MaskedShape(headers: map<string, string>)
    ensures Masked(headers).Keys == headers.Keys
    ensures forall k :: k in headers && Lower(k) !in SENSITIVE_HEADERS ==> Masked(headers)[k] == headers[k]
    ensures forall k :: k in headers && Lower(k) in SENSITIVE_HEADERS ==>
      Masked(headers)[k] == (if Lower(k) == "authorization" && StartsWith(headers[k], "Bearer ") then "Bearer ***" else "***")
  {
  }

  lemma MaskedValueIdempotent(key: string, value: string)
    ensures MaskedValue(key, MaskedValue(key, value)) == MaskedValue(key, value)
  {
    assert ("Bearer ***")[..|"Bearer "|] == "Bearer ";
  }

  /** Masking an already masked collection changes nothing. */
  lemma MaskIdempotent(headers: map<string, string>)
    ensures Masked(Masked(headers)) == Masked(headers)
  {
    forall k | k in headers
      ensures MaskedValue(k, MaskedValue(k, headers[k])) == MaskedValue(k, headers[k])
    {
      MaskedValueIdempotent(k, headers[k]);
    }
  }

  /** The header built from any token is logged as `Bearer ***`: the token never appears. */
  lemma AuthHeaderMasked(auth: Auth.BearerAuth)
    ensures Masked(auth.GetHeaders()) == map["Authorization" := "Bearer ***"]
  {
    assert Lower("Authorization") == "authorization";
  }

  /** The truncation rule of `format_response_body`, applied to the already formatted text. */
  function Truncate(formatted: string): (r: string)
    ensures |formatted| <= MAX_LOG_BODY_LENGTH ==> r == formatted
    ensures |formatted| > MAX_LOG_BODY_LENGTH ==>
      |r| > MAX_LOG_BODY_LENGTH && r[..MAX_LOG_BODY_LENGTH] == formatted[..MAX_LOG_BODY_LENGTH]
  {
    if |formatted| > MAX_LOG_BODY_LENGTH then
      formatted[..MAX_LOG_BODY_LENGTH] + "... (truncated, " + NatToString(|formatted|) + " chars total)"
    else formatted
  }

  /** The suffix of a truncated body states the original length, which can be read back from it. */
  lemma TruncateReportsLength(formatted: string)
    requires |formatted| > MAX_LOG_BODY_LENGTH
    ensures var r := Truncate(formatted);
      var start := MAX_LOG_BODY_LENGTH + |"... (truncated, "|;
      start <= |r| - |" chars total)"| &&
      r[..MAX_LOG_BODY_LENGTH] == formatted[..MAX_LOG_BODY_LENGTH] &&
      r[MAX_LOG_BODY_LENGTH..start] == "... (truncated, " &&
      r[|r| - |" chars total)"|..] == " chars total)" &&
      ParseDigits(r[start..|r| - |" chars total)"|]) == |formatted|
  {
    var digits := NatToString(|formatted|);
    var r := Truncate(formatted);
    var start := MAX_LOG_BODY_LENGTH + |"... (truncated, "|;
    assert r[start..|r| - |" chars total)"|] == digits;
    NatToStringRoundTrip(|formatted|);
  }

  /**
   * `format_response_body(body)`: `None` is rendered as "None"; anything else is
   * rendered by `render` (the JSON pretty-printer or `str`) and then truncated.
   */
  function FormatResponseBody(body: Json, render: Json -> string): (r: string)
    ensures body == Null ==> r == "None"
    ensures body != Null && |render(body)| <= MAX_LOG_BODY_LENGTH ==> r == render(body)
    ensures body != Null && |render(body)| > MAX_LOG_BODY_LENGTH ==>
      |r| > MAX_LOG_BODY_LENGTH && r[..MAX_LOG_BODY_LENGTH] == render(body)[..MAX_LOG_BODY_LENGTH]
  {
    if body == Null then "None" else Truncate(render(body))
  }

  /** A level as passed by the caller: a name such as "debug", or a number. */
  datatype Level = Name(name: string) | Number(value: int)

  /** The numeric levels the `logging` module names. */
  const LEVEL_NAMES: map<string, int> :=
    map["CRITICAL" := 50, "FATAL" := 50, "ERROR" := 40, "WARNING" := 30, "WARN" := 30,
        "INFO" := 20, "DEBUG" := 10, "NOTSET" := 0]

  const INFO: int := 20

  /** `_normalize_log_level(level)`. */
  function NormalizeLogLevel(level: Level): (r: int)
    ensures level.Number? ==> r == level.value
    ensures level.Name? && Upper(level.name) !in LEVEL_NAMES ==> r == INFO
  {
    match level
    case Number(n) => n
    case Name(s) => if Upper(s) in LEVEL_NAMES then LEVEL_NAMES[Upper(s)] else INFO
  }

  /** A level name is read case-insensitively. */
  lemma NormalizeCaseInsensitive(name: string)
    ensures NormalizeLogLevel(Name(Lower(name))) == NormalizeLogLevel(Name(name))
    ensures NormalizeLogLevel(Name(Upper(name))) == NormalizeLogLevel(Name(name))
  {
    UpperOfLower(name);
    UpperIdempotent(name);
  }

  /** The five documented names map to the standard levels, in either case; anything unknown is INFO. */
  lemma StandardLevels()
    ensures NormalizeLogLevel(Name("DEBUG")) == 10 && NormalizeLogLevel(Name("debug")) == 10
    ensures NormalizeLogLevel(Name("INFO")) == 20 && NormalizeLogLevel(Name("info")) == 20
    ensures NormalizeLogLevel(Name("WARNING")) == 30 && NormalizeLogLevel(Name("warning")) == 30
    ensures NormalizeLogLevel(Name("ERROR")) == 40 && NormalizeLogLevel(Name("error")) == 40
    ensures NormalizeLogLevel(Name("CRITICAL")) == 50 && NormalizeLogLevel(Name("critical")) == 50
    ensures NormalizeLogLevel(Name("bogus")) == INFO
  {
    assert Upper("debug") == "DEBUG";
    assert Upper("DEBUG") == "DEBUG";
    assert Upper("info") == "INFO";
    assert Upper("INFO") == "INFO";
    assert Upper("warning") == "WARNING";
    assert Upper("WARNING") == "WARNING";
    assert Upper("error") == "ERROR";
    assert Upper("ERROR") == "ERROR";
    assert Upper("critical") == "CRITICAL";
    assert Upper("CRITICAL") == "CRITICAL";
    assert Upper("bogus") == "BOGUS";
  }
}
