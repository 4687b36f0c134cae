/**
 * `Settings` of `config/settings.py`: the values read from the environment,
 * the routing of monitored channels to the crypto or equities output, and
 * the check that every required setting is present.
 */
module Settings {
  import opened Wrappers
  import opened PyStr

  /** The settings read from the environment (the temp directory and base path are left out). */
  datatype Config = Config(
    apiId: int,
    apiHash: string,
    phone: string,
    sessionName: string,
    outputChannelId: string,
    cryptoOutputChannel: string,
    equitiesOutputChannel: string,
    statusDestinationId: string,
    geminiApiKey: string,
    logLevel: string)

  /** `os.getenv(key, default)`. */
  function Getenv(env: map<string, string>, key: string, default: string): (r: string)
    ensures key in env ==> r == env[key]
    ensures key !in env ==> r == default
  {
    if key in env then env[key] else default
  }

  /**
   * `Settings()` over an environment; `parseInt` stands for `int(...)`, whose
   * failure makes construction raise.
   */
  function FromEnv(env: map<string, string>, parseInt: string -> Result<int>): (r: Result<Config>)
    ensures r.Err? <==> parseInt(Getenv(env, "TELEGRAM_API_ID", "0")).Err?
    ensures r.Ok? ==> && r.value.cryptoOutputChannel == Getenv(env, "CRYPTO_OUTPUT_CHANNEL", "@cryptonotifs")
                      && r.value.equitiesOutputChannel == Getenv(env, "EQUITIES_OUTPUT_CHANNEL", "@equitiesnotifs")
                      && r.value.sessionName == Getenv(env, "SESSION_NAME", "yaronotifs_session")
                      && r.value.outputChannelId == Getenv(env, "OUTPUT_CHANNEL_ID", "")
  {
    match parseInt(Getenv(env, "TELEGRAM_API_ID", "0"))
    case Err(e) => Err(e)
    case Ok(apiId) =>
      Ok(Config(
        apiId,
        Getenv(env, "TELEGRAM_API_HASH", ""),
        Getenv(env, "TELEGRAM_PHONE", ""),
        Getenv(env, "SESSION_NAME", "yaronotifs_session"),
        Getenv(env, "OUTPUT_CHANNEL_ID", ""),
        Getenv(env, "CRYPTO_OUTPUT_CHANNEL", "@cryptonotifs"),
        Getenv(env, "EQUITIES_OUTPUT_CHANNEL", "@equitiesnotifs"),
        Getenv(env, "STATUS_DESTINATION_ID", ""),
        Getenv(env, "GEMINI_API_KEY", ""),
        Getenv(env, "LOG_LEVEL", "INFO")))
  }

  const GeminiModel := "models/gemini-2.5-flash"
  const MaxRetries := 3
  const RetryDelay := 2
  const BackoffMultiplier := 2
  const MaxPdfSizeMb := 50
  const RequestTimeout := 60

  /** The monitored source channels. */
  const BweNews := -1001279597711
  const ForesightNews := -1001526765830
  const DtPapers := -1001750561680
  const TestChannel := -1003309883285

  const MonitoredChannels: seq<int> := [BweNews, ForesightNews, DtPapers, TestChannel]

  /** `CHANNEL_ROUTING`: the news channels and the test channel to crypto, the research channel to equities. */
  function ChannelRouting(c: Config): map<int, string> {
    map[BweNews := c.cryptoOutputChannel, ForesightNews := c.cryptoOutputChannel,
        DtPapers := c.equitiesOutputChannel, TestChannel := c.cryptoOutputChannel]
  }

  /** `is_monitored_channel(channel_id)`: one of the four configured channels. */
  predicate IsMonitoredChannel(channelId: int): (r: bool)
    ensures r <==> channelId == BweNews || channelId == ForesightNews || channelId == DtPapers || channelId == TestChannel
  {
    channelId in MonitoredChannels
  }

  /** `get_output_channel(source_channel_id)`: the routed channel, else the default output channel. */
  function OutputChannel(c: Config, sourceChannelId: int): (r: string)
    ensures sourceChannelId in ChannelRouting(c) ==> r == ChannelRouting(c)[sourceChannelId]
    ensures sourceChannelId !in ChannelRouting(c) ==> r == c.outputChannelId
  {
    var routing := ChannelRouting(c);
    if sourceChannelId in routing then routing[sourceChannelId] else c.outputChannelId
  }

  /**
   * The routing table covers exactly the monitored channels, each routed to
   * the crypto or the equities channel; so a monitored channel never falls
   * back to the default output channel, and any other one always does.
   */
  lemma RoutingCoversMonitored(c: Config, channelId: int)
    ensures channelId in ChannelRouting(c) <==> IsMonitoredChannel(channelId)
    ensures IsMonitoredChannel(channelId) ==>
      OutputChannel(c, channelId) == c.cryptoOutputChannel || OutputChannel(c, channelId) == c.equitiesOutputChannel
    ensures !IsMonitoredChannel(channelId) ==> OutputChannel(c, channelId) == c.outputChannelId
  {
  }

  /** The settings `validate` requires, in the order it checks them. */
  datatype Required = ApiId | ApiHash | Phone | OutputChannelId | GeminiApiKey

  const RequiredOrder: seq<Required> := [ApiId, ApiHash, Phone, OutputChannelId, GeminiApiKey]

  /** Whether a required setting is missing; an API id of 0 counts as missing. */
  predicate Missing(c: Config, f: Required) {
    match f
    case ApiId => c.apiId == 0
    case ApiHash => c.apiHash == ""
    case Phone => c.phone == ""
    case OutputChannelId => c.outputChannelId == ""
    case GeminiApiKey => c.geminiApiKey == ""
  }

  function RequiredError(f: Required): string {
    match f
    case ApiId => "TELEGRAM_API_ID is required"
    case ApiHash => "TELEGRAM_API_HASH is required"
    case Phone => "TELEGRAM_PHONE is required"
    case OutputChannelId => "OUTPUT_CHANNEL_ID is required"
    case GeminiApiKey => "GEMINI_API_KEY is required"
  }

  /** The errors for the missing settings among the first `k` checked, in order. */
  function ErrorsUpTo(c: Config, k: nat): seq<string>
    requires k <= |RequiredOrder|
  {
    if k == 0 then []
    else ErrorsUpTo(c, k - 1) + (if Missing(c, RequiredOrder[k - 1]) then [RequiredError(RequiredOrder[k - 1])] else [])
  }

  /** The errors `validate` collects. */
  function MissingErrors(c: Config): seq<string> {
    ErrorsUpTo(c, |RequiredOrder|)
  }

  /** The `ValueError` message: one `  - ` line per error under a fixed heading. */
  function ValidationMessage(errors: seq<string>): string {
    "Configuration validation failed:\n" + Join(seq(|errors|, i requires 0 <= i < |errors| => "  - " + errors[i]), "\n")
  }

  /** Distinct settings have distinct error texts. */
  lemma RequiredErrorInjective(f: Required, g: Required)
    ensures RequiredError(f) == RequiredError(g) ==> f == g
  {
  }

  /** An error is listed exactly for each missing setting among the first `k` checked. */
  lemma {:induction false} ErrorsUpToComplete(c: Config, k: nat, f: Required)
    requires k <= |RequiredOrder|
    ensures RequiredError(f) in ErrorsUpTo(c, k) <==> f in RequiredOrder[..k] && Missing(c, f)
  {
    if k > 0 {
      ErrorsUpToComplete(c, k - 1, f);
      RequiredErrorInjective(f, RequiredOrder[k - 1]);
      assert RequiredOrder[..k] == RequiredOrder[..k - 1] + [RequiredOrder[k - 1]];
    }
  }

  /** Every listed error is the error of some setting. */
  lemma {:induction false} ErrorsUpToMembers(c: Config, k: nat, e: string)
    requires k <= |RequiredOrder|
    requires e in ErrorsUpTo(c, k)
    ensures exists g :: RequiredError(g) == e
  {
    if e in ErrorsUpTo(c, k - 1) {
      ErrorsUpToMembers(c, k - 1, e);
    } else {
      assert RequiredError(RequiredOrder[k - 1]) == e;
    }
  }

  /**
   * `validate()`: collects an error for every missing setting, not just the
   * first, and raises them together; `True` when nothing is missing.
   */
  method Validate(c: Config) returns (r: Result<bool>)
    ensures r.Ok? <==> MissingErrors(c) == []
    ensures r.Ok? ==> r.value
    ensures r.Err? ==> r.error == ValidationMessage(MissingErrors(c))
  {
    var errors: seq<string> := [];
    if c.apiId == 0 {
      errors := errors + [RequiredError(ApiId)];
    }
    assert errors == ErrorsUpTo(c, 1);
    if c.apiHash == "" {
      errors := errors + [RequiredError(ApiHash)];
    }
    assert errors == ErrorsUpTo(c, 2);
    if c.phone == "" {
      errors := errors + [RequiredError(Phone)];
    }
    assert errors == ErrorsUpTo(c, 3);
    if c.outputChannelId == "" {
      errors := errors + [RequiredError(OutputChannelId)];
    }
    assert errors == ErrorsUpTo(c, 4);
    if c.geminiApiKey == "" {
      errors := errors + [RequiredError(GeminiApiKey)];
    }
    assert errors == ErrorsUpTo(c, 5);
    if errors != [] {
      return Err(ValidationMessage(errors));
    }
    return Ok(true);
  }

  /** `validate` fails exactly when some required setting is missing, and then names each missing one. */
  lemma ValidateReportsAll(c: Config, f: Required)
    ensures MissingErrors(c) == [] <==> forall g :: g in RequiredOrder ==> !Missing(c, g)
    ensures RequiredError(f) in MissingErrors(c) <==> Missing(c, f)
  {
    assert RequiredOrder[..|RequiredOrder|] == RequiredOrder;
    ErrorsUpToComplete(c, |RequiredOrder|, f);
    if MissingErrors(c) == [] {
      forall g | g in RequiredOrder ensures !Missing(c, g) {
        ErrorsUpToComplete(c, |RequiredOrder|, g);
      }
    } else {
      var e := MissingErrors(c)[0];
      var g: Required :| RequiredError(g) == e by {
        ErrorsUpToMembers(c, |RequiredOrder|, e);
      }
      ErrorsUpToComplete(c, |RequiredOrder|, g);
    }
  }
}
