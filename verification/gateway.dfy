/** The `/send-sms` endpoint: recipient validation, the quiet-hours gate, text
    decoration, and either a mock echo or a send through a newly built provider
    client, with provider failures mapped to 502. */
module Gateway {
  import opened Wrappers
  import UtilsUs
  import N2P

  // ---------------------------------------------------------------------------
  // Settings and request/response shapes
  // ---------------------------------------------------------------------------

  const DEFAULT_BRAND_TAG := "PLS N2P"
  const DEFAULT_SENDER := "+17543050540"
  const OPT_OUT_NOTICE := " Reply STOP to opt-out."
  const PROVIDER_NAME := "net2phone"
  const INVALID_NUMBER_DETAIL := "Invalid US E.164 number (+1XXXXXXXXXX)"
  const QUIET_HOURS_DETAIL := "Quiet hours in effect (8am\U{2013}9pm ET by default)"

  /** `BRAND_TAG`, `ALLOWED_HOURS_START`, `ALLOWED_HOURS_END`, `DEFAULT_SENDER` and
      whether `MOCK_SEND` reads as `true`. */
  datatype Settings =
    Settings(brandTag: string, allowedStart: int, allowedEnd: int, defaultSender: string, mockSend: bool)

  /** The settings with no environment variable set (`MOCK_SEND` defaults to `true`). */
  const DEFAULT_SETTINGS :=
    Settings(DEFAULT_BRAND_TAG, UtilsUs.DEFAULT_START_HOUR, UtilsUs.DEFAULT_END_HOUR, DEFAULT_SENDER, true)

  /** `SendSmsPayload`; `subdomain`, `lead_id` and `meta` are accepted and unused. */
  datatype SendSmsPayload = SendSmsPayload(
    to: string,
    text: string,
    sender: Option<string>,
    subdomain: Option<string>,
    leadId: Option<int>,
    meta: Option<map<string, N2P.Value>>)

  datatype Echo = Echo(to: string, text: string, sender: string)

  datatype Detail = Message(text: string) | ProviderError(error: N2P.ClientError)

  datatype Reply =
    | QueuedMock(provider: string, echo: Echo)
    | QueuedSent(provider: string, result: N2P.SmsResult)
    | HttpError(status: int, detail: Detail)
      /** An exception outside the handler's `try`: the framework answers 500. */
    | InternalServerError(cause: N2P.ConfigError)
  {
    function Status(): int {
      match this
      case QueuedMock(_, _) => 200
      case QueuedSent(_, _) => 200
      case HttpError(status, _) => status
      case InternalServerError(_) => 500
    }
  }

  /** What the live path needs besides the request: the provider client's
      environment, the clock, and the provider's answers. */
  datatype ProviderEnv = ProviderEnv(vars: N2P.EnvVars, scope: Option<string>, now: int, oracle: seq<N2P.Outcome>)

  // ---------------------------------------------------------------------------
  // Text decoration
  // ---------------------------------------------------------------------------

  /** `decorate_text`: `[brand] ` before the text, the opt-out notice after it. */
  function DecorateText(brandTag: string, text: string): (r: string)
    ensures |r| == |text| + |brandTag| + 26
    ensures r[..|brandTag| + 3] == "[" + brandTag + "] "
    ensures r[|brandTag| + 3..|brandTag| + 3 + |text|] == text
    ensures r[|brandTag| + 3 + |text|..] == OPT_OUT_NOTICE
  {
    var base := "[" + brandTag + "] " + text;
    base + OPT_OUT_NOTICE
  }

  /** Recovers the original text from a decorated message, if it is one. */
  function StripDecoration(brandTag: string, r: string): Option<string> {
    var head := "[" + brandTag + "] ";
    if |r| >= |head| + |OPT_OUT_NOTICE| && r[..|head|] == head && r[|r| - |OPT_OUT_NOTICE|..] == OPT_OUT_NOTICE
    then Some(r[|head|..|r| - |OPT_OUT_NOTICE|])
    else None
  }

  /** Decoration loses nothing: the text comes back out unchanged. */
  lemma DecorateRoundTrip(brandTag: string, text: string)
    ensures StripDecoration(brandTag, DecorateText(brandTag, text)) == Some(text)
  {
    var r := DecorateText(brandTag, text);
    assert |r| - |OPT_OUT_NOTICE| == |brandTag| + 3 + |text|;
  }

  /** Only decorated messages strip: what strips is the decoration of its result. */
  lemma StripDecorationSound(brandTag: string, r: string)
    requires StripDecoration(brandTag, r).Some?
    ensures DecorateText(brandTag, StripDecoration(brandTag, r).value) == r
  {
    var head := "[" + brandTag + "] ";
    var t := StripDecoration(brandTag, r).value;
    assert r == r[..|head|] + t + r[|r| - |OPT_OUT_NOTICE|..];
  }

  // ---------------------------------------------------------------------------
  // The handler
  // ---------------------------------------------------------------------------

  /** `payload.sender or DEFAULT_SENDER`: an absent or empty sender falls back to
      the default, so with a non-empty default the provider always gets a `from`. */
  function ResolveSender(sender: Option<string>, defaultSender: string): (r: string)
    ensures N2P.Truthy(sender) ==> r == sender.value
    ensures !N2P.Truthy(sender) ==> r == defaultSender
    ensures defaultSender != "" ==> N2P.Truthy(Some(r))
  {
    if N2P.Truthy(sender) then sender.value else defaultSender
  }

  /** The live branch of `send_sms`: read the client configuration, then send
      through a new client, whose token cache starts empty. A configuration error
      escapes the handler's `try`; any client error becomes a 502. */
  function LiveSend(to: string, msg: string, sender: string, env: ProviderEnv): (out: (Reply, seq<N2P.Request>))
    ensures out.0.Status() in {200, 500, 502}
    ensures out.0.Status() == 500 <==> N2P.FromEnv(env.vars).Failure?
    ensures N2P.FromEnv(env.vars).Failure? ==> out == (InternalServerError(N2P.FromEnv(env.vars).error), [])
    ensures N2P.FromEnv(env.vars).Success? ==>
      var p := N2P.Provider(env.oracle, []);
      var s := N2P.SendSms(N2P.FromEnv(env.vars).value, env.scope, env.now, to, msg, Some(sender), map[],
                           N2P.EMPTY_CACHE, p);
      && out.1 == N2P.NewRequests(p, s.provider)
      && (s.result.Success? ==> out.0 == QueuedSent(PROVIDER_NAME, s.result.value))
      && (s.result.Failure? ==> out.0 == HttpError(502, ProviderError(s.result.error)))
  {
    match N2P.FromEnv(env.vars)
    case Failure(e) => (InternalServerError(e), [])
    case Success(cfg) =>
      var p := N2P.Provider(env.oracle, []);
      var s := N2P.SendSms(cfg, env.scope, env.now, to, msg, Some(sender), map[], N2P.EMPTY_CACHE, p);
      assert N2P.NewRequests(p, s.provider) == s.provider.sent;
      match s.result
      case Success(r) => (QueuedSent(PROVIDER_NAME, r), s.provider.sent)
      case Failure(e) => (HttpError(502, ProviderError(e)), s.provider.sent)
  }

  /** `send_sms`: the reply, and the requests made to the provider. */
  function SendSms(payload: SendSmsPayload, at: UtilsUs.EasternTime, settings: Settings, env: ProviderEnv)
    : (out: (Reply, seq<N2P.Request>))
    ensures !UtilsUs.IsValidUsE164(payload.to) ==> out == (HttpError(400, Message(INVALID_NUMBER_DETAIL)), [])
    ensures UtilsUs.IsValidUsE164(payload.to)
            && UtilsUs.WithinQuietHoursEt(at, settings.allowedStart, settings.allowedEnd) ==>
      out == (HttpError(429, Message(QUIET_HOURS_DETAIL)), [])
    ensures UtilsUs.IsValidUsE164(payload.to)
            && !UtilsUs.WithinQuietHoursEt(at, settings.allowedStart, settings.allowedEnd)
            && settings.mockSend ==>
      && out.1 == []
      && out.0 == QueuedMock(PROVIDER_NAME, Echo(payload.to, DecorateText(settings.brandTag, payload.text),
                                                 ResolveSender(payload.sender, settings.defaultSender)))
    ensures out.1 != [] ==> UtilsUs.IsValidUsE164(payload.to) && !settings.mockSend
  {
    if !UtilsUs.IsValidUsE164(payload.to) then
      (HttpError(400, Message(INVALID_NUMBER_DETAIL)), [])
    else if UtilsUs.WithinQuietHoursEt(at, settings.allowedStart, settings.allowedEnd) then
      (HttpError(429, Message(QUIET_HOURS_DETAIL)), [])
    else
      var msg := DecorateText(settings.brandTag, payload.text);
      var sender := ResolveSender(payload.sender, settings.defaultSender);
      if settings.mockSend then
        (QueuedMock(PROVIDER_NAME, Echo(payload.to, msg, sender)), [])
      else
        LiveSend(payload.to, msg, sender, env)
  }

  /** 400 exactly for an invalid recipient, and 429 exactly for a valid one in
      quiet hours: no provider answer can produce either. */
  lemma StatusCodesOfTheGate(payload: SendSmsPayload, at: UtilsUs.EasternTime, settings: Settings, env: ProviderEnv)
    ensures SendSms(payload, at, settings, env).0.Status() == 400 <==> !UtilsUs.IsValidUsE164(payload.to)
    ensures SendSms(payload, at, settings, env).0.Status() == 429 <==>
      UtilsUs.IsValidUsE164(payload.to) && UtilsUs.WithinQuietHoursEt(at, settings.allowedStart, settings.allowedEnd)
  {
  }

  /** In mock mode the provider's environment and answers make no difference. */
  lemma MockIgnoresProvider(payload: SendSmsPayload, at: UtilsUs.EasternTime, settings: Settings,
                            env1: ProviderEnv, env2: ProviderEnv)
    requires settings.mockSend
    ensures SendSms(payload, at, settings, env1) == SendSms(payload, at, settings, env2)
  {
  }

  /** The live path: a missing client id or secret escapes as a 500; otherwise the
      reply is 200 with the client's result or 502 with its error, the requests
      reported are exactly those the client made, one to six of them with at most
      two SMS posts, and the first is always a body-credentials token request,
      since the new client's cache is empty. */
  lemma LiveSendOutcome(payload: SendSmsPayload, at: UtilsUs.EasternTime, settings: Settings, env: ProviderEnv)
    requires UtilsUs.IsValidUsE164(payload.to)
    requires !UtilsUs.WithinQuietHoursEt(at, settings.allowedStart, settings.allowedEnd)
    requires !settings.mockSend
    ensures var out := SendSms(payload, at, settings, env);
      N2P.FromEnv(env.vars).Failure? ==> out == (InternalServerError(N2P.FromEnv(env.vars).error), [])
    ensures var out := SendSms(payload, at, settings, env);
      N2P.FromEnv(env.vars).Success? ==>
        var cfg := N2P.FromEnv(env.vars).value;
        var msg := DecorateText(settings.brandTag, payload.text);
        var sender := ResolveSender(payload.sender, settings.defaultSender);
        var p := N2P.Provider(env.oracle, []);
        var s := N2P.SendSms(cfg, env.scope, env.now, payload.to, msg, Some(sender), map[], N2P.EMPTY_CACHE, p);
        && (out.0.Status() == 502 <==> s.result.Failure?)
        && (out.0.Status() == 200 <==> s.result.Success?)
        && (s.result.Success? ==> out.0 == QueuedSent(PROVIDER_NAME, s.result.value))
        && (s.result.Failure? ==> out.0 == HttpError(502, ProviderError(s.result.error)))
        && out.1 == N2P.NewRequests(p, s.provider)
        && 1 <= |out.1| <= 6 && N2P.CountSms(out.1) <= 2
        && out.1[0] == N2P.BodyCredentialsRequest(cfg, env.scope)
  {
    if N2P.FromEnv(env.vars).Success? {
      var cfg := N2P.FromEnv(env.vars).value;
      var msg := DecorateText(settings.brandTag, payload.text);
      var sender := ResolveSender(payload.sender, settings.defaultSender);
      var p := N2P.Provider(env.oracle, []);
      var s := N2P.SendSms(cfg, env.scope, env.now, payload.to, msg, Some(sender), map[], N2P.EMPTY_CACHE, p);
      var log := N2P.NewRequests(p, s.provider);
      N2P.SendSmsRequestBounds(cfg, env.scope, env.now, payload.to, msg, Some(sender), map[], N2P.EMPTY_CACHE, p);
      var body := N2P.BuildPayload(payload.to, msg, Some(sender), map[]);
      N2P.ColdStartFetchesToken(log, cfg, env.scope, body, env.now, p);
    }
  }

  /** The mock path with the default settings: a valid number (such
      as `+15551234567`, see `UtilsUs.E164Examples`) with text `Hello` and no sender,
      inside the allowed hours, is echoed with the branded text and the default
      sender, and no request reaches the provider. */
  lemma MockExample(to: string, at: UtilsUs.EasternTime, env: ProviderEnv)
    requires UtilsUs.IsValidUsE164(to)
    requires 8 <= at.hour < 21
    ensures SendSms(SendSmsPayload(to, "Hello", None, None, None, None), at, DEFAULT_SETTINGS, env) ==
      (QueuedMock("net2phone", Echo(to, "[PLS N2P] Hello" + OPT_OUT_NOTICE, "+17543050540")), [])
  {
    var payload := SendSmsPayload(to, "Hello", None, None, None, None);
    var st := DEFAULT_SETTINGS;
    assert !UtilsUs.WithinQuietHoursEt(at, st.allowedStart, st.allowedEnd);
    DecorateDefaultBrand();
  }

  /** The default brand tag applied to `Hello`. */
  lemma DecorateDefaultBrand()
    ensures DecorateText(DEFAULT_BRAND_TAG, "Hello") == "[PLS N2P] Hello" + OPT_OUT_NOTICE
  {
  }
}
