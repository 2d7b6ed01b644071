/** The net2phone provider client: configuration defaults, the `(token, exp)` cache,
    the two-attempt client-credentials token fetch and the SMS submission with a
    single re-authentication after a 401.

    The provider is an oracle: a sequence of outcomes, one per POST, consumed in
    order. The client's requests are appended to a log so that request counts and
    request contents can be stated. */
module N2P {
  import opened Wrappers

  // ---------------------------------------------------------------------------
  // Configuration (`N2PConfig`, `N2PConfig.from_env`)
  // ---------------------------------------------------------------------------

  datatype Config = Config(baseUrl: string, clientId: string, clientSecret: string, tokenUrl: string, smsUrl: string)

  /** The environment variables `from_env` reads; `None` is an unset variable. */
  datatype EnvVars = EnvVars(
    baseUrl: Option<string>,
    tokenUrl: Option<string>,
    smsUrl: Option<string>,
    clientId: Option<string>,
    clientSecret: Option<string>)

  /** The `KeyError` raised for a required variable that is unset. */
  datatype ConfigError = MissingVariable(name: string)

  const DEFAULT_BASE_URL := "https://api.n2p.io/v2"
  const DEFAULT_TOKEN_URL := "https://auth.net2phone.com/connect/token"
  const SMS_PATH := "/messaging/sms"

  /** `s.rstrip("/")`: the longest prefix of `s` that does not end in `/`. */
  function RStripSlash(s: string): (r: string)
    ensures r <= s
    ensures r == [] || r[|r| - 1] != '/'
    ensures forall i :: |r| <= i < |s| ==> s[i] == '/'
  {
    if s != [] && s[|s| - 1] == '/' then RStripSlash(s[..|s| - 1]) else s
  }

  /** `N2PConfig.from_env`, with the environment as a parameter. */
  function FromEnv(env: EnvVars): (r: Result<Config, ConfigError>)
    ensures r.Success? <==> env.clientId.Some? && env.clientSecret.Some?
    ensures env.clientId.None? ==> r == Failure(MissingVariable("N2P_CLIENT_ID"))
    ensures env.clientId.Some? && env.clientSecret.None? ==> r == Failure(MissingVariable("N2P_CLIENT_SECRET"))
    ensures r.Success? ==>
      && r.value.clientId == env.clientId.value
      && r.value.clientSecret == env.clientSecret.value
      && r.value.tokenUrl == env.tokenUrl.GetOr(DEFAULT_TOKEN_URL)
      && r.value.baseUrl == RStripSlash(env.baseUrl.GetOr(DEFAULT_BASE_URL))
      && (r.value.baseUrl == [] || r.value.baseUrl[|r.value.baseUrl| - 1] != '/')
      && r.value.baseUrl <= env.baseUrl.GetOr(DEFAULT_BASE_URL)
      && (env.smsUrl.Some? ==> r.value.smsUrl == env.smsUrl.value)
      && (env.smsUrl.None? ==> r.value.smsUrl == r.value.baseUrl + SMS_PATH)
  {
    var base := RStripSlash(env.baseUrl.GetOr(DEFAULT_BASE_URL));
    var tokenUrl := env.tokenUrl.GetOr(DEFAULT_TOKEN_URL);
    var smsUrl := env.smsUrl.GetOr(base + SMS_PATH);
    if env.clientId.None? then Failure(MissingVariable("N2P_CLIENT_ID"))
    else if env.clientSecret.None? then Failure(MissingVariable("N2P_CLIENT_SECRET"))
    else Success(Config(base, env.clientId.value, env.clientSecret.value, tokenUrl, smsUrl))
  }

  /** With no URL variables set, the built-in endpoints are used; trailing slashes
      of a configured base are dropped before the SMS path is appended. */
  lemma DefaultUrls(env: EnvVars)
    requires env.clientId.Some? && env.clientSecret.Some?
    requires env.baseUrl.None? && env.tokenUrl.None? && env.smsUrl.None?
    ensures FromEnv(env).Success?
    ensures FromEnv(env).value.baseUrl == "https://api.n2p.io/v2"
    ensures FromEnv(env).value.tokenUrl == "https://auth.net2phone.com/connect/token"
    ensures FromEnv(env).value.smsUrl == "https://api.n2p.io/v2/messaging/sms"
  {
    assert RStripSlash(DEFAULT_BASE_URL) == DEFAULT_BASE_URL;
  }

  /** Stripping is idempotent, and a base followed by any run of slashes strips to
      the same URL as the base itself. */
  lemma {:induction false} RStripSlashTrailing(base: string, k: nat)
    ensures RStripSlash(RStripSlash(base)) == RStripSlash(base)
    ensures RStripSlash(base + SlashRun(k)) == RStripSlash(base)
    decreases k
  {
    var r := RStripSlash(base);
    assert r == [] || r[|r| - 1] != '/';
    if k > 0 {
      var s := base + SlashRun(k);
      assert s[..|s| - 1] == base + SlashRun(k - 1);
      RStripSlashTrailing(base, k - 1);
    } else {
      assert base + SlashRun(0) == base;
    }
  }

  /** `k` slash characters. */
  function SlashRun(k: nat): (r: string)
    ensures |r| == k
    ensures forall i :: 0 <= i < k ==> r[i] == '/'
  {
    if k == 0 then "" else SlashRun(k - 1) + "/"
  }

  // ---------------------------------------------------------------------------
  // Provider oracle and request log
  // ---------------------------------------------------------------------------

  /** How `int(j.get("expires_in", 3600))` reads the token response. */
  datatype ExpiresIn = Absent | Seconds(n: int) | Unconvertible

  /** A provider response: its status, raw body, and the `access_token` and
      `expires_in` members of its JSON body (meaningful for token responses). */
  datatype Response = Response(status: int, content: string, accessToken: Option<string>, expiresIn: ExpiresIn)

  /** One logical POST after the transport layer's own retries: an answer, or an
      exception raised by the transport (connection failure, retries exhausted). */
  datatype Outcome = Answered(response: Response) | TransportFailure

  /** A field of the SMS payload: a string, or any other JSON value (kept as its text). */
  datatype Value = Str(s: string) | OtherJson(json: string)

  datatype Request =
    | TokenBodyCredentials(url: string, form: map<string, string>)
    | TokenBasicAuth(url: string, form: map<string, string>, user: string, password: string)
    | SmsPost(url: string, bearer: string, payload: map<string, Value>)

  /** Outcomes still to be delivered, and the requests sent so far. */
  datatype Provider = Provider(pending: seq<Outcome>, sent: seq<Request>)

  /** Statuses for which the transport retries and, once its retries are used up,
      raises instead of returning the response. */
  const RETRY_STATUSES: set<int> := {429, 500, 502, 503, 504}

  /** What the client sees of an oracle outcome. */
  function Deliver(o: Outcome): (d: Outcome)
    ensures d.Answered? ==> d == o && d.response.status !in RETRY_STATUSES
    ensures o.Answered? && o.response.status !in RETRY_STATUSES ==> d == o
  {
    if o.Answered? && o.response.status in RETRY_STATUSES then TransportFailure else o
  }

  function Drop(s: seq<Outcome>, n: nat): seq<Outcome> {
    if n <= |s| then s[n..] else []
  }

  /** The outcome the `k`-th request made from provider state `p` receives; an
      exhausted oracle answers with a transport failure. */
  function AnswerAt(p: Provider, k: nat): Outcome {
    Deliver(if k < |p.pending| then p.pending[k] else TransportFailure)
  }

  /** One POST: it is logged and consumes one oracle outcome. */
  function Post(p: Provider, req: Request): (res: (Outcome, Provider))
    ensures res.0 == AnswerAt(p, 0)
    ensures Advances(p, res.1) && NewRequests(p, res.1) == [req]
    ensures forall k: nat :: AnswerAt(res.1, k) == AnswerAt(p, k + 1)
  {
    (AnswerAt(p, 0), Provider(Drop(p.pending, 1), p.sent + [req]))
  }

  /** `after` follows `before` by some requests, each of which consumed one outcome. */
  predicate Advances(before: Provider, after: Provider) {
    && before.sent <= after.sent
    && after.pending == Drop(before.pending, |after.sent| - |before.sent|)
  }

  /** The requests made between two provider states. */
  function NewRequests(before: Provider, after: Provider): seq<Request>
    requires before.sent <= after.sent
  {
    after.sent[|before.sent|..]
  }

  /** Two runs of requests in a row are one run: logs concatenate, and the
      outcomes still pending are those after both runs. */
  lemma AdvancesTrans(a: Provider, b: Provider, c: Provider)
    requires Advances(a, b) && Advances(b, c)
    ensures Advances(a, c)
    ensures NewRequests(a, c) == NewRequests(a, b) + NewRequests(b, c)
    ensures forall k: nat :: AnswerAt(c, k) == AnswerAt(a, k + |NewRequests(a, c)|)
  {
    var n := |b.sent| - |a.sent|;
    var m := |c.sent| - |b.sent|;
    DropDrop(a.pending, n, m);
    assert |NewRequests(a, c)| == n + m;
    forall k: nat ensures AnswerAt(c, k) == AnswerAt(a, k + n + m) {
      DropIndex(a.pending, n + m, k);
    }
  }

  lemma DropDrop(s: seq<Outcome>, n: nat, m: nat)
    ensures Drop(Drop(s, n), m) == Drop(s, n + m)
  {
  }

  /** The `k`-th outcome after dropping `d` is the `(k + d)`-th before. */
  lemma DropIndex(s: seq<Outcome>, d: nat, k: nat)
    ensures (if k < |Drop(s, d)| then Drop(s, d)[k] else TransportFailure) ==
            (if k + d < |s| then s[k + d] else TransportFailure)
  {
  }

  /** `raise_for_status`: only 4xx and 5xx statuses raise. */
  predicate RaisesForStatus(status: int) {
    400 <= status < 600
  }

  // ---------------------------------------------------------------------------
  // Token cache (`N2PClient._token`, `N2PClient._exp`, `N2PClient._get_token`)
  // ---------------------------------------------------------------------------

  datatype Cache = Cache(token: Option<string>, exp: int)

  /** The cache of a newly constructed client. */
  const EMPTY_CACHE := Cache(None, 0)

  const EXPIRY_MARGIN := 30
  const DEFAULT_EXPIRES_IN := 3600

  /** Python truthiness of an optional string. */
  predicate Truthy(s: Option<string>) {
    s.Some? && s.value != ""
  }

  /** The cached token may be reused at time `now`. */
  predicate CacheFresh(c: Cache, now: int) {
    Truthy(c.token) && now < c.exp - EXPIRY_MARGIN
  }

  /** The cache never holds an empty token. */
  predicate CacheWellFormed(c: Cache) {
    c.token.None? || c.token.value != ""
  }

  datatype ClientError =
    | Transport
    | TokenHttpError(status: int, body: string)
    | InvalidTokenResponse
    | ExpiryNotInteger
    | SmsHttpError(status: int, detail: string)

  /** A client call's result, the cache it leaves and the provider state after it. */
  datatype Step<T> = Step(result: Result<T, ClientError>, cache: Cache, provider: Provider)

  /** The grant parameters shared by both token attempts. */
  function GrantForm(scope: Option<string>): (form: map<string, string>)
    ensures form.Keys == {"grant_type"} + (if Truthy(scope) then {"scope"} else {})
    ensures form["grant_type"] == "client_credentials"
    ensures Truthy(scope) ==> form["scope"] == scope.value
  {
    var data := map["grant_type" := "client_credentials"];
    if Truthy(scope) then data["scope" := scope.value] else data
  }

  /** First attempt: the credentials travel in the form body. */
  function BodyCredentialsRequest(cfg: Config, scope: Option<string>): Request {
    TokenBodyCredentials(cfg.tokenUrl,
                         GrantForm(scope)["client_id" := cfg.clientId]["client_secret" := cfg.clientSecret])
  }

  /** Second attempt: the same grant, the credentials as HTTP Basic authentication. */
  function BasicAuthRequest(cfg: Config, scope: Option<string>): Request {
    TokenBasicAuth(cfg.tokenUrl, GrantForm(scope), cfg.clientId, cfg.clientSecret)
  }

  /** The first answer calls for the Basic-auth attempt. */
  predicate IsAuthRejection(o: Outcome) {
    o.Answered? && o.response.status in {400, 401}
  }

  /** The token lifetime a response grants, when it is an integer. */
  function Lifetime(e: ExpiresIn): int
    requires !e.Unconvertible?
  {
    if e.Seconds? then e.n else DEFAULT_EXPIRES_IN
  }

  /** A final token answer from which a token is taken and cached. */
  predicate TokenAccepted(o: Outcome) {
    && o.Answered?
    && !RaisesForStatus(o.response.status)
    && Truthy(o.response.accessToken)
    && !o.response.expiresIn.Unconvertible?
  }

  /** The requests a token fetch may make: the body-credentials attempt, then the
      Basic-auth attempt when the first was rejected. */
  predicate IsTokenFetch(log: seq<Request>, cfg: Config, scope: Option<string>) {
    log == [BodyCredentialsRequest(cfg, scope)]
    || log == [BodyCredentialsRequest(cfg, scope), BasicAuthRequest(cfg, scope)]
  }

  /** The error raised for a final token answer that yields no token: the transport
      failure, the HTTP error, a missing or empty `access_token`, or else an
      `expires_in` that is not an integer. */
  function TokenError(o: Outcome): (e: ClientError)
    requires !TokenAccepted(o)
    ensures !e.SmsHttpError?
  {
    if o.TransportFailure? then Transport
    else if RaisesForStatus(o.response.status) then TokenHttpError(o.response.status, o.response.content)
    else if !Truthy(o.response.accessToken) then InvalidTokenResponse
    else ExpiryNotInteger
  }

  /** Checks the final token answer and updates the cache. `_token` is assigned
      before `expires_in` is converted, so a non-integer lifetime leaves the new
      token beside the old expiry. */
  function AcceptToken(o: Outcome, now: int, cache: Cache): (res: (Result<string, ClientError>, Cache))
    ensures res.0.Success? <==> TokenAccepted(o)
    ensures TokenAccepted(o) ==>
      && res.0 == Success(o.response.accessToken.value)
      && res.1 == Cache(o.response.accessToken, now + Lifetime(o.response.expiresIn))
    ensures !TokenAccepted(o) ==> res.0 == Failure(TokenError(o))
    ensures o.TransportFailure? ==> res == (Failure(Transport), cache)
    ensures o.Answered? && RaisesForStatus(o.response.status) ==>
      res == (Failure(TokenHttpError(o.response.status, o.response.content)), cache)
    ensures o.Answered? && !RaisesForStatus(o.response.status) && !Truthy(o.response.accessToken) ==>
      res == (Failure(InvalidTokenResponse), cache)
    ensures o.Answered? && !RaisesForStatus(o.response.status) && Truthy(o.response.accessToken)
            && o.response.expiresIn.Unconvertible? ==>
      res == (Failure(ExpiryNotInteger), Cache(o.response.accessToken, cache.exp))
  {
    if !TokenAccepted(o) then
      var e := TokenError(o);
      (Failure(e), if e == ExpiryNotInteger then Cache(o.response.accessToken, cache.exp) else cache)
    else
      (Success(o.response.accessToken.value), Cache(o.response.accessToken, now + Lifetime(o.response.expiresIn)))
  }

  /** `_get_token(force)`. */
  function GetToken(cfg: Config, scope: Option<string>, now: int, force: bool, cache: Cache, p: Provider)
    : (s: Step<string>)
    ensures Advances(p, s.provider)
    ensures var log := NewRequests(p, s.provider);
      && (log == [] <==> !force && CacheFresh(cache, now))
      && (log == [] ==> s.result == Success(cache.token.value) && s.cache == cache)
      && (log != [] ==> IsTokenFetch(log, cfg, scope))
      && (|log| == 2 <==> log != [] && IsAuthRejection(AnswerAt(p, 0)))
    ensures var log := NewRequests(p, s.provider);
      log != [] ==>
        var final := AnswerAt(p, |log| - 1);
        && (s.result.Success? <==> TokenAccepted(final))
        && (s.result.Success? ==>
              && s.result.value == final.response.accessToken.value
              && s.cache == Cache(Some(s.result.value), now + Lifetime(final.response.expiresIn)))
        && (final.TransportFailure? ==> s.result == Failure(Transport))
        && (s.result.Failure? ==> s.result == Failure(TokenError(final)))
        && s.cache == AcceptToken(final, now, cache).1
        && (final.Answered? && RaisesForStatus(final.response.status) ==>
              s.result == Failure(TokenHttpError(final.response.status, final.response.content)) && s.cache == cache)
        && (final.Answered? && !RaisesForStatus(final.response.status) && !Truthy(final.response.accessToken) ==>
              s.result == Failure(InvalidTokenResponse) && s.cache == cache)
        && (final.Answered? && !RaisesForStatus(final.response.status) && Truthy(final.response.accessToken)
            && final.response.expiresIn.Unconvertible? ==>
              s.result == Failure(ExpiryNotInteger) && s.cache == Cache(final.response.accessToken, cache.exp))
    ensures s.result.Success? ==> s.result.value != "" && s.cache.token == Some(s.result.value)
    ensures s.result.Failure? && s.result.error != ExpiryNotInteger ==> s.cache == cache
    ensures s.result.Failure? && s.result.error == ExpiryNotInteger ==>
      s.cache.exp == cache.exp && Truthy(s.cache.token)
    ensures CacheWellFormed(cache) ==> CacheWellFormed(s.cache)
  {
    if !force && CacheFresh(cache, now) then
      Step(Success(cache.token.value), cache, p)
    else
      var (first, p1) := Post(p, BodyCredentialsRequest(cfg, scope));
      var (final, p2) := if IsAuthRejection(first) then Post(p1, BasicAuthRequest(cfg, scope)) else (first, p1);
      assert AnswerAt(p1, 0) == AnswerAt(p, 1);
      assert NewRequests(p, p1) == [BodyCredentialsRequest(cfg, scope)];
      assert IsAuthRejection(first) ==>
        NewRequests(p, p2) == [BodyCredentialsRequest(cfg, scope), BasicAuthRequest(cfg, scope)];
      var (result, cache') := AcceptToken(final, now, cache);
      Step(result, cache', p2)
  }

  /** A token just fetched is reused without a request until 30 s before it expires. */
  lemma FetchedTokenReused(cfg: Config, scope: Option<string>, now: int, force: bool, cache: Cache, p: Provider,
                           later: int)
    requires var s := GetToken(cfg, scope, now, force, cache, p);
      s.result.Success? && NewRequests(p, s.provider) != []
    requires var s := GetToken(cfg, scope, now, force, cache, p);
      var final := AnswerAt(p, |NewRequests(p, s.provider)| - 1);
      && final.Answered? && !final.response.expiresIn.Unconvertible?
      && later < now + Lifetime(final.response.expiresIn) - EXPIRY_MARGIN
    ensures var s := GetToken(cfg, scope, now, force, cache, p);
      var s2 := GetToken(cfg, scope, later, false, s.cache, s.provider);
      s2.result == s.result && s2.cache == s.cache && s2.provider == s.provider
  {
  }

  // ---------------------------------------------------------------------------
  // SMS submission (`N2PClient.send_sms`)
  // ---------------------------------------------------------------------------

  /** What a successful submission returns: the parsed body, or `{"ok": True}`
      when the body is empty. */
  datatype SmsResult = Parsed(body: string) | OkTrue

  /** The submitted JSON: `to` and `text`, `from` for a truthy sender, then the
      extra keyword arguments merged over them. */
  function BuildPayload(to: string, text: string, sender: Option<string>, extra: map<string, Value>)
    : (payload: map<string, Value>)
    ensures payload.Keys == {"to", "text"} + (if Truthy(sender) then {"from"} else {}) + extra.Keys
    ensures forall k :: k in extra ==> payload[k] == extra[k]
    ensures "to" !in extra ==> payload["to"] == Str(to)
    ensures "text" !in extra ==> payload["text"] == Str(text)
    ensures Truthy(sender) && "from" !in extra ==> payload["from"] == Str(sender.value)
  {
    var base := map["to" := Str(to), "text" := Str(text)];
    var withSender := if Truthy(sender) then base["from" := Str(sender.value)] else base;
    withSender + extra
  }

  /** The result of the final SMS answer. */
  function SmsOutcome(o: Outcome): (r: Result<SmsResult, ClientError>)
    ensures r.Success? <==> o.Answered? && !RaisesForStatus(o.response.status)
    ensures r == Success(OkTrue) <==> o.Answered? && !RaisesForStatus(o.response.status) && o.response.content == ""
    ensures o.Answered? && RaisesForStatus(o.response.status) ==>
      r == Failure(SmsHttpError(o.response.status, o.response.content))
    ensures o.Answered? && !RaisesForStatus(o.response.status) && o.response.content != "" ==>
      r == Success(Parsed(o.response.content))
    ensures o.TransportFailure? ==> r == Failure(Transport)
  {
    if o.TransportFailure? then Failure(Transport)
    else if RaisesForStatus(o.response.status) then Failure(SmsHttpError(o.response.status, o.response.content))
    else if o.response.content != "" then Success(Parsed(o.response.content))
    else Success(OkTrue)
  }

  predicate IsUnauthorized(o: Outcome) {
    o.Answered? && o.response.status == 401
  }

  /** The SMS post made with a given bearer token. */
  predicate IsSmsPostOf(r: Request, cfg: Config, payload: map<string, Value>) {
    r.SmsPost? && r.url == cfg.smsUrl && r.payload == payload
  }

  /** The position of the first SMS post in a log (`|log|` when there is none). */
  function FirstSms(log: seq<Request>): (i: nat)
    ensures i <= |log|
    ensures i < |log| ==> log[i].SmsPost?
  {
    if log == [] then 0
    else if log[0].SmsPost? then 0
    else 1 + FirstSms(log[1..])
  }

  /** No request before the first SMS post is an SMS post. */
  lemma {:induction false} FirstSmsPrefix(log: seq<Request>)
    ensures NoSms(log[..FirstSms(log)])
    decreases |log|
  {
    var i := FirstSms(log);
    if log != [] && !log[0].SmsPost? {
      FirstSmsPrefix(log[1..]);
      forall k | 0 <= k < i ensures !log[..i][k].SmsPost? {
        if k > 0 {
          assert log[..i][k] == log[1..][..i - 1][k - 1];
        }
      }
    }
  }

  predicate NoSms(log: seq<Request>) {
    forall k :: 0 <= k < |log| ==> !log[k].SmsPost?
  }

  /** The first SMS post of `a + [x] + b`, where `a` has none, is `x`. */
  lemma FirstSmsAt(a: seq<Request>, x: Request, b: seq<Request>)
    requires NoSms(a) && x.SmsPost?
    ensures FirstSms(a + [x] + b) == |a|
    ensures FirstSms(a) == |a|
  {
    var l := a + [x] + b;
    FirstSmsPrefix(l);
    FirstSmsPrefix(a);
    assert l[|a|] == x;
    assert forall k :: 0 <= k < |a| ==> l[k] == a[k];
  }

  lemma TokenFetchHasNoSms(log: seq<Request>, cfg: Config, scope: Option<string>)
    requires IsTokenFetch(log, cfg, scope)
    ensures NoSms(log)
    ensures 1 <= |log| <= 2
  {
  }

  /** The requests of the re-authentication after a 401, whose `k`-th request
      received `AnswerAt(p, off + k)`: one forced token fetch (with the Basic-auth
      attempt exactly when the first attempt was rejected), then one more SMS post
      exactly when the fetch yielded a token, carrying that token, and nothing after. */
  predicate IsRetryLog(log: seq<Request>, cfg: Config, scope: Option<string>, payload: map<string, Value>,
                       p: Provider, off: nat) {
    RetryShape(log, cfg, scope, payload) && RetryAnswers(log, p, off)
  }

  /** The order of the retry's requests: a token fetch, then at most one SMS post. */
  predicate RetryShape(log: seq<Request>, cfg: Config, scope: Option<string>, payload: map<string, Value>) {
    var j := FirstSms(log);
    && IsTokenFetch(log[..j], cfg, scope)
    && j > 0
    && j >= |log| - 1
    && (j < |log| ==> IsSmsPostOf(log[j], cfg, payload))
  }

  /** How the answers steer the retry: the Basic-auth attempt follows a rejection,
      and the SMS post follows, with the issued token, exactly when a token was issued. */
  predicate RetryAnswers(log: seq<Request>, p: Provider, off: nat) {
    var j := FirstSms(log);
    && j > 0
    && (j == 2 <==> IsAuthRejection(AnswerAt(p, off)))
    && (j < |log| <==> TokenAccepted(AnswerAt(p, off + j - 1)))
    && (j < |log| && log[j].SmsPost? ==> log[j].bearer == AnswerAt(p, off + j - 1).response.accessToken.value)
  }

  /** The cache holds the token the answer `o` issued at time `now`, with the
      lifetime the answer grants. */
  predicate CachesIssued(c: Cache, o: Outcome, now: int) {
    TokenAccepted(o) && c == Cache(o.response.accessToken, now + Lifetime(o.response.expiresIn))
  }

  /** The requests and result of the retry after a 401: a forced token fetch and
      at most one more SMS post; the result is the answer to that post, which
      carried the token the fetch issued and left in the cache with its lifetime,
      or else the error of the token answer, with the cache that answer leaves
      behind (`cache` is the cache the retry started with). */
  predicate RetryPhase(log: seq<Request>, p: Provider, s: Step<SmsResult>, cfg: Config, scope: Option<string>,
                       payload: map<string, Value>, now: int, cache: Cache) {
    && log != []
    && IsRetryLog(log, cfg, scope, payload, p, 0)
    && (log[|log| - 1].SmsPost? ==>
          && s.result == SmsOutcome(AnswerAt(p, |log| - 1))
          && s.cache.token == Some(log[|log| - 1].bearer))
    && (|log| >= 2 && log[|log| - 1].SmsPost? ==> CachesIssued(s.cache, AnswerAt(p, |log| - 2), now))
    && (!log[|log| - 1].SmsPost? ==>
          !TokenAccepted(AnswerAt(p, |log| - 1)) && s.result == Failure(TokenError(AnswerAt(p, |log| - 1))))
    && (!log[|log| - 1].SmsPost? ==> s.cache == AcceptToken(AnswerAt(p, |log| - 1), now, cache).1)
  }

  /** The retry after a 401: `_get_token(force=True)`, then the second post. */
  function Resubmit(cfg: Config, scope: Option<string>, now: int, payload: map<string, Value>, cache: Cache,
                    p: Provider): (s: Step<SmsResult>)
    ensures Advances(p, s.provider)
    ensures RetryPhase(NewRequests(p, s.provider), p, s, cfg, scope, payload, now, cache)
    ensures CacheWellFormed(cache) ==> CacheWellFormed(s.cache)
  {
    var t := GetToken(cfg, scope, now, true, cache, p);
    ForcedFetch(cfg, scope, now, cache, p);
    if t.result.Failure? then
      RetryTokenFailure(cfg, scope, payload, now, cache, p, t);
      Step(Failure(t.result.error), t.cache, t.provider)
    else
      var sms := SmsPost(cfg.smsUrl, t.result.value, payload);
      var last := Post(t.provider, sms);
      TokenThenPost(cfg, scope, payload, p, t.provider, last.1, t.result.value);
      RetryPost(cfg, scope, payload, now, cache, p, t.provider, last.1, t.result.value, t.cache);
      Step(SmsOutcome(last.0), t.cache, last.1)
  }

  /** `_get_token(force=True)` always fetches: a token fetch whose Basic-auth attempt
      follows a rejection, and whose last answer decides the token, the error and
      the cache. */
  lemma ForcedFetch(cfg: Config, scope: Option<string>, now: int, cache: Cache, p: Provider)
    ensures var t := GetToken(cfg, scope, now, true, cache, p);
      var l := NewRequests(p, t.provider);
      && IsTokenFetch(l, cfg, scope)
      && (|l| == 2 <==> IsAuthRejection(AnswerAt(p, 0)))
      && (t.result.Success? <==> TokenAccepted(AnswerAt(p, |l| - 1)))
      && (t.result.Success? ==>
            && t.result.value == AnswerAt(p, |l| - 1).response.accessToken.value
            && CachesIssued(t.cache, AnswerAt(p, |l| - 1), now))
      && (t.result.Failure? ==> t.result == Failure(TokenError(AnswerAt(p, |l| - 1))))
      && t.cache == AcceptToken(AnswerAt(p, |l| - 1), now, cache).1
  {
  }

  /** The forced fetch yielded no token: the retry is that fetch alone, and its
      result is the error of the last token answer. */
  lemma RetryTokenFailure(cfg: Config, scope: Option<string>, payload: map<string, Value>, now: int, cache: Cache,
                          p: Provider, t: Step<string>)
    requires Advances(p, t.provider) && IsTokenFetch(NewRequests(p, t.provider), cfg, scope)
    requires |NewRequests(p, t.provider)| == 2 <==> IsAuthRejection(AnswerAt(p, 0))
    requires !TokenAccepted(AnswerAt(p, |NewRequests(p, t.provider)| - 1))
    requires t.result == Failure(TokenError(AnswerAt(p, |NewRequests(p, t.provider)| - 1)))
    requires t.cache == AcceptToken(AnswerAt(p, |NewRequests(p, t.provider)| - 1), now, cache).1
    ensures RetryPhase(NewRequests(p, t.provider), p, Step(Failure(t.result.error), t.cache, t.provider), cfg, scope,
                       payload, now, cache)
  {
    var l := NewRequests(p, t.provider);
    TokenFetchHasNoSms(l, cfg, scope);
    FirstSmsAt(l, SmsPost("", "", map[]), []);
    assert l[..|l|] == l;
  }

  /** The forced fetch issued a token and the second post carried it: the retry's
      result is that post's answer, and the cache holds the issued token. */
  lemma RetryPost(cfg: Config, scope: Option<string>, payload: map<string, Value>, now: int, cache: Cache,
                  p: Provider, q: Provider, r: Provider, token: string, tcache: Cache)
    requires Advances(p, q) && IsTokenFetch(NewRequests(p, q), cfg, scope)
    requires CachesIssued(tcache, AnswerAt(p, |NewRequests(p, q)| - 1), now)
    requires token == AnswerAt(p, |NewRequests(p, q)| - 1).response.accessToken.value
    requires Advances(p, r)
    requires var log := NewRequests(p, r);
      && |log| == |NewRequests(p, q)| + 1
      && IsRetryLog(log, cfg, scope, payload, p, 0)
      && log[|log| - 1] == SmsPost(cfg.smsUrl, token, payload)
      && AnswerAt(p, |log| - 1) == AnswerAt(q, 0)
    ensures RetryPhase(NewRequests(p, r), p, Step(SmsOutcome(AnswerAt(q, 0)), tcache, r), cfg, scope, payload, now,
                       cache)
  {
  }

  /** A token fetch followed by one SMS post is a retry log ending in that post,
      which received the answer after the fetch's answers. */
  lemma TokenThenPost(cfg: Config, scope: Option<string>, payload: map<string, Value>, p: Provider, q: Provider,
                      r: Provider, token: string)
    requires Advances(p, q) && IsTokenFetch(NewRequests(p, q), cfg, scope)
    requires |NewRequests(p, q)| == 2 <==> IsAuthRejection(AnswerAt(p, 0))
    requires TokenAccepted(AnswerAt(p, |NewRequests(p, q)| - 1))
    requires token == AnswerAt(p, |NewRequests(p, q)| - 1).response.accessToken.value
    requires Advances(q, r) && NewRequests(q, r) == [SmsPost(cfg.smsUrl, token, payload)]
    requires forall k: nat :: AnswerAt(r, k) == AnswerAt(q, k + 1)
    ensures Advances(p, r)
    ensures var log := NewRequests(p, r);
      && |log| == |NewRequests(p, q)| + 1
      && IsRetryLog(log, cfg, scope, payload, p, 0)
      && log[|log| - 1] == SmsPost(cfg.smsUrl, token, payload)
      && AnswerAt(p, |log| - 1) == AnswerAt(q, 0)
  {
    var l := NewRequests(p, q);
    var sms := SmsPost(cfg.smsUrl, token, payload);
    TokenFetchHasNoSms(l, cfg, scope);
    AdvancesTrans(p, q, r);
    AdvancesTrans(p, q, q);
    assert NewRequests(p, r) == l + [sms];
    FirstSmsAt(l, sms, []);
    assert l + [sms] + [] == l + [sms];
    assert (l + [sms])[..|l|] == l;
  }

  /** The requests and result of a submission with the token `token`: the first
      post carries it; more requests follow exactly when that post is answered
      401, and they are a retry; the result is read from the last post's answer;
      without a retry the cache is left as it was, and after a retry that posted
      it holds the token the retry's fetch issued, with its lifetime; after a retry
      whose fetch failed it is what that fetch's last answer leaves of `tcache`. */
  predicate SubmitPhase(log: seq<Request>, q: Provider, s: Step<SmsResult>, cfg: Config, scope: Option<string>,
                        payload: map<string, Value>, token: string, tcache: Cache, now: int) {
    && log != []
    && log[0] == SmsPost(cfg.smsUrl, token, payload)
    && (|log| > 1 <==> IsUnauthorized(AnswerAt(q, 0)))
    && (|log| > 1 ==> IsRetryLog(log[1..], cfg, scope, payload, q, 1))
    && (log[|log| - 1].SmsPost? ==> s.result == SmsOutcome(AnswerAt(q, |log| - 1)))
    && (|log| > 1 && log[|log| - 1].SmsPost? ==> s.cache.token == Some(log[|log| - 1].bearer))
    && (!log[|log| - 1].SmsPost? ==>
          !TokenAccepted(AnswerAt(q, |log| - 1)) && s.result == Failure(TokenError(AnswerAt(q, |log| - 1))))
    && SubmitCache(log, q, s, tcache, now)
  }

  /** The cache a submission leaves: `tcache` without a retry; after a retry that
      posted, the token the retry's fetch issued with its lifetime; after a retry
      whose fetch failed, what that fetch's last answer leaves of `tcache`. */
  predicate SubmitCache(log: seq<Request>, q: Provider, s: Step<SmsResult>, tcache: Cache, now: int)
    requires log != []
  {
    && (|log| == 1 ==> s.cache == tcache)
    && (|log| > 1 && log[|log| - 1].SmsPost? ==> CachesIssued(s.cache, AnswerAt(q, |log| - 2), now))
    && (!log[|log| - 1].SmsPost? ==> s.cache == AcceptToken(AnswerAt(q, |log| - 1), now, tcache).1)
  }

  /** The first post with the token obtained, and the retry when it is answered 401. */
  function SubmitWithRetry(cfg: Config, scope: Option<string>, now: int, payload: map<string, Value>, token: string,
                           cache: Cache, p: Provider): (s: Step<SmsResult>)
    ensures Advances(p, s.provider)
    ensures SubmitPhase(NewRequests(p, s.provider), p, s, cfg, scope, payload, token, cache, now)
    ensures CacheWellFormed(cache) ==> CacheWellFormed(s.cache)
  {
    var sms := SmsPost(cfg.smsUrl, token, payload);
    var first := Post(p, sms);
    if IsUnauthorized(first.0) then
      var s := Resubmit(cfg, scope, now, payload, cache, first.1);
      RetryBranch(cfg, scope, payload, token, cache, now, p, first.1, s);
      assert CacheWellFormed(cache) ==> CacheWellFormed(s.cache);
      s
    else
      Step(SmsOutcome(first.0), cache, first.1)
  }

  /** The first post was answered 401 and was retried: together they are a
      submission with a retry. */
  lemma RetryBranch(cfg: Config, scope: Option<string>, payload: map<string, Value>, token: string, cache: Cache,
                    now: int, p: Provider, q: Provider, s: Step<SmsResult>)
    requires Advances(p, q) && NewRequests(p, q) == [SmsPost(cfg.smsUrl, token, payload)]
    requires forall k: nat :: AnswerAt(q, k) == AnswerAt(p, k + 1)
    requires IsUnauthorized(AnswerAt(p, 0))
    requires Advances(q, s.provider)
    requires RetryPhase(NewRequests(q, s.provider), q, s, cfg, scope, payload, now, cache)
    ensures Advances(p, s.provider)
    ensures SubmitPhase(NewRequests(p, s.provider), p, s, cfg, scope, payload, token, cache, now)
  {
    AdvancesTrans(p, q, s.provider);
    var rest := NewRequests(q, s.provider);
    var log := NewRequests(p, s.provider);
    assert log == [SmsPost(cfg.smsUrl, token, payload)] + rest;
    assert log[1..] == rest;
    assert AnswerAt(q, |rest| - 1) == AnswerAt(p, |rest|);
    if |rest| >= 2 {
      assert AnswerAt(q, |rest| - 2) == AnswerAt(p, |rest| - 1);
    }
  }

  /** Two runs of requests in a row, the first without SMS posts and the second
      starting with one: the combined log, its first SMS post, and its answers. */
  lemma ComposeAtFirstSms(p: Provider, q: Provider, r: Provider)
    requires Advances(p, q) && Advances(q, r)
    requires NoSms(NewRequests(p, q))
    requires NewRequests(q, r) != [] && NewRequests(q, r)[0].SmsPost?
    ensures Advances(p, r)
    ensures var log := NewRequests(p, r);
      var l := NewRequests(p, q);
      var rest := NewRequests(q, r);
      && |log| == |l| + |rest|
      && FirstSms(log) == |l|
      && log[..|l|] == l
      && log[|l|] == rest[0]
      && log[|l| + 1..] == rest[1..]
      && log[|log| - 1] == rest[|rest| - 1]
    ensures forall k: nat :: AnswerAt(q, k) == AnswerAt(p, |NewRequests(p, q)| + k)
  {
    AdvancesTrans(p, q, r);
    var l := NewRequests(p, q);
    var rest := NewRequests(q, r);
    var log := NewRequests(p, r);
    assert log == l + [rest[0]] + rest[1..];
    FirstSmsAt(l, rest[0], rest[1..]);
    AdvancesTrans(p, q, q);
  }

  /** The request log of one `send_sms`: the token is fetched unless the cache is
      fresh, with the Basic-auth attempt exactly when the first attempt was
      rejected; one SMS post follows exactly when a token was obtained, carrying
      the cached or the newly issued token; anything after it happens only after a
      401 and is one forced token fetch and at most one more SMS post. */
  predicate IsSendLog(log: seq<Request>, cfg: Config, scope: Option<string>, payload: map<string, Value>,
                      cache: Cache, now: int, p: Provider) {
    && SendHead(log, cfg, scope, payload, cache, now, p)
    && SendTail(log, cfg, scope, payload, p)
  }

  /** The requests up to the first SMS post, and that post; there is at least one
      request. */
  predicate SendHead(log: seq<Request>, cfg: Config, scope: Option<string>, payload: map<string, Value>,
                     cache: Cache, now: int, p: Provider) {
    var i := FirstSms(log);
    && log != []
    && (i == 0 <==> CacheFresh(cache, now))
    && (i > 0 ==> IsTokenFetch(log[..i], cfg, scope))
    && (i > 0 ==> (i == 2 <==> IsAuthRejection(AnswerAt(p, 0))))
    && (i < |log| ==> IsSmsPostOf(log[i], cfg, payload))
    && (i == 0 ==> Some(log[0].bearer) == cache.token)
    && (i > 0 ==> (i < |log| <==> TokenAccepted(AnswerAt(p, i - 1))))
    && (i > 0 && i < |log| ==> log[i].bearer == AnswerAt(p, i - 1).response.accessToken.value)
  }

  /** The requests after the first SMS post: a retry exactly after a 401. */
  predicate SendTail(log: seq<Request>, cfg: Config, scope: Option<string>, payload: map<string, Value>,
                     p: Provider) {
    var i := FirstSms(log);
    && (i < |log| - 1 <==> i < |log| && IsUnauthorized(AnswerAt(p, i)))
    && (i < |log| - 1 ==> IsRetryLog(log[i + 1..], cfg, scope, payload, p, i + 1))
  }

  /** The result is read from the answer to the last SMS post, which carried the
      token left in the cache; without an SMS post it is the error raised for the
      answer to the last token request. */
  predicate ResultAgreesWithLog(s: Step<SmsResult>, log: seq<Request>, p: Provider)
    requires log != []
  {
    && (log[|log| - 1].SmsPost? ==>
          && s.result == SmsOutcome(AnswerAt(p, |log| - 1))
          && s.cache.token == Some(log[|log| - 1].bearer))
    && (!log[|log| - 1].SmsPost? ==>
          !TokenAccepted(AnswerAt(p, |log| - 1)) && s.result == Failure(TokenError(AnswerAt(p, |log| - 1))))
  }

  /** The cache when the first SMS post of `log` went out: the call's cache when no
      token was fetched, otherwise what the fetch's last answer left of it. */
  function CacheAtFirstPost(log: seq<Request>, p: Provider, cache: Cache, now: int): Cache {
    var i := FirstSms(log);
    if i == 0 then cache else AcceptToken(AnswerAt(p, i - 1), now, cache).1
  }

  /** After a call that ended in an SMS post, the cache holds the token that post
      carried: the cached token, left as it was, when the call made no other
      request; otherwise the token the last fetch issued, with the lifetime it
      granted from `now`. After a call that ended in a token request, the cache is
      what that request's answer left of the cache the fetch started from: the
      call's cache when no post was made, otherwise the cache at the first post. */
  predicate CacheAgreesWithLog(s: Step<SmsResult>, log: seq<Request>, p: Provider, cache: Cache, now: int)
    requires log != []
  {
    CacheAfterPost(s, log, p, cache, now) && CacheAfterTokenFailure(s, log, p, cache, now)
  }

  /** The cache after a call that ended in an SMS post. */
  predicate CacheAfterPost(s: Step<SmsResult>, log: seq<Request>, p: Provider, cache: Cache, now: int)
    requires log != []
  {
    && (|log| == 1 && log[0].SmsPost? ==> s.cache == cache)
    && (|log| >= 2 && log[|log| - 1].SmsPost? ==> CachesIssued(s.cache, AnswerAt(p, |log| - 2), now))
  }

  /** The cache after a call that ended in a token request. */
  predicate CacheAfterTokenFailure(s: Step<SmsResult>, log: seq<Request>, p: Provider, cache: Cache, now: int)
    requires log != []
  {
    && (FirstSms(log) == |log| ==> s.cache == AcceptToken(AnswerAt(p, |log| - 1), now, cache).1)
    && (FirstSms(log) < |log| && !log[|log| - 1].SmsPost? ==>
          s.cache == AcceptToken(AnswerAt(p, |log| - 1), now, CacheAtFirstPost(log, p, cache, now)).1)
  }

  /** The token could not be obtained: the log is that token fetch alone. */
  lemma TokenFailureBranch(cfg: Config, scope: Option<string>, payload: map<string, Value>, cache: Cache, now: int,
                           p: Provider, t: Step<string>)
    requires Advances(p, t.provider)
    requires !CacheFresh(cache, now) && IsTokenFetch(NewRequests(p, t.provider), cfg, scope)
    requires |NewRequests(p, t.provider)| == 2 <==> IsAuthRejection(AnswerAt(p, 0))
    requires !TokenAccepted(AnswerAt(p, |NewRequests(p, t.provider)| - 1))
    requires t.result == Failure(TokenError(AnswerAt(p, |NewRequests(p, t.provider)| - 1)))
    requires t.cache == AcceptToken(AnswerAt(p, |NewRequests(p, t.provider)| - 1), now, cache).1
    ensures IsSendLog(NewRequests(p, t.provider), cfg, scope, payload, cache, now, p)
    ensures ResultAgreesWithLog(Step(Failure(t.result.error), t.cache, t.provider), NewRequests(p, t.provider), p)
    ensures CacheAgreesWithLog(Step(Failure(t.result.error), t.cache, t.provider), NewRequests(p, t.provider), p,
                               cache, now)
  {
    var l := NewRequests(p, t.provider);
    TokenFetchHasNoSms(l, cfg, scope);
    FirstSmsAt(l, SmsPost("", "", map[]), []);
    assert l[..|l|] == l;
  }

  /** The requests before the first SMS post: none when the cache was fresh (and
      then the cached token is the one used), otherwise a token fetch whose last
      answer issued the token used. */
  predicate TokenPhase(l: seq<Request>, cfg: Config, scope: Option<string>, cache: Cache, now: int, token: string,
                       p: Provider) {
    && (l == [] <==> CacheFresh(cache, now))
    && (l != [] ==> IsTokenFetch(l, cfg, scope))
    && (l != [] ==> (|l| == 2 <==> IsAuthRejection(AnswerAt(p, 0))))
    && (l == [] ==> cache.token == Some(token))
    && (l != [] ==> TokenAccepted(AnswerAt(p, |l| - 1)) && token == AnswerAt(p, |l| - 1).response.accessToken.value)
  }

  /** A token was obtained, from the cache or by a fetch, and then submitted:
      the combined requests follow the protocol. */
  lemma SubmitBranchLog(cfg: Config, scope: Option<string>, payload: map<string, Value>, cache: Cache, now: int,
                        p: Provider, q: Provider, token: string, tcache: Cache, s: Step<SmsResult>)
    requires Advances(p, q) && Advances(q, s.provider)
    requires TokenPhase(NewRequests(p, q), cfg, scope, cache, now, token, p)
    requires SubmitPhase(NewRequests(q, s.provider), q, s, cfg, scope, payload, token, tcache, now)
    ensures Advances(p, s.provider)
    ensures IsSendLog(NewRequests(p, s.provider), cfg, scope, payload, cache, now, p)
  {
    SubmitBranchHead(cfg, scope, payload, cache, now, p, q, token, tcache, s);
    var l := NewRequests(p, q);
    if l != [] {
      TokenFetchHasNoSms(l, cfg, scope);
    }
    SubmitBranchTail(cfg, scope, payload, p, q, s.provider);
  }

  /** After a token was obtained and submitted, the requests up to the first SMS
      post follow the protocol: the token requests, then that post with the token. */
  lemma SubmitBranchHead(cfg: Config, scope: Option<string>, payload: map<string, Value>, cache: Cache, now: int,
                         p: Provider, q: Provider, token: string, tcache: Cache, s: Step<SmsResult>)
    requires Advances(p, q) && Advances(q, s.provider)
    requires TokenPhase(NewRequests(p, q), cfg, scope, cache, now, token, p)
    requires SubmitPhase(NewRequests(q, s.provider), q, s, cfg, scope, payload, token, tcache, now)
    ensures Advances(p, s.provider)
    ensures NewRequests(p, s.provider) != []
    ensures SendHead(NewRequests(p, s.provider), cfg, scope, payload, cache, now, p)
  {
    var l := NewRequests(p, q);
    if l != [] {
      TokenFetchHasNoSms(l, cfg, scope);
    }
    ComposeAtFirstSms(p, q, s.provider);
  }

  /** After a token was obtained and submitted, the requests after the first SMS
      post follow the protocol: a retry exactly when that post was answered 401. */
  lemma SubmitBranchTail(cfg: Config, scope: Option<string>, payload: map<string, Value>, p: Provider, q: Provider,
                         r: Provider)
    requires Advances(p, q) && Advances(q, r)
    requires NoSms(NewRequests(p, q))
    requires NewRequests(q, r) != [] && NewRequests(q, r)[0].SmsPost?
    requires |NewRequests(q, r)| > 1 <==> IsUnauthorized(AnswerAt(q, 0))
    requires |NewRequests(q, r)| > 1 ==> IsRetryLog(NewRequests(q, r)[1..], cfg, scope, payload, q, 1)
    ensures Advances(p, r)
    ensures SendTail(NewRequests(p, r), cfg, scope, payload, p)
  {
    var l := NewRequests(p, q);
    ComposeAtFirstSms(p, q, r);
    assert AnswerAt(q, 0) == AnswerAt(p, |l|);
    var rest := NewRequests(q, r);
    if |rest| > 1 {
      RetryLogShift(rest[1..], cfg, scope, payload, q, 1, p, |l|);
    }
  }

  /** A retry log stays one when its answers are read from another provider state
      that has them `d` positions later. */
  lemma RetryLogShift(log: seq<Request>, cfg: Config, scope: Option<string>, payload: map<string, Value>,
                      q: Provider, off: nat, p: Provider, d: nat)
    requires IsRetryLog(log, cfg, scope, payload, q, off)
    requires forall k: nat :: AnswerAt(q, k) == AnswerAt(p, d + k)
    ensures IsRetryLog(log, cfg, scope, payload, p, d + off)
  {
    var j := FirstSms(log);
    assert AnswerAt(q, off + j - 1) == AnswerAt(p, d + (off + j - 1));
    assert AnswerAt(q, off) == AnswerAt(p, d + off);
  }

  /** A submission's result agrees with the answer to its last request, and its
      first request is the SMS post. */
  lemma SubmitPhaseParts(log: seq<Request>, q: Provider, s: Step<SmsResult>, cfg: Config, scope: Option<string>,
                         payload: map<string, Value>, token: string, tcache: Cache, now: int)
    requires SubmitPhase(log, q, s, cfg, scope, payload, token, tcache, now)
    requires tcache.token == Some(token)
    ensures log != [] && log[0].SmsPost?
    ensures ResultAgreesWithLog(s, log, q)
    ensures SubmitCache(log, q, s, tcache, now)
  {
  }

  /** After a token was obtained and submitted, the result agrees with the answer
      to the last request. */
  lemma SubmitBranchResult(p: Provider, q: Provider, s: Step<SmsResult>)
    requires Advances(p, q) && Advances(q, s.provider)
    requires NoSms(NewRequests(p, q))
    requires NewRequests(q, s.provider) != [] && NewRequests(q, s.provider)[0].SmsPost?
    requires ResultAgreesWithLog(s, NewRequests(q, s.provider), q)
    ensures Advances(p, s.provider)
    ensures NewRequests(p, s.provider) != []
    ensures ResultAgreesWithLog(s, NewRequests(p, s.provider), p)
  {
    var l := NewRequests(p, q);
    ComposeAtFirstSms(p, q, s.provider);
    var rest := NewRequests(q, s.provider);
    assert AnswerAt(q, |rest| - 1) == AnswerAt(p, |l| + |rest| - 1);
  }

  /** After a submission with the token obtained, the cache is the one the call
      started with (fresh cache, no retry), holds the last token issued, or is
      what the retry's failed fetch left of the cache at the first post. */
  lemma SubmitBranchCache(cache: Cache, now: int, p: Provider, q: Provider, tcache: Cache, s: Step<SmsResult>)
    requires Advances(p, q) && Advances(q, s.provider)
    requires NoSms(NewRequests(p, q))
    requires NewRequests(p, q) == [] ==> tcache == cache
    requires NewRequests(p, q) != [] ==> CachesIssued(tcache, AnswerAt(p, |NewRequests(p, q)| - 1), now)
    requires NewRequests(q, s.provider) != [] && NewRequests(q, s.provider)[0].SmsPost?
    requires SubmitCache(NewRequests(q, s.provider), q, s, tcache, now)
    ensures Advances(p, s.provider)
    ensures NewRequests(p, s.provider) != []
    ensures CacheAgreesWithLog(s, NewRequests(p, s.provider), p, cache, now)
  {
    ComposeAtFirstSms(p, q, s.provider);
    SubmitCacheAfterPost(cache, now, p, q, tcache, s);
    SubmitCacheAfterTokenFailure(cache, now, p, q, tcache, s);
  }

  /** After a submission that ended in an SMS post, the cache is the one the call
      started with, or holds the last token issued. */
  lemma SubmitCacheAfterPost(cache: Cache, now: int, p: Provider, q: Provider, tcache: Cache, s: Step<SmsResult>)
    requires Advances(p, q) && Advances(q, s.provider) && Advances(p, s.provider)
    requires NewRequests(p, q) == [] ==> tcache == cache
    requires NewRequests(p, q) != [] ==> CachesIssued(tcache, AnswerAt(p, |NewRequests(p, q)| - 1), now)
    requires NewRequests(q, s.provider) != [] && NewRequests(q, s.provider)[0].SmsPost?
    requires |NewRequests(p, s.provider)| == |NewRequests(p, q)| + |NewRequests(q, s.provider)|
    requires NewRequests(p, s.provider)[|NewRequests(p, s.provider)| - 1] ==
             NewRequests(q, s.provider)[|NewRequests(q, s.provider)| - 1]
    requires forall k: nat :: AnswerAt(q, k) == AnswerAt(p, |NewRequests(p, q)| + k)
    requires SubmitCache(NewRequests(q, s.provider), q, s, tcache, now)
    ensures CacheAfterPost(s, NewRequests(p, s.provider), p, cache, now)
  {
    var l := NewRequests(p, q);
    var rest := NewRequests(q, s.provider);
    if |rest| >= 2 {
      assert AnswerAt(q, |rest| - 2) == AnswerAt(p, |l| + |rest| - 2);
    }
  }

  /** After a submission whose retry could not obtain a token, the cache is what the
      retry's last token answer left of the cache at the first post. */
  lemma SubmitCacheAfterTokenFailure(cache: Cache, now: int, p: Provider, q: Provider, tcache: Cache,
                                     s: Step<SmsResult>)
    requires Advances(p, q) && Advances(q, s.provider) && Advances(p, s.provider)
    requires NewRequests(p, q) == [] ==> tcache == cache
    requires NewRequests(p, q) != [] ==> CachesIssued(tcache, AnswerAt(p, |NewRequests(p, q)| - 1), now)
    requires NewRequests(q, s.provider) != [] && NewRequests(q, s.provider)[0].SmsPost?
    requires |NewRequests(p, s.provider)| == |NewRequests(p, q)| + |NewRequests(q, s.provider)|
    requires FirstSms(NewRequests(p, s.provider)) == |NewRequests(p, q)|
    requires NewRequests(p, s.provider)[|NewRequests(p, s.provider)| - 1] ==
             NewRequests(q, s.provider)[|NewRequests(q, s.provider)| - 1]
    requires forall k: nat :: AnswerAt(q, k) == AnswerAt(p, |NewRequests(p, q)| + k)
    requires SubmitCache(NewRequests(q, s.provider), q, s, tcache, now)
    ensures CacheAfterTokenFailure(s, NewRequests(p, s.provider), p, cache, now)
  {
    var l := NewRequests(p, q);
    var rest := NewRequests(q, s.provider);
    assert AnswerAt(q, |rest| - 1) == AnswerAt(p, |l| + |rest| - 1);
    assert tcache == CacheAtFirstPost(NewRequests(p, s.provider), p, cache, now);
  }

  /** A token obtained without forcing: from the fresh cache, left as it was, with
      no request; or by a fetch whose last answer issued it and whose Basic-auth
      attempt followed a rejection, with the cache then holding it. */
  lemma TokenObtained(cfg: Config, scope: Option<string>, now: int, cache: Cache, p: Provider)
    requires GetToken(cfg, scope, now, false, cache, p).result.Success?
    ensures var t := GetToken(cfg, scope, now, false, cache, p);
      var l := NewRequests(p, t.provider);
      && TokenPhase(l, cfg, scope, cache, now, t.result.value, p)
      && t.cache.token == Some(t.result.value)
      && (l == [] ==> t.cache == cache)
      && (l != [] ==> CachesIssued(t.cache, AnswerAt(p, |l| - 1), now))
      && NoSms(l)
  {
    var t := GetToken(cfg, scope, now, false, cache, p);
    var l := NewRequests(p, t.provider);
    if l != [] {
      TokenFetchHasNoSms(l, cfg, scope);
    }
  }

  /** `send_sms(to, text, sender, **extra)`: its requests follow the protocol of
      `IsSendLog`, and its result agrees with the answer to its last request. */
  function SendSms(cfg: Config, scope: Option<string>, now: int, to: string, text: string, sender: Option<string>,
                   extra: map<string, Value>, cache: Cache, p: Provider): (s: Step<SmsResult>)
    ensures Advances(p, s.provider)
    ensures IsSendLog(NewRequests(p, s.provider), cfg, scope, BuildPayload(to, text, sender, extra), cache, now, p)
    ensures ResultAgreesWithLog(s, NewRequests(p, s.provider), p)
    ensures CacheAgreesWithLog(s, NewRequests(p, s.provider), p, cache, now)
    ensures CacheWellFormed(cache) ==> CacheWellFormed(s.cache)
  {
    var t := GetToken(cfg, scope, now, false, cache, p);
    var payload := BuildPayload(to, text, sender, extra);
    if t.result.Failure? then
      TokenFailureBranch(cfg, scope, payload, cache, now, p, t);
      Step(Failure(t.result.error), t.cache, t.provider)
    else
      TokenObtained(cfg, scope, now, cache, p);
      var s := SubmitWithRetry(cfg, scope, now, payload, t.result.value, t.cache, t.provider);
      SubmitBranchLog(cfg, scope, payload, cache, now, p, t.provider, t.result.value, t.cache, s);
      SubmitPhaseParts(NewRequests(t.provider, s.provider), t.provider, s, cfg, scope, payload, t.result.value, t.cache,
                       now);
      SubmitBranchResult(p, t.provider, s);
      SubmitBranchCache(cache, now, p, t.provider, t.cache, s);
      s
  }

  /** The number of SMS posts in a log. */
  function CountSms(log: seq<Request>): nat {
    if log == [] then 0 else (if log[0].SmsPost? then 1 else 0) + CountSms(log[1..])
  }

  lemma {:induction false} CountSmsAppend(a: seq<Request>, b: seq<Request>)
    ensures CountSms(a + b) == CountSms(a) + CountSms(b)
    decreases |a|
  {
    if a != [] {
      assert (a + b)[1..] == a[1..] + b;
      CountSmsAppend(a[1..], b);
    } else {
      assert a + b == b;
    }
  }

  lemma {:induction false} NoSmsCountsZero(a: seq<Request>)
    requires NoSms(a)
    ensures CountSms(a) == 0
    decreases |a|
  {
    if a != [] {
      NoSmsCountsZero(a[1..]);
    }
  }

  lemma CountSmsSplit(log: seq<Request>, i: nat)
    requires i <= |log|
    ensures CountSms(log) == CountSms(log[..i]) + CountSms(log[i..])
  {
    assert log == log[..i] + log[i..];
    CountSmsAppend(log[..i], log[i..]);
  }

  /** Counting from the first SMS post: none before it, one at it, then the rest. */
  lemma CountFromFirstSms(log: seq<Request>)
    ensures var i := FirstSms(log);
      CountSms(log) == (if i < |log| then 1 + CountSms(log[i + 1..]) else 0)
  {
    var i := FirstSms(log);
    FirstSmsPrefix(log);
    CountSmsSplit(log, i);
    NoSmsCountsZero(log[..i]);
    if i < |log| {
      var tail := log[i..];
      CountSmsSplit(tail, 1);
      assert tail[..1] == [log[i]];
      assert tail[1..] == log[i + 1..];
    } else {
      assert log[i..] == [];
    }
  }

  /** A retry log is a token fetch and at most one SMS post. */
  lemma RetryLogBounds(rest: seq<Request>, cfg: Config, scope: Option<string>, payload: map<string, Value>)
    requires RetryShape(rest, cfg, scope, payload)
    ensures |rest| <= 3
    ensures CountSms(rest) <= 1
  {
    CountFromFirstSms(rest);
    var j := FirstSms(rest);
    if j < |rest| {
      assert rest[j + 1..] == [];
    }
  }

  /** Any log of the `send_sms` protocol has one to six requests and at most two
      SMS posts, the second only after a 401 answer to the first. */
  lemma SendLogBounds(log: seq<Request>, cfg: Config, scope: Option<string>, payload: map<string, Value>,
                      cache: Cache, now: int, p: Provider)
    requires IsSendLog(log, cfg, scope, payload, cache, now, p)
    ensures 1 <= |log| <= 6
    ensures CountSms(log) <= 2
    ensures CountSms(log) == 2 ==> IsUnauthorized(AnswerAt(p, FirstSms(log)))
  {
    var i := FirstSms(log);
    CountFromFirstSms(log);
    if i > 0 {
      TokenFetchHasNoSms(log[..i], cfg, scope);
    }
    if i < |log| - 1 {
      RetryLogBounds(log[i + 1..], cfg, scope, payload);
    } else if i < |log| {
      assert log[i + 1..] == [];
    }
  }

  /** Request bounds of one `send_sms`. */
  lemma SendSmsRequestBounds(cfg: Config, scope: Option<string>, now: int, to: string, text: string,
                             sender: Option<string>, extra: map<string, Value>, cache: Cache, p: Provider)
    ensures var s := SendSms(cfg, scope, now, to, text, sender, extra, cache, p);
      var log := NewRequests(p, s.provider);
      && 1 <= |log| <= 6
      && CountSms(log) <= 2
      && (CountSms(log) == 2 ==> IsUnauthorized(AnswerAt(p, FirstSms(log))))
  {
    var s := SendSms(cfg, scope, now, to, text, sender, extra, cache, p);
    SendLogBounds(NewRequests(p, s.provider), cfg, scope, BuildPayload(to, text, sender, extra), cache, now, p);
  }

  /** A retry log that ends in an SMS post holds exactly one. */
  lemma RetryLogOnePost(rest: seq<Request>, cfg: Config, scope: Option<string>, payload: map<string, Value>)
    requires RetryShape(rest, cfg, scope, payload)
    requires rest != [] && rest[|rest| - 1].SmsPost?
    ensures CountSms(rest) == 1
  {
    var j := FirstSms(rest);
    FirstSmsPrefix(rest);
    assert j == |rest| - 1;
    CountFromFirstSms(rest);
    assert rest[j + 1..] == [];
  }

  /** A protocol log that ends in an SMS post after its first one holds exactly two. */
  lemma SendLogTwoPosts(log: seq<Request>, cfg: Config, scope: Option<string>, payload: map<string, Value>,
                        cache: Cache, now: int, p: Provider)
    requires IsSendLog(log, cfg, scope, payload, cache, now, p)
    requires FirstSms(log) < |log| - 1 && log[|log| - 1].SmsPost?
    ensures CountSms(log) == 2
  {
    var i := FirstSms(log);
    RetryTailTwoPosts(log, i, cfg, scope, payload);
  }

  /** A first SMS post followed by a retry log that ends in an SMS post: two posts. */
  lemma RetryTailTwoPosts(log: seq<Request>, i: nat, cfg: Config, scope: Option<string>, payload: map<string, Value>)
    requires i == FirstSms(log) && i < |log| - 1 && log[|log| - 1].SmsPost?
    requires RetryShape(log[i + 1..], cfg, scope, payload)
    ensures CountSms(log) == 2
  {
    var rest := log[i + 1..];
    CountFromFirstSms(log);
    assert rest[|rest| - 1] == log[|log| - 1];
    RetryLogOnePost(rest, cfg, scope, payload);
  }

  /** A second 401 is not retried again: in a `send_sms` call (a log and result as
      `SendSms` ensures them), an SMS post after the first one that is answered 401
      is the last request, there are exactly two posts, and the call fails with
      that 401 and its body. */
  lemma SecondUnauthorizedFails(log: seq<Request>, s: Step<SmsResult>, cfg: Config, scope: Option<string>,
                                payload: map<string, Value>, cache: Cache, now: int, p: Provider, k: nat)
    requires IsSendLog(log, cfg, scope, payload, cache, now, p) && ResultAgreesWithLog(s, log, p)
    requires FirstSms(log) < k < |log| && log[k].SmsPost?
    requires IsUnauthorized(AnswerAt(p, k))
    ensures k == |log| - 1
    ensures CountSms(log) == 2
    ensures s.result == Failure(SmsHttpError(401, AnswerAt(p, k).response.content))
  {
    LaterPostIsLast(log, cfg, scope, payload, k);
    SendLogTwoPosts(log, cfg, scope, payload, cache, now, p);
  }

  /** Only the last request of a protocol log can be an SMS post after the first:
      the retry posts at most once, and nothing follows. */
  lemma LaterPostIsLast(log: seq<Request>, cfg: Config, scope: Option<string>, payload: map<string, Value>, k: nat)
    requires FirstSms(log) < k < |log| && log[k].SmsPost?
    requires FirstSms(log) < |log| - 1 ==> RetryShape(log[FirstSms(log) + 1..], cfg, scope, payload)
    ensures k == |log| - 1
  {
    var i := FirstSms(log);
    var rest := log[i + 1..];
    assert rest[k - i - 1] == log[k];
    FirstSmsAtMost(rest, k - i - 1);
  }

  /** The first SMS post comes no later than any SMS post. */
  lemma {:induction false} FirstSmsAtMost(log: seq<Request>, m: nat)
    requires m < |log| && log[m].SmsPost?
    ensures FirstSms(log) <= m
    decreases m
  {
    if m > 0 && !log[0].SmsPost? {
      FirstSmsAtMost(log[1..], m - 1);
    }
  }

  /** A new client (empty cache) starts every `send_sms` with the body-credentials
      token request. */
  lemma ColdStartFetchesToken(log: seq<Request>, cfg: Config, scope: Option<string>, payload: map<string, Value>,
                              now: int, p: Provider)
    requires IsSendLog(log, cfg, scope, payload, EMPTY_CACHE, now, p)
    ensures log != [] && log[0] == BodyCredentialsRequest(cfg, scope)
  {
    var i := FirstSms(log);
    assert log[..i][0] == log[0];
  }

  /** With a fresh cache, `send_sms` posts first, with the cached token. */
  lemma FreshCacheSkipsTokenRequest(cfg: Config, scope: Option<string>, now: int, to: string, text: string,
                                    sender: Option<string>, extra: map<string, Value>, cache: Cache, p: Provider)
    requires CacheFresh(cache, now)
    ensures var s := SendSms(cfg, scope, now, to, text, sender, extra, cache, p);
      var log := NewRequests(p, s.provider);
      && log != []
      && IsSmsPostOf(log[0], cfg, BuildPayload(to, text, sender, extra))
      && Some(log[0].bearer) == cache.token
  {
  }

  /** `later` is more than 30 s before the end of the lifetime of the token that the
      last post of a call at `now` with log `log` carried: the token its last fetch
      issued, or the cached token when the call made no other request. */
  predicate WithinReuseWindow(log: seq<Request>, p: Provider, cache: Cache, now: int, later: int) {
    if |log| >= 2 then
      var issued := AnswerAt(p, |log| - 2);
      && issued.Answered? && !issued.response.expiresIn.Unconvertible?
      && later < now + Lifetime(issued.response.expiresIn) - EXPIRY_MARGIN
    else
      later < cache.exp - EXPIRY_MARGIN
  }

  /** The second log starts with an SMS post carrying the token of the first log's
      last post. */
  predicate PostsAtOnceWithSameToken(log1: seq<Request>, log2: seq<Request>) {
    && log1 != [] && log2 != []
    && FirstSms(log2) == 0
    && log2[0].SmsPost? && log1[|log1| - 1].SmsPost?
    && log2[0].bearer == log1[|log1| - 1].bearer
  }

  /** After a successful call (a log and result as `SendSms` ensures them) the cache
      holds the token the last post carried, and it is still fresh at `later` when
      `later` is more than 30 s before the end of that token's lifetime. */
  lemma SuccessLeavesTokenCached(log: seq<Request>, s: Step<SmsResult>, cfg: Config, scope: Option<string>,
                                 payload: map<string, Value>, cache: Cache, now: int, p: Provider, later: int)
    requires IsSendLog(log, cfg, scope, payload, cache, now, p)
    requires ResultAgreesWithLog(s, log, p) && CacheAgreesWithLog(s, log, p, cache, now)
    requires s.result.Success?
    requires WithinReuseWindow(log, p, cache, now, later)
    ensures log[|log| - 1].SmsPost? && s.cache.token == Some(log[|log| - 1].bearer)
    ensures CacheFresh(s.cache, later)
  {
    if |log| == 1 {
      assert FirstSms(log) == 0;
    }
  }

  /** Two sends in a row on one client: when the first succeeds and the second comes
      more than 30 s before the end of the lifetime of the token the first one
      posted with (the token its last fetch issued at `now1`, or the cached token
      when it made no other request), the second, whatever its recipient, text,
      sender and extra fields, posts at once, with that token. */
  lemma SecondSendReusesToken(cfg: Config, scope: Option<string>, now1: int, to1: string, text1: string,
                              sender1: Option<string>, extra1: map<string, Value>, now2: int, to2: string,
                              text2: string, sender2: Option<string>, extra2: map<string, Value>, cache: Cache,
                              p: Provider)
    requires SendSms(cfg, scope, now1, to1, text1, sender1, extra1, cache, p).result.Success?
    requires var s1 := SendSms(cfg, scope, now1, to1, text1, sender1, extra1, cache, p);
      WithinReuseWindow(NewRequests(p, s1.provider), p, cache, now1, now2)
    ensures var s1 := SendSms(cfg, scope, now1, to1, text1, sender1, extra1, cache, p);
      var s2 := SendSms(cfg, scope, now2, to2, text2, sender2, extra2, s1.cache, s1.provider);
      PostsAtOnceWithSameToken(NewRequests(p, s1.provider), NewRequests(s1.provider, s2.provider))
  {
    var s1 := SendSms(cfg, scope, now1, to1, text1, sender1, extra1, cache, p);
    SuccessLeavesTokenCached(NewRequests(p, s1.provider), s1, cfg, scope, BuildPayload(to1, text1, sender1, extra1),
                             cache, now1, p, now2);
    FreshCacheSkipsTokenRequest(cfg, scope, now2, to2, text2, sender2, extra2, s1.cache, s1.provider);
  }
}
