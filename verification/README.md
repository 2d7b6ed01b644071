# kommo-n2p-backend (US) — a Dafny model of the SMS send path

The backend takes SMS send requests from a Kommo CRM integration and relays them
to net2phone. This project models the core of that path:

- **`utils_us.py`** — the anchored US E.164 pattern `^\+1\d{10}$`, and the
  Eastern-time quiet-hours check. The allowed window `[start, end)` defaults to
  8..21. Module `UtilsUs`.
- **`n2p.py`** — the provider client:
  - `N2PConfig.from_env`: URL defaults, `rstrip("/")`, and the required
    credentials;
  - the `(token, exp)` cache, reused until 30 s before expiry;
  - the client-credentials token fetch: a body-credentials attempt, then one
    HTTP Basic attempt after a 400/401;
  - `send_sms`: payload building, and one forced re-authentication and
    resubmission after a 401.

  Module `N2P`.
- **`main.py`** — `decorate_text`, and the `/send-sms` handler. The handler
  gives 400 for an invalid number, then 429 in quiet hours, then either a mock
  echo or a send through a new client; any client error becomes 502. Module
  `Gateway`.

`Wrappers` holds `Option` and `Result`.

The provider is an oracle: a sequence of outcomes, one consumed per POST, and
an exhausted oracle counts as a transport failure. Every request the client
makes is appended to a log, so the contracts can speak about which requests
were sent, in what order, and which answer decided the result. The transport
adapter's retries collapse into one outcome:

- a 429/500/502/503/504 answer surfaces as a transport exception (`Deliver`),
  as urllib3's `Retry` with `status_forcelist` does once its retries are spent;
- any other answer is returned as is.

Where the code departs from its evident intent, the model follows the code:

- `raise_for_status` raises for 400..599 only, so a 1xx or 3xx final answer
  counts as success.
- `N2PConfig.from_env()` runs outside the handler's `try`
  (`main.py:100`). A missing `N2P_CLIENT_ID` or `N2P_CLIENT_SECRET` is therefore
  an unhandled error (HTTP 500), not a 502.
- `_token` is assigned before `int(expires_in)` runs (`n2p.py:68-69`). A
  non-integer `expires_in` therefore leaves the new token in the cache beside
  the old expiry (`ExpiryNotInteger`).
- In `n2p.py` the body of `_get_token` (lines 37-70) is indented at the same
  level as its `def`, which Python rejects. The model takes those lines as the
  method's body.
- The 429 detail text always says "8am–9pm ET by default", whatever window is
  configured. The model keeps that constant text.

## Model

| member | source | states |
|---|---|---|
| UtilsUs.IsValidUsE164 | utils_us.py:6-9 | defined as an anchored match of `+`, `1` and ten `\d` atoms; `UtilsUs.ValidIffShape` characterises it |
| UtilsUs.FullMatchPointwise | utils_us.py:6-9 | an anchored fixed-length pattern matches exactly when the lengths agree and every position matches its atom |
| UtilsUs.ValidIffShape | utils_us.py:6-9 | a number is accepted exactly when it has 12 characters: `+`, `1`, then ten ASCII digits |
| UtilsUs.MatchUsE164 | utils_us.py:8-9 | the scanning matcher, which checks the length, then walks pattern and input in step and stops at the first position that fails, answers true exactly when the anchored pattern matches |
| UtilsUs.AcceptedLengthAndPrefix | utils_us.py:6 | every accepted number has length 12 and starts with `+1` |
| UtilsUs.MissingPlusRejected | utils_us.py:6 | an empty string, or one not starting with `+`, is rejected |
| UtilsUs.WrongDigitCountRejected | utils_us.py:6 | `+1` followed by a digit run of any length other than ten is rejected |
| UtilsUs.TenDigitsAccepted | utils_us.py:6 | `+1` followed by exactly ten digits is accepted |
| UtilsUs.E164Examples | utils_us.py:6-9 | `+15551234567` is accepted; `+1555123456`, `+155512345678` and `15551234567` are rejected |
| UtilsUs.WithinQuietHoursEt | utils_us.py:11-14 | defined as the negation of `start <= hour < end` on the Eastern hour; `UtilsUs.QuietIffNotAllowed` relates it to the set of allowed hours |
| UtilsUs.QuietIffNotAllowed | utils_us.py:11-14 | quiet exactly when the Eastern hour is outside the half-open window `[start, end)` |
| UtilsUs.DefaultWindowBoundaries | utils_us.py:11-14 | with the defaults 8 and 21: hours 7 and 21 are quiet, 8 and 20 are not |
| UtilsUs.EmptyWindowAlwaysQuiet | utils_us.py:14 | when start ≥ end no hour is allowed and every instant is quiet |
| UtilsUs.OnlyHourMatters | utils_us.py:13-14 | two instants with the same Eastern hour get the same answer |
| N2P.RStripSlash | n2p.py:17 | the stripped base URL is a prefix of the input, does not end in `/`, and only slashes were removed |
| N2P.RStripSlashTrailing | n2p.py:17 | stripping is idempotent, and a base with any number of trailing slashes strips to the same URL |
| N2P.FromEnv | n2p.py:15-22 | succeeds exactly when client id and secret are set, reporting the first one missing; keeps the credentials; token URL defaults; the base URL is the configured or default base with `rstrip("/")` applied; the SMS URL defaults to the stripped base plus `/messaging/sms` |
| N2P.DefaultUrls | n2p.py:17-19 | with no URL variables set, the URLs are the built-in net2phone endpoints |
| N2P.Deliver | n2p.py:30-34 | a retried status (429, 500, 502, 503, 504) never reaches the client as an answer; any other answer does |
| N2P.Post | n2p.py:46-50 | a POST logs exactly its request and receives the next pending outcome; later requests see the outcomes after it |
| N2P.RaisesForStatus | n2p.py:59 | defined as a status in 400..599, the range `raise_for_status` raises for; used for both token and SMS answers |
| N2P.GrantForm | n2p.py:40-43 | the grant form holds `grant_type=client_credentials`, plus `scope` exactly when the scope is non-empty |
| N2P.CacheFresh | n2p.py:37 | defined as a non-empty cached token and `now < exp - 30`; `N2P.GetToken` states that it decides whether a request is made |
| N2P.AcceptToken | n2p.py:58-70 | a token is returned exactly when the answer is not 4xx/5xx, has a non-empty `access_token` and an integer `expires_in`, and the cache then holds it with expiry `now + expires_in` (default 3600); a transport failure, a 4xx/5xx (with status and body) and a missing or empty token raise and leave the cache unchanged; an unconvertible `expires_in` raises after the token is stored, so the cache holds the new token beside the old expiry |
| N2P.GetToken | n2p.py:36-70 | makes no request exactly when not forced and the cached token is fresh, and then returns it; otherwise sends the body-credentials request and, exactly when it is answered 400/401, the Basic-auth request; the last answer decides the result: its token with expiry `now + expires_in`, or a transport error, an HTTP error with status and body (cache unchanged), an invalid-token error for a missing or empty token (cache unchanged), or an expiry error with the new token beside the old expiry; the cache never receives an empty token |
| N2P.FetchedTokenReused | n2p.py:37-38 | a token just fetched is reused without any request until 30 s before its expiry |
| N2P.BuildPayload | n2p.py:77-81 | the payload has `to`, `text`, `from` exactly for a non-empty sender, and the extra keys; extra values override |
| N2P.SmsOutcome | n2p.py:86-94 | the final SMS answer succeeds exactly when it is not 4xx/5xx; a non-empty body is returned as the result, an empty body gives `{"ok": True}`; a 4xx/5xx gives an error with status and body; a transport failure gives a transport error |
| N2P.Resubmit | n2p.py:83-85 | the retry is one forced token fetch (the Basic-auth attempt exactly when the first attempt is answered 400/401), then one SMS post exactly when the fetch's last answer issued a token, carrying that token, and nothing after; the result is the answer to that post, and the cache holds that token with expiry `now + expires_in`; without a post the result is the error raised for the last token answer, and the cache is what that answer leaves of the entry cache: unchanged, or the new token beside the old expiry when `expires_in` is not an integer |
| N2P.SubmitWithRetry | n2p.py:82-85 | the first post carries the token obtained; more requests follow exactly when it is answered 401, and they are a retry as in `N2P.Resubmit`; the result is read from the last post's answer, or is the retry's token error; without a retry the cache is unchanged, after a retry that posted it holds the newly issued token with its expiry, and after a retry whose fetch failed it is what the last token answer leaves of the cache the submission started with |
| N2P.SendSms | n2p.py:75-94 | the requests are a token fetch unless the cache is fresh (then the post carries the cached token), with the Basic-auth attempt exactly when the first attempt is answered 400/401; one SMS post with the built payload follows exactly when a token was obtained, carrying the token the provider just issued; a retry follows exactly after a 401; the result comes from the last post's answer, which carried the token left in the cache, or else is the error raised for the last token answer; a call that posted once with the fresh cached token leaves the cache as it was, any other call ending in a post leaves the token the last fetch issued with expiry `now + expires_in`; a call ending in a token failure leaves what the last token answer makes of the cache its fetch started from (the call's cache, or the cache at the first post for the retry's fetch); the cache never receives an empty token |
| N2P.SendLogBounds | n2p.py:75-94 | any such log has 1 to 6 requests and at most two SMS posts, the second only after a 401 |
| N2P.SendSmsRequestBounds | n2p.py:75-94 | one `send_sms` makes 1 to 6 requests and at most two SMS posts, the second only after a 401 |
| N2P.SecondUnauthorizedFails | n2p.py:83-93 | in a `send_sms` call, an SMS post after the first that is answered 401 is the last request: there are two posts, and the call fails with that 401 and its body |
| N2P.LaterPostIsLast | n2p.py:82-85 | in a log whose requests after the first SMS post are a retry, any later SMS post is the last request |
| N2P.ColdStartFetchesToken | n2p.py:36-50 | with an empty cache, the first request of `send_sms` is the body-credentials token request |
| N2P.FreshCacheSkipsTokenRequest | n2p.py:76 | with a fresh cached token the first request is the SMS post, carrying that token |
| N2P.SuccessLeavesTokenCached | n2p.py:37-69 | after a successful `send_sms` the cache holds the token its last post carried, and that token is still fresh up to 30 s before the end of the lifetime the provider granted when issuing it (or of the cached token's expiry) |
| N2P.SecondSendReusesToken | n2p.py:37-38 | after a successful send, a second send on the same client, with any recipient, text, sender and extra fields, more than 30 s before the end of the lifetime of the token the first send used posts at once with that token |
| Gateway.DecorateText | main.py:77-79 | the message is `[brand] `, then the text unchanged, then ` Reply STOP to opt-out.`, and is 26 characters plus brand and text long |
| Gateway.DecorateRoundTrip | main.py:77-79 | stripping the decoration gives back the original text |
| Gateway.StripDecorationSound | main.py:77-79 | whatever strips is the decoration of the text it yields |
| Gateway.DecorateDefaultBrand | main.py:72-79 | with the default brand, `Hello` becomes `[PLS N2P] Hello Reply STOP to opt-out.` |
| Gateway.ResolveSender | main.py:94 | an absent or empty sender falls back to the default; with a non-empty default the sender is never empty |
| Gateway.LiveSend | main.py:100-108 | the live branch answers 500 with no request exactly when the client configuration is incomplete; otherwise it reports exactly the requests the new client made, answers 200 with the client's result when it succeeds and 502 with the client's error when it fails |
| Gateway.SendSms | main.py:85-108 | invalid number → 400 and no request; valid in quiet hours → 429 and no request; otherwise in mock mode → echo of number, decorated text and resolved sender, with no request; requests only in live mode for a valid number |
| Gateway.StatusCodesOfTheGate | main.py:87-90 | status 400 exactly for an invalid number; 429 exactly for a valid number in quiet hours |
| Gateway.MockIgnoresProvider | main.py:92-98 | in mock mode the reply does not depend on the provider's configuration or answers |
| Gateway.LiveSendOutcome | main.py:100-108 | live mode: incomplete configuration → 500 and no request; otherwise 502 with the client's error exactly when the client fails, 200 with its result otherwise; the reported requests are exactly the client's, one to six with at most two SMS posts, and the first is a body-credentials token request |
| Gateway.MockExample | main.py:92-98 | default settings, a valid number, text `Hello`, inside the window: echo `[PLS N2P] Hello Reply STOP to opt-out.` from `+17543050540` |

## Left out

- Environment reads (`os.getenv`, `os.environ`, `N2P_SCOPE`, `MOCK_SEND`, `BRAND_TAG`, the allowed hours, `DEFAULT_SENDER`): their values are parameters (`Settings`, `EnvVars`, `scope`). Parsing `MOCK_SEND` (`.lower() == "true"`) and `int()` of the hour variables is not modelled.
- Time-zone conversion to America/New_York (pytz): the quiet-hours check receives an already converted `EasternTime`.
- `time.time()`: one integer `now` per client call. Fractional seconds, and time passing between requests inside one call, are not modelled.
- The transport adapter's retry count, backoff timing, connection pooling and timeouts: each POST is one outcome after the adapter's own retries.
- JSON decoding: a response carries its raw body and the already-read `access_token` and `expires_in` members. A body that is not valid JSON (the exception from `r.json()`) is not modelled. The SMS error detail is the raw body. `int()` of a float or numeric-string `expires_in` is treated as an integer or as unconvertible, without truncation.
- The text of exception messages (`Token error (…)`, `N2P SMS failed (…)`, `str(e)` in the 502 detail): errors are kept as structured values.
- Regex corner cases: `\d` is ASCII digits only (Python also accepts other Unicode digits), and `$` is taken as end of string (Python also matches before a final newline).
- FastAPI/Pydantic request validation, CORS, the webhook and probe endpoints, `/` and `/healthz`, logging: outside the send path.
- Concurrency: each request is handled on its own, and the live path builds its own client, so no cache is shared.
- Gateway.MockExample: it holds for any valid number; that `+15551234567` is valid is stated separately by `UtilsUs.E164Examples`.
