# oauth2kit token lifecycle, in Dafny

This is a model of the `Manager` of go-oauth2kit, a small Go library that
obtains an OAuth2 token for a command-line program, caches it in a file and
hands back an authenticated HTTP client. `GetToken` behaves in one of three ways:

- it reuses the cached token file when it exists;
- it returns a stat error unchanged;
- when the file does not exist, it runs the interactive authorization-code
  flow: start a local callback server, open the browser, wait for the code,
  shut the server down, exchange the code, store the token.

`NewOAuth2Client` calls `GetToken`, validates the token through a token source,
which may refresh it, and saves the validated token when its access token
changed.

Every call into the outside world is an *oracle*: a value the caller of the
model supplies. The outside world is the file system, the browser launcher, the
callback wait, the server shutdown, the token endpoint and the token source.
What the code does with each answer is modelled exactly.

The project has these modules:

- `Configuration` (`configuration.dfy`): the `Config` record, the defaults
  `":15440"` and `"/callback"`, the listener address, the handler path and the
  redirect URL.
- `TokenStore` (`token_store.dfy`): the token and the token file (missing,
  holding a token, or corrupt), and what `store` does to the file.
- `Callback` (`callback.dfy`): the callback handler and the three-way `select`
  that ends the wait.
- `Effects` (`effects.dfy`): the observable effects: logs, writes, server
  start and shutdown, exchange, store, load and validate.
- `OAuth2Kit` (`manager.dfy`):
  - the oracle results;
  - `GetTokenRun` and `NewClientRun`, which write each call as a total function
    from the token file and the oracles to the result, the effect trace and the
    new file;
  - the `Manager` class, whose methods `GetToken` and `NewOAuth2Client` update
    the logger, the file and a ghost effect trace in place and are proved equal
    to those functions.
- `TokenLifecycle` (`lifecycle.dfy`): the promises of the two calls, proved
  about the functions.
- `Sessions` (`sessions.dfy`): successive calls sharing one token file. It
  proves, by induction, that once the file is present (or once some call has
  succeeded) no later call of an honest session starts the callback server or
  opens the browser again.

## Where the code and its documentation differ

The model follows the code in each of these cases.

- A timeout, a listener error or a callback without a code is only logged.
  The code then shuts the server down and still calls `Exchange` with the empty
  code (`oauth2.go:152-175`). The error returned in that case is the exchange
  error, not a timeout error.
- The redirect URL always ends in `/callback` (`oauth2.go:258`). The handler is
  registered on `ServerPath` (`oauth2.go:116-120`). The redirect path is
  therefore the registered pattern only when `ServerPath` is unset or is
  `"/callback"`; `RedirectPathIsPatternOnlyByDefault` states this. Whether a
  different pattern still catches the redirect depends on Go's request router:
  `"/"` does, `"/callback/"` does through a redirect, `"/auth"` does not.
- The comment on `TokenFile` says it defaults to `"token.json"`, but no code
  sets that default. The file name itself is not modelled: `file` stands for
  whatever `TokenFile` names, and no default is applied.
- `store` truncates the file before encoding (`oauth2.go:277-282`). An encoding
  failure therefore leaves the file corrupt rather than keeping the previous
  token. `TokenStore.AfterStore` records this, `FreshTokenPersisted` and
  `RefreshSavedIffChanged` state it for both calls, and
  `Sessions.CorruptFileFailsLoad` shows that the next call then fails at the
  load instead of authorizing again. After a failed refresh save the client is
  still returned, but the cached token is gone.
- The comment on the `LoggerRepository` field says a nil repository means no
  logging (`oauth2.go:25-26`). `GetToken` instead installs the standard
  repository, which logs to standard error (`oauth2.go:80-82`, `205-206`).
  `InstalledLogger` follows the code.
- The state value `"state-token"` is a constant, and the callback never checks
  it.

## Model

| member | source | states |
|---|---|---|
| Configuration.ListenAddr | oauth2.go:96-99 | the server listens on `LocalAddr` when set and on `":15440"` otherwise; never on the empty address |
| Configuration.CallbackPath | oauth2.go:116-119 | the handler path is `ServerPath` when set and `"/callback"` otherwise; never empty |
| Configuration.BuildRedirectURL | oauth2.go:253-259 | the redirect URL is `"http://localhost"` + listener address + `"/callback"`; `"http://localhost:15440/callback"` by default |
| Configuration.RedirectIgnoresServerPath | oauth2.go:253-259 | changing `ServerPath` never changes the redirect URL |
| Configuration.RedirectPathIsPatternOnlyByDefault | oauth2.go:116-120 | the path of the redirect URL is, as a string, the pattern the handler is registered under if and only if that pattern is `"/callback"` (router pattern matching is not modelled) |
| TokenStore.AfterStore | oauth2.go:276-283 | a successful store leaves exactly the token in the file; an open failure leaves the file as it was; an encoding failure leaves it corrupt; a store can leave the file missing only by failing to open a missing file |
| Callback.HandleCallback | oauth2.go:120-136 | a request without a code signals the "no authorization code received" error and gets the error page; a request with a code passes that code on and gets the success page |
| Callback.Await | oauth2.go:139-161 | the wait ends with a code exactly when a request carried a non-empty code (and keeps that code), and with a timeout exactly when the timer fired; a listener failure or an empty code ends it with an error |
| Callback.AuthCode | oauth2.go:153-161 | the code handed to the exchange is non-empty exactly when a code arrived, and is empty after an error or a timeout |
| OAuth2Kit.InstalledLogger | oauth2.go:80-82 | a nil logger repository is replaced by the standard one; a set one is kept |
| OAuth2Kit.Manager.GetWriter | oauth2.go:72-77 | the output goes to the configured writer, or to standard output when none is set |
| OAuth2Kit.Manager.Handshake | oauth2.go:96-171 | starts the server on the listener address and handler path, opens the browser (on failure a warning and the printed URL), ends the wait, shuts the server down and announces the exchange; returns the code left by the wait |
| OAuth2Kit.HandshakeTrace | oauth2.go:115-172 | defines the cache-miss effects in order: server start, browser step, the wait's outcome, shutdown (and its error), the exchanging line and the exchange with the wait's code; it has no contract of its own, and its properties are the `TokenLifecycle` lemmas |
| OAuth2Kit.GetTokenRun | oauth2.go:79-192 | defines `GetToken` for every stat, load, exchange and store outcome: its result, its effects and the file it leaves; no contract of its own, and the `TokenLifecycle` lemmas state its properties |
| OAuth2Kit.NewClientRun | oauth2.go:47-70 | defines `NewOAuth2Client` on top of `GetTokenRun`: the validation, the save of a changed token and the warning on a failed save; no contract of its own, and the `TokenLifecycle` and `Sessions` lemmas state its properties |
| OAuth2Kit.Manager.GetToken | oauth2.go:79-192 | installs the standard logger when none is set; returns the result, leaves the file and appends the effects that `GetTokenRun` gives for the old file and the oracles |
| OAuth2Kit.Manager.NewOAuth2Client | oauth2.go:47-70 | the same, against `NewClientRun` |
| TokenLifecycle.StatFailureStops | oauth2.go:88-91 | a stat error other than not-exist is returned unwrapped after the stat alone; the file is unchanged |
| TokenLifecycle.CacheHitLoadsOnly | oauth2.go:185-191 | an existing file is loaded exactly once, with no server, browser, exchange or store; the loaded token or the wrapped load error is returned |
| TokenLifecycle.CacheMissStartsServer | oauth2.go:94-143 | a missing file leads to exactly one server start, on the listener address and handler path, right after the stat, and never to a load |
| TokenLifecycle.CacheMissExchangesOnce | oauth2.go:163-180 | a cache-miss trace holds exactly one shutdown and one exchange, the exchange after the shutdown and with the code the wait left behind, followed only by the store of the exchanged token if there is one |
| TokenLifecycle.CacheMissWaitOutcome | oauth2.go:152-161 | the trace shows the code-received message, the authorization error or the timeout error exactly when the wait ended that way |
| TokenLifecycle.ShutdownBeforeExchange | oauth2.go:163-172 | on a cache miss the server is shut down before the code is exchanged |
| TokenLifecycle.ExchangeFailurePersistsNothing | oauth2.go:172-175 | a failed exchange is returned wrapped, stores nothing and leaves the file unchanged |
| TokenLifecycle.FreshTokenPersisted | oauth2.go:177-182 | an exchanged token is stored; on success it is returned and is exactly what the file holds; a store failure is returned as an error; an open failure leaves the file as it was, and an encoding failure leaves it truncated (corrupt) |
| TokenLifecycle.NoCodeFallsThroughToExchange | oauth2.go:152-175 | after a timeout, a listener error or an empty code, the server is shut down and the exchange still runs with the empty code; the call succeeds only if that exchange and the store do |
| TokenLifecycle.BrowserFailureIsNotFatal | oauth2.go:146-150 | a browser launch failure changes neither the result nor the file |
| TokenLifecycle.BrowserFailureWarnsBeforeWaitEnds | oauth2.go:146-161 | after a browser launch failure, the warning comes before the printed URL, and the printed URL before the wait's outcome and before the shutdown |
| TokenLifecycle.LaunchedBrowserIsSilent | oauth2.go:146-150 | a launched browser gives neither the warning nor the printed URL |
| TokenLifecycle.FileNeverRemoved | oauth2.go:178-180 | neither call turns a present token file into a missing one |
| TokenLifecycle.GetTokenLeavesValidationAlone | oauth2.go:79-192 | `GetToken` never validates and never logs the refresh-save warning |
| TokenLifecycle.ClientFailureStoresNothing | oauth2.go:48-58 | when `GetToken` or the validation fails, `NewOAuth2Client` returns that error, adds no store and leaves the file as `GetToken` left it |
| TokenLifecycle.RefreshSavedIffChanged | oauth2.go:55-69 | with a validated token the client is always returned; the validated token is stored exactly once if its access token changed, and otherwise never; a failed save is only a warning and the call still succeeds, but an encoding failure leaves the file truncated (corrupt), destroying the cached token |
| Sessions.Runs | oauth2.go:47-70 | a session yields one run per call; the first run starts from the given file |
| Sessions.PresentFileSkipsServer | oauth2.go:88-94 | a call that finds the file present (the file system answering truthfully) starts no server, opens no browser and leaves the file present |
| Sessions.PresentFileNeverReauthorizes | oauth2.go:88-94 | once the file is present, no call of an honest session starts the callback server or opens the browser |
| Sessions.SuccessLeavesFile | oauth2.go:177-182 | a call that returns a client leaves the token file present |
| Sessions.SuccessEndsAuthorization | oauth2.go:79-192 | after any call that returns a client, no later call of an honest session starts the callback server or opens the browser |
| Sessions.CorruptFileFailsLoad | oauth2.go:185-191 | a corrupt token file (after a failed encoding) is found present, so the next call fails with a load error and starts no server, unless its stat fails |
| Sessions.SavedTokenReloaded | oauth2.go:185-191 | when both saves of a successful call go through, the next call (unless its stat fails) loads a token with the client's current access token, with no authorization |

## Left out

- The HTTP server, its goroutine and the unbuffered channels are not modelled
  as concurrent code. The wait's outcome is an oracle. A late callback blocking
  its goroutine forever is not modelled either.
- `http.HandleFunc` registers on the process-wide default mux, so a second call
  with a missing file panics on the duplicate pattern. The model treats every
  call as in a fresh process.
- The five-minute timer and the five-second shutdown deadline are left out.
  That deadline is also the context the exchange runs under, because `ctx` is
  shadowed at line 164. Both are only the timeout oracle here.
- `openURL`, with its per-operating-system commands, is the browser oracle.
- JSON encoding, `os.OpenFile` and `os.Open` are the store and load oracles.
  `load` returning a token together with a decoding error is a load failure,
  which is how `GetToken` treats it.
- The `golang.org/x/oauth2` calls are left out:
  - `AuthCodeURL`, `GenerateVerifier`, `S256ChallengeOption` and
    `VerifierOption` (PKCE): the URL and the verifier do not affect control
    flow;
  - `Exchange` is the exchange oracle;
  - `TokenSource(...).Token()` is the validate oracle;
  - `oauth2.NewClient` only wraps the token source, so the client is the seed
    token and the validated token.
- `oauth2Config`, `oauth2ConfigOAuth2` and `Manager.TokenSource`
  (oauth2.go:39-45, 243-251) only build library values. Only their
  `RedirectURL` is modelled, as `BuildRedirectURL`.
- Log levels, handlers and message texts are left out. Effects name each
  message. The two Debug messages are not in the trace, because the standard
  handler only writes Info and above.
- Go's request router is not modelled. Its pattern matching decides whether
  a redirect to `/callback` reaches a handler registered under another
  `ServerPath` (a subtree pattern, or a trailing-slash redirect). The model
  compares only the path strings.
- `ContextWithLogger` and custom logger repositories are opaque. So is the
  claim that a Manager is safe for concurrent use.
- `doc.go` and the example program are usage documentation, not behaviour.
