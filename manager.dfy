/** The token-lifecycle orchestration of `Manager`: `GetToken` decides between
    the cached token and the interactive authorization-code flow, and
    `NewOAuth2Client` validates (and possibly refreshes) the token and saves a
    changed one. Every external call is an oracle result supplied by the caller;
    the effects are recorded in order in a ghost trace. */
module OAuth2Kit {
  import opened Wrappers
  import opened Configuration
  import opened TokenStore
  import opened Callback
  import opened Effects

  /** What `os.Stat` of the token file reports. */
  datatype StatResult = Exists | NotExist | StatFailed(msg: string)

  /** What launching the browser reports. */
  datatype BrowserResult = Launched | LaunchFailed(msg: string)

  /** What shutting the callback server down reports. */
  datatype ShutdownResult = Stopped | StopFailed(msg: string)

  /** What the code exchange at the token endpoint reports. */
  datatype ExchangeResult = Exchanged(token: Token) | ExchangeFailed(msg: string)

  /** What the token source's `Token()` reports: the same token while it is
      valid, a refreshed one, or an error. */
  datatype ValidateResult = Validated(token: Token) | ValidateFailed(msg: string)

  /** The errors returned to the caller, each wrapping the underlying message the
      way the source's `fmt.Errorf` calls do; a stat error is returned unwrapped. */
  datatype Error =
    | StatError(msg: string)
    | TokenExchange(msg: string)
    | StoreToken(msg: string)
    | LoadToken(msg: string)
    | ValidateRefresh(msg: string)

  /** The outcomes of every external call `GetToken` may make. */
  datatype AuthOracles = AuthOracles(
    stat: StatResult,
    browser: BrowserResult,
    wait: WaitEvent,
    shutdown: ShutdownResult,
    exchange: ExchangeResult,
    store: StoreResult,
    load: LoadResult)

  /** The outcomes of every external call `NewOAuth2Client` may make. */
  datatype ClientOracles = ClientOracles(auth: AuthOracles, validate: ValidateResult, refreshStore: StoreResult)

  /** The authenticated client: built on a token source seeded with the token
      `GetToken` returned, holding the validated token. */
  datatype Client = Client(seed: Token, current: Token)

  /** The `LoggerRepository` interface value of a Manager. */
  datatype LoggerRepository = NoLogger | StandardLogger | CustomLogger(name: string)

  /** One call of `GetToken`: the result, the effects in order and the token file afterwards. */
  datatype Run = Run(result: Result<Token, Error>, trace: seq<Effect>, file: FileState)

  /** One call of `NewOAuth2Client`. */
  datatype ClientRun = ClientRun(result: Result<Client, Error>, trace: seq<Effect>, file: FileState)

  function StoreError(s: StoreResult): string
    requires !s.StoreOk?
  {
    s.msg
  }

  /** The repository a call leaves installed: the standard one replaces a nil one. */
  function InstalledLogger(l: LoggerRepository): (installed: LoggerRepository)
    ensures installed != NoLogger
    ensures l != NoLogger ==> installed == l
  {
    if l == NoLogger then StandardLogger else l
  }

  /** Opening the browser; on failure a warning is logged and the URL printed instead. */
  function LaunchEffects(out: Writer, b: BrowserResult): seq<Effect>
  {
    [Write(Stdout, OpeningBrowser), OpenBrowser]
      + (if b.LaunchFailed? then [Warn(BrowserLaunchFailed), Write(out, ManualUrl)] else [])
  }

  /** What the `select` leaves in the trace for each of its three cases. */
  function SignalEffects(out: Writer, s: Signal): seq<Effect>
  {
    match s
    case CodeReceived(_) => [Write(out, CodeArrived)]
    case ReceiverError(_) => [LogError(AuthorizationFailed)]
    case Timeout => [LogError(WaitTimedOut)]
  }

  function ShutdownEffects(s: ShutdownResult): seq<Effect>
  {
    [Shutdown] + (if s.StopFailed? then [LogError(ShutdownFailed)] else [])
  }

  /** The interactive flow from starting the server up to the exchange. */
  function HandshakeTrace(cfg: Config, out: Writer, o: AuthOracles): seq<Effect>
  {
    var signal := Await(o.wait);
    [StartServer(ListenAddr(cfg), CallbackPath(cfg))]
      + LaunchEffects(out, o.browser)
      + SignalEffects(out, signal)
      + ShutdownEffects(o.shutdown)
      + [Write(out, Exchanging), Exchange(AuthCode(signal))]
  }

  /** `GetToken` as a function of the token file and the oracle results;
      `out` is the Manager's writer. */
  function GetTokenRun(cfg: Config, out: Writer, file: FileState, o: AuthOracles): Run
  {
    match o.stat
    case StatFailed(msg) => Run(Err(StatError(msg)), [Stat], file)
    case Exists =>
      var result := match o.load
        case LoadOk(t) => Ok(t)
        case LoadFailed(msg) => Err(LoadToken(msg));
      Run(result, [Stat, Load], file)
    case NotExist =>
      var handshake := [Stat] + HandshakeTrace(cfg, out, o);
      match o.exchange
      case ExchangeFailed(msg) => Run(Err(TokenExchange(msg)), handshake, file)
      case Exchanged(t) =>
        var result := if o.store.StoreOk? then Ok(t) else Err(StoreToken(StoreError(o.store)));
        Run(result, handshake + [Store(t)], AfterStore(file, t, o.store))
  }

  /** `NewOAuth2Client` as a function of the token file and the oracle results. */
  function NewClientRun(cfg: Config, out: Writer, file: FileState, o: ClientOracles): ClientRun
  {
    var g := GetTokenRun(cfg, out, file, o.auth);
    match g.result
    case Err(e) => ClientRun(Err(e), g.trace, g.file)
    case Ok(token) =>
      match o.validate
      case ValidateFailed(msg) => ClientRun(Err(ValidateRefresh(msg)), g.trace + [Validate], g.file)
      case Validated(validToken) =>
        if validToken.accessToken != token.accessToken then
          var warning := if o.refreshStore.StoreOk? then [] else [Warn(RefreshSaveFailed)];
          var t := g.trace + [Validate, Store(validToken)] + warning;
          ClientRun(Ok(Client(token, validToken)), t, AfterStore(g.file, validToken, o.refreshStore))
        else
          var t := g.trace + [Validate];
          ClientRun(Ok(Client(token, validToken)), t, g.file)
  }

  class Manager {
    const config: Config
    /** The embedded `LoggerRepository`; nil until `GetToken` installs the standard one. */
    var logger: LoggerRepository
    /** The `Writer` field; nil means standard output. */
    var writer: Option<Writer>
    /** The token file named by `config.tokenFile`. */
    var file: FileState
    /** Every effect performed so far, in order. */
    ghost var trace: seq<Effect>

    constructor (config: Config, logger: LoggerRepository, writer: Option<Writer>, file: FileState)
      ensures this.config == config && this.logger == logger && this.writer == writer
      ensures this.file == file && trace == []
    {
      this.config := config;
      this.logger := logger;
      this.writer := writer;
      this.file := file;
      trace := [];
    }

    /** The writer informational messages go to. */
    function GetWriter(): (w: Writer)
      reads this`writer
      ensures writer.Some? ==> w == writer.value
      ensures writer.None? ==> w == Stdout
    {
      if writer.Some? then writer.value else Stdout
    }

    /** The cache-miss flow from starting the callback server up to the call of
        the token endpoint; returns the code handed to the exchange. */
    method Handshake(o: AuthOracles) returns (authCode: string)
      modifies this`trace
      ensures authCode == AuthCode(Await(o.wait))
      ensures trace == old(trace) + HandshakeTrace(config, GetWriter(), o)
    {
      var localAddr := ListenAddr(config);
      var path := CallbackPath(config);
      trace := trace + [StartServer(localAddr, path)];
      trace := trace + [Write(Stdout, OpeningBrowser), OpenBrowser];
      if o.browser.LaunchFailed? {
        trace := trace + [Warn(BrowserLaunchFailed), Write(GetWriter(), ManualUrl)];
      }
      authCode := "";
      match Await(o.wait) {
        case CodeReceived(code) =>
          authCode := code;
          trace := trace + [Write(GetWriter(), CodeArrived)];
        case ReceiverError(_) =>
          trace := trace + [LogError(AuthorizationFailed)];
        case Timeout =>
          trace := trace + [LogError(WaitTimedOut)];
      }
      trace := trace + [Shutdown];
      if o.shutdown.StopFailed? {
        trace := trace + [LogError(ShutdownFailed)];
      }
      trace := trace + [Write(GetWriter(), Exchanging), Exchange(authCode)];
    }

    method GetToken(o: AuthOracles) returns (result: Result<Token, Error>)
      modifies this`logger, this`file, this`trace
      ensures logger == InstalledLogger(old(logger))
      ensures var r := GetTokenRun(config, GetWriter(), old(file), o);
        result == r.result && file == r.file && trace == old(trace) + r.trace
    {
      if logger == NoLogger {
        logger := StandardLogger;
      }
      trace := trace + [Stat];
      match o.stat {
        case StatFailed(msg) =>
          return Err(StatError(msg));
        case NotExist =>
          var authCode := Handshake(o);
          ghost var handshake := [Stat] + HandshakeTrace(config, GetWriter(), o);
          assert trace == old(trace) + handshake;
          match o.exchange {
            case ExchangeFailed(msg) =>
              return Err(TokenExchange(msg));
            case Exchanged(token) =>
              trace := trace + [Store(token)];
              assert trace == old(trace) + (handshake + [Store(token)]);
              file := AfterStore(file, token, o.store);
              if !o.store.StoreOk? {
                return Err(StoreToken(StoreError(o.store)));
              }
              return Ok(token);
          }
        case Exists =>
          trace := trace + [Load];
          assert trace == old(trace) + [Stat, Load];
          match o.load {
            case LoadFailed(msg) =>
              return Err(LoadToken(msg));
            case LoadOk(token) =>
              return Ok(token);
          }
      }
    }

    method NewOAuth2Client(o: ClientOracles) returns (result: Result<Client, Error>)
      modifies this`logger, this`file, this`trace
      ensures logger == InstalledLogger(old(logger))
      ensures var r := NewClientRun(config, GetWriter(), old(file), o);
        result == r.result && file == r.file && trace == old(trace) + r.trace
    {
      var got := GetToken(o.auth);
      if got.Err? {
        return Err(got.error);
      }
      var token := got.value;
      trace := trace + [Validate];
      match o.validate {
        case ValidateFailed(msg) =>
          return Err(ValidateRefresh(msg));
        case Validated(validToken) =>
          if validToken.accessToken != token.accessToken {
            trace := trace + [Store(validToken)];
            file := AfterStore(file, validToken, o.refreshStore);
            if !o.refreshStore.StoreOk? {
              // GetToken has installed a logger, so the warning has somewhere to go
              assert logger != NoLogger;
              trace := trace + [Warn(RefreshSaveFailed)];
            }
          }
          return Ok(Client(token, validToken));
      }
    }
  }
}
