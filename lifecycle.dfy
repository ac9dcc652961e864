/** What `GetToken` and `NewOAuth2Client` promise, stated over their
    reference definitions `GetTokenRun` and `NewClientRun`, which the Manager's
    methods are proved to follow. */
module TokenLifecycle {
  import opened Wrappers
  import opened Configuration
  import opened TokenStore
  import opened Callback
  import opened Effects
  import opened OAuth2Kit

  /** A stat error other than not-exist is returned unchanged, and nothing
      else is done: no server, no exchange, no store, no load. */
  lemma StatFailureStops(cfg: Config, out: Writer, file: FileState, o: AuthOracles)
    requires o.stat.StatFailed?
    ensures var r := GetTokenRun(cfg, out, file, o);
      r.result == Err(StatError(o.stat.msg)) && r.trace == [Stat] && r.file == file
  {
  }

  /** A cache hit never enters the interactive flow: exactly one load, whose
      token or wrapped error is the result, and the file is left alone. */
  lemma CacheHitLoadsOnly(cfg: Config, out: Writer, file: FileState, o: AuthOracles)
    requires o.stat.Exists?
    ensures var r := GetTokenRun(cfg, out, file, o);
      && r.trace == [Stat, Load]
      && !StartsServer(r.trace) && OpenBrowser !in r.trace
      && (forall c :: Exchange(c) !in r.trace)
      && (forall t :: Store(t) !in r.trace)
      && r.file == file
      && (o.load.LoadOk? ==> r.result == Ok(o.load.token))
      && (o.load.LoadFailed? ==> r.result == Err(LoadToken(o.load.msg)))
  {
  }

  /** The trace of a cache miss, split at the shutdown and at the exchange. */
  lemma CacheMissShape(cfg: Config, out: Writer, file: FileState, o: AuthOracles)
    returns (pre: seq<Effect>, mid: seq<Effect>, post: seq<Effect>)
    requires o.stat.NotExist?
    ensures var r := GetTokenRun(cfg, out, file, o);
      r.trace == pre + [Shutdown] + mid + [Exchange(AuthCode(Await(o.wait)))] + post
    ensures pre == [Stat, StartServer(ListenAddr(cfg), CallbackPath(cfg))]
                   + LaunchEffects(out, o.browser) + SignalEffects(out, Await(o.wait))
    ensures mid == (if o.shutdown.StopFailed? then [LogError(ShutdownFailed)] else []) + [Write(out, Exchanging)]
    ensures post == if o.exchange.Exchanged? then [Store(o.exchange.token)] else []
  {
    var signal := Await(o.wait);
    pre := [Stat, StartServer(ListenAddr(cfg), CallbackPath(cfg))] + LaunchEffects(out, o.browser) + SignalEffects(out, signal);
    mid := (if o.shutdown.StopFailed? then [LogError(ShutdownFailed)] else []) + [Write(out, Exchanging)];
    post := if o.exchange.Exchanged? then [Store(o.exchange.token)] else [];
    var r := GetTokenRun(cfg, out, file, o);
    var h := HandshakeTrace(cfg, out, o);
    assert h == [StartServer(ListenAddr(cfg), CallbackPath(cfg))] + LaunchEffects(out, o.browser)
                + SignalEffects(out, signal) + ([Shutdown] + (if o.shutdown.StopFailed? then [LogError(ShutdownFailed)] else []))
                + [Write(out, Exchanging), Exchange(AuthCode(signal))];
    assert r.trace == [Stat] + h + post;
  }

  /** An effect that none of the cache-miss steps produces is absent from a
      cache-miss trace. */
  lemma AbsentFromCacheMiss(cfg: Config, out: Writer, file: FileState, o: AuthOracles, e: Effect)
    requires o.stat.NotExist?
    requires e != Stat && !e.StartServer? && e != Shutdown && !e.Exchange? && !e.Store?
    requires e != LogError(ShutdownFailed) && e != Write(out, Exchanging)
    requires e !in LaunchEffects(out, o.browser) && e !in SignalEffects(out, Await(o.wait))
    ensures e !in GetTokenRun(cfg, out, file, o).trace
  {
    var pre, mid, post := CacheMissShape(cfg, out, file, o);
    assert e !in pre;
    assert e !in mid;
    assert e !in post;
  }

  /** The pieces around the shutdown and the exchange hold no other shutdown,
      exchange or store. */
  lemma QuietPieces(out: Writer, cfg: Config, b: BrowserResult, s: Signal, sh: ShutdownResult)
    ensures Quiet([Stat, StartServer(ListenAddr(cfg), CallbackPath(cfg))] + LaunchEffects(out, b)
                  + SignalEffects(out, s)
                  + ((if sh.StopFailed? then [LogError(ShutdownFailed)] else []) + [Write(out, Exchanging)]))
  {
  }

  /** No server start follows the shutdown. */
  lemma ServerStartedOnce(rest: seq<Effect>, mid: seq<Effect>, code: string, post: seq<Effect>)
    requires forall i :: 0 <= i < |rest| ==> !rest[i].StartServer?
    requires forall i :: 0 <= i < |mid| ==> !mid[i].StartServer?
    requires forall i :: 0 <= i < |post| ==> !post[i].StartServer?
    ensures var t := rest + [Shutdown] + mid + [Exchange(code)] + post;
      forall i :: 0 <= i < |t| ==> !t[i].StartServer?
  {
  }

  /** A cache miss starts with the stat and the server start on the listener
      address and handler path, starts no other server, and never loads the
      file. */
  lemma CacheMissStartsServer(cfg: Config, out: Writer, file: FileState, o: AuthOracles)
    requires o.stat.NotExist?
    ensures var r := GetTokenRun(cfg, out, file, o);
      && r.trace[..2] == [Stat, StartServer(ListenAddr(cfg), CallbackPath(cfg))]
      && (forall i :: 0 <= i < |r.trace| && r.trace[i].StartServer? ==> i == 1)
      && Load !in r.trace
  {
    var pre, mid, post := CacheMissShape(cfg, out, file, o);
    var r := GetTokenRun(cfg, out, file, o);
    assert r.trace[..2] == pre[..2];
    ServerStartedOnce(pre[2..], mid, AuthCode(Await(o.wait)), post);
    assert r.trace == [Stat, pre[1]] + (pre[2..] + [Shutdown] + mid + [Exchange(AuthCode(Await(o.wait)))] + post);
    AbsentFromCacheMiss(cfg, out, file, o, Load);
  }

  /** On a cache miss the trace holds exactly one shutdown and exactly one
      exchange, with the code the wait left behind (empty unless a code
      arrived), and ends with the store of the exchanged token if there is one;
      no other shutdown, exchange or store occurs. */
  lemma CacheMissExchangesOnce(cfg: Config, out: Writer, file: FileState, o: AuthOracles)
    requires o.stat.NotExist?
    ensures var r := GetTokenRun(cfg, out, file, o);
      exists pre, mid ::
        && r.trace == pre + [Shutdown] + mid + [Exchange(AuthCode(Await(o.wait)))]
                      + (if o.exchange.Exchanged? then [Store(o.exchange.token)] else [])
        && Quiet(pre + mid)
  {
    var pre, mid, post := CacheMissShape(cfg, out, file, o);
    QuietPieces(out, cfg, o.browser, Await(o.wait), o.shutdown);
    assert Quiet(pre + mid);
  }

  /** Only the wait's own step says how the wait ended. */
  lemma SignalOnlyInItsStep(cfg: Config, out: Writer, b: BrowserResult, s: Signal,
                            mid: seq<Effect>, code: string, post: seq<Effect>, e: Effect)
    requires e == Write(out, CodeArrived) || e == LogError(AuthorizationFailed) || e == LogError(WaitTimedOut)
    requires e !in mid && e !in post
    ensures var t := [Stat, StartServer(ListenAddr(cfg), CallbackPath(cfg))] + LaunchEffects(out, b)
                     + SignalEffects(out, s) + [Shutdown] + mid + [Exchange(code)] + post;
      e in t <==> e in SignalEffects(out, s)
  {
    var t := [Stat, StartServer(ListenAddr(cfg), CallbackPath(cfg))] + LaunchEffects(out, b)
             + SignalEffects(out, s) + [Shutdown] + mid + [Exchange(code)] + post;
    assert e !in LaunchEffects(out, b);
  }

  /** The wait ends in exactly one of its three outcomes, and the trace shows
      which one. */
  lemma CacheMissWaitOutcome(cfg: Config, out: Writer, file: FileState, o: AuthOracles)
    requires o.stat.NotExist?
    ensures var r := GetTokenRun(cfg, out, file, o);
      && (Write(out, CodeArrived) in r.trace <==> Await(o.wait).CodeReceived?)
      && (LogError(AuthorizationFailed) in r.trace <==> Await(o.wait).ReceiverError?)
      && (LogError(WaitTimedOut) in r.trace <==> Await(o.wait).Timeout?)
  {
    var pre, mid, post := CacheMissShape(cfg, out, file, o);
    var s := Await(o.wait);
    var code := AuthCode(s);
    SignalOnlyInItsStep(cfg, out, o.browser, s, mid, code, post, Write(out, CodeArrived));
    SignalOnlyInItsStep(cfg, out, o.browser, s, mid, code, post, LogError(AuthorizationFailed));
    SignalOnlyInItsStep(cfg, out, o.browser, s, mid, code, post, LogError(WaitTimedOut));
  }

  /** On a cache miss the server is shut down before the exchange. */
  lemma ShutdownBeforeExchange(cfg: Config, out: Writer, file: FileState, o: AuthOracles)
    requires o.stat.NotExist?
    ensures var r := GetTokenRun(cfg, out, file, o);
      Precedes(r.trace, Shutdown, Exchange(AuthCode(Await(o.wait))))
  {
    var pre, mid, post := CacheMissShape(cfg, out, file, o);
    PrecedesAround(pre, Shutdown, mid, Exchange(AuthCode(Await(o.wait))), post);
  }

  /** A failed exchange is returned wrapped and leaves the file as it was,
      with no store in the trace. */
  lemma ExchangeFailurePersistsNothing(cfg: Config, out: Writer, file: FileState, o: AuthOracles)
    requires o.stat.NotExist? && o.exchange.ExchangeFailed?
    ensures var r := GetTokenRun(cfg, out, file, o);
      r.result == Err(TokenExchange(o.exchange.msg)) && r.file == file && (forall t :: Store(t) !in r.trace)
  {
    CacheMissExchangesOnce(cfg, out, file, o);
  }

  /** After a successful exchange, failing to store the token is fatal; on
      success the file holds exactly the exchanged token and that token is
      returned. */
  lemma FreshTokenPersisted(cfg: Config, out: Writer, file: FileState, o: AuthOracles)
    requires o.stat.NotExist? && o.exchange.Exchanged?
    ensures var r := GetTokenRun(cfg, out, file, o);
      && Store(o.exchange.token) in r.trace
      && (o.store.StoreOk? ==> r.result == Ok(o.exchange.token) && r.file == Stored(o.exchange.token))
      && (!o.store.StoreOk? ==> r.result == Err(StoreToken(StoreError(o.store))))
      && (o.store.OpenFailed? ==> r.file == file)
      && (o.store.EncodeFailed? ==> r.file == Corrupt)
  {
  }

  /** A timeout, a listener failure or a callback without a code is not an
      error of its own: the server is shut down and the exchange goes ahead with
      the empty code, so the result is decided by the exchange and the store. */
  lemma NoCodeFallsThroughToExchange(cfg: Config, out: Writer, file: FileState, o: AuthOracles)
    requires o.stat.NotExist?
    requires o.wait.TimedOut? || o.wait.ServeFailed? || o.wait == Request("")
    ensures var r := GetTokenRun(cfg, out, file, o);
      && Exchange("") in r.trace
      && Precedes(r.trace, Shutdown, Exchange(""))
      && (r.result.Ok? <==> o.exchange.Exchanged? && o.store.StoreOk?)
      && (o.exchange.ExchangeFailed? ==> r.result == Err(TokenExchange(o.exchange.msg)))
  {
    assert AuthCode(Await(o.wait)) == "";
    ShutdownBeforeExchange(cfg, out, file, o);
  }

  /** A browser that cannot be launched is not an error: the result and the
      file are those of the same run with a launched browser. */
  lemma BrowserFailureIsNotFatal(cfg: Config, out: Writer, file: FileState, o: AuthOracles)
    requires o.stat.NotExist? && o.browser.LaunchFailed?
    ensures var r := GetTokenRun(cfg, out, file, o);
      var launched := GetTokenRun(cfg, out, file, o.(browser := Launched));
      r.result == launched.result && r.file == launched.file
  {
  }

  /** In `before + [w, m] + between + [x] + after`, `w` comes before `m`, and
      `m` before `x` and before the first effect of `between`. */
  lemma PrecedesInPair(before: seq<Effect>, w: Effect, m: Effect, between: seq<Effect>, x: Effect, after: seq<Effect>)
    ensures Precedes(before + [w, m] + between + [x] + after, w, m)
    ensures Precedes(before + [w, m] + between + [x] + after, m, x)
    ensures |between| > 0 ==> Precedes(before + [w, m] + between + [x] + after, m, between[0])
  {
    var t := before + [w, m] + between + [x] + after;
    assert t[|before|] == w && t[|before| + 1] == m && t[|before| + 2 + |between|] == x;
    if |between| > 0 {
      assert t[|before| + 2] == between[0];
    }
  }

  /** A browser that cannot be launched costs a warning and the printed URL,
      both before the wait's outcome is recorded and before the server is shut
      down. */
  lemma BrowserFailureWarnsBeforeWaitEnds(cfg: Config, out: Writer, file: FileState, o: AuthOracles)
    requires o.stat.NotExist? && o.browser.LaunchFailed?
    ensures var r := GetTokenRun(cfg, out, file, o);
      && Precedes(r.trace, Warn(BrowserLaunchFailed), Write(out, ManualUrl))
      && Precedes(r.trace, Write(out, ManualUrl), SignalEffects(out, Await(o.wait))[0])
      && Precedes(r.trace, Write(out, ManualUrl), Shutdown)
  {
    var pre, mid, post := CacheMissShape(cfg, out, file, o);
    var before := [Stat, StartServer(ListenAddr(cfg), CallbackPath(cfg)), Write(Stdout, OpeningBrowser), OpenBrowser];
    var between := SignalEffects(out, Await(o.wait));
    var after := mid + [Exchange(AuthCode(Await(o.wait)))] + post;
    assert pre == before + [Warn(BrowserLaunchFailed), Write(out, ManualUrl)] + between;
    var r := GetTokenRun(cfg, out, file, o);
    assert r.trace == before + [Warn(BrowserLaunchFailed), Write(out, ManualUrl)] + between + [Shutdown] + after;
    PrecedesInPair(before, Warn(BrowserLaunchFailed), Write(out, ManualUrl), between, Shutdown, after);
  }

  /** A launched browser gives no warning and prints no URL. */
  lemma LaunchedBrowserIsSilent(cfg: Config, out: Writer, file: FileState, o: AuthOracles)
    requires o.stat.NotExist? && o.browser.Launched?
    ensures var r := GetTokenRun(cfg, out, file, o);
      Warn(BrowserLaunchFailed) !in r.trace && Write(out, ManualUrl) !in r.trace
  {
    AbsentFromCacheMiss(cfg, out, file, o, Warn(BrowserLaunchFailed));
    AbsentFromCacheMiss(cfg, out, file, o, Write(out, ManualUrl));
  }

  /** Neither call ever removes the token file. */
  lemma FileNeverRemoved(cfg: Config, out: Writer, file: FileState, o: ClientOracles)
    requires !file.Missing?
    ensures !GetTokenRun(cfg, out, file, o.auth).file.Missing?
    ensures !NewClientRun(cfg, out, file, o).file.Missing?
  {
  }

  /** `GetToken` itself never validates and never logs the refresh-save warning. */
  lemma GetTokenLeavesValidationAlone(cfg: Config, out: Writer, file: FileState, o: AuthOracles)
    ensures var g := GetTokenRun(cfg, out, file, o);
      Validate !in g.trace && Warn(RefreshSaveFailed) !in g.trace
  {
    if o.stat.NotExist? {
      AbsentFromCacheMiss(cfg, out, file, o, Validate);
      AbsentFromCacheMiss(cfg, out, file, o, Warn(RefreshSaveFailed));
    }
  }

  /** When `GetToken` or the validation fails, `NewOAuth2Client` returns the
      error and writes nothing beyond what `GetToken` wrote. */
  lemma ClientFailureStoresNothing(cfg: Config, out: Writer, file: FileState, o: ClientOracles)
    requires NewClientRun(cfg, out, file, o).result.Err?
    ensures var g := GetTokenRun(cfg, out, file, o.auth);
      var r := NewClientRun(cfg, out, file, o);
      && (forall t :: Count(r.trace, Store(t)) == Count(g.trace, Store(t)))
      && r.file == g.file
      && (g.result.Err? ==> r.result == Err(g.result.error))
      && (g.result.Ok? ==> o.validate.ValidateFailed? && r.result == Err(ValidateRefresh(o.validate.msg)))
  {
  }

  /** With a valid or refreshed token, the client is returned whatever happens
      to the save; the validated token is written exactly when its access token
      differs from the one `GetToken` returned, and a failed write is only a
      warning. */
  lemma RefreshSavedIffChanged(cfg: Config, out: Writer, file: FileState, o: ClientOracles)
    requires GetTokenRun(cfg, out, file, o.auth).result.Ok? && o.validate.Validated?
    ensures var g := GetTokenRun(cfg, out, file, o.auth);
      var r := NewClientRun(cfg, out, file, o);
      var token, valid := g.result.value, o.validate.token;
      var changed := valid.accessToken != token.accessToken;
      && r.result == Ok(Client(token, valid))
      && (forall t :: Count(r.trace, Store(t)) == Count(g.trace, Store(t)) + if changed && t == valid then 1 else 0)
      && (changed && o.refreshStore.StoreOk? ==> r.file == Stored(valid))
      && (!changed || o.refreshStore.OpenFailed? ==> r.file == g.file)
      && (changed && o.refreshStore.EncodeFailed? ==> r.file == Corrupt)
      && (Warn(RefreshSaveFailed) in r.trace <==> changed && !o.refreshStore.StoreOk?)
  {
    GetTokenLeavesValidationAlone(cfg, out, file, o.auth);
  }
}
