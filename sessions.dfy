/** Successive `NewOAuth2Client` calls sharing one token file: the reason the
    file exists is that a later call finds it and skips the browser. */
module Sessions {
  import opened Wrappers
  import opened Configuration
  import opened TokenStore
  import opened Callback
  import opened Effects
  import opened OAuth2Kit
  import opened TokenLifecycle

  /** The file system answers `os.Stat` and the token load truthfully, except
      that the stat may fail for reasons of its own. */
  predicate HonestFile(file: FileState, o: AuthOracles)
  {
    && (!o.stat.StatFailed? ==> (o.stat.NotExist? <==> file.Missing?))
    && (file.Stored? ==> o.load == LoadOk(file.token))
    && (file.Corrupt? ==> o.load.LoadFailed?)
  }

  /** The runs of successive calls, each starting from the file the previous
      one left behind. */
  function Runs(cfg: Config, out: Writer, file: FileState, calls: seq<ClientOracles>): (rs: seq<ClientRun>)
    ensures |rs| == |calls|
    ensures |calls| > 0 ==> rs[0] == NewClientRun(cfg, out, file, calls[0])
    decreases |calls|
  {
    if calls == [] then []
    else
      var r := NewClientRun(cfg, out, file, calls[0]);
      [r] + Runs(cfg, out, r.file, calls[1..])
  }

  /** Every call of the session meets an honest file system. */
  predicate HonestSession(cfg: Config, out: Writer, file: FileState, calls: seq<ClientOracles>)
    decreases |calls|
  {
    calls == [] ||
      (HonestFile(file, calls[0].auth) &&
       HonestSession(cfg, out, NewClientRun(cfg, out, file, calls[0]).file, calls[1..]))
  }

  /** The run at position `i + 1` is the run at `i` of the rest of the session. */
  lemma RunsTail(cfg: Config, out: Writer, file: FileState, calls: seq<ClientOracles>, i: nat)
    requires 0 < |calls| && i < |calls| - 1
    ensures Runs(cfg, out, file, calls)[i + 1]
         == Runs(cfg, out, NewClientRun(cfg, out, file, calls[0]).file, calls[1..])[i]
  {
  }

  /** A call that finds the file present starts no server, opens no browser
      and leaves the file present. */
  lemma PresentFileSkipsServer(cfg: Config, out: Writer, file: FileState, o: ClientOracles)
    requires !file.Missing? && HonestFile(file, o.auth)
    ensures var r := NewClientRun(cfg, out, file, o);
      !StartsServer(r.trace) && OpenBrowser !in r.trace && !r.file.Missing?
  {
    var r := NewClientRun(cfg, out, file, o);
    var g := GetTokenRun(cfg, out, file, o.auth);
    assert g.trace == [Stat] || g.trace == [Stat, Load];
    FileNeverRemoved(cfg, out, file, o);
    assert forall i :: 0 <= i < |r.trace| ==> !r.trace[i].StartServer?;
  }

  /** Once the token file is present, no later call of an honest session starts
      the callback server or opens the browser again. */
  lemma {:induction false} PresentFileNeverReauthorizes(cfg: Config, out: Writer, file: FileState, calls: seq<ClientOracles>)
    requires !file.Missing? && HonestSession(cfg, out, file, calls)
    ensures forall i :: 0 <= i < |calls| ==>
      !StartsServer(Runs(cfg, out, file, calls)[i].trace) && OpenBrowser !in Runs(cfg, out, file, calls)[i].trace
    decreases |calls|
  {
    if calls != [] {
      var next := NewClientRun(cfg, out, file, calls[0]).file;
      PresentFileSkipsServer(cfg, out, file, calls[0]);
      PresentFileNeverReauthorizes(cfg, out, next, calls[1..]);
      forall i | 0 <= i < |calls|
        ensures !StartsServer(Runs(cfg, out, file, calls)[i].trace) && OpenBrowser !in Runs(cfg, out, file, calls)[i].trace
      {
        if i > 0 {
          RunsTail(cfg, out, file, calls, i - 1);
        }
      }
    }
  }

  /** A call that returns a client leaves the token file present. */
  lemma SuccessLeavesFile(cfg: Config, out: Writer, file: FileState, o: ClientOracles)
    requires HonestFile(file, o.auth) && NewClientRun(cfg, out, file, o).result.Ok?
    ensures !NewClientRun(cfg, out, file, o).file.Missing?
  {
    var g := GetTokenRun(cfg, out, file, o.auth);
    assert !g.file.Missing?;
    FileNeverRemoved(cfg, out, g.file, o);
  }

  /** After any call that returns a client, no later call of an honest session
      starts the callback server or opens the browser: the browser is needed at
      most until the first success. */
  lemma {:induction false} SuccessEndsAuthorization(cfg: Config, out: Writer, file: FileState, calls: seq<ClientOracles>)
    requires HonestSession(cfg, out, file, calls)
    ensures var rs := Runs(cfg, out, file, calls);
      forall i, j :: 0 <= i < j < |calls| && rs[i].result.Ok? ==>
        !StartsServer(rs[j].trace) && OpenBrowser !in rs[j].trace
    decreases |calls|
  {
    if calls != [] {
      var rs := Runs(cfg, out, file, calls);
      var next := NewClientRun(cfg, out, file, calls[0]).file;
      var rest := Runs(cfg, out, next, calls[1..]);
      SuccessEndsAuthorization(cfg, out, next, calls[1..]);
      forall i, j | 0 <= i < j < |calls| && rs[i].result.Ok?
        ensures !StartsServer(rs[j].trace) && OpenBrowser !in rs[j].trace
      {
        RunsTail(cfg, out, file, calls, j - 1);
        if i == 0 {
          SuccessLeavesFile(cfg, out, file, calls[0]);
          PresentFileNeverReauthorizes(cfg, out, next, calls[1..]);
        } else {
          RunsTail(cfg, out, file, calls, i - 1);
        }
      }
    }
  }

  /** A file truncated by a failed encoding is found present but cannot be
      loaded: the next call fails with a load error and does not authorize
      again (unless its stat fails). */
  lemma CorruptFileFailsLoad(cfg: Config, out: Writer, o: AuthOracles)
    requires HonestFile(Corrupt, o) && !o.stat.StatFailed?
    ensures var g := GetTokenRun(cfg, out, Corrupt, o);
      g.result.Err? && g.result.error.LoadToken? && !StartsServer(g.trace) && g.file == Corrupt
  {
    var g := GetTokenRun(cfg, out, Corrupt, o);
    assert g.trace == [Stat, Load];
  }

  /** When both saves of a successful call go through, the next honest call
      loads a token with the client's current access token from the file,
      without authorizing again (unless its stat fails). */
  lemma SavedTokenReloaded(cfg: Config, out: Writer, file: FileState, o1: ClientOracles, o2: AuthOracles)
    requires HonestFile(file, o1.auth)
    requires NewClientRun(cfg, out, file, o1).result.Ok?
    requires o1.auth.store.StoreOk? && o1.refreshStore.StoreOk?
    requires HonestFile(NewClientRun(cfg, out, file, o1).file, o2)
    ensures var r := NewClientRun(cfg, out, file, o1);
      var g := GetTokenRun(cfg, out, r.file, o2);
      o2.stat.StatFailed? ||
        (g.trace == [Stat, Load] && g.result.Ok?
         && g.result.value.accessToken == r.result.value.current.accessToken)
  {
    var gt := GetTokenRun(cfg, out, file, o1.auth);
    assert gt.file == Stored(gt.result.value);
  }
}
