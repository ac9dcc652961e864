/** The configuration record of a Manager and the pure defaulting helpers
    that derive the callback listener's address, its path and the redirect URL. */
module Configuration {

  /** The listener address used when `LocalAddr` is empty. */
  const DefaultLocalAddr: string := ":15440"

  /** The handler path used when `ServerPath` is empty. */
  const DefaultServerPath: string := "/callback"

  /** Provider credentials and endpoints are opaque strings here: they are only
      handed to the OAuth2 library, which is not modelled. */
  datatype Config = Config(
    clientId: string,
    clientSecret: string,
    scopes: seq<string>,
    authUrl: string,
    tokenUrl: string,
    serverPath: string,
    localAddr: string,
    tokenFile: string)

  /** The address the callback server binds to. */
  function ListenAddr(c: Config): (addr: string)
    ensures addr != ""
    ensures c.localAddr != "" ==> addr == c.localAddr
    ensures c.localAddr == "" ==> addr == DefaultLocalAddr
  {
    if c.localAddr != "" then c.localAddr else DefaultLocalAddr
  }

  /** The path the callback handler is registered on. */
  function CallbackPath(c: Config): (path: string)
    ensures path != ""
    ensures c.serverPath != "" ==> path == c.serverPath
    ensures c.serverPath == "" ==> path == DefaultServerPath
  {
    if c.serverPath == "" then DefaultServerPath else c.serverPath
  }

  /** The redirect URI given to the provider. The path part is the literal
      "/callback", whatever `ServerPath` says. */
  function BuildRedirectURL(c: Config): (url: string)
    ensures url == "http://localhost" + ListenAddr(c) + DefaultServerPath
    ensures c.localAddr == "" ==> url == "http://localhost:15440/callback"
  {
    var localAddr := if c.localAddr == "" then DefaultLocalAddr else c.localAddr;
    "http://localhost" + localAddr + "/callback"
  }

  /** The redirect URI does not depend on `ServerPath`. */
  lemma RedirectIgnoresServerPath(c: Config, path: string)
    ensures BuildRedirectURL(c.(serverPath := path)) == BuildRedirectURL(c)
  {
  }

  /** The path of the redirect URI is, as a string, the pattern the handler is
      registered under exactly when that pattern is the default one. Whether the
      request router still routes the redirect to a different pattern (a subtree
      pattern such as `"/"`, or `"/callback/"` through its trailing-slash
      redirect) is a property of the router, not of this string. */
  lemma RedirectPathIsPatternOnlyByDefault(c: Config)
    ensures BuildRedirectURL(c) == "http://localhost" + ListenAddr(c) + CallbackPath(c)
        <==> CallbackPath(c) == DefaultServerPath
  {
    var prefix := "http://localhost" + ListenAddr(c);
    if BuildRedirectURL(c) == prefix + CallbackPath(c) {
      assert BuildRedirectURL(c) == prefix + DefaultServerPath;
      assert (prefix + CallbackPath(c))[|prefix|..] == CallbackPath(c);
      assert (prefix + DefaultServerPath)[|prefix|..] == DefaultServerPath;
    }
  }
}
