/** The observable effects of the orchestration, recorded in order, and the
    views of an effect trace that the properties are stated with. */
module Effects {
  import opened TokenStore

  /** The Manager's `Writer`, or the process's standard output. */
  datatype Writer = Stdout | Stream(name: string)

  /** The informational lines printed during the interactive flow. */
  datatype Message = OpeningBrowser | ManualUrl | CodeArrived | Exchanging

  /** The conditions reported through the logger. */
  datatype Event = BrowserLaunchFailed | AuthorizationFailed | WaitTimedOut | ShutdownFailed | RefreshSaveFailed

  datatype Effect =
    | Stat                                  // os.Stat of the token file
    | StartServer(addr: string, path: string)  // handler registered, server started
    | OpenBrowser                           // attempt to launch the browser
    | Write(to: Writer, msg: Message)        // a line printed for the user
    | Shutdown                              // callback server shut down
    | Exchange(code: string)                // code exchanged at the token endpoint
    | Store(token: Token)                   // token written to the token file
    | Load                                  // token read from the token file
    | Validate                              // token source asked for a valid token
    | Warn(event: Event)                    // logged at warning level
    | LogError(event: Event)                // logged at error level

  /** Whether the interactive flow was entered. */
  predicate StartsServer(t: seq<Effect>)
  {
    exists i :: 0 <= i < |t| && t[i].StartServer?
  }

  /** How often `e` occurs in `t`. */
  function Count(t: seq<Effect>, e: Effect): (n: nat)
    ensures n <= |t|
    ensures n == 0 <==> e !in t
  {
    multiset(t)[e]
  }

  /** `t` contains no shutdown, no exchange and no store. */
  predicate Quiet(t: seq<Effect>)
  {
    forall i :: 0 <= i < |t| ==> !(t[i] == Shutdown || t[i].Exchange? || t[i].Store?)
  }

  /** Some occurrence of `a` comes before some occurrence of `b`. */
  predicate Precedes(t: seq<Effect>, a: Effect, b: Effect)
  {
    exists i, j :: 0 <= i < j < |t| && t[i] == a && t[j] == b
  }

  /** `a` precedes `b` when `b` comes later in a trace built around both. */
  lemma PrecedesAround(pre: seq<Effect>, a: Effect, mid: seq<Effect>, b: Effect, post: seq<Effect>)
    ensures Precedes(pre + [a] + mid + [b] + post, a, b)
  {
    var t := pre + [a] + mid + [b] + post;
    assert t[|pre|] == a;
    assert t[|pre| + 1 + |mid|] == b;
  }
}
