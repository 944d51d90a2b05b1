/**
 * The credential helper of helper/command.go: the validation chain of
 * `Get`, its two loops over the cached tokens, the fresh-login phases,
 * and the closed dispatch that builds sinks and the login method.
 *
 * Everything the Go code obtains from outside (the configuration file,
 * the cached tokens read from the sinks, the Vault server's answers, the
 * plug-in constructors and the outcome of the concurrent login and
 * persist tasks) is an input: `ConfigLoad` and `Environment`.
 */
module Helper {
  import opened Wrappers

  // ---------------------------------------------------------------------
  // Configuration, as config.LoadConfig hands it over
  // ---------------------------------------------------------------------

  /** A value of a plug-in's free-form configuration block. */
  datatype ConfigValue = StringValue(s: string) | OtherValue

  datatype MethodConfig = MethodConfig(
    kind: string, mountPath: string, wrapTtl: int, config: map<string, ConfigValue>)

  datatype SinkConfig = SinkConfig(
    kind: string, wrapTtl: int, dhType: string, dhPath: string, aad: string,
    config: map<string, ConfigValue>)

  /** The auto_auth block: one login method and the sinks its tokens go to. */
  datatype AutoAuth = AutoAuth(authMethod: MethodConfig, sinks: seq<SinkConfig>)

  datatype Config = Config(autoAuth: Option<AutoAuth>)

  /** The outcome of loading the configuration file: an error, or a possibly nil config. */
  datatype ConfigLoad = LoadFailed(reason: string) | Loaded(config: Option<Config>)

  /** Why the configuration cannot be used; each is logged, then reported as not found. */
  datatype ConfigError = LoadError | NoConfig | NoAutoAuth | NoSecretField | SecretNotString

  /** What `Get` needs from a usable configuration. */
  datatype Settings = Settings(autoAuth: AutoAuth, secret: string)

  /** The `secret` entry of the method's configuration, when it is there and is a string. */
  predicate HasStringSecret(m: MethodConfig) {
    "secret" in m.config && m.config["secret"].StringValue?
  }

  /** The validation chain: load, non-nil config, auto_auth block, string `secret` entry. */
  function ResolveConfig(load: ConfigLoad): (r: Result<Settings, ConfigError>)
    ensures r.Success? <==>
      load.Loaded? && load.config.Some? && load.config.value.autoAuth.Some? &&
      HasStringSecret(load.config.value.autoAuth.value.authMethod)
    ensures r.Success? ==>
      r.value.autoAuth == load.config.value.autoAuth.value &&
      r.value.secret == r.value.autoAuth.authMethod.config["secret"].s
  {
    if load.LoadFailed? then Failure(LoadError)
    else if load.config.None? then Failure(NoConfig)
    else if load.config.value.autoAuth.None? then Failure(NoAutoAuth)
    else
      var auth := load.config.value.autoAuth.value;
      if "secret" !in auth.authMethod.config then Failure(NoSecretField)
      else match auth.authMethod.config["secret"]
        case StringValue(secret) => Success(Settings(auth, secret))
        case OtherValue => Failure(SecretNotString)
  }

  /** The failed check is the first one, in the code's order, that does not hold. */
  lemma ResolveConfigErrors(load: ConfigLoad)
    ensures load.LoadFailed? ==> ResolveConfig(load) == Failure(LoadError)
    ensures load.Loaded? && load.config.None? ==> ResolveConfig(load) == Failure(NoConfig)
    ensures load.Loaded? && load.config.Some? && load.config.value.autoAuth.None? ==>
      ResolveConfig(load) == Failure(NoAutoAuth)
    ensures (load.Loaded? && load.config.Some? && load.config.value.autoAuth.Some? &&
             "secret" !in load.config.value.autoAuth.value.authMethod.config) ==>
      ResolveConfig(load) == Failure(NoSecretField)
    ensures (load.Loaded? && load.config.Some? && load.config.value.autoAuth.Some? &&
             "secret" in load.config.value.autoAuth.value.authMethod.config &&
             load.config.value.autoAuth.value.authMethod.config["secret"].OtherValue?) ==>
      ResolveConfig(load) == Failure(SecretNotString)
  {
  }

  // ---------------------------------------------------------------------
  // buildMethod: closed dispatch on the method's type tag
  // ---------------------------------------------------------------------

  datatype AuthKind = AliCloud | Aws | Azure | Gcp | Jwt | Kubernetes | AppRole

  const KnownMethodTags: set<string> :=
    {"alicloud", "aws", "azure", "gcp", "jwt", "kubernetes", "approle"}

  function TagOf(k: AuthKind): (tag: string)
    ensures tag in KnownMethodTags
  {
    match k
    case AliCloud => "alicloud"
    case Aws => "aws"
    case Azure => "azure"
    case Gcp => "gcp"
    case Jwt => "jwt"
    case Kubernetes => "kubernetes"
    case AppRole => "approle"
  }

  /** The login method a type tag selects, if any. */
  function KindOfTag(tag: string): (k: Option<AuthKind>)
    ensures k.Some? <==> tag in KnownMethodTags
    ensures k.Some? ==> TagOf(k.value) == tag
  {
    if tag == "alicloud" then Some(AliCloud)
    else if tag == "aws" then Some(Aws)
    else if tag == "azure" then Some(Azure)
    else if tag == "gcp" then Some(Gcp)
    else if tag == "jwt" then Some(Jwt)
    else if tag == "kubernetes" then Some(Kubernetes)
    else if tag == "approle" then Some(AppRole)
    else None
  }

  /** Every login method is selected by exactly its own tag. */
  lemma TagRoundTrip(k: AuthKind, tag: string)
    ensures KindOfTag(TagOf(k)) == Some(k)
    ensures KindOfTag(tag) == Some(k) <==> tag == TagOf(k)
  {
  }

  /** What a login-method constructor receives (the logger is left out). */
  datatype AuthConfig = AuthConfig(mountPath: string, config: map<string, ConfigValue>)

  /** A constructed login method; `instance` stands for the plug-in object. */
  datatype AuthMethod = AuthMethod(kind: AuthKind, instance: nat)

  datatype BuildError =
    | UnknownSinkType(sinkType: string)
    | FileSinkError(cause: string)
    | UnknownAuthMethod(methodType: string)
    | AuthMethodError(methodType: string, cause: string)

  /**
   * Selects the constructor by tag and runs it. `newAuthMethod` stands for
   * the seven plug-in constructors; its error is wrapped with the tag.
   */
  function BuildMethod(m: MethodConfig, newAuthMethod: (AuthKind, AuthConfig) -> Result<nat, string>)
    : (r: Result<AuthMethod, BuildError>)
    ensures m.kind !in KnownMethodTags <==> r == Failure(UnknownAuthMethod(m.kind))
    ensures m.kind in KnownMethodTags ==>
      var k := KindOfTag(m.kind).value;
      var built := newAuthMethod(k, AuthConfig(m.mountPath, m.config));
      && (built.Failure? ==> r == Failure(AuthMethodError(m.kind, built.error)))
      && (built.Success? ==> r == Success(AuthMethod(k, built.value)) && TagOf(k) == m.kind)
  {
    var authConfig := AuthConfig(m.mountPath, m.config);
    match KindOfTag(m.kind)
    case None => Failure(UnknownAuthMethod(m.kind))
    case Some(k) =>
      match newAuthMethod(k, authConfig)
      case Failure(e) => Failure(AuthMethodError(m.kind, e))
      case Success(instance) => Success(AuthMethod(k, instance))
  }

  // ---------------------------------------------------------------------
  // buildSinks: one file sink per configured sink, in order
  // ---------------------------------------------------------------------

  /** A sink configuration with its constructed sink; `sink` stands for the object. */
  datatype BuiltSink = BuiltSink(config: SinkConfig, sink: nat)

  predicate SinkBuildable(sc: SinkConfig, newFileSink: SinkConfig -> Result<nat, string>) {
    sc.kind == "file" && newFileSink(sc).Success?
  }

  predicate SinksBuildable(ss: seq<SinkConfig>, newFileSink: SinkConfig -> Result<nat, string>) {
    forall i :: 0 <= i < |ss| ==> SinkBuildable(ss[i], newFileSink)
  }

  /** The error reported for a sink that cannot be built. */
  function SinkError(sc: SinkConfig, newFileSink: SinkConfig -> Result<nat, string>): BuildError
    requires !SinkBuildable(sc, newFileSink)
  {
    if sc.kind == "file" then FileSinkError(newFileSink(sc).error) else UnknownSinkType(sc.kind)
  }

  /**
   * Builds every configured sink; only the "file" type is known. Stops at
   * the first sink that is of another type or whose constructor fails.
   */
  method BuildSinks(ss: seq<SinkConfig>, newFileSink: SinkConfig -> Result<nat, string>)
    returns (r: Result<seq<BuiltSink>, BuildError>)
    ensures r.Success? <==> SinksBuildable(ss, newFileSink)
    ensures r.Success? ==>
      |r.value| == |ss| &&
      forall i :: 0 <= i < |ss| ==> r.value[i] == BuiltSink(ss[i], newFileSink(ss[i]).value)
    ensures r.Failure? ==>
      exists i :: 0 <= i < |ss| && SinksBuildable(ss[..i], newFileSink) &&
        !SinkBuildable(ss[i], newFileSink) && r.error == SinkError(ss[i], newFileSink)
  {
    var sinks: seq<BuiltSink> := [];
    var i := 0;
    while i < |ss|
      invariant 0 <= i <= |ss|
      invariant SinksBuildable(ss[..i], newFileSink)
      invariant |sinks| == i
      invariant forall j :: 0 <= j < i ==> sinks[j] == BuiltSink(ss[j], newFileSink(ss[j]).value)
    {
      var sc := ss[i];
      if sc.kind == "file" {
        var s := newFileSink(sc);
        if s.Failure? {
          return Failure(FileSinkError(s.error));
        }
        sinks := sinks + [BuiltSink(sc, s.value)];
      } else {
        return Failure(UnknownSinkType(sc.kind));
      }
      assert ss[..i + 1] == ss[..i] + [sc];
      i := i + 1;
    }
    assert ss[..i] == ss;
    return Success(sinks);
  }

  // ---------------------------------------------------------------------
  // The Vault client and what it records
  // ---------------------------------------------------------------------

  datatype Creds = Creds(username: string, password: string)

  /** One call `Get` makes on the shared client, in the order it makes them. */
  datatype ClientCall =
    | SetCall(token: string)
    | ClearCall
    | RenewCall(token: string)
    | ReadCall(token: string, path: string)

  /**
   * The shared Vault API client: its active token, and (for the proofs
   * only) the calls made on it so far.
   */
  class Client {
    var token: string
    ghost var calls: seq<ClientCall>

    /** api.NewClient; the initial token comes from the process environment. */
    constructor (initialToken: string)
      ensures token == initialToken && calls == []
    {
      token := initialToken;
      calls := [];
    }

    method SetToken(t: string)
      modifies this
      ensures token == t && calls == old(calls) + [SetCall(t)]
    {
      token := t;
      calls := calls + [SetCall(t)];
    }

    method ClearToken()
      modifies this
      ensures token == "" && calls == old(calls) + [ClearCall]
    {
      token := "";
      calls := calls + [ClearCall];
    }

    /** RenewTokenAsSelf(t, 0): renews `t` with `t` itself; the active token is not used. */
    method RenewTokenAsSelf(t: string, renewSelf: string -> bool) returns (ok: bool)
      modifies this
      ensures ok == renewSelf(t)
      ensures token == old(token) && calls == old(calls) + [RenewCall(t)]
    {
      ok := renewSelf(t);
      calls := calls + [RenewCall(t)];
    }

    /** vault.GetCredentials: reads the secret at `path` with the active token. */
    method GetCredentials(path: string, readSecret: (string, string) -> Option<Creds>)
      returns (r: Option<Creds>)
      modifies this
      ensures r == readSecret(token, path)
      ensures token == old(token) && calls == old(calls) + [ReadCall(token, path)]
    {
      r := readSecret(token, path);
      calls := calls + [ReadCall(token, path)];
    }
  }

  // ---------------------------------------------------------------------
  // Call traces
  // ---------------------------------------------------------------------

  /** One renewal per cached token, in order. */
  function Renewals(toks: seq<string>): seq<ClientCall> {
    if toks == [] then []
    else Renewals(toks[..|toks| - 1]) + [RenewCall(toks[|toks| - 1])]
  }

  /** Set each token, then read the secret with it, in order. */
  function Attempts(toks: seq<string>, secret: string): seq<ClientCall> {
    if toks == [] then []
    else
      var last := toks[|toks| - 1];
      Attempts(toks[..|toks| - 1], secret) + [SetCall(last), ReadCall(last, secret)]
  }

  /** The tokens used for secret reads, in order: the exchange attempts. */
  function Exchanges(calls: seq<ClientCall>): seq<string> {
    if calls == [] then []
    else
      var last := calls[|calls| - 1];
      Exchanges(calls[..|calls| - 1]) + (if last.ReadCall? then [last.token] else [])
  }

  /** The tokens made active on the client, in order. */
  function TokensSet(calls: seq<ClientCall>): seq<string> {
    if calls == [] then []
    else
      var last := calls[|calls| - 1];
      TokensSet(calls[..|calls| - 1]) + (if last.SetCall? then [last.token] else [])
  }

  lemma {:induction false} ExchangesConcat(a: seq<ClientCall>, b: seq<ClientCall>)
    ensures Exchanges(a + b) == Exchanges(a) + Exchanges(b)
    ensures TokensSet(a + b) == TokensSet(a) + TokensSet(b)
    decreases |b|
  {
    if b == [] {
      assert a + b == a;
    } else {
      var b' := b[..|b| - 1];
      assert (a + b)[..|a + b| - 1] == a + b';
      assert (a + b)[|a + b| - 1] == b[|b| - 1];
      ExchangesConcat(a, b');
    }
  }

  /** Renewals read nothing, set nothing and never clear the token. */
  lemma {:induction false} RenewalsShape(toks: seq<string>)
    ensures |Renewals(toks)| == |toks|
    ensures forall i :: 0 <= i < |toks| ==> Renewals(toks)[i] == RenewCall(toks[i])
    ensures Exchanges(Renewals(toks)) == [] && TokensSet(Renewals(toks)) == []
    ensures ClearCall !in Renewals(toks)
  {
    if toks != [] {
      var init := toks[..|toks| - 1];
      RenewalsShape(init);
      ExchangesConcat(Renewals(init), [RenewCall(toks[|toks| - 1])]);
    }
  }

  /** The attempts set and read with exactly the given tokens, in order. */
  lemma {:induction false} AttemptsShape(toks: seq<string>, secret: string)
    ensures |Attempts(toks, secret)| == 2 * |toks|
    ensures Exchanges(Attempts(toks, secret)) == toks
    ensures TokensSet(Attempts(toks, secret)) == toks
    ensures ClearCall !in Attempts(toks, secret)
  {
    if toks != [] {
      var init, last := toks[..|toks| - 1], toks[|toks| - 1];
      AttemptsShape(init, secret);
      var pair := [SetCall(last), ReadCall(last, secret)];
      ExchangesConcat(Attempts(init, secret), pair);
      ExchangesConcat([SetCall(last)], [ReadCall(last, secret)]);
      assert [SetCall(last)] + [ReadCall(last, secret)] == pair;
      assert init + [last] == toks;
    }
  }

  lemma AttemptsStep(toks: seq<string>, secret: string, i: nat)
    requires i < |toks|
    ensures Attempts(toks[..i + 1], secret) ==
      Attempts(toks[..i], secret) + [SetCall(toks[i]), ReadCall(toks[i], secret)]
  {
    assert toks[..i + 1][..i] == toks[..i];
  }

  lemma RenewalsStep(toks: seq<string>, i: nat)
    requires i < |toks|
    ensures Renewals(toks[..i + 1]) == Renewals(toks[..i]) + [RenewCall(toks[i])]
  {
    assert toks[..i + 1][..i] == toks[..i];
  }

  // ---------------------------------------------------------------------
  // The token phases of Get, as a specification
  // ---------------------------------------------------------------------

  /** The position of the first cached token whose secret read succeeds. */
  function FirstSuccess(toks: seq<string>, secret: string, readSecret: (string, string) -> Option<Creds>)
    : (r: Option<nat>)
    ensures r.Some? ==>
      r.value < |toks| && readSecret(toks[r.value], secret).Some? &&
      forall j :: 0 <= j < r.value ==> readSecret(toks[j], secret).None?
    ensures r.None? ==> forall j :: 0 <= j < |toks| ==> readSecret(toks[j], secret).None?
  {
    if toks == [] then None
    else if readSecret(toks[0], secret).Some? then Some(0)
    else match FirstSuccess(toks[1..], secret, readSecret)
      case None => None
      case Some(k) => Some(k + 1)
  }

  /** The outcome of the concurrent login and persist tasks, reduced to what `Get` observes. */
  datatype LoginOutcome = LoginToken(token: string) | LoginDeadline
  datatype PersistOutcome = Persisted | PersistDeadline

  /** Everything `Get` learns from outside, other than the configuration. */
  datatype Environment = Environment(
    logFileOk: bool,                                      // logging.LogWriter succeeds
    newClientOk: bool,                                    // api.NewClient succeeds
    defaultToken: string,                                 // the token api.NewClient starts with
    cachedTokens: seq<string>,                            // cache.GetCachedTokens, in sink order
    renewSelf: string -> bool,                            // RenewTokenAsSelf succeeds
    readSecret: (string, string) -> Option<Creds>,        // vault.GetCredentials per token and path
    newFileSink: SinkConfig -> Result<nat, string>,       // file.NewFileSink
    newAuthMethod: (AuthKind, AuthConfig) -> Result<nat, string>,  // the method constructors
    login: LoginOutcome,                                  // token from the auth handler, or deadline
    persist: PersistOutcome)                              // sink server finished, or deadline

  /**
   * The token the fresh-login path ends with: sinks and method built,
   * a token received before the deadline, and written before it.
   */
  function FreshToken(auth: AutoAuth, env: Environment): Option<string> {
    if !SinksBuildable(auth.sinks, env.newFileSink) then None
    else if BuildMethod(auth.authMethod, env.newAuthMethod).Failure? then None
    else if env.login.LoginDeadline? then None
    else if env.persist.PersistDeadline? then None
    else Some(env.login.token)
  }

  /** Calls made, the result and the final active token of one run of the token phases. */
  datatype Run = Run(calls: seq<ClientCall>, result: Result<Creds, HelperError>, token: string)

  datatype HelperError = CredentialsNotFound | NotImplemented

  /**
   * The token phases once the configuration is usable and the client
   * exists: renew every cached token, try them in order until one read
   * succeeds; otherwise clear the token and exchange the fresh token, if any.
   */
  function TokenPhases(
    toks: seq<string>, secret: string,
    readSecret: (string, string) -> Option<Creds>, newToken: Option<string>
  ): Run
  {
    match FirstSuccess(toks, secret, readSecret)
    case Some(k) =>
      Run(Renewals(toks) + Attempts(toks[..k + 1], secret),
          Success(readSecret(toks[k], secret).value), toks[k])
    case None =>
      var cached := Renewals(toks) + Attempts(toks, secret) + [ClearCall];
      match newToken
      case None => Run(cached, Failure(CredentialsNotFound), "")
      case Some(t) =>
        Run(cached + [SetCall(t), ReadCall(t, secret)],
            match readSecret(t, secret)
            case Some(creds) => Success(creds)
            case None => Failure(CredentialsNotFound),
            t)
  }

  /** Every cached token is renewed, in order, before any token is set or read. */
  lemma RenewalsComeFirst(
    toks: seq<string>, secret: string,
    readSecret: (string, string) -> Option<Creds>, newToken: Option<string>)
    ensures var calls := TokenPhases(toks, secret, readSecret, newToken).calls;
      |toks| <= |calls| &&
      (forall i :: 0 <= i < |toks| ==> calls[i] == RenewCall(toks[i])) &&
      calls[..|toks|] == Renewals(toks)
  {
    RenewalsShape(toks);
  }

  /**
   * When tokens 0..k-1 fail and token k succeeds: k+1 reads, with exactly
   * tokens 0..k in order, no later token is ever set, the token is not
   * cleared, and token k's credentials are returned.
   */
  lemma FirstWinnerEndsSearch(
    toks: seq<string>, secret: string,
    readSecret: (string, string) -> Option<Creds>, newToken: Option<string>, k: nat)
    requires k < |toks| && readSecret(toks[k], secret).Some?
    requires forall j :: 0 <= j < k ==> readSecret(toks[j], secret).None?
    ensures var run := TokenPhases(toks, secret, readSecret, newToken);
      && run.result == Success(readSecret(toks[k], secret).value)
      && Exchanges(run.calls) == toks[..k + 1]
      && TokensSet(run.calls) == toks[..k + 1]
      && ClearCall !in run.calls
      && run.token == toks[k]
  {
    var first := FirstSuccess(toks, secret, readSecret);
    assert first == Some(k);
    RenewalsShape(toks);
    AttemptsShape(toks[..k + 1], secret);
    ExchangesConcat(Renewals(toks), Attempts(toks[..k + 1], secret));
  }

  /**
   * When no cached token succeeds (also when there are none): every one is
   * read once, then the token is cleared; only a fresh token is read after
   * that, and without one the result is not-found.
   */
  lemma NoWinnerFallsBackToLogin(
    toks: seq<string>, secret: string,
    readSecret: (string, string) -> Option<Creds>, newToken: Option<string>)
    requires forall j :: 0 <= j < |toks| ==> readSecret(toks[j], secret).None?
    ensures var run := TokenPhases(toks, secret, readSecret, newToken);
      && |run.calls| > 3 * |toks| && run.calls[3 * |toks|] == ClearCall
      && Exchanges(run.calls) == toks + (if newToken.Some? then [newToken.value] else [])
      && TokensSet(run.calls) == toks + (if newToken.Some? then [newToken.value] else [])
      && (newToken.None? ==> run.result == Failure(CredentialsNotFound) && run.token == "")
      && (newToken.Some? ==>
            run.token == newToken.value &&
            run.calls[|run.calls| - 1] == ReadCall(newToken.value, secret) &&
            (run.result.Success? <==> readSecret(newToken.value, secret).Some?) &&
            (run.result.Success? ==> run.result.value == readSecret(newToken.value, secret).value))
  {
    assert FirstSuccess(toks, secret, readSecret).None?;
    var cached := Renewals(toks) + Attempts(toks, secret) + [ClearCall];
    CachedPhaseExhausted(toks, secret);
    if newToken.Some? {
      var t := newToken.value;
      AppendExchange(cached, t, secret);
      assert (cached + [SetCall(t), ReadCall(t, secret)])[3 * |toks|] == cached[3 * |toks|];
    }
  }

  /** The calls of a cached phase in which no token succeeded. */
  lemma CachedPhaseExhausted(toks: seq<string>, secret: string)
    ensures var cached := Renewals(toks) + Attempts(toks, secret) + [ClearCall];
      && |cached| == 3 * |toks| + 1 && cached[3 * |toks|] == ClearCall
      && Exchanges(cached) == toks && TokensSet(cached) == toks
  {
    RenewalsShape(toks);
    AttemptsShape(toks, secret);
    ExchangesConcat(Renewals(toks), Attempts(toks, secret));
    ExchangesConcat(Renewals(toks) + Attempts(toks, secret), [ClearCall]);
    assert Exchanges([ClearCall]) == [] && TokensSet([ClearCall]) == [];
  }

  /** Setting a token and reading with it adds exactly that token to both projections. */
  lemma AppendExchange(calls: seq<ClientCall>, t: string, secret: string)
    ensures Exchanges(calls + [SetCall(t), ReadCall(t, secret)]) == Exchanges(calls) + [t]
    ensures TokensSet(calls + [SetCall(t), ReadCall(t, secret)]) == TokensSet(calls) + [t]
  {
    ExchangesConcat(calls, [SetCall(t), ReadCall(t, secret)]);
    ExchangesConcat([SetCall(t)], [ReadCall(t, secret)]);
    assert [SetCall(t)] + [ReadCall(t, secret)] == [SetCall(t), ReadCall(t, secret)];
  }

  /** A deadline in the login or the persist phase leaves no token to exchange. */
  lemma DeadlineMeansNoFreshToken(auth: AutoAuth, env: Environment)
    requires env.login.LoginDeadline? || env.persist.PersistDeadline?
    ensures FreshToken(auth, env) == None
  {
  }

  /** The fresh token, when there is one, is the one the login task produced. */
  lemma FreshTokenIsLoginToken(auth: AutoAuth, env: Environment)
    ensures FreshToken(auth, env).Some? <==>
      SinksBuildable(auth.sinks, env.newFileSink) &&
      BuildMethod(auth.authMethod, env.newAuthMethod).Success? &&
      env.login.LoginToken? && env.persist.Persisted?
    ensures FreshToken(auth, env).Some? ==> FreshToken(auth, env).value == env.login.token
  {
  }

  /** The token phases report only success or the single not-found error. */
  lemma OnlyNotFound(
    toks: seq<string>, secret: string,
    readSecret: (string, string) -> Option<Creds>, newToken: Option<string>)
    ensures var r := TokenPhases(toks, secret, readSecret, newToken).result;
      r.Failure? ==> r.error == CredentialsNotFound
  {
  }

  // ---------------------------------------------------------------------
  // The two loops over the cached tokens
  // ---------------------------------------------------------------------

  /** Renews every cached token, best effort: failures are only logged. */
  method RenewCachedTokens(c: Client, toks: seq<string>, renewSelf: string -> bool)
    modifies c
    ensures c.token == old(c.token)
    ensures c.calls == old(c.calls) + Renewals(toks)
  {
    var i := 0;
    while i < |toks|
      invariant 0 <= i <= |toks|
      invariant c.token == old(c.token)
      invariant c.calls == old(c.calls) + Renewals(toks[..i])
    {
      RenewalsStep(toks, i);
      var _ := c.RenewTokenAsSelf(toks[i], renewSelf);
      i := i + 1;
    }
    assert toks[..i] == toks;
  }

  /** Sets each cached token in turn and reads the secret; the first success ends the loop. */
  method ExchangeCachedTokens(
    c: Client, toks: seq<string>, secret: string, readSecret: (string, string) -> Option<Creds>)
    returns (r: Option<Creds>)
    modifies c
    ensures match FirstSuccess(toks, secret, readSecret)
      case Some(k) =>
        r == readSecret(toks[k], secret) &&
        c.calls == old(c.calls) + Attempts(toks[..k + 1], secret) && c.token == toks[k]
      case None =>
        r == None && c.calls == old(c.calls) + Attempts(toks, secret) &&
        c.token == (if toks == [] then old(c.token) else toks[|toks| - 1])
  {
    var i := 0;
    while i < |toks|
      invariant 0 <= i <= |toks|
      invariant forall j :: 0 <= j < i ==> readSecret(toks[j], secret).None?
      invariant c.calls == old(c.calls) + Attempts(toks[..i], secret)
      invariant c.token == (if i == 0 then old(c.token) else toks[i - 1])
    {
      AttemptsStep(toks, secret, i);
      c.SetToken(toks[i]);
      var creds := c.GetCredentials(secret, readSecret);
      if creds.Some? {
        return creds;
      }
      i := i + 1;
    }
    assert toks[..i] == toks;
    return None;
  }

  /**
   * The fresh-login path: build the sinks and the method, wait for the
   * login and persist phases, then exchange the new token once. Any
   * failure before the exchange leaves the client untouched.
   */
  method FreshLogin(c: Client, autoAuth: AutoAuth, secret: string, env: Environment)
    returns (r: Result<Creds, HelperError>)
    modifies c
    ensures match FreshToken(autoAuth, env)
      case None =>
        r == Failure(CredentialsNotFound) && c.calls == old(c.calls) && c.token == old(c.token)
      case Some(t) =>
        && c.calls == old(c.calls) + [SetCall(t), ReadCall(t, secret)]
        && c.token == t
        && r == match env.readSecret(t, secret)
                case Some(creds) => Success(creds)
                case None => Failure(CredentialsNotFound)
  {
    var sinks := BuildSinks(autoAuth.sinks, env.newFileSink);
    if sinks.Failure? {
      return Failure(CredentialsNotFound);
    }
    var built := BuildMethod(autoAuth.authMethod, env.newAuthMethod);
    if built.Failure? {
      return Failure(CredentialsNotFound);
    }

    // The auth handler and the sink server run concurrently under one
    // deadline; only the outcome of each phase is modelled.
    if env.login.LoginDeadline? {
      return Failure(CredentialsNotFound);
    }
    var token := env.login.token;
    if env.persist.PersistDeadline? {
      return Failure(CredentialsNotFound);
    }

    c.SetToken(token);
    var creds := c.GetCredentials(secret, env.readSecret);
    if creds.None? {
      return Failure(CredentialsNotFound);
    }
    return Success(creds.value);
  }

  /** The token phases of `Get` on an existing client. */
  method RunTokenPhases(c: Client, toks: seq<string>, secret: string, autoAuth: AutoAuth, env: Environment)
    returns (r: Result<Creds, HelperError>)
    modifies c
    ensures var run := TokenPhases(toks, secret, env.readSecret, FreshToken(autoAuth, env));
      r == run.result && c.calls == old(c.calls) + run.calls && c.token == run.token
  {
    RenewCachedTokens(c, toks, env.renewSelf);
    var found := ExchangeCachedTokens(c, toks, secret, env.readSecret);
    if found.Some? {
      return Success(found.value);
    }
    // No cached token worked: log in afresh.
    c.ClearToken();
    r := FreshLogin(c, autoAuth, secret, env);
  }

  // ---------------------------------------------------------------------
  // Logger set-up at the top of Get
  // ---------------------------------------------------------------------

  /** Where the helper's logger writes: an injected logger, the log file, or stderr. */
  datatype LogOutput = InjectedLogger | LogFile | Stderr

  datatype LoggerSetup = LoggerReady(output: LogOutput) | NilLoggerPanic

  /**
   * The set-up as written: when the log file cannot be opened, the error
   * is reported through `h.logger`, which is still nil at that point.
   */
  function LoggerSetupAsWritten(current: Option<LogOutput>, logFileOk: bool): (r: LoggerSetup)
    ensures r.NilLoggerPanic? <==> current.None? && !logFileOk
    ensures current.Some? ==> r == LoggerReady(current.value)
    ensures current.None? && logFileOk ==> r == LoggerReady(LogFile)
  {
    if current.Some? then LoggerReady(current.value)
    else if !logFileOk then NilLoggerPanic
    else LoggerReady(LogFile)
  }

  /** No logger injected and no log file: the as-written set-up dereferences nil. */
  lemma NilLoggerPanics()
    ensures LoggerSetupAsWritten(None, false) == NilLoggerPanic
  {
  }

  /** The set-up as intended: fall back to stderr when the log file cannot be opened. */
  function SetupLogger(current: Option<LogOutput>, logFileOk: bool): (out: LogOutput)
    ensures current.Some? ==> out == current.value
    ensures current.None? ==> (out == LogFile <==> logFileOk) && (out == Stderr <==> !logFileOk)
  {
    if current.Some? then current.value
    else if logFileOk then LogFile
    else Stderr
  }

  /** The intended set-up never fails and agrees with the code wherever the code does not panic. */
  lemma SetupLoggerAgrees(current: Option<LogOutput>, logFileOk: bool)
    ensures LoggerSetupAsWritten(current, logFileOk).LoggerReady? ==>
      LoggerSetupAsWritten(current, logFileOk).output == SetupLogger(current, logFileOk)
    ensures LoggerSetupAsWritten(current, logFileOk).NilLoggerPanic? <==> current.None? && !logFileOk
  {
  }

  /** The credential source the container client talks to. */
  datatype DockerCredentials = DockerCredentials(serverUrl: string, username: string, secret: string)

  class Helper {
    var logger: Option<LogOutput>
    var client: Client?

    /** NewHelper: an injected logger and client, or none (each is made on first use). */
    constructor (logger: Option<LogOutput>, client: Client?)
      ensures this.logger == logger && this.client == client
    {
      this.logger := logger;
      this.client := client;
    }

    method Add(creds: DockerCredentials) returns (err: HelperError)
      ensures err == NotImplemented
    {
      return NotImplemented;
    }

    method Delete(serverUrl: string) returns (err: HelperError)
      ensures err == NotImplemented
    {
      return NotImplemented;
    }

    method List() returns (r: Result<map<string, string>, HelperError>)
      ensures r == Failure(NotImplemented)
    {
      return Failure(NotImplemented);
    }

    /**
     * Looks up the registry credentials. An unusable configuration or a
     * client that cannot be made ends the call at once; otherwise the
     * client's calls and final token, and the result, are those of
     * TokenPhases. Every failure is the single not-found error.
     */
    method Get(serverUrl: string, load: ConfigLoad, env: Environment)
      returns (r: Result<Creds, HelperError>)
      modifies this, client
      ensures r.Failure? ==> r.error == CredentialsNotFound
      ensures logger == Some(SetupLogger(old(logger), env.logFileOk))
      ensures ResolveConfig(load).Failure? || (old(client) == null && !env.newClientOk) ==>
        r == Failure(CredentialsNotFound) && client == old(client) &&
        (client != null ==> client.calls == old(client.calls) && client.token == old(client.token))
      ensures ResolveConfig(load).Success? && (old(client) != null || env.newClientOk) ==>
        && client != null
        && (old(client) != null ==> client == old(client))
        && (old(client) == null ==> fresh(client))
        && var settings := ResolveConfig(load).value;
           var run := TokenPhases(env.cachedTokens, settings.secret, env.readSecret,
                                  FreshToken(settings.autoAuth, env));
           && r == run.result
           && client.calls == (if old(client) == null then [] else old(client.calls)) + run.calls
           && client.token == run.token
    {
      if logger.None? {
        logger := Some(SetupLogger(logger, env.logFileOk));
      }
      // The configuration file's path comes from the environment; its
      // loading is the input `load`.
      var settings := ResolveConfig(load);
      if settings.Failure? {
        return Failure(CredentialsNotFound);
      }
      var secret := settings.value.secret;
      var autoAuth := settings.value.autoAuth;

      if client == null {
        if !env.newClientOk {
          return Failure(CredentialsNotFound);
        }
        client := new Client(env.defaultToken);
      }
      r := RunTokenPhases(client, env.cachedTokens, secret, autoAuth, env);
    }
  }
}
