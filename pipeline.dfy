/**
 * main: check the flags, log in, list the hosts of site 1, ask for their
 * realtime metrics and flatten the reply, stopping at the first stage that
 * fails. The network, URL parsing and JSON decoding are outside the model:
 * what they answer is given as an Environment.
 */
module Pipeline {
  import opened Outcomes
  import opened Http
  import opened Records
  import opened Transport
  import opened Payload
  import opened Rendering

  /** The three command-line flags -fcURL, -fcUser and -fcPassword. */
  datatype Config = Config(url: string, user: string, password: string)

  /** How a server answered a request that reached the network. */
  datatype Reply<T> = Unreachable | Answered(status: int, header: Header, body: T)

  /** A reply body as the JSON decoder leaves it. */
  datatype Decoded<T> = Undecodable | Decoded(value: T)

  /**
   * What the run learns from outside: whether the two URLs it builds parse,
   * and how each of the three requests is answered if it is sent.
   */
  datatype Environment = Environment(
    sessionRequestOk: bool,
    login: Reply<()>,
    hostURLOk: bool,
    hosts: Reply<Decoded<seq<Host>>>,
    metrics: Reply<Decoded<seq<MonitorItem>>>)

  /** The stages of a run, each holding what it produced. */
  datatype Stage =
    | Start
    | Validated
    | Authenticated
    | HostsListed(hosts: seq<Host>)
    | MetricsFetched(items: seq<MonitorItem>)
    | Rendered(message: string)

  /** Why a run stopped. */
  datatype Failure =
    | MissingFlag
    | SessionRequestInvalid
    | LoginUnreachable
    | LoginRejected(status: int)
    | HostURLInvalid
    | HostsRequestFailed(refused: bool)
    | HostsUndecodable
    | MetricsRequestFailed
    | MetricsUndecodable
    | ValueNotString(item: nat, value: nat)
  {
    /** The failures that end the process with a panic instead of a return from main. */
    predicate Panics()
    {
      HostsUndecodable? || ValueNotString?
    }

    /**
     * How many requests the failing step handed to the network: none when it
     * stops before sending (a flag, a URL, the transport's refusal, the type
     * assertion), one when its request went out and the answer was unusable.
     */
    function Attempted(): nat
    {
      if MissingFlag? || SessionRequestInvalid? || HostURLInvalid? || (HostsRequestFailed? && refused) || ValueNotString?
      then 0 else 1
    }
  }

  /**
   * The last stage reached, why the run stopped there (None once rendered),
   * the requests handed to the network in order, and the global token at the end.
   */
  datatype RunResult = RunResult(stage: Stage, failure: Option<Failure>, sent: seq<Sent>, token: string)

  const HostPageLimit: nat := 100
  const HostPageOffset: nat := 0
  const Endpoints: seq<Endpoint> := [Session, HostsPage(HostPageLimit, HostPageOffset), RealtimeData]

  /** The position of a stage in the run. */
  function Rank(s: Stage): nat
  {
    match s
    case Start => 0
    case Validated => 1
    case Authenticated => 2
    case HostsListed(_) => 3
    case MetricsFetched(_) => 4
    case Rendered(_) => 5
  }

  /** The stage whose step a failure stops: the last stage the failing run reached. */
  function FailedFrom(f: Failure): nat
  {
    match f
    case MissingFlag => 0
    case SessionRequestInvalid => 1
    case LoginUnreachable => 1
    case LoginRejected(_) => 1
    case HostURLInvalid => 2
    case HostsRequestFailed(_) => 2
    case HostsUndecodable => 2
    case MetricsRequestFailed => 3
    case MetricsUndecodable => 3
    case ValueNotString(_, _) => 4
  }

  /** The number of requests answered successfully on the way to a stage. */
  function Issued(s: Stage): nat
  {
    match s
    case Start => 0
    case Validated => 0
    case Authenticated => 1
    case HostsListed(_) => 2
    case _ => 3
  }

  /**
   * Stages run in order and none runs after a failure: a run fails exactly
   * when it does not render, and then from the stage it reached; the requests
   * sent are the endpoints in order, those of the stages reached plus the one
   * of the failing step exactly when that step got as far as sending it; the
   * token is set only by a successful login and is non-empty once hosts are
   * listed.
   */
  predicate WellSequenced(r: RunResult)
  {
    && (r.failure.None? <==> r.stage.Rendered?)
    && (r.failure.Some? ==> Rank(r.stage) == FailedFrom(r.failure.value))
    && |r.sent| <= |Endpoints|
    && (r.failure.None? ==> |r.sent| == Issued(r.stage))
    && (r.failure.Some? ==> |r.sent| == Issued(r.stage) + r.failure.value.Attempted())
    && (forall k :: 0 <= k < |r.sent| ==> r.sent[k].endpoint == Endpoints[k])
    && (Issued(r.stage) == 0 ==> r.token == "")
    && (Issued(r.stage) >= 2 ==> r.token != "")
  }

  /** The headers of the login request, added in the order main adds them. */
  function LoginHeaders(user: string, password: string): Header
  {
    var h0: Header := map[];
    var h1 := Add(h0, AcceptKey, AcceptValue);
    var h2 := Add(h1, ContentTypeKey, ContentTypeValue);
    var h3 := Add(h2, "Accept-Language", "zh_CN");
    var h4 := Add(h3, "X-Auth-User", user);
    var h5 := Add(h4, "X-Auth-Key", password);
    Add(h5, "X-Auth-UserType", "0")
  }

  /** The login headers: credentials and content negotiation once each, and no token. */
  lemma LoginHeadersCarryCredentials(user: string, password: string)
    ensures Values(LoginHeaders(user, password), XAuthToken) == []
    ensures Values(LoginHeaders(user, password), AcceptKey) == [AcceptValue]
    ensures Values(LoginHeaders(user, password), ContentTypeKey) == [ContentTypeValue]
    ensures Values(LoginHeaders(user, password), "Accept-Language") == ["zh_CN"]
    ensures Values(LoginHeaders(user, password), "X-Auth-User") == [user]
    ensures Values(LoginHeaders(user, password), "X-Auth-Key") == [password]
    ensures Values(LoginHeaders(user, password), "X-Auth-UserType") == ["0"]
  {
  }

  /** The login request as handed to the plain transport. */
  function LoginRequest(cfg: Config): Sent
  {
    Sent(POST, Session, LoginHeaders(cfg.user, cfg.password), NoBody)
  }

  /** The host-list GET before the transport adds its headers. */
  const HostsRequest: Sent := Sent(GET, HostsPage(HostPageLimit, HostPageOffset), map[], NoBody)

  /** Client.Post: the metric query with its Content-Type set, before the transport adds its headers. */
  function MetricsRequest(hosts: seq<Host>): Sent
  {
    Sent(POST, RealtimeData, Set(map[], ContentTypeKey, "application/json"), MonitorPayload(PayloadFor(hosts)))
  }

  /** The whole run as a function of the flags and of what the outside world answers. */
  function RunSpec(cfg: Config, env: Environment): (r: RunResult)
    ensures WellSequenced(r)
    ensures |r.sent| > 0 ==> r.sent[0] == LoginRequest(cfg)
  {
    if cfg.url == "" || cfg.user == "" || cfg.password == "" then
      RunResult(Start, Some(MissingFlag), [], "")
    else if !env.sessionRequestOk then
      RunResult(Validated, Some(SessionRequestInvalid), [], "")
    else
      LoginSpec(cfg, env)
  }

  /** From the login request on: post the credentials and take the token from a 200 reply. */
  function LoginSpec(cfg: Config, env: Environment): (r: RunResult)
    ensures WellSequenced(r)
    ensures Issued(r.stage) >= 1 || r.stage == Validated
    ensures |r.sent| > 0 && r.sent[0] == LoginRequest(cfg)
  {
    LoginReplySpec(env, [LoginRequest(cfg)])
  }

  /** Once the login request is handed to the network: stop, or keep the reply's token and go on. */
  function LoginReplySpec(env: Environment, sent: seq<Sent>): (r: RunResult)
    requires |sent| == 1 && sent[0].endpoint == Session
    ensures WellSequenced(r)
    ensures Issued(r.stage) >= 1 || r.stage == Validated
    ensures |r.sent| > 0 && r.sent[0] == sent[0]
  {
    match env.login
    case Unreachable => RunResult(Validated, Some(LoginUnreachable), sent, "")
    case Answered(status, header, _) =>
      if status != 200 then RunResult(Validated, Some(LoginRejected(status)), sent, "")
      else ListHostsSpec(Get(header, XAuthToken), env, sent)
  }

  /** From a successful login on: list the hosts through the authenticating transport. */
  function ListHostsSpec(token: string, env: Environment, sent: seq<Sent>): (r: RunResult)
    requires |sent| == 1 && sent[0].endpoint == Session
    ensures WellSequenced(r)
    ensures Issued(r.stage) >= 1 && r.token == token
    ensures r.sent[0] == sent[0]
    ensures |r.sent| >= 2 ==> token != "" && r.sent[1] == Authorized(HostsRequest, token)
  {
    if !env.hostURLOk then RunResult(Authenticated, Some(HostURLInvalid), sent, token)
    else
      match RoundTripSpec(HostsRequest, token)
      case TokenEmpty => RunResult(Authenticated, Some(HostsRequestFailed(true)), sent, token)
      case Forwarded(req) => HostsReplySpec(env, token, [sent[0], req])
  }

  /** Once the host-list request is handed to the network: decode the reply, or stop. */
  function HostsReplySpec(env: Environment, token: string, sent: seq<Sent>): (r: RunResult)
    requires |sent| == 2 && sent[0].endpoint == Session && sent[1].endpoint == Endpoints[1] && token != ""
    ensures WellSequenced(r)
    ensures Issued(r.stage) >= 1 && r.token == token
    ensures |r.sent| >= 2 && r.sent[0] == sent[0] && r.sent[1] == sent[1]
    ensures env.hosts.Unreachable? ==>
              r.failure == Some(HostsRequestFailed(false)) && r.stage == Authenticated && r.sent == sent
    ensures env.hosts.Answered? && env.hosts.body.Undecodable? ==>
              r.failure == Some(HostsUndecodable) && r.failure.value.Panics() && r.sent == sent
    ensures env.hosts.Answered? && env.hosts.body.Decoded? <==> |r.sent| == 3
  {
    match env.hosts
    case Unreachable => RunResult(Authenticated, Some(HostsRequestFailed(false)), sent, token)
    case Answered(_, _, Undecodable) => RunResult(Authenticated, Some(HostsUndecodable), sent, token)
    case Answered(_, _, Decoded(hosts)) => FetchMetricsSpec(hosts, token, env, sent)
  }

  /** From a decoded host list on: post the metric query, decode the reply and flatten it. */
  function FetchMetricsSpec(hosts: seq<Host>, token: string, env: Environment, sent: seq<Sent>): (r: RunResult)
    requires |sent| == 2 && sent[0].endpoint == Session && sent[1].endpoint == Endpoints[1] && token != ""
    ensures WellSequenced(r)
    ensures Issued(r.stage) >= 2 && r.token == token
    ensures |r.sent| == 3 && r.sent[0] == sent[0] && r.sent[1] == sent[1]
    ensures r.sent[2] == Authorized(MetricsRequest(hosts), token)
  {
    MetricsReplySpec(hosts, env.metrics, token, [sent[0], sent[1], Authorized(MetricsRequest(hosts), token)])
  }

  /** Once the metric query is handed to the network: how its reply ends the run. */
  function MetricsReplySpec(hosts: seq<Host>, reply: Reply<Decoded<seq<MonitorItem>>>, token: string, sent: seq<Sent>)
    : (r: RunResult)
    requires |sent| == 3 && sent[0].endpoint == Session && sent[1].endpoint == Endpoints[1]
    requires sent[2].endpoint == RealtimeData && token != ""
    ensures WellSequenced(r)
    ensures Issued(r.stage) >= 2 && r.token == token && r.sent == sent
    ensures reply.Unreachable? ==>
              r.failure == Some(MetricsRequestFailed) && r.stage == HostsListed(hosts) && !r.failure.value.Panics()
    ensures reply.Answered? && reply.body.Undecodable? ==>
              r.failure == Some(MetricsUndecodable) && r.stage == HostsListed(hosts) && !r.failure.value.Panics()
    ensures reply.Answered? && reply.body.Decoded? <==> Issued(r.stage) == 3
  {
    match reply
    case Unreachable => RunResult(HostsListed(hosts), Some(MetricsRequestFailed), sent, token)
    case Answered(_, _, Undecodable) => RunResult(HostsListed(hosts), Some(MetricsUndecodable), sent, token)
    case Answered(_, _, Decoded(items)) => RenderStageSpec(items, token, sent)
  }

  /** With the reply decoded: flatten it, or stop at the first value that is not a string. */
  function RenderStageSpec(items: seq<MonitorItem>, token: string, sent: seq<Sent>): (r: RunResult)
    requires |sent| == 3 && sent[0].endpoint == Session && sent[1].endpoint == Endpoints[1]
    requires sent[2].endpoint == RealtimeData && token != ""
    ensures WellSequenced(r)
    ensures Issued(r.stage) == 3 && r.token == token && r.sent == sent
    ensures r.failure.None? <==> AllStringValued(items)
    ensures r.failure.None? ==> r.stage == Rendered(Flatten(items))
    ensures r.failure.Some? ==>
              r.failure.value.ValueNotString? && FirstNonString(items, r.failure.value.item, r.failure.value.value)
  {
    match RenderResult(items)
    case Success(message) => RunResult(Rendered(message), None, sent, token)
    case Failure(e) => RunResult(MetricsFetched(items), Some(ValueNotString(e.item, e.value)), sent, token)
  }

  /**
   * main, step by step: every failing stage returns (or panics) at once, the
   * global token is assigned from the login reply, and later requests go out
   * through the authenticating transport.
   */
  method Run(p: Process, cfg: Config, env: Environment) returns (r: RunResult)
    requires p.token == ""
    modifies p
    ensures r == RunSpec(cfg, env)
    ensures p.token == r.token
  {
    if cfg.url == "" || cfg.user == "" || cfg.password == "" {
      return RunResult(Start, Some(MissingFlag), [], p.token);
    }
    if !env.sessionRequestOk {
      return RunResult(Validated, Some(SessionRequestInvalid), [], p.token);
    }
    var login := new Request(POST, Session, NoBody);
    login.AddHeader(AcceptKey, AcceptValue);
    login.AddHeader(ContentTypeKey, ContentTypeValue);
    login.AddHeader("Accept-Language", "zh_CN");
    login.AddHeader("X-Auth-User", cfg.user);
    login.AddHeader("X-Auth-Key", cfg.password);
    login.AddHeader("X-Auth-UserType", "0");
    var sent := [login.Snapshot()];
    match env.login {
      case Unreachable =>
        return RunResult(Validated, Some(LoginUnreachable), sent, p.token);
      case Answered(status, header, _) =>
        if status != 200 {
          return RunResult(Validated, Some(LoginRejected(status)), sent, p.token);
        }
        p.token := Get(header, XAuthToken);
    }

    var transport := new CustomTransport(p);
    r := ListHosts(transport, env, sent);
  }

  /** main after the token is set: the host-list request through the transport, then its decoding. */
  method ListHosts(transport: CustomTransport, env: Environment, sent: seq<Sent>) returns (r: RunResult)
    requires |sent| == 1 && sent[0].endpoint == Session
    ensures r == ListHostsSpec(transport.process.token, env, sent)
  {
    var token := transport.process.token;
    if !env.hostURLOk {
      return RunResult(Authenticated, Some(HostURLInvalid), sent, token);
    }
    var hostsRequest := new Request(GET, HostsPage(HostPageLimit, HostPageOffset), NoBody);
    var out := transport.RoundTrip(hostsRequest);
    if out.TokenEmpty? {
      return RunResult(Authenticated, Some(HostsRequestFailed(true)), sent, token);
    }
    var sent' := [sent[0], out.request];
    match env.hosts {
      case Unreachable =>
        return RunResult(Authenticated, Some(HostsRequestFailed(false)), sent', token);
      case Answered(_, _, Undecodable) =>
        return RunResult(Authenticated, Some(HostsUndecodable), sent', token);
      case Answered(_, _, Decoded(hosts)) =>
        r := FetchMetrics(transport, hosts, env, sent');
    }
  }

  /** main from the decoded host list on: build and post the metric query, decode and flatten the reply. */
  method FetchMetrics(transport: CustomTransport, hosts: seq<Host>, env: Environment, sent: seq<Sent>)
    returns (r: RunResult)
    requires |sent| == 2 && sent[0].endpoint == Session && sent[1].endpoint == Endpoints[1]
    requires transport.process.token != ""
    ensures r == FetchMetricsSpec(hosts, transport.process.token, env, sent)
  {
    var token := transport.process.token;
    var payload := BuildPayload(hosts);
    var metricsRequest := new Request(POST, RealtimeData, MonitorPayload(payload));
    metricsRequest.SetHeader(ContentTypeKey, "application/json");
    var out := transport.RoundTrip(metricsRequest);
    var sent' := [sent[0], sent[1], out.request];
    match env.metrics {
      case Unreachable =>
        return RunResult(HostsListed(hosts), Some(MetricsRequestFailed), sent', token);
      case Answered(_, _, Undecodable) =>
        return RunResult(HostsListed(hosts), Some(MetricsUndecodable), sent', token);
      case Answered(_, _, Decoded(items)) =>
        var rendered := Render(items);
        match rendered {
          case Success(message) =>
            return RunResult(Rendered(message), None, sent', token);
          case Failure(e) =>
            return RunResult(MetricsFetched(items), Some(ValueNotString(e.item, e.value)), sent', token);
        }
    }
  }

  /** A missing flag is the first check: it alone stops the run before anything is sent. */
  lemma MissingFlagStopsBeforeAnyRequest(cfg: Config, env: Environment)
    ensures RunSpec(cfg, env).failure == Some(MissingFlag) <==> (cfg.url == "" || cfg.user == "" || cfg.password == "")
    ensures RunSpec(cfg, env).failure == Some(MissingFlag) ==>
              RunSpec(cfg, env).stage == Start && RunSpec(cfg, env).sent == [] && RunSpec(cfg, env).token == ""
  {
  }

  /** The login request goes out first, with the credentials and without a token. */
  lemma LoginGoesOutFirstWithoutToken(cfg: Config, env: Environment)
    requires |RunSpec(cfg, env).sent| > 0
    ensures RunSpec(cfg, env).sent[0] == LoginRequest(cfg)
    ensures Values(RunSpec(cfg, env).sent[0].header, XAuthToken) == []
    ensures Values(RunSpec(cfg, env).sent[0].header, "X-Auth-User") == [cfg.user]
    ensures Values(RunSpec(cfg, env).sent[0].header, "X-Auth-Key") == [cfg.password]
  {
    LoginHeadersCarryCredentials(cfg.user, cfg.password);
  }

  /** A login answered with any status but 200 ends the run there, with the token still empty. */
  lemma RejectedLoginStopsRun(cfg: Config, env: Environment)
    requires cfg.url != "" && cfg.user != "" && cfg.password != "" && env.sessionRequestOk
    requires env.login.Answered? && env.login.status != 200
    ensures RunSpec(cfg, env) == RunResult(Validated, Some(LoginRejected(env.login.status)), [LoginRequest(cfg)], "")
  {
  }

  /**
   * A run gets past login exactly when the flags are set, the session request
   * is built and the login is answered with 200; the token is then the reply's
   * X-Auth-Token header.
   */
  lemma TokenComesFromLoginReply(cfg: Config, env: Environment)
    ensures Issued(RunSpec(cfg, env).stage) >= 1 <==>
              && cfg.url != "" && cfg.user != "" && cfg.password != "" && env.sessionRequestOk
              && env.login.Answered? && env.login.status == 200
    ensures Issued(RunSpec(cfg, env).stage) >= 1 ==> RunSpec(cfg, env).token == Get(env.login.header, XAuthToken)
  {
  }

  /**
   * A 200 login whose reply has no X-Auth-Token leaves the token empty, and the
   * transport then refuses the host request before it reaches the network.
   */
  lemma EmptyTokenRefusedBeforeNetwork(cfg: Config, env: Environment)
    requires cfg.url != "" && cfg.user != "" && cfg.password != "" && env.sessionRequestOk
    requires env.login.Answered? && env.login.status == 200 && Get(env.login.header, XAuthToken) == ""
    requires env.hostURLOk
    ensures RunSpec(cfg, env) == RunResult(Authenticated, Some(HostsRequestFailed(true)), [LoginRequest(cfg)], "")
  {
  }

  /**
   * The host-list request carries the session token, Accept and Content-Type
   * once each, and no other header.
   */
  lemma HostsRequestCarriesToken(cfg: Config, env: Environment)
    requires |RunSpec(cfg, env).sent| >= 2
    ensures RunSpec(cfg, env).token != ""
    ensures RunSpec(cfg, env).sent[1].verb == GET && RunSpec(cfg, env).sent[1].body == NoBody
    ensures Values(RunSpec(cfg, env).sent[1].header, XAuthToken) == [RunSpec(cfg, env).token]
    ensures Values(RunSpec(cfg, env).sent[1].header, AcceptKey) == [AcceptValue]
    ensures Values(RunSpec(cfg, env).sent[1].header, ContentTypeKey) == [ContentTypeValue]
    ensures forall k :: k != XAuthToken && k != AcceptKey && k != ContentTypeKey ==>
              Values(RunSpec(cfg, env).sent[1].header, k) == []
  {
    HostsStageReached(cfg, env);
  }

  /** A run that sends the host-list request got a 200 login with a token, and the host reply decides the rest. */
  lemma HostsStageReached(cfg: Config, env: Environment)
    requires |RunSpec(cfg, env).sent| >= 2
    ensures env.login.Answered? && Get(env.login.header, XAuthToken) != ""
    ensures var token := Get(env.login.header, XAuthToken);
            && RunSpec(cfg, env).token == token
            && RunSpec(cfg, env) == HostsReplySpec(env, token, [LoginRequest(cfg), Authorized(HostsRequest, token)])
  {
    var r := RunSpec(cfg, env);
    var token := Get(env.login.header, XAuthToken);
    assert r == ListHostsSpec(token, env, [LoginRequest(cfg)]);
  }

  /**
   * Once the host-list request is out, its reply decides: an unreachable server
   * ends the run with the two requests sent, an undecodable list ends it with a
   * panic, and only a decoded list lets the metric query go out.
   */
  lemma HostReplyDecidesRun(cfg: Config, env: Environment)
    requires |RunSpec(cfg, env).sent| >= 2
    ensures env.hosts.Unreachable? ==>
              RunSpec(cfg, env).failure == Some(HostsRequestFailed(false)) && |RunSpec(cfg, env).sent| == 2
    ensures env.hosts.Answered? && env.hosts.body.Undecodable? ==>
              RunSpec(cfg, env).failure == Some(HostsUndecodable) && RunSpec(cfg, env).failure.value.Panics()
    ensures env.hosts.Answered? && env.hosts.body.Decoded? <==> |RunSpec(cfg, env).sent| == 3
  {
    HostsStageReached(cfg, env);
  }

  /**
   * Once the metric query is out, its reply decides: an unreachable server or
   * an undecodable reply ends the run with a return (no panic) and the hosts
   * listed; only a decoded reply reaches the flattening.
   */
  lemma MetricReplyDecidesRun(cfg: Config, env: Environment)
    requires |RunSpec(cfg, env).sent| == 3
    ensures env.metrics.Unreachable? ==>
              && RunSpec(cfg, env).failure == Some(MetricsRequestFailed) && !RunSpec(cfg, env).failure.value.Panics()
              && RunSpec(cfg, env).stage == HostsListed(env.hosts.body.value)
    ensures env.metrics.Answered? && env.metrics.body.Undecodable? ==>
              && RunSpec(cfg, env).failure == Some(MetricsUndecodable) && !RunSpec(cfg, env).failure.value.Panics()
              && RunSpec(cfg, env).stage == HostsListed(env.hosts.body.value)
    ensures env.metrics.Answered? && env.metrics.body.Decoded? <==> Issued(RunSpec(cfg, env).stage) == 3
  {
    MetricsStageReached(cfg, env);
  }

  /** Every step before the metric query succeeds: flags, session request, a 200 login with a token, host URL, decoded hosts. */
  predicate EarlierStagesSucceed(cfg: Config, env: Environment)
  {
    && cfg.url != "" && cfg.user != "" && cfg.password != ""
    && env.sessionRequestOk
    && env.login.Answered? && env.login.status == 200 && Get(env.login.header, XAuthToken) != ""
    && env.hostURLOk
    && env.hosts.Answered? && env.hosts.body.Decoded?
  }

  /** The metric query goes out exactly when every earlier step succeeds. */
  lemma MetricsQuerySentExactlyWhen(cfg: Config, env: Environment)
    ensures |RunSpec(cfg, env).sent| == 3 <==> EarlierStagesSucceed(cfg, env)
  {
    if |RunSpec(cfg, env).sent| == 3 {
      MetricsStageReached(cfg, env);
    }
  }

  /** A run that sends the metric query got there through a decoded host list. */
  lemma MetricsStageReached(cfg: Config, env: Environment)
    requires |RunSpec(cfg, env).sent| == 3
    ensures env.login.Answered? && env.hosts.Answered? && env.hosts.body.Decoded?
    ensures var token := Get(env.login.header, XAuthToken);
            && token != ""
            && RunSpec(cfg, env)
               == FetchMetricsSpec(env.hosts.body.value, token, env, [LoginRequest(cfg), Authorized(HostsRequest, token)])
  {
    var r := RunSpec(cfg, env);
    var token := Get(env.login.header, XAuthToken);
    assert r == ListHostsSpec(token, env, [LoginRequest(cfg)]);
  }

  /** The metric query after the transport: the token once, and both Content-Type values in order. */
  lemma AuthorizedMetricsHeaders(hosts: seq<Host>, token: string)
    ensures Values(Authorized(MetricsRequest(hosts), token).header, XAuthToken) == [token]
    ensures Values(Authorized(MetricsRequest(hosts), token).header, ContentTypeKey) == ["application/json", ContentTypeValue]
  {
    var m := MetricsRequest(hosts);
    assert Values(m.header, XAuthToken) == [];
    assert Values(m.header, ContentTypeKey) == ["application/json"];
  }

  /**
   * The metric request carries the session token and the query built from the
   * decoded host list, and two Content-Type values: the one Post sets and the
   * one the transport appends.
   */
  lemma MetricsRequestCarriesPayload(cfg: Config, env: Environment)
    requires |RunSpec(cfg, env).sent| == 3
    ensures env.hosts.Answered? && env.hosts.body.Decoded?
    ensures RunSpec(cfg, env).sent[2].verb == POST
    ensures RunSpec(cfg, env).sent[2].body == MonitorPayload(PayloadFor(env.hosts.body.value))
    ensures Values(RunSpec(cfg, env).sent[2].header, XAuthToken) == [RunSpec(cfg, env).token]
    ensures Values(RunSpec(cfg, env).sent[2].header, ContentTypeKey) == ["application/json", ContentTypeValue]
  {
    MetricsStageReached(cfg, env);
    var token := Get(env.login.header, XAuthToken);
    AuthorizedMetricsHeaders(env.hosts.body.value, token);
  }

  /** An empty host list is no error: the metric query still goes out, and it is the empty list. */
  lemma EmptyHostListSendsEmptyQuery(cfg: Config, env: Environment)
    requires EarlierStagesSucceed(cfg, env) && env.hosts.body == Decoded([])
    ensures |RunSpec(cfg, env).sent| == 3
    ensures RunSpec(cfg, env).sent[2].body == MonitorPayload([])
  {
    MetricsQuerySentExactlyWhen(cfg, env);
    MetricsRequestCarriesPayload(cfg, env);
  }

  /**
   * A run completes exactly when every earlier stage succeeds and every value
   * in the decoded reply is a string; its message is then the flattened reply.
   * Otherwise the run stops at the first value that is not a string.
   */
  lemma CompletedRunRendersReply(cfg: Config, env: Environment)
    requires |RunSpec(cfg, env).sent| == 3 && env.metrics.Answered? && env.metrics.body.Decoded?
    ensures RunSpec(cfg, env).failure.None? <==> AllStringValued(env.metrics.body.value)
    ensures RunSpec(cfg, env).failure.None? ==> RunSpec(cfg, env).stage.message == Flatten(env.metrics.body.value)
    ensures RunSpec(cfg, env).failure.Some? ==>
              RunSpec(cfg, env).failure.value.ValueNotString? &&
              FirstNonString(env.metrics.body.value, RunSpec(cfg, env).failure.value.item, RunSpec(cfg, env).failure.value.value)
  {
    MetricsStageReached(cfg, env);
    var r := RunSpec(cfg, env);
    assert r == RenderStageSpec(env.metrics.body.value, r.token, r.sent);
  }

  /** A run in which every step succeeds and every value is a string renders the flattened reply. */
  lemma SuccessfulRunRenders(cfg: Config, env: Environment)
    requires EarlierStagesSucceed(cfg, env)
    requires env.metrics.Answered? && env.metrics.body.Decoded? && AllStringValued(env.metrics.body.value)
    ensures RunSpec(cfg, env).failure.None?
    ensures RunSpec(cfg, env).stage == Rendered(Flatten(env.metrics.body.value))
  {
    MetricsQuerySentExactlyWhen(cfg, env);
    CompletedRunRendersReply(cfg, env);
  }
}
