/** The proxy in front of a service: its secret, its deployment and its service. */
module Proxy {
  import opened Types
  import opened Config
  import opened Labels
  import opened Version
  import Names

  const PORT := 4180
  const PUBLIC_PORT := 80
  const SECRET_VERSION := "SECRET_VERSION"
  const FAKE_URL := "https://fake-oauth2-proxy"
  const HTTPS := "https://"

  function RedirectURL(url: string): string { url + "/oauth2/callback" }

  function RedirectURLs(hosts: seq<string>): (urls: seq<string>)
    ensures |urls| == |hosts|
    ensures forall i :: 0 <= i < |hosts| ==> urls[i] == RedirectURL(HTTPS + hosts[i])
  {
    if hosts == [] then [] else RedirectURLs(hosts[..|hosts| - 1]) + [RedirectURL(HTTPS + hosts[|hosts| - 1])]
  }

  method ConvertHostsToRedirectURLs(hosts: seq<string>) returns (urls: seq<string>)
    ensures urls == RedirectURLs(hosts)
  {
    urls := [];
    for i := 0 to |hosts|
      invariant urls == RedirectURLs(hosts[..i])
    {
      assert hosts[..i + 1][..i] == hosts[..i];
      urls := urls + [RedirectURL(HTTPS + hosts[i])];
    }
    assert hosts[..|hosts|] == hosts;
  }

  // ---------- the configuration ----------

  function UpstreamURL(name: string, port: int): string { "http://" + name + ":" + Decimal(port) }

  /** The configuration of the proxy of a client, for the SSO's spec, the upstream's port and the cookie key in use. */
  function ConfigFor(spec: Spec, client: Client, redirect: string, port: int, key: string): Config {
    Config(PORT, client.id, client.secret, spec.issuerURL, redirect,
           spec.issuerURL + "/auth", spec.issuerURL + "/token", UpstreamURL(spec.upstream, port), spec.forwardToken,
           Cookie(spec.cookie.name, key, spec.domain, spec.cookie.expire, spec.cookie.refresh,
                  spec.cookie.secure, spec.cookie.httpOnly))
  }

  /** The text of the configuration, or why there is none. `call` is the listing of the services. */
  function ConfigText(
    services: map<Key, Service>, sso: Sso, client: Client, key: string, call: Call, faults: set<Call>): Result<string>
  {
    if call in faults then Err(Api(call, Faulted))
    else if sso.UpstreamId() !in services then Err(Invalid(NoService))
    else if client.redirectURIs == [] then Err(Invalid(NoRedirectURL))
    else if !(HTTPS <= sso.spec.issuerURL) then Err(Invalid(IssuerNotHTTPS))
    else
      Ok(Render(ConfigFor(sso.spec, client, client.redirectURIs[0], services[sso.UpstreamId()].port, key)))
  }

  /** Searches the listed services for the one of a name. */
  method FindService(services: map<Key, Service>, ns: string, name: string) returns (found: Option<Service>)
    ensures found == if Key(ns, name) in services then Some(services[Key(ns, name)]) else None
  {
    var names := Cluster.List(services, ns);
    for i := 0 to |names|
      invariant forall j :: 0 <= j < i ==> names[j] != name
    {
      if names[i] == name {
        return Some(services[Key(ns, name)]);
      }
    }
    found := None;
  }

  method ProxyConfig(cluster: Cluster, sso: Sso, client: Client, key: string, call: Call, faults: set<Call>)
    returns (r: Result<string>)
    ensures r == ConfigText(cluster.services, sso, client, key, call, faults)
  {
    if call in faults {
      return Err(Api(call, Faulted));
    }
    var upstream := FindService(cluster.services, sso.ns, sso.spec.upstream);
    if upstream.None? {
      return Err(Invalid(NoService));
    }
    if |client.redirectURIs| == 0 {
      return Err(Invalid(NoRedirectURL));
    }
    if !(HTTPS <= sso.spec.issuerURL) {
      return Err(Invalid(IssuerNotHTTPS));
    }
    r := Ok(Render(ConfigFor(sso.spec, client, client.redirectURIs[0], upstream.value.port, key)));
  }

  // ---------- the objects of a proxy ----------

  function LabelsFor(sso: Sso, app: string): map<string, string> { map[APP := app, "sso" := sso.name] }

  function AnnotationsFor(sso: Sso, app: string): map<string, string> {
    var issuer := sso.spec.certIssuer;
    var ingress := "kubernetes.io/ingress.class: nginx" +
      if |issuer| != 0 then "\ncertmanager.k8s.io/issuer: " + issuer + "\ncert-manager.io/issuer: " + issuer else "";
    map["fabric8.io/expose" := "true", "fabric8.io/ingress.name" := app, "fabric8.io/ingress.annotations" := ingress]
  }

  function DeploymentFor(sso: Sso, app: string, version: Value): Deployment {
    Deployment(LabelsFor(sso, app),
               [Container(Names.BuildName(sso.name, ""), [EnvVar(SECRET_VERSION, version)])])
  }

  function ServiceFor(sso: Sso, app: string): Service {
    Service(LabelsFor(sso, app), AnnotationsFor(sso, app), PUBLIC_PORT)
  }

  // ---------- Deploy ----------

  /** The name of the application behind the proxy. */
  function AppOf(services: map<Key, Service>, sso: Sso, appFirst: bool): string
    requires sso.UpstreamId() in services
  {
    AppName(sso.spec.upstream, services[sso.UpstreamId()].labels, appFirst)
  }

  /** Creates what is missing of the proxy and tolerates what is there. */
  function DeployEffect(p: Proxies, sso: Sso, client: Client, key: string, o: Oracle): Effect<Proxies, string> {
    if ListForAppName in o.faults then Effect(p, Err(Api(ListForAppName, Faulted)))
    else if sso.UpstreamId() !in p.services then Effect(p, Err(Invalid(NoService)))
    else
      var app := AppOf(p.services, sso, o.appFirst);
      var text := ConfigText(p.services, sso, client, key, ListForUpstream, o.faults);
      if text.Err? then Effect(p, Err(text.error)) else CreateEffect(p, sso, app, text.value, o)
  }

  function CreateEffect(p: Proxies, sso: Sso, app: string, text: string, o: Oracle): Effect<Proxies, string> {
    var secrets := CreateIn(p.secrets, sso.SecretId(), map[CONFIG_FILE := text], CreateSecret, o.faults);
    if Fails(secrets.error) then Effect(p, Err(secrets.error.value))
    else DeploymentEffect(p.(secrets := secrets.store), sso, app, SecretVersion(text), o)
  }

  function DeploymentEffect(p: Proxies, sso: Sso, app: string, version: Value, o: Oracle): Effect<Proxies, string> {
    var deployments := CreateIn(
      p.deployments, sso.DeploymentId(), DeploymentFor(sso, app, version), CreateDeployment, o.faults);
    if Fails(deployments.error) then Effect(p, Err(deployments.error.value))
    else ServiceEffect(p.(deployments := deployments.store), sso, app, o)
  }

  function ServiceEffect(p: Proxies, sso: Sso, app: string, o: Oracle): Effect<Proxies, string> {
    var services := CreateIn(p.services, sso.Id(), ServiceFor(sso, app), CreateService, o.faults);
    var q := p.(services := services.store);
    if Fails(services.error) then Effect(q, Err(services.error.value))
    else if AwaitService in o.faults then Effect(q, Err(Api(AwaitService, Faulted)))
    else if AwaitPods in o.faults then Effect(q, Err(Api(AwaitPods, Faulted)))
    else Effect(q, Ok(app))
  }

  /** The operator's own copy of the secret, which Update rewrites in place. */
  class SecretObject {
    const id: Key
    var data: map<string, string>

    constructor (id: Key, data: map<string, string>)
      ensures this.id == id && this.data == data
    {
      this.id := id;
      this.data := data;
    }
  }

  /** What Deploy hands to Update. */
  datatype ProxyResources = ProxyResources(app: string, secret: SecretObject, deployment: string, service: string)

  method Deploy(cluster: Cluster, sso: Sso, client: Client, key: string, o: Oracle)
    returns (err: Option<Error>, proxy: Option<ProxyResources>)
    modifies cluster`secrets, cluster`deployments, cluster`services
    ensures var e := DeployEffect(old(cluster.ProxiesNow()), sso, client, key, o);
            && cluster.ProxiesNow() == e.store
            && (e.result.Err? <==> err.Some?) && (err.Some? ==> err.value == e.result.error)
            && (err.None? ==>
                  && proxy.Some?
                  && proxy.value.app == e.result.value
                  && fresh(proxy.value.secret)
                  && proxy.value.secret.id == sso.SecretId()
                  && proxy.value.secret.data.Keys == {CONFIG_FILE}
                  && proxy.value.deployment == sso.DeploymentId().name
                  && proxy.value.service == sso.name)
  {
    err, proxy := None, None;
    if ListForAppName in o.faults {
      return Some(Api(ListForAppName, Faulted)), None;
    }
    var upstream := FindService(cluster.services, sso.ns, sso.spec.upstream);
    if upstream.None? {
      return Some(Invalid(NoService)), None;
    }
    var app := GetAppName(sso.spec.upstream, upstream.value.labels, o.appFirst);
    var text := ProxyConfig(cluster, sso, client, key, ListForUpstream, o.faults);
    if text.Err? {
      return Some(text.error), None;
    }
    var secret := new SecretObject(sso.SecretId(), map[CONFIG_FILE := text.value]);
    var secrets := CreateIn(cluster.secrets, secret.id, secret.data, CreateSecret, o.faults);
    cluster.secrets := secrets.store;
    if Fails(secrets.error) {
      return secrets.error, None;
    }

    var version, _ := ComputeSecretVersion(secret.data);
    var deployment := DeploymentFor(sso, app, version);
    var deployments := CreateIn(cluster.deployments, sso.DeploymentId(), deployment, CreateDeployment, o.faults);
    cluster.deployments := deployments.store;
    if Fails(deployments.error) {
      return deployments.error, None;
    }

    var services := CreateIn(cluster.services, sso.Id(), ServiceFor(sso, app), CreateService, o.faults);
    cluster.services := services.store;
    if Fails(services.error) {
      return services.error, None;
    }
    if AwaitService in o.faults {
      return Some(Api(AwaitService, Faulted)), None;
    }
    if AwaitPods in o.faults {
      return Some(Api(AwaitPods, Faulted)), None;
    }
    proxy := Some(ProxyResources(app, secret, sso.DeploymentId().name, sso.name));
  }

  // ---------- Update ----------

  function SetVersion(env: seq<EnvVar>, version: Value): (r: seq<EnvVar>)
    ensures |r| == |env|
    ensures forall i :: 0 <= i < |env| ==>
      r[i] == if env[i].name == SECRET_VERSION then env[i].(value := version) else env[i]
  {
    seq(|env|, i requires 0 <= i < |env| =>
      if env[i].name == SECRET_VERSION then env[i].(value := version) else env[i])
  }

  function SetVersions(containers: seq<Container>, version: Value): (r: seq<Container>)
    ensures |r| == |containers|
    ensures forall i :: 0 <= i < |r| ==> r[i] == containers[i].(env := SetVersion(containers[i].env, version))
  {
    seq(|containers|, i requires 0 <= i < |containers| => containers[i].(env := SetVersion(containers[i].env, version)))
  }

  function Rollout(d: Deployment, version: Value): Deployment {
    d.(containers := SetVersions(d.containers, version))
  }

  /** Every container of the deployment that names a version names this one. */
  predicate Carries(d: Deployment, version: Value) {
    forall c <- d.containers, e <- c.env :: e.name == SECRET_VERSION ==> e.value == version
  }

  /** Rewrites the secret, then the version in the proxy's deployment. */
  function UpdateEffect(p: Proxies, sso: Sso, client: Client, key: string, o: Oracle): Change<Proxies> {
    var text := ConfigText(p.services, sso, client, key, ListForUpstreamAgain, o.faults);
    if text.Err? then Change(p, Some(text.error))
    else
      var secrets := UpdateIn(p.secrets, sso.SecretId(), map[CONFIG_FILE := text.value], UpdateSecret, o.faults);
      var q := p.(secrets := secrets.store);
      if secrets.error.Some? then Change(q, secrets.error) else RolloutEffect(q, sso, SecretVersion(text.value), o)
  }

  function RolloutEffect(p: Proxies, sso: Sso, version: Value, o: Oracle): Change<Proxies> {
    var id := sso.DeploymentId();
    if ListDeployments in o.faults then Change(p, Some(Api(ListDeployments, Faulted)))
    else if id in p.deployments && UpdateDeployment in o.faults then Change(p, Some(Api(UpdateDeployment, Faulted)))
    else
      var q :=
        if id in p.deployments then p.(deployments := p.deployments[id := Rollout(p.deployments[id], version)]) else p;
      Change(q, if AwaitPodsAgain in o.faults then Some(Api(AwaitPodsAgain, Faulted)) else None)
  }

  /** A container as a Go struct: copying it copies the reference to its environment, not the environment. */
  datatype LiveContainer = LiveContainer(name: string, env: array<EnvVar>)
  datatype LiveDeployment = LiveDeployment(labels: map<string, string>, containers: seq<LiveContainer>)

  ghost predicate Separate(containers: seq<LiveContainer>) {
    forall i, j :: 0 <= i < j < |containers| ==> containers[i].env != containers[j].env
  }

  ghost function Arrays(containers: seq<LiveContainer>): set<object> {
    set i | 0 <= i < |containers| :: containers[i].env
  }

  /** What the containers say at the moment. */
  function Stored(containers: seq<LiveContainer>): (r: seq<Container>)
    reads Arrays(containers)
    ensures |r| == |containers|
    ensures forall i :: 0 <= i < |r| ==> r[i] == Container(containers[i].name, containers[i].env[..])
  {
    if containers == [] then []
    else
      var c := containers[0];
      assert forall i :: 1 <= i < |containers| ==> containers[i] == containers[1..][i - 1];
      assert forall i :: 0 <= i < |containers| - 1 ==> containers[1..][i] == containers[i + 1];
      [Container(c.name, c.env[..])] + Stored(containers[1..])
  }

  /** The API server's answer: fresh copies of what it stores. */
  method Load(d: Deployment) returns (live: LiveDeployment)
    ensures live.labels == d.labels
    ensures Separate(live.containers) && fresh(Arrays(live.containers))
    ensures Stored(live.containers) == d.containers
  {
    var containers := [];
    for i := 0 to |d.containers|
      invariant |containers| == i && Separate(containers)
      invariant forall j :: 0 <= j < i ==>
        fresh(containers[j].env) && Container(containers[j].name, containers[j].env[..]) == d.containers[j]
    {
      var c := d.containers[i];
      var env := new EnvVar[|c.env|](j requires 0 <= j < |c.env| => c.env[j]);
      assert env[..] == c.env;
      containers := containers + [LiveContainer(c.name, env)];
    }
    live := LiveDeployment(d.labels, containers);
  }

  method UpdateContainer(container: LiveContainer, version: Value)
    modifies container.env
    ensures container.env[..] == SetVersion(old(container.env[..]), version)
  {
    var env := container.env;
    for i := 0 to env.Length
      invariant forall j :: 0 <= j < i ==> env[j] == SetVersion(old(env[..]), version)[j]
      invariant forall j :: i <= j < env.Length ==> env[j] == old(env[j])
    {
      if env[i].name == SECRET_VERSION {
        env[i] := env[i].(value := version);
      }
    }
  }

  /** The loop variable is a copy of the container, but what it writes through reaches the deployment. */
  method UpdateContainers(containers: seq<LiveContainer>, version: Value)
    requires Separate(containers)
    modifies Arrays(containers)
    ensures Stored(containers) == SetVersions(old(Stored(containers)), version)
  {
    for i := 0 to |containers|
      invariant forall j :: 0 <= j < i ==> containers[j].env[..] == SetVersion(old(containers[j].env[..]), version)
      invariant forall j :: i <= j < |containers| ==> containers[j].env[..] == old(containers[j].env[..])
    {
      var container := containers[i];
      UpdateContainer(container, version);
    }
  }

  method UpdateProxySecret(cluster: Cluster, secret: SecretObject, sso: Sso, client: Client, key: string, o: Oracle)
    returns (err: Option<Error>)
    requires secret.id == sso.SecretId() && secret.data.Keys == {CONFIG_FILE}
    modifies cluster`secrets, secret
    ensures var text := ConfigText(cluster.services, sso, client, key, ListForUpstreamAgain, o.faults);
            if text.Err? then err == Some(text.error) && cluster.secrets == old(cluster.secrets)
            else
              && secret.data == map[CONFIG_FILE := text.value]
              && Reply(cluster.secrets, err) ==
                 UpdateIn(old(cluster.secrets), sso.SecretId(), map[CONFIG_FILE := text.value], UpdateSecret, o.faults)
  {
    var text := ProxyConfig(cluster, sso, client, key, ListForUpstreamAgain, o.faults);
    if text.Err? {
      return Some(text.error);
    }
    secret.data := secret.data[CONFIG_FILE := text.value];
    assert secret.data == map[CONFIG_FILE := text.value];
    var updated := UpdateIn(cluster.secrets, secret.id, secret.data, UpdateSecret, o.faults);
    cluster.secrets := updated.store;
    err := updated.error;
  }

  method UpdateDeployments(cluster: Cluster, id: Key, version: Value, faults: set<Call>) returns (err: Option<Error>)
    requires ListDeployments !in faults
    modifies cluster`deployments
    ensures var before := old(cluster.deployments);
            if id in before && UpdateDeployment in faults then
              cluster.deployments == before && err == Some(Api(UpdateDeployment, Faulted))
            else
              && err.None?
              && cluster.deployments == if id in before then before[id := Rollout(before[id], version)] else before
  {
    var listed := cluster.deployments;
    var names := Cluster.List(listed, id.ns);
    for i := 0 to |names|
      invariant id.name in names[..i] ==> UpdateDeployment !in faults
      invariant cluster.deployments ==
        if id.name in names[..i] then listed[id := Rollout(listed[id], version)] else listed
    {
      if names[i] == id.name {
        var live := Load(listed[id]);
        UpdateContainers(live.containers, version);
        if UpdateDeployment in faults {
          return Some(Api(UpdateDeployment, Faulted));
        }
        cluster.deployments := cluster.deployments[id := Deployment(live.labels, Stored(live.containers))];
      }
    }
    err := None;
  }

  method Update(
    cluster: Cluster, proxy: ProxyResources, sso: Sso, client: Client, key: string, o: Oracle)
    returns (err: Option<Error>)
    requires proxy.secret.id == sso.SecretId() && proxy.secret.data.Keys == {CONFIG_FILE}
    requires proxy.deployment == sso.DeploymentId().name
    modifies cluster`secrets, cluster`deployments, proxy.secret
    ensures Change(cluster.ProxiesNow(), err) == UpdateEffect(old(cluster.ProxiesNow()), sso, client, key, o)
  {
    err := UpdateProxySecret(cluster, proxy.secret, sso, client, key, o);
    if err.Some? {
      return;
    }
    if ListDeployments in o.faults {
      return Some(Api(ListDeployments, Faulted));
    }
    var version, _ := ComputeSecretVersion(proxy.secret.data);
    err := UpdateDeployments(cluster, Key(sso.ns, proxy.deployment), version, o.faults);
    if err.Some? {
      return;
    }
    if AwaitPodsAgain in o.faults {
      err := Some(Api(AwaitPodsAgain, Faulted));
    }
  }
}
