/** Exactly when an event gets through, whatever calls fail, and what it writes. */
module Success {
  import opened Types
  import opened Config
  import opened Version
  import opened Rbac
  import opened Expose
  import opened Proxy
  import opened Operator
  import opened Isolation
  import opened Sync

  // ---------- Deploy ----------

  predicate DeployUnhindered(faults: set<Call>) {
    && ListForAppName !in faults && ListForUpstream !in faults && CreateSecret !in faults && CreateDeployment !in faults
    && CreateService !in faults && AwaitService !in faults && AwaitPods !in faults
  }

  predicate Deployable(services: map<Key, Service>, sso: Sso) {
    sso.UpstreamId() in services && HTTPS <= sso.spec.issuerURL
  }

  /** The services once the proxy's own is among them. */
  function WithProxyService(services: map<Key, Service>, sso: Sso, app: string): map<Key, Service> {
    if sso.Id() in services then services else services[sso.Id() := ServiceFor(sso, app)]
  }

  /** Secret and deployment, where there are any, are as before. */
  predicate Stays(p: Proxies, q: Proxies, sso: Sso) {
    && (sso.SecretId() in p.secrets ==>
          && sso.SecretId() in q.secrets
          && q.secrets[sso.SecretId()] == p.secrets[sso.SecretId()])
    && (sso.DeploymentId() in p.deployments ==>
          && sso.DeploymentId() in q.deployments
          && q.deployments[sso.DeploymentId()] == p.deployments[sso.DeploymentId()])
  }

  lemma ServiceOutcome(p: Proxies, sso: Sso, app: string, o: Oracle)
    ensures var e := ServiceEffect(p, sso, app, o);
            && (e.result.Ok? <==> CreateService !in o.faults && AwaitService !in o.faults && AwaitPods !in o.faults)
            && (e.result.Ok? ==> e.result.value == app && e.store.services == WithProxyService(p.services, sso, app))
            && e.store.secrets == p.secrets && e.store.deployments == p.deployments
  {
  }

  lemma DeploymentOutcome(p: Proxies, sso: Sso, app: string, version: Value, o: Oracle)
    ensures var e := DeploymentEffect(p, sso, app, version, o);
            && (e.result.Ok? <==> CreateDeployment !in o.faults && CreateService !in o.faults &&
                                  AwaitService !in o.faults && AwaitPods !in o.faults)
            && (e.result.Ok? ==> e.result.value == app && e.store.services == WithProxyService(p.services, sso, app))
            && Stays(p, e.store, sso)
  {
    var d := DeploymentFor(sso, app, version);
    var q := p.(deployments := CreateIn(p.deployments, sso.DeploymentId(), d, CreateDeployment, o.faults).store);
    ServiceOutcome(q, sso, app, o);
  }

  lemma CreateOutcome(p: Proxies, sso: Sso, app: string, text: string, o: Oracle)
    requires ListForAppName !in o.faults && ListForUpstream !in o.faults
    ensures var e := CreateEffect(p, sso, app, text, o);
            && (e.result.Ok? <==> DeployUnhindered(o.faults))
            && (e.result.Ok? ==> e.result.value == app && e.store.services == WithProxyService(p.services, sso, app))
            && Stays(p, e.store, sso)
  {
    var q := p.(secrets := CreateIn(p.secrets, sso.SecretId(), map[CONFIG_FILE := text], CreateSecret, o.faults).store);
    DeploymentOutcome(q, sso, app, SecretVersion(text), o);
  }

  lemma DeployOutcome(p: Proxies, sso: Sso, client: Client, key: string, o: Oracle)
    requires client.redirectURIs != []
    ensures var e := DeployEffect(p, sso, client, key, o);
            && (e.result.Ok? <==> DeployUnhindered(o.faults) && Deployable(p.services, sso))
            && (e.result.Ok? ==>
                  && e.result.value == AppOf(p.services, sso, o.appFirst)
                  && e.store.services == WithProxyService(p.services, sso, e.result.value))
            && Stays(p, e.store, sso)
  {
    if Deployable(p.services, sso) && ListForAppName !in o.faults && ListForUpstream !in o.faults {
      var text := ConfigText(p.services, sso, client, key, ListForUpstream, o.faults).value;
      CreateOutcome(p, sso, AppOf(p.services, sso, o.appFirst), text, o);
    }
  }

  // ---------- Update and what follows it ----------

  predicate SecretUnhindered(faults: set<Call>) { ListForUpstreamAgain !in faults && UpdateSecret !in faults }

  predicate RolloutUnhindered(faults: set<Call>) {
    ListDeployments !in faults && UpdateDeployment !in faults && AwaitPodsAgain !in faults
  }

  predicate Current(d: Directory, sso: Sso) { sso.Id() in d.ssos && d.ssos[sso.Id()].version == sso.version }

  /** The proxy's objects are there and the configuration can be made. */
  predicate Deployed(p: Proxies, sso: Sso) {
    Deployable(p.services, sso) && sso.SecretId() in p.secrets && sso.DeploymentId() in p.deployments
  }

  /** The configuration an update writes. */
  function Renewed(services: map<Key, Service>, sso: Sso, client: Client, key: string): Config
    requires sso.UpstreamId() in services && client.redirectURIs != []
  {
    ConfigFor(sso.spec, client, client.redirectURIs[0], services[sso.UpstreamId()].port, key)
  }

  function WithSecret(secrets: map<Key, map<string, string>>, id: Key, c: Config): map<Key, map<string, string>> {
    secrets[id := map[CONFIG_FILE := Render(c)]]
  }

  lemma UpdateOutcome(p: Proxies, sso: Sso, client: Client, key: string, o: Oracle)
    requires Deployed(p, sso) && client.redirectURIs != []
    ensures var c := UpdateEffect(p, sso, client, key, o);
            && (c.error.None? <==> SecretUnhindered(o.faults) && RolloutUnhindered(o.faults))
            && (SecretUnhindered(o.faults) ==>
                  c.store.secrets == WithSecret(p.secrets, sso.SecretId(), Renewed(p.services, sso, client, key)))
            && (!SecretUnhindered(o.faults) ==> c.store == p)
  {
  }

  /** What an update leaves of the deployment, whatever fails: rolled out to the rewritten secret, or as it was. */
  lemma UpdateLeaves(p: Proxies, sso: Sso, client: Client, key: string, o: Oracle)
    requires Deployed(p, sso) && client.redirectURIs != []
    ensures var q, id := UpdateEffect(p, sso, client, key, o).store, sso.DeploymentId();
            var text := Render(Renewed(p.services, sso, client, key));
            && id in q.deployments
            && q.deployments[id] ==
               if SecretUnhindered(o.faults) && ListDeployments !in o.faults && UpdateDeployment !in o.faults then
                 Rollout(p.deployments[id], Digest("oauth2_proxy.cfg" + text))
               else p.deployments[id]
  {
  }

  /** What must go well once the secret is rewritten. */
  predicate Finishes(d: Directory, sso: Sso, faults: set<Call>) {
    RolloutUnhindered(faults) && UpdateStatus !in faults && Current(d, sso)
  }

  lemma RecordOutcome(s: System, key: string, sso: Sso, client: Client, o: Oracle)
    requires Deployed(s.proxies, sso) && client.redirectURIs != []
    ensures var c := RecordEffect(s, key, sso, client, o);
            && (c.error.None? <==> SecretUnhindered(o.faults) && Finishes(s.directory, sso, o.faults))
            && (SecretUnhindered(o.faults) ==>
                  c.store.proxies.secrets ==
                  WithSecret(s.proxies.secrets, sso.SecretId(), Renewed(s.proxies.services, sso, client, key)))
            && (!SecretUnhindered(o.faults) ==> c.store.proxies == s.proxies)
  {
    UpdateOutcome(s.proxies, sso, client, key, o);
  }

  predicate HasHosts(ingresses: map<Key, seq<string>>, id: Key) { id in ingresses && ingresses[id] != [] }

  function Published(client: Client, hosts: seq<string>): Client { client.(redirectURIs := RedirectURLs(hosts)) }

  predicate Publishes(ingresses: map<Key, seq<string>>, id: Key, faults: set<Call>) {
    ListIngresses !in faults && UpdateClient !in faults && HasHosts(ingresses, id)
  }

  lemma PublishOutcome(s: System, key: string, sso: Sso, client: Client, app: string, o: Oracle)
    requires Deployed(s.proxies, sso) && client.id in s.dex.clients
    ensures var c, id := PublishEffect(s, key, sso, client, app, o), Key(sso.ns, app);
            var writes := Publishes(s.exposure.ingresses, id, o.faults) && SecretUnhindered(o.faults);
            && (c.error.None? <==> writes && Finishes(s.directory, sso, o.faults))
            && (writes ==>
                  c.store.proxies.secrets ==
                  WithSecret(s.proxies.secrets, sso.SecretId(),
                             Renewed(s.proxies.services, sso, Published(client, s.exposure.ingresses[id]), key)))
            && (!writes ==> c.store.proxies == s.proxies)
  {
    if Publishes(s.exposure.ingresses, Key(sso.ns, app), o.faults) {
      var published := Published(client, s.exposure.ingresses[Key(sso.ns, app)]);
      var clients := UpdateIn(s.dex.clients, client.id, published, UpdateClient, o.faults).store;
      RecordOutcome(s.(dex := s.dex.(clients := clients)), key, sso, published, o);
    }
  }

  // ---------- an initialisation as a whole ----------

  function AppIngress(services: map<Key, Service>, sso: Sso, o: Oracle): Key
    requires sso.UpstreamId() in services
  {
    Key(sso.ns, AppOf(services, sso, o.appFirst))
  }

  /** The ingresses a call finds once it has exposed the service, if it does. */
  function IngressesFound(services: map<Key, Service>, x: Exposure, sso: Sso, o: Oracle): map<Key, seq<string>>
    requires sso.UpstreamId() in services
  {
    if sso.spec.skipExpose then x.ingresses
    else
      Exposed(x.ingresses, WithProxyService(services, sso, AppOf(services, sso, o.appFirst)), sso.ns,
              ReadBy(x, sso, sso.name), o.host)
  }

  predicate Exposes(x: Exposure, sso: Sso, o: Oracle) {
    sso.spec.skipExpose || (ExposeUnhindered(o) && sso.ExposeJobId() !in x.jobs)
  }

  /** What must go well for an initialisation to come as far as rewriting the secret. */
  predicate Rewrites(services: map<Key, Service>, x: Exposure, sso: Sso, o: Oracle) {
    && CreateClient !in o.faults
    && DeployUnhindered(o.faults) && Deployable(services, sso)
    && Exposes(x, sso, o)
    && Publishes(IngressesFound(services, x, sso, o), AppIngress(services, sso, o), o.faults)
    && SecretUnhindered(o.faults)
  }

  /** The configuration the secret then holds. */
  function Rewritten(services: map<Key, Service>, x: Exposure, key: string, sso: Sso, o: Oracle): Config
    requires Rewrites(services, x, sso, o)
  {
    var hosts := IngressesFound(services, x, sso, o)[AppIngress(services, sso, o)];
    Renewed(services, sso, Published(NewClient(sso, o), hosts), key)
  }

  /** The call comes as far as looking for hosts. */
  predicate Reaches(services: map<Key, Service>, x: Exposure, sso: Sso, o: Oracle) {
    DeployUnhindered(o.faults) && Deployable(services, sso) && Exposes(x, sso, o)
  }

  /** The store in which a call looks for hosts. */
  lemma ProvideReaches(s: System, key: string, sso: Sso, client: Client, account: string, o: Oracle) returns (u: System)
    requires client.redirectURIs != [] && Reaches(s.proxies.services, s.exposure, sso, o)
    ensures ProvideEffect(s, key, sso, client, account, o) ==
            PublishEffect(u, key, sso, client, AppOf(s.proxies.services, sso, o.appFirst), o)
    ensures u.dex == s.dex && u.directory == s.directory && Stays(s.proxies, u.proxies, sso)
    ensures sso.SecretId() in u.proxies.secrets && sso.DeploymentId() in u.proxies.deployments
    ensures u.proxies.services ==
            WithProxyService(s.proxies.services, sso, AppOf(s.proxies.services, sso, o.appFirst))
    ensures u.exposure.ingresses == IngressesFound(s.proxies.services, s.exposure, sso, o)
  {
    DeployOutcome(s.proxies, sso, client, key, o);
    DeployProvides(s.proxies, sso, client, key, o);
    var t := s.(proxies := DeployEffect(s.proxies, sso, client, key, o).store);
    ExposeSucceeds(t.exposure, t.proxies.services, sso, sso.name, account, o);
    u := if sso.spec.skipExpose then t
         else t.(exposure := ExposeEffect(t.exposure, t.proxies.services, sso, sso.name, account, o).store);
  }

  lemma ProvideFallsShort(s: System, key: string, sso: Sso, client: Client, account: string, o: Oracle)
    requires client.redirectURIs != [] && !Reaches(s.proxies.services, s.exposure, sso, o)
    ensures var c := ProvideEffect(s, key, sso, client, account, o);
            c.error.Some? && Stays(s.proxies, c.store.proxies, sso)
  {
    DeployOutcome(s.proxies, sso, client, key, o);
    var deployed := DeployEffect(s.proxies, sso, client, key, o);
    if deployed.result.Ok? {
      ExposeSucceeds(s.exposure, deployed.store.services, sso, sso.name, account, o);
    }
  }

  lemma ProvideSucceeds(s: System, key: string, sso: Sso, account: string, o: Oracle)
    requires o.newID in s.dex.clients && CreateClient !in o.faults
    ensures ProvideEffect(s, key, sso, NewClient(sso, o), account, o).error.None? <==>
            Rewrites(s.proxies.services, s.exposure, sso, o) && Finishes(s.directory, sso, o.faults)
  {
    var client := NewClient(sso, o);
    if Reaches(s.proxies.services, s.exposure, sso, o) {
      var u := ProvideReaches(s, key, sso, client, account, o);
      PublishOutcome(u, key, sso, client, AppOf(s.proxies.services, sso, o.appFirst), o);
    } else {
      ProvideFallsShort(s, key, sso, client, account, o);
    }
  }

  lemma RewrittenAfter(services: map<Key, Service>, x: Exposure, key: string, sso: Sso, app: string, o: Oracle)
    requires Rewrites(services, x, sso, o)
    ensures var hosts := IngressesFound(services, x, sso, o)[AppIngress(services, sso, o)];
            Renewed(WithProxyService(services, sso, app), sso, Published(NewClient(sso, o), hosts), key) ==
            Rewritten(services, x, key, sso, o)
  {
  }

  lemma PublishWrites(services: map<Key, Service>, x: Exposure, u: System, key: string, sso: Sso, o: Oracle)
    requires Reaches(services, x, sso, o) && CreateClient !in o.faults && o.newID in u.dex.clients
    requires sso.SecretId() in u.proxies.secrets && sso.DeploymentId() in u.proxies.deployments
    requires u.proxies.services == WithProxyService(services, sso, AppOf(services, sso, o.appFirst))
    requires u.exposure.ingresses == IngressesFound(services, x, sso, o)
    ensures var app := AppOf(services, sso, o.appFirst);
            var p := PublishEffect(u, key, sso, NewClient(sso, o), app, o).store.proxies;
            if Rewrites(services, x, sso, o) then
              p.secrets == WithSecret(u.proxies.secrets, sso.SecretId(), Rewritten(services, x, key, sso, o))
            else p == u.proxies
  {
    PublishOutcome(u, key, sso, NewClient(sso, o), AppOf(services, sso, o.appFirst), o);
    if Rewrites(services, x, sso, o) {
      RewrittenAfter(services, x, key, sso, AppOf(services, sso, o.appFirst), o);
    }
  }

  lemma ProvideWrites(s: System, key: string, sso: Sso, account: string, o: Oracle)
    requires o.newID in s.dex.clients && CreateClient !in o.faults
    ensures var p := ProvideEffect(s, key, sso, NewClient(sso, o), account, o).store.proxies;
            if Rewrites(s.proxies.services, s.exposure, sso, o) then
              && sso.SecretId() in p.secrets
              && p.secrets[sso.SecretId()] ==
                 map[CONFIG_FILE := Render(Rewritten(s.proxies.services, s.exposure, key, sso, o))]
            else Stays(s.proxies, p, sso)
  {
    var client := NewClient(sso, o);
    if Reaches(s.proxies.services, s.exposure, sso, o) {
      var u := ProvideReaches(s, key, sso, client, account, o);
      PublishWrites(s.proxies.services, s.exposure, u, key, sso, o);
    } else {
      ProvideFallsShort(s, key, sso, client, account, o);
    }
  }

  predicate GetsThrough(s: System, sso: Sso, o: Oracle) {
    Rewrites(s.proxies.services, s.exposure, sso, o) && Finishes(s.directory, sso, o.faults)
  }

  /** Exactly when an initialisation succeeds, and exactly when it leaves its client behind. */
  lemma InitializeOutcome(s: System, key: string, sso: Sso, account: string, o: Oracle)
    ensures var h := InitializeEffect(s, key, sso, account, o);
            && (h.outcome.Done? <==> GetsThrough(s, sso, o))
            && (h.outcome.Undeleted? <==>
                  CreateClient !in o.faults && !GetsThrough(s, sso, o) && Compensate in o.faults)
  {
    if CreateClient !in o.faults {
      var client := NewClient(sso, o);
      var t := s.(dex := Registered(s.dex, client));
      ProvideSucceeds(t, key, sso, account, o);
      ProvideFrame(t, key, sso, client, account, o);
    }
  }

  /** The event makes the operator initialise the SSO: it is not initialised, or the read of its status fails. */
  predicate Initializes(s: System, role: string, sso: Sso, deleted: bool, o: Oracle) {
    && Grants(s.roles, role, sso.ns, o.faults)
    && !(deleted && sso.status.initialized)
    && (ListSsos in o.faults || !Initialized(s.directory, sso.Id()))
  }

  lemma HandleInitializes(s: System, role: string, key: string, sso: Sso, deleted: bool, o: Oracle)
    requires Initializes(s, role, sso, deleted, o)
    ensures var ensured := EnsureEffect(s.roles, role, sso.ns, o.faults);
            && ensured.result.Ok?
            && HandleEffect(s, role, key, sso, deleted, o) ==
               InitializeEffect(s.(roles := ensured.store), key, sso, ensured.result.value, o)
  {
    EnsureSucceeds(s.roles, role, sso.ns, o.faults);
  }

  lemma HandleOtherwise(s: System, role: string, key: string, sso: Sso, deleted: bool, o: Oracle)
    requires !Initializes(s, role, sso, deleted, o) && !(deleted && sso.status.initialized)
    ensures var h := HandleEffect(s, role, key, sso, deleted, o);
            && h.store == s.(roles := h.store.roles)
            && (h.outcome.Done? <==> Grants(s.roles, role, sso.ns, o.faults))
            && !h.outcome.Undeleted?
  {
    EnsureSucceeds(s.roles, role, sso.ns, o.faults);
  }

  /** Exactly when an event that has to initialise its SSO does so, whatever calls fail. */
  lemma HandleSucceeds(s: System, role: string, key: string, sso: Sso, deleted: bool, o: Oracle)
    requires !(deleted && sso.status.initialized) && (ListSsos in o.faults || !Initialized(s.directory, sso.Id()))
    ensures HandleEffect(s, role, key, sso, deleted, o).outcome.Done? <==>
            Grants(s.roles, role, sso.ns, o.faults) && GetsThrough(s, sso, o)
  {
    if Initializes(s, role, sso, deleted, o) {
      HandleInitializes(s, role, key, sso, deleted, o);
      var ensured := EnsureEffect(s.roles, role, sso.ns, o.faults);
      InitializeOutcome(s.(roles := ensured.store), key, sso, ensured.result.value, o);
    } else {
      HandleOtherwise(s, role, key, sso, deleted, o);
    }
  }
}
