/** Secret, deployment and Dex client of an SSO agree once it is initialised. */
module Sync {
  import opened Types
  import opened Config
  import opened Version
  import opened Rbac
  import opened Expose
  import opened Proxy
  import opened Operator
  import opened Isolation

  /** The text is the configuration of the client at its first redirect URL, for this upstream port and cookie key. */
  predicate RenderedFor(text: string, spec: Spec, client: Client, port: int, key: string) {
    client.redirectURIs != [] && text == Render(ConfigFor(spec, client, client.redirectURIs[0], port, key))
  }

  /** The secret holds the client's configuration and the deployment carries the version of that secret. */
  predicate ProxyInSync(p: Proxies, sso: Sso, client: Client, port: int, key: string) {
    && sso.SecretId() in p.secrets && sso.DeploymentId() in p.deployments
    && p.secrets[sso.SecretId()].Keys == {CONFIG_FILE}
    && RenderedFor(p.secrets[sso.SecretId()][CONFIG_FILE], sso.spec, client, port, key)
    && Carries(p.deployments[sso.DeploymentId()], SecretVersion(p.secrets[sso.SecretId()][CONFIG_FILE]))
  }

  predicate InSyncAt(s: System, sso: Sso, port: int, key: string) {
    && sso.status.clientID in s.dex.clients
    && s.dex.clients[sso.status.clientID].id == sso.status.clientID
    && ProxyInSync(s.proxies, sso, s.dex.clients[sso.status.clientID], port, key)
  }

  /** In sync with the upstream as it is listed now. */
  predicate InSyncNow(s: System, sso: Sso, key: string) {
    sso.UpstreamId() in s.proxies.services && InSyncAt(s, sso, s.proxies.services[sso.UpstreamId()].port, key)
  }

  /** In sync with the SSO's upstream, at some port it had, and with one of the cookie keys. */
  ghost predicate InSync(s: System, sso: Sso, keys: set<string>) {
    exists port, key :: key in keys && InSyncAt(s, sso, port, key)
  }

  /** A rollout changes the value of every version variable and nothing else. */
  lemma RolloutExact(d: Deployment, version: Value, i: nat, j: nat)
    requires i < |d.containers| && j < |d.containers[i].env|
    ensures Carries(Rollout(d, version), version)
    ensures var r := Rollout(d, version);
            && r.labels == d.labels && |r.containers| == |d.containers|
            && r.containers[i].name == d.containers[i].name && |r.containers[i].env| == |d.containers[i].env|
            && r.containers[i].env[j].name == d.containers[i].env[j].name
            && (d.containers[i].env[j].name != SECRET_VERSION ==> r.containers[i].env[j] == d.containers[i].env[j])
  {
    RolloutCarries(d, version);
  }

  lemma RolloutCarries(d: Deployment, version: Value)
    ensures Carries(Rollout(d, version), version)
  {
    var r := Rollout(d, version).containers;
    forall c, e | c in r && e in c.env && e.name == SECRET_VERSION
      ensures e.value == version
    {
      var i :| 0 <= i < |r| && r[i] == c;
      var j :| 0 <= j < |c.env| && c.env[j] == e;
    }
  }

  lemma RolloutSyncs(p: Proxies, sso: Sso, version: Value, o: Oracle)
    requires sso.DeploymentId() in p.deployments
    ensures var c := RolloutEffect(p, sso, version, o);
            c.error.None? ==>
              && c.store.secrets == p.secrets
              && sso.DeploymentId() in c.store.deployments
              && Carries(c.store.deployments[sso.DeploymentId()], version)
  {
    RolloutCarries(p.deployments[sso.DeploymentId()], version);
  }

  lemma UpdateSyncs(p: Proxies, sso: Sso, client: Client, key: string, o: Oracle)
    requires sso.DeploymentId() in p.deployments
    ensures var c := UpdateEffect(p, sso, client, key, o);
            c.error.None? ==>
              && sso.UpstreamId() in p.services && c.store.services == p.services
              && ProxyInSync(c.store, sso, client, p.services[sso.UpstreamId()].port, key)
  {
    var text := ConfigText(p.services, sso, client, key, ListForUpstreamAgain, o.faults);
    var c := UpdateEffect(p, sso, client, key, o);
    if c.error.None? {
      ConfigTextRendered(p.services, sso, client, key, ListForUpstreamAgain, o.faults);
      var secret := map[CONFIG_FILE := text.value];
      var q := p.(secrets := UpdateIn(p.secrets, sso.SecretId(), secret, UpdateSecret, o.faults).store);
      RolloutSyncs(q, sso, SecretVersion(text.value), o);
      assert c.store.secrets[sso.SecretId()] == secret;
    }
  }

  lemma ConfigTextRendered(
    services: map<Key, Service>, sso: Sso, client: Client, key: string, call: Call, faults: set<Call>)
    ensures var text := ConfigText(services, sso, client, key, call, faults);
            text.Ok? ==>
              && sso.UpstreamId() in services
              && RenderedFor(text.value, sso.spec, client, services[sso.UpstreamId()].port, key)
  {
  }

  /** Deploy leaves a secret, a deployment and a service, its own or those it found. */
  lemma DeployProvides(p: Proxies, sso: Sso, client: Client, key: string, o: Oracle)
    ensures var e := DeployEffect(p, sso, client, key, o);
            e.result.Ok? ==>
              && sso.SecretId() in e.store.secrets
              && sso.DeploymentId() in e.store.deployments
              && sso.Id() in e.store.services
  {
    var text := ConfigText(p.services, sso, client, key, ListForUpstream, o.faults);
    if DeployEffect(p, sso, client, key, o).result.Ok? {
      CreateProvides(p, sso, AppOf(p.services, sso, o.appFirst), text.value, o);
    }
  }

  lemma CreateProvides(p: Proxies, sso: Sso, app: string, text: string, o: Oracle)
    ensures var e := CreateEffect(p, sso, app, text, o);
            e.result.Ok? ==>
              && sso.SecretId() in e.store.secrets
              && sso.DeploymentId() in e.store.deployments
              && sso.Id() in e.store.services
  {
    var q := p.(secrets := CreateIn(p.secrets, sso.SecretId(), map[CONFIG_FILE := text], CreateSecret, o.faults).store);
    DeploymentProvides(q, sso, app, SecretVersion(text), o);
    DeploymentFrame(q, sso, app, SecretVersion(text), o);
  }

  lemma DeploymentProvides(p: Proxies, sso: Sso, app: string, version: Value, o: Oracle)
    ensures var e := DeploymentEffect(p, sso, app, version, o);
            e.result.Ok? ==> sso.DeploymentId() in e.store.deployments && sso.Id() in e.store.services
  {
    var d := DeploymentFor(sso, app, version);
    var q := p.(deployments := CreateIn(p.deployments, sso.DeploymentId(), d, CreateDeployment, o.faults).store);
    ServiceFrame(q, sso, app, o);
  }

  // ---------- the variable that makes a rollout ----------

  /** A container names a version at all. */
  predicate NamesVersion(d: Deployment) {
    exists c, e :: c in d.containers && e in c.env && e.name == "SECRET_VERSION"
  }

  /** A container names this version. */
  predicate Versioned(d: Deployment, version: Value) {
    exists c, e :: c in d.containers && e in c.env && e.name == "SECRET_VERSION" && e.value == version
  }

  /** A deployment that no rollout can change. */
  predicate Bare(deployments: map<Key, Deployment>, id: Key) {
    id in deployments && !NamesVersion(deployments[id])
  }

  ghost predicate NoneBarer(before: map<Key, Deployment>, after: map<Key, Deployment>) {
    forall id :: Bare(after, id) ==> Bare(before, id)
  }

  lemma CarriedIsNamed(d: Deployment, version: Value)
    requires Carries(d, version) && NamesVersion(d)
    ensures Versioned(d, version)
  {
    var c, e :| c in d.containers && e in c.env && e.name == "SECRET_VERSION";
    assert e.value == version;
  }

  lemma RolloutNames(d: Deployment, version: Value)
    requires NamesVersion(d)
    ensures NamesVersion(Rollout(d, version))
  {
    var c, e :| c in d.containers && e in c.env && e.name == "SECRET_VERSION";
    var i :| 0 <= i < |d.containers| && d.containers[i] == c;
    var j :| 0 <= j < |c.env| && c.env[j] == e;
    var r := Rollout(d, version).containers[i];
    assert r in Rollout(d, version).containers && r.env[j] in r.env;
  }

  lemma DeploymentForNames(sso: Sso, app: string, version: Value)
    ensures NamesVersion(DeploymentFor(sso, app, version))
  {
    var c := DeploymentFor(sso, app, version).containers[0];
    assert c in DeploymentFor(sso, app, version).containers && c.env[0] in c.env && c.env[0].name == "SECRET_VERSION";
  }

  lemma DeployBares(p: Proxies, sso: Sso, client: Client, key: string, o: Oracle)
    ensures NoneBarer(p.deployments, DeployEffect(p, sso, client, key, o).store.deployments)
  {
    var text := ConfigText(p.services, sso, client, key, ListForUpstream, o.faults);
    if sso.UpstreamId() in p.services && text.Ok? {
      CreateBares(p, sso, AppOf(p.services, sso, o.appFirst), text.value, o);
    }
  }

  lemma CreateBares(p: Proxies, sso: Sso, app: string, text: string, o: Oracle)
    ensures NoneBarer(p.deployments, CreateEffect(p, sso, app, text, o).store.deployments)
  {
    var q := p.(secrets := CreateIn(p.secrets, sso.SecretId(), map[CONFIG_FILE := text], CreateSecret, o.faults).store);
    DeploymentBares(q, sso, app, SecretVersion(text), o);
  }

  lemma DeploymentBares(p: Proxies, sso: Sso, app: string, version: Value, o: Oracle)
    ensures NoneBarer(p.deployments, DeploymentEffect(p, sso, app, version, o).store.deployments)
  {
    DeploymentForNames(sso, app, version);
    var d := DeploymentFor(sso, app, version);
    var q := p.(deployments := CreateIn(p.deployments, sso.DeploymentId(), d, CreateDeployment, o.faults).store);
    ServiceFrame(q, sso, app, o);
  }

  lemma RolloutBares(p: Proxies, sso: Sso, version: Value, o: Oracle)
    ensures NoneBarer(p.deployments, RolloutEffect(p, sso, version, o).store.deployments)
  {
    var id := sso.DeploymentId();
    if id in p.deployments && NamesVersion(p.deployments[id]) {
      RolloutNames(p.deployments[id], version);
    }
  }

  lemma UpdateBares(p: Proxies, sso: Sso, client: Client, key: string, o: Oracle)
    ensures NoneBarer(p.deployments, UpdateEffect(p, sso, client, key, o).store.deployments)
  {
    var text := ConfigText(p.services, sso, client, key, ListForUpstreamAgain, o.faults);
    if text.Ok? {
      var secret := map[CONFIG_FILE := text.value];
      var q := p.(secrets := UpdateIn(p.secrets, sso.SecretId(), secret, UpdateSecret, o.faults).store);
      RolloutBares(q, sso, SecretVersion(text.value), o);
    }
  }

  lemma PublishBares(s: System, key: string, sso: Sso, client: Client, app: string, o: Oracle)
    ensures NoneBarer(s.proxies.deployments, PublishEffect(s, key, sso, client, app, o).store.proxies.deployments)
  {
    var ingress := Key(sso.ns, app);
    if ingress in s.exposure.ingresses {
      var published := client.(redirectURIs := RedirectURLs(s.exposure.ingresses[ingress]));
      UpdateBares(s.proxies, sso, published, key, o);
    }
  }

  lemma ProvideBares(s: System, key: string, sso: Sso, client: Client, account: string, o: Oracle)
    ensures NoneBarer(s.proxies.deployments, ProvideEffect(s, key, sso, client, account, o).store.proxies.deployments)
  {
    DeployBares(s.proxies, sso, client, key, o);
    var deployed := DeployEffect(s.proxies, sso, client, key, o);
    if deployed.result.Ok? {
      var t := s.(proxies := deployed.store);
      var exposed :=
        if sso.spec.skipExpose then Change(t.exposure, None)
        else ExposeEffect(t.exposure, t.proxies.services, sso, sso.name, account, o);
      PublishBares(t.(exposure := exposed.store), key, sso, client, deployed.result.value, o);
    }
  }

  lemma InitializeBares(s: System, key: string, sso: Sso, account: string, o: Oracle)
    ensures NoneBarer(s.proxies.deployments, InitializeEffect(s, key, sso, account, o).store.proxies.deployments)
  {
    if CreateClient !in o.faults {
      var client := NewClient(sso, o);
      ProvideBares(s.(dex := Registered(s.dex, client)), key, sso, client, account, o);
    }
  }

  /** No event makes a deployment without the variable or takes it from one. */
  lemma HandleBares(s: System, role: string, key: string, sso: Sso, deleted: bool, o: Oracle)
    ensures var t := HandleEffect(s, role, key, sso, deleted, o).store;
            NoneBarer(s.proxies.deployments, t.proxies.deployments)
  {
    var ensured := EnsureEffect(s.roles, role, sso.ns, o.faults);
    var t := s.(roles := ensured.store);
    if ensured.result.Ok? {
      if deleted && sso.status.initialized {
        RemoveFrame(t, sso, ensured.result.value, o);
      } else if ListSsos in o.faults || !Initialized(t.directory, sso.Id()) {
        InitializeBares(t, key, sso, ensured.result.value, o);
      }
    }
  }

  /** The deployment names the version of the very secret that is stored. */
  predicate VersionedProxy(p: Proxies, sso: Sso) {
    && sso.SecretId() in p.secrets && "oauth2_proxy.cfg" in p.secrets[sso.SecretId()]
    && sso.DeploymentId() in p.deployments
    && Versioned(p.deployments[sso.DeploymentId()],
                 Digest("oauth2_proxy.cfg" + p.secrets[sso.SecretId()]["oauth2_proxy.cfg"]))
  }

  lemma SyncedIsVersioned(s: System, sso: Sso, keys: set<string>)
    requires InSync(s, sso, keys) && !Bare(s.proxies.deployments, sso.DeploymentId())
    ensures VersionedProxy(s.proxies, sso)
  {
    var text := s.proxies.secrets[sso.SecretId()][CONFIG_FILE];
    CarriedIsNamed(s.proxies.deployments[sso.DeploymentId()], SecretVersion(text));
  }

  /** An initialisation that succeeds leaves that version, unless it found a deployment that has no place for one. */
  lemma InitializeVersions(s: System, key: string, sso: Sso, account: string, o: Oracle)
    requires !Bare(s.proxies.deployments, sso.DeploymentId())
    ensures var h := InitializeEffect(s, key, sso, account, o);
            h.outcome.Done? ==> VersionedProxy(h.store.proxies, sso)
  {
    var h := InitializeEffect(s, key, sso, account, o);
    if h.outcome.Done? {
      InitializeCompletes(s, key, sso, account, o);
      InitializeBares(s, key, sso, account, o);
      var live := h.store.directory.ssos[sso.Id()];
      assert InSync(h.store, live, {key}) by {
        assert InSyncAt(h.store, live, h.store.proxies.services[live.UpstreamId()].port, key);
      }
      SyncedIsVersioned(h.store, live, {key});
    }
  }

  // ---------- through the saga ----------

  /** The SSO's status names the client, written by someone who had seen its last version. */
  ghost predicate Recorded(d: Directory, e: Directory, sso: Sso, id: string) {
    && sso.Id() in d.ssos && d.ssos[sso.Id()].version == sso.version
    && e == Directory(d.ssos[sso.Id() := sso.(status := Status(id, true), version := d.nextVersion)], d.nextVersion + 1)
  }

  ghost predicate Completes(s: System, c: Change<System>, sso: Sso, id: string, key: string) {
    c.error.None? ==>
      && Recorded(s.directory, c.store.directory, sso, id)
      && InSyncNow(c.store, c.store.directory.ssos[sso.Id()], key)
  }

  lemma RecordCompletes(s: System, key: string, sso: Sso, client: Client, o: Oracle)
    requires sso.DeploymentId() in s.proxies.deployments
    requires client.id in s.dex.clients && s.dex.clients[client.id] == client
    ensures Completes(s, RecordEffect(s, key, sso, client, o), sso, client.id, key)
  {
    UpdateSyncs(s.proxies, sso, client, key, o);
    var c := RecordEffect(s, key, sso, client, o);
    if c.error.None? {
      var recorded := c.store.directory.ssos[sso.Id()];
      assert recorded.SecretId() == sso.SecretId() && recorded.DeploymentId() == sso.DeploymentId();
      assert recorded.UpstreamId() == sso.UpstreamId();
      assert recorded.spec == sso.spec && recorded.status.clientID == client.id;
    }
  }

  lemma PublishCompletes(s: System, key: string, sso: Sso, client: Client, app: string, o: Oracle)
    requires sso.DeploymentId() in s.proxies.deployments
    requires client.id in s.dex.clients
    ensures Completes(s, PublishEffect(s, key, sso, client, app, o), sso, client.id, key)
  {
    var c := PublishEffect(s, key, sso, client, app, o);
    if c.error.None? {
      var published := client.(redirectURIs := RedirectURLs(s.exposure.ingresses[Key(sso.ns, app)]));
      var clients := UpdateIn(s.dex.clients, client.id, published, UpdateClient, o.faults).store;
      var t := s.(dex := s.dex.(clients := clients));
      RecordCompletes(t, key, sso, published, o);
    }
  }

  lemma ProvideCompletes(s: System, key: string, sso: Sso, client: Client, account: string, o: Oracle)
    requires client.id in s.dex.clients
    ensures Completes(s, ProvideEffect(s, key, sso, client, account, o), sso, client.id, key)
  {
    var deployed := DeployEffect(s.proxies, sso, client, key, o);
    var c := ProvideEffect(s, key, sso, client, account, o);
    if c.error.None? {
      DeployProvides(s.proxies, sso, client, key, o);
      var t := s.(proxies := deployed.store);
      var exposed :=
        if sso.spec.skipExpose then Change(t.exposure, None)
        else ExposeEffect(t.exposure, t.proxies.services, sso, sso.name, account, o);
      PublishCompletes(t.(exposure := exposed.store), key, sso, client, deployed.result.value, o);
    }
  }

  /** An initialisation that succeeds leaves the SSO recorded and in sync with the new client. */
  lemma InitializeCompletes(s: System, key: string, sso: Sso, account: string, o: Oracle)
    ensures var h := InitializeEffect(s, key, sso, account, o);
            h.outcome.Done? ==>
              && Recorded(s.directory, h.store.directory, sso, o.newID)
              && InSyncNow(h.store, h.store.directory.ssos[sso.Id()], key)
  {
    if CreateClient !in o.faults {
      var client := NewClient(sso, o);
      ProvideCompletes(s.(dex := Registered(s.dex, client)), key, sso, client, account, o);
    }
  }
}
