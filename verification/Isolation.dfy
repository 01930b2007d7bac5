/** What handling an event leaves alone, in particular everything that belongs to another SSO. */
module Isolation {
  import opened Types
  import opened Names
  import opened Version
  import opened Rbac
  import opened Expose
  import opened Proxy
  import opened Operator

  /** The two maps differ at most at `k`. */
  ghost predicate Off<K, V>(m: map<K, V>, n: map<K, V>, k: K) {
    m - {k} == n - {k}
  }

  lemma CreateOff<K, V>(m: map<K, V>, k: K, v: V, call: Call, faults: set<Call>)
    ensures Off(m, CreateIn(m, k, v, call, faults).store, k)
  {
  }

  lemma UpdateOff<K, V>(m: map<K, V>, k: K, v: V, call: Call, faults: set<Call>)
    ensures Off(m, UpdateIn(m, k, v, call, faults).store, k)
    ensures UpdateIn(m, k, v, call, faults).store.Keys == m.Keys
  {
  }

  lemma DeleteOff<K, V>(m: map<K, V>, k: K, call: Call, faults: set<Call>)
    ensures Off(m, DeleteIn(m, k, call, faults).store, k)
  {
  }

  lemma OffAt<K, V>(m: map<K, V>, n: map<K, V>, k: K, x: K)
    requires Off(m, n, k) && x != k
    ensures x in m <==> x in n
    ensures x in m ==> m[x] == n[x]
  {
    assert x in m <==> x in m - {k};
    assert x in n <==> x in n - {k};
    if x in m {
      assert (m - {k})[x] == m[x] && (n - {k})[x] == n[x];
    }
  }

  // ---------- the proxy's objects ----------

  /** Only the three objects of the SSO's own proxy differ. */
  ghost predicate SameProxies(p: Proxies, q: Proxies, sso: Sso) {
    && Off(p.secrets, q.secrets, sso.SecretId())
    && Off(p.deployments, q.deployments, sso.DeploymentId())
    && Off(p.services, q.services, sso.Id())
  }

  lemma ServiceFrame(p: Proxies, sso: Sso, app: string, o: Oracle)
    ensures var q := ServiceEffect(p, sso, app, o).store;
            q == p.(services := q.services) && Off(p.services, q.services, sso.Id())
  {
    CreateOff(p.services, sso.Id(), ServiceFor(sso, app), CreateService, o.faults);
  }

  lemma DeploymentFrame(p: Proxies, sso: Sso, app: string, version: Value, o: Oracle)
    ensures var q := DeploymentEffect(p, sso, app, version, o).store;
            q.secrets == p.secrets && SameProxies(p, q, sso)
  {
    var d := DeploymentFor(sso, app, version);
    CreateOff(p.deployments, sso.DeploymentId(), d, CreateDeployment, o.faults);
    var q := p.(deployments := CreateIn(p.deployments, sso.DeploymentId(), d, CreateDeployment, o.faults).store);
    ServiceFrame(q, sso, app, o);
  }

  lemma CreateFrame(p: Proxies, sso: Sso, app: string, text: string, o: Oracle)
    ensures SameProxies(p, CreateEffect(p, sso, app, text, o).store, sso)
  {
    CreateOff(p.secrets, sso.SecretId(), map[CONFIG_FILE := text], CreateSecret, o.faults);
    var q := p.(secrets := CreateIn(p.secrets, sso.SecretId(), map[CONFIG_FILE := text], CreateSecret, o.faults).store);
    DeploymentFrame(q, sso, app, SecretVersion(text), o);
  }

  lemma DeployFrame(p: Proxies, sso: Sso, client: Client, key: string, o: Oracle)
    ensures SameProxies(p, DeployEffect(p, sso, client, key, o).store, sso)
  {
    var text := ConfigText(p.services, sso, client, key, ListForUpstream, o.faults);
    if sso.UpstreamId() in p.services && text.Ok? {
      CreateFrame(p, sso, AppOf(p.services, sso, o.appFirst), text.value, o);
    }
  }

  lemma RolloutFrame(p: Proxies, sso: Sso, version: Value, o: Oracle)
    ensures var q := RolloutEffect(p, sso, version, o).store;
            q.secrets == p.secrets && q.services == p.services
            && Off(p.deployments, q.deployments, sso.DeploymentId()) && q.deployments.Keys == p.deployments.Keys
  {
  }

  lemma UpdateFrame(p: Proxies, sso: Sso, client: Client, key: string, o: Oracle)
    ensures var q := UpdateEffect(p, sso, client, key, o).store;
            SameProxies(p, q, sso) && q.services == p.services
            && q.secrets.Keys == p.secrets.Keys && q.deployments.Keys == p.deployments.Keys
  {
    var text := ConfigText(p.services, sso, client, key, ListForUpstreamAgain, o.faults);
    if text.Ok? {
      var secret := map[CONFIG_FILE := text.value];
      UpdateOff(p.secrets, sso.SecretId(), secret, UpdateSecret, o.faults);
      var q := p.(secrets := UpdateIn(p.secrets, sso.SecretId(), secret, UpdateSecret, o.faults).store);
      RolloutFrame(q, sso, SecretVersion(text.value), o);
    }
  }

  // ---------- all stores ----------

  /** Nothing of another SSO differs but what its namespace shares: the config map, the ingresses and the roles. */
  ghost predicate Apart(s: System, t: System, sso: Sso) {
    && SameProxies(s.proxies, t.proxies, sso)
    && Off(s.directory.ssos, t.directory.ssos, sso.Id())
    && SameExposure(s.exposure, t.exposure, sso)
  }

  /** Only the config map of the SSO's namespace, its own two jobs and ingresses differ. */
  ghost predicate SameExposure(x: Exposure, y: Exposure, sso: Sso) {
    && Off(x.configMaps, y.configMaps, sso.ns)
    && y.jobs - {sso.ExposeJobId(), sso.CleanupJobId()} == x.jobs - {sso.ExposeJobId(), sso.CleanupJobId()}
  }

  lemma ExposeApart(x: Exposure, services: map<Key, Service>, sso: Sso, account: string, o: Oracle)
    ensures SameExposure(x, ExposeEffect(x, services, sso, sso.name, account, o).store, sso)
  {
    ExposeFrame(x, services, sso, sso.name, account, o);
    var y := ExposeEffect(x, services, sso, sso.name, account, o).store;
    assert y.jobs - {sso.ExposeJobId(), sso.CleanupJobId()} == (y.jobs - {sso.ExposeJobId()}) - {sso.CleanupJobId()};
    assert x.jobs - {sso.ExposeJobId(), sso.CleanupJobId()} == (x.jobs - {sso.ExposeJobId()}) - {sso.CleanupJobId()};
  }

  lemma CleanupApart(x: Exposure, sso: Sso, account: string, o: Oracle)
    ensures SameExposure(x, CleanupEffect(x, sso, sso.name, account, o).store, sso)
  {
    CleanupFrame(x, sso, sso.name, account, o);
    var y := CleanupEffect(x, sso, sso.name, account, o).store;
    assert y.jobs - {sso.ExposeJobId(), sso.CleanupJobId()} == (y.jobs - {sso.CleanupJobId()}) - {sso.ExposeJobId()};
    assert x.jobs - {sso.ExposeJobId(), sso.CleanupJobId()} == (x.jobs - {sso.CleanupJobId()}) - {sso.ExposeJobId()};
  }

  lemma StatusFrame(d: Directory, sso: Sso, faults: set<Call>)
    ensures var c := StatusEffect(d, sso, faults);
            && Off(d.ssos, c.store.ssos, sso.Id())
            && (c.error.Some? ==> c.store == d)
  {
  }

  /** How recording, publishing and providing may change the system. */
  ghost predicate Framed(s: System, c: Change<System>, sso: Sso, id: string) {
    && Apart(s, c.store, sso)
    && c.store.roles == s.roles
    && c.store.dex.issued == s.dex.issued
    && Off(s.dex.clients, c.store.dex.clients, id)
    && c.store.dex.clients.Keys == s.dex.clients.Keys
    && (c.error.Some? ==> c.store.directory == s.directory)
  }

  lemma RecordFrame(s: System, key: string, sso: Sso, client: Client, o: Oracle)
    ensures Framed(s, RecordEffect(s, key, sso, client, o), sso, client.id)
  {
    UpdateFrame(s.proxies, sso, client, key, o);
    StatusFrame(s.directory, sso.(status := Status(client.id, true)), o.faults);
  }

  lemma PublishFrame(s: System, key: string, sso: Sso, client: Client, app: string, o: Oracle)
    ensures Framed(s, PublishEffect(s, key, sso, client, app, o), sso, client.id)
  {
    var ingress := Key(sso.ns, app);
    if ingress in s.exposure.ingresses {
      var published := client.(redirectURIs := RedirectURLs(s.exposure.ingresses[ingress]));
      UpdateOff(s.dex.clients, client.id, published, UpdateClient, o.faults);
      var clients := UpdateIn(s.dex.clients, client.id, published, UpdateClient, o.faults).store;
      var t := s.(dex := s.dex.(clients := clients));
      RecordFrame(t, key, sso, published, o);
    }
  }

  lemma ProvideFrame(s: System, key: string, sso: Sso, client: Client, account: string, o: Oracle)
    ensures Framed(s, ProvideEffect(s, key, sso, client, account, o), sso, client.id)
  {
    DeployFrame(s.proxies, sso, client, key, o);
    var deployed := DeployEffect(s.proxies, sso, client, key, o);
    var t := s.(proxies := deployed.store);
    if deployed.result.Ok? {
      ExposeApart(t.exposure, t.proxies.services, sso, account, o);
      var exposed :=
        if sso.spec.skipExpose then Change(t.exposure, None)
        else ExposeEffect(t.exposure, t.proxies.services, sso, sso.name, account, o);
      var u := t.(exposure := exposed.store);
      if exposed.error.None? {
        PublishFrame(u, key, sso, client, deployed.result.value, o);
        ApartChains(s, u, PublishEffect(u, key, sso, client, deployed.result.value, o).store, sso);
      }
    }
  }

  lemma ApartChains(s: System, t: System, u: System, sso: Sso)
    requires Apart(s, t, sso) && Apart(t, u, sso)
    ensures Apart(s, u, sso)
  {
  }

  /** Ids are unused before they are issued. */
  ghost predicate Fresh(s: System, o: Oracle) {
    s.dex.clients.Keys <= s.dex.issued && o.newID !in s.dex.issued
  }

  /** A failed initialisation leaves the client exactly when the compensation fails too. */
  lemma InitializeFrame(s: System, key: string, sso: Sso, account: string, o: Oracle)
    requires Fresh(s, o)
    ensures var h := InitializeEffect(s, key, sso, account, o);
            && Apart(s, h.store, sso)
            && h.store.roles == s.roles
            && s.dex.issued <= h.store.dex.issued <= s.dex.issued + {o.newID}
            && h.store.dex.clients - {o.newID} == s.dex.clients
            && (o.newID in h.store.dex.clients ==> o.newID in h.store.dex.issued)
            && (o.newID in h.store.dex.clients <==> !h.outcome.Failed?)
            && (!h.outcome.Done? ==> h.store.directory == s.directory)
  {
    assert s.dex.clients - {o.newID} == s.dex.clients;
    if CreateClient !in o.faults {
      var client := NewClient(sso, o);
      var t := s.(dex := Registered(s.dex, client));
      ProvideFrame(t, key, sso, client, account, o);
      var u := ProvideEffect(t, key, sso, client, account, o).store;
      assert client.id in t.dex.clients;
      assert t.dex.clients - {client.id} == s.dex.clients;
      DeleteOff(u.dex.clients, client.id, Compensate, o.faults);
    }
  }

  lemma RemoveFrame(s: System, sso: Sso, account: string, o: Oracle)
    ensures var c := RemoveEffect(s, sso, account, o);
            && c.store == s.(exposure := c.store.exposure, dex := s.dex.(clients := c.store.dex.clients))
            && SameExposure(s.exposure, c.store.exposure, sso)
            && (c.error.None? ==> sso.status.clientID in s.dex.clients)
            && c.store.dex.clients == if c.error.None? then s.dex.clients - {sso.status.clientID} else s.dex.clients
  {
    CleanupApart(s.exposure, sso, account, o);
  }

  lemma HandleApart(s: System, role: string, key: string, sso: Sso, deleted: bool, o: Oracle)
    requires Fresh(s, o)
    ensures var t := HandleEffect(s, role, key, sso, deleted, o).store;
            && Apart(s, t, sso)
            && forall id :: id in s.dex.clients && (deleted && sso.status.initialized ==> id != sso.status.clientID) ==>
                 id in t.dex.clients && t.dex.clients[id] == s.dex.clients[id]
  {
    var ensured := EnsureEffect(s.roles, role, sso.ns, o.faults);
    var t := s.(roles := ensured.store);
    if ensured.result.Ok? {
      if deleted && sso.status.initialized {
        RemoveFrame(t, sso, ensured.result.value, o);
      } else if ListSsos in o.faults || !Initialized(t.directory, sso.Id()) {
        InitializeFrame(t, key, sso, ensured.result.value, o);
        var u := InitializeEffect(t, key, sso, ensured.result.value, o).store;
        forall id | id in s.dex.clients ensures id in u.dex.clients && u.dex.clients[id] == s.dex.clients[id] {
          OffAt(s.dex.clients, u.dex.clients, o.newID, id);
        }
      }
    }
  }

  /** Two maps agree at a key, or both lack it. */
  predicate SameAt<K(==), V(==)>(m: map<K, V>, n: map<K, V>, k: K) {
    (k in m <==> k in n) && (k in m ==> m[k] == n[k])
  }

  lemma JobsElsewhere(m: map<Key, Job>, n: map<Key, Job>, sso: Sso, other: Sso)
    requires m - {sso.ExposeJobId(), sso.CleanupJobId()} == n - {sso.ExposeJobId(), sso.CleanupJobId()}
    requires other.ExposeJobId() != sso.ExposeJobId() && other.CleanupJobId() != sso.CleanupJobId()
    ensures SameAt(m, n, other.ExposeJobId()) && SameAt(m, n, other.CleanupJobId())
  {
    JobNamesDiffer(other.name, sso.name);
    JobNamesDiffer(sso.name, other.name);
    forall id | id in {other.ExposeJobId(), other.CleanupJobId()} ensures SameAt(m, n, id) {
      var own := {sso.ExposeJobId(), sso.CleanupJobId()};
      assert id !in own;
      assert (id in m <==> id in m - own) && (id in n <==> id in n - own);
      assert id in m ==> m[id] == (m - own)[id] == (n - own)[id] == n[id];
    }
  }

  /** Handling one SSO leaves another's secret, deployment, service, status and client, if their names stay apart. */
  lemma NonInterference(s: System, role: string, key: string, sso: Sso, deleted: bool, o: Oracle, other: Sso)
    requires Fresh(s, o)
    requires other.Id() != sso.Id() && other.SecretId() != sso.SecretId() && other.DeploymentId() != sso.DeploymentId()
    requires other.ExposeJobId() != sso.ExposeJobId() && other.CleanupJobId() != sso.CleanupJobId()
    ensures var t := HandleEffect(s, role, key, sso, deleted, o).store;
            && SameAt(s.proxies.secrets, t.proxies.secrets, other.SecretId())
            && SameAt(s.proxies.deployments, t.proxies.deployments, other.DeploymentId())
            && SameAt(s.proxies.services, t.proxies.services, other.Id())
            && SameAt(s.directory.ssos, t.directory.ssos, other.Id())
            && SameAt(s.exposure.jobs, t.exposure.jobs, other.ExposeJobId())
            && SameAt(s.exposure.jobs, t.exposure.jobs, other.CleanupJobId())
            && (other.ns != sso.ns ==> SameAt(s.exposure.configMaps, t.exposure.configMaps, other.ns))
            && (other.status.clientID in s.dex.clients &&
                !(deleted && sso.status.initialized && sso.status.clientID == other.status.clientID) ==>
                  SameAt(s.dex.clients, t.dex.clients, other.status.clientID))
  {
    HandleApart(s, role, key, sso, deleted, o);
    var t := HandleEffect(s, role, key, sso, deleted, o).store;
    OffAt(s.proxies.secrets, t.proxies.secrets, sso.SecretId(), other.SecretId());
    OffAt(s.proxies.deployments, t.proxies.deployments, sso.DeploymentId(), other.DeploymentId());
    OffAt(s.proxies.services, t.proxies.services, sso.Id(), other.Id());
    OffAt(s.directory.ssos, t.directory.ssos, sso.Id(), other.Id());
    JobsElsewhere(s.exposure.jobs, t.exposure.jobs, sso, other);
    if other.ns != sso.ns {
      OffAt(s.exposure.configMaps, t.exposure.configMaps, sso.ns, other.ns);
    }
  }

  /** An event of an SSO that is initialised by now, however old, changes nothing if the read and the roles are good. */
  lemma RedeliveryChangesNothing(s: System, role: string, key: string, sso: Sso, deleted: bool, o: Oracle)
    requires ListBindings !in o.faults && ListSsos !in o.faults
    requires var i := FirstBinding(s.roles.bindings, role);
             i < |s.roles.bindings| && exists x :: x in s.roles.bindings[i].subjects && AccountIn(x, sso.ns)
    requires Initialized(s.directory, sso.Id()) && !(deleted && sso.status.initialized)
    ensures HandleEffect(s, role, key, sso, deleted, o) == Handled(s, Done)
  {
    var subjects := s.roles.bindings[FirstBinding(s.roles.bindings, role)].subjects;
    var x :| x in subjects && AccountIn(x, sso.ns);
    var j :| 0 <= j < |subjects| && subjects[j] == x;
    assert FirstAccount(subjects, sso.ns) <= j;
  }
}
