/** When the calls for an SSO that is not initialised yet get through, and how many it takes after any failures. */
module Convergence {
  import opened Types
  import opened Labels
  import opened Version
  import opened Rbac
  import opened Expose
  import opened Proxy
  import opened Operator
  import opened Isolation
  import opened Sync
  import opened Success

  /** What must be the case for one call without faults to get through. */
  predicate Provides(s: System, sso: Sso, o: Oracle) {
    && Deployable(s.proxies.services, sso)
    && (sso.spec.skipExpose || sso.ExposeJobId() !in s.exposure.jobs)
    && HasHosts(IngressesFound(s.proxies.services, s.exposure, sso, o), AppIngress(s.proxies.services, sso, o))
    && Current(s.directory, sso)
  }

  lemma UnfaultedGetsThrough(s: System, sso: Sso, o: Oracle)
    requires o.faults == {}
    ensures GetsThrough(s, sso, o) <==> Provides(s, sso, o)
  {
  }

  lemma UnfaultedGrants(r: Roles, role: string, ns: string, faults: set<Call>)
    requires faults == {}
    ensures Grants(r, role, ns, faults) <==> FirstBinding(r.bindings, role) < |r.bindings|
  {
  }

  /** Exactly when one call without faults initialises an SSO that is not initialised yet. */
  lemma HandleUnfaulted(s: System, role: string, key: string, sso: Sso, o: Oracle)
    requires o.faults == {} && !Initialized(s.directory, sso.Id())
    ensures HandleEffect(s, role, key, sso, false, o).outcome.Done? <==>
            FirstBinding(s.roles.bindings, role) < |s.roles.bindings| && Provides(s, sso, o)
  {
    HandleSucceeds(s, role, key, sso, false, o);
    UnfaultedGetsThrough(s, sso, o);
    UnfaultedGrants(s.roles, role, sso.ns, o.faults);
  }

  // ---------- what decides in the long run ----------

  function App(services: map<Key, Service>, sso: Sso): string
    requires sso.UpstreamId() in services
  {
    AppOf(services, sso, true)
  }

  /** One of the named services announces the application's ingress. */
  predicate Announces(services: map<Key, Service>, ns: string, names: seq<string>, app: string) {
    exists n :: n in names && Key(ns, n) in services && IngressName(n, services[Key(ns, n)]) == app
  }

  /** The service under the SSO's name, if there is one already, announces it. */
  predicate OwnAnnounces(services: map<Key, Service>, sso: Sso, app: string) {
    sso.Id() in services ==> IngressName(sso.name, services[sso.Id()]) == app
  }

  /** A service named by the config map of the namespace, if there is one, announces it. */
  predicate MapAnnounces(services: map<Key, Service>, x: Exposure, sso: Sso, app: string) {
    sso.ns in x.configMaps && Announces(services, sso.ns, x.configMaps[sso.ns].services, app)
  }

  /** The application has hosts or can get them. */
  predicate Servable(services: map<Key, Service>, x: Exposure, sso: Sso, app: string) {
    || HasHosts(x.ingresses, Key(sso.ns, app))
    || (!sso.spec.skipExpose && (OwnAnnounces(services, sso, app) || MapAnnounces(services, x, sso, app)))
  }

  predicate Attainable(s: System, role: string, sso: Sso) {
    && FirstBinding(s.roles.bindings, role) < |s.roles.bindings|
    && Current(s.directory, sso)
    && Deployable(s.proxies.services, sso)
    && Servable(s.proxies.services, s.exposure, sso, App(s.proxies.services, sso))
  }

  /** The SSO is not initialised, and its application's name does not hang on the order of labels. */
  predicate Waiting(s: System, sso: Sso) {
    && !Initialized(s.directory, sso.Id())
    && (sso.UpstreamId() in s.proxies.services ==>
          !OrderShows(sso.spec.upstream, s.proxies.services[sso.UpstreamId()].labels))
    && s.dex.clients.Keys <= s.dex.issued
  }

  lemma AppStable(s: System, sso: Sso, appFirst: bool)
    requires Waiting(s, sso) && sso.UpstreamId() in s.proxies.services
    ensures AppOf(s.proxies.services, sso, appFirst) == App(s.proxies.services, sso)
  {
    OrderIndependent(sso.spec.upstream, s.proxies.services[sso.UpstreamId()].labels);
  }

  lemma ExposedHosts(
    ingresses: map<Key, seq<string>>, services: map<Key, Service>, ns: string, read: ExposeConfig,
    host: ExposeConfig -> string, app: string)
    ensures HasHosts(Exposed(ingresses, services, ns, read, host), Key(ns, app)) <==>
            HasHosts(ingresses, Key(ns, app)) || Announces(services, ns, read.services, app)
  {
  }

  /** The config map an expose job of the SSO reads names a service that announces the ingress. */
  predicate ReadAnnounces(services: map<Key, Service>, x: Exposure, sso: Sso, app: string) {
    Announces(services, sso.ns, ReadBy(x, sso, sso.name).services, app)
  }

  lemma OwnReads(services: map<Key, Service>, x: Exposure, sso: Sso, app: string)
    requires sso.Id() in services && sso.ns !in x.configMaps
    ensures ReadAnnounces(services, x, sso, app) <==> OwnAnnounces(services, sso, app)
  {
    assert ReadBy(x, sso, sso.name).services == [sso.name] && Key(sso.ns, sso.name) == sso.Id();
    assert sso.name in [sso.name];
  }

  lemma ServableWithService(services: map<Key, Service>, x: Exposure, sso: Sso, app: string)
    ensures Servable(WithProxyService(services, sso, app), x, sso, app) <==> Servable(services, x, sso, app)
  {
  }

  lemma FoundIsServable(services: map<Key, Service>, x: Exposure, sso: Sso, o: Oracle)
    requires sso.UpstreamId() in services
    requires HasHosts(IngressesFound(services, x, sso, o), AppIngress(services, sso, o))
    ensures Servable(services, x, sso, AppOf(services, sso, o.appFirst))
  {
    if !sso.spec.skipExpose {
      var app := AppOf(services, sso, o.appFirst);
      var q := WithProxyService(services, sso, app);
      ExposedHosts(x.ingresses, q, sso.ns, ReadBy(x, sso, sso.name), o.host, app);
      if sso.ns !in x.configMaps {
        OwnReads(q, x, sso, app);
      }
      ServableWithService(services, x, sso, app);
    }
  }

  /** No call gets through unless the conditions are met. */
  lemma DoneIsAttainable(s: System, role: string, key: string, sso: Sso, o: Oracle)
    requires Waiting(s, sso)
    ensures HandleEffect(s, role, key, sso, false, o).outcome.Done? ==> Attainable(s, role, sso)
  {
    HandleSucceeds(s, role, key, sso, false, o);
    if HandleEffect(s, role, key, sso, false, o).outcome.Done? {
      FoundIsServable(s.proxies.services, s.exposure, sso, o);
      AppStable(s, sso, o.appFirst);
    }
  }

  // ---------- what failed calls leave ----------

  /** The services are as before, or with the proxy's own. */
  predicate Serves(p: Proxies, q: Proxies, sso: Sso, appFirst: bool) {
    || q.services == p.services
    || (sso.UpstreamId() in p.services &&
        q.services == WithProxyService(p.services, sso, AppOf(p.services, sso, appFirst)))
  }

  lemma DeployServes(p: Proxies, sso: Sso, client: Client, key: string, o: Oracle)
    ensures Serves(p, DeployEffect(p, sso, client, key, o).store, sso, o.appFirst)
  {
    var text := ConfigText(p.services, sso, client, key, ListForUpstream, o.faults);
    if sso.UpstreamId() in p.services && text.Ok? {
      CreateServes(p, sso, AppOf(p.services, sso, o.appFirst), text.value, o);
    }
  }

  lemma CreateServes(p: Proxies, sso: Sso, app: string, text: string, o: Oracle)
    ensures var q := CreateEffect(p, sso, app, text, o).store;
            q.services == p.services || q.services == WithProxyService(p.services, sso, app)
  {
    var q := p.(secrets := CreateIn(p.secrets, sso.SecretId(), map[CONFIG_FILE := text], CreateSecret, o.faults).store);
    DeploymentServes(q, sso, app, SecretVersion(text), o);
  }

  lemma DeploymentServes(p: Proxies, sso: Sso, app: string, version: Value, o: Oracle)
    ensures var q := DeploymentEffect(p, sso, app, version, o).store;
            q.services == p.services || q.services == WithProxyService(p.services, sso, app)
  {
    var d := DeploymentFor(sso, app, version);
    var q := p.(deployments := CreateIn(p.deployments, sso.DeploymentId(), d, CreateDeployment, o.faults).store);
    ServiceServes(q, sso, app, o);
  }

  lemma ServiceServes(p: Proxies, sso: Sso, app: string, o: Oracle)
    ensures var q := ServiceEffect(p, sso, app, o).store;
            q.services == p.services || q.services == WithProxyService(p.services, sso, app)
  {
  }

  lemma PublishKeeps(s: System, key: string, sso: Sso, client: Client, app: string, o: Oracle)
    ensures var t := PublishEffect(s, key, sso, client, app, o).store;
            t.exposure == s.exposure && t.proxies.services == s.proxies.services
  {
    if HasHosts(s.exposure.ingresses, Key(sso.ns, app)) {
      var published := client.(redirectURIs := RedirectURLs(s.exposure.ingresses[Key(sso.ns, app)]));
      UpdateFrame(s.proxies, sso, published, key, o);
    }
  }

  /** Of services and exposure, a call changes what Deploy and Expose change. */
  lemma ProvideServes(s: System, key: string, sso: Sso, client: Client, account: string, o: Oracle)
    ensures var t := ProvideEffect(s, key, sso, client, account, o).store;
            var deployed := DeployEffect(s.proxies, sso, client, key, o);
            && t.proxies.services == deployed.store.services
            && Serves(s.proxies, t.proxies, sso, o.appFirst)
            && t.exposure == if sso.spec.skipExpose || deployed.result.Err? then s.exposure
                             else ExposeEffect(s.exposure, deployed.store.services, sso, sso.name, account, o).store
  {
    DeployServes(s.proxies, sso, client, key, o);
    var deployed := DeployEffect(s.proxies, sso, client, key, o);
    if deployed.result.Ok? {
      var t := s.(proxies := deployed.store);
      var exposed :=
        if sso.spec.skipExpose then Change(t.exposure, None)
        else ExposeEffect(t.exposure, t.proxies.services, sso, sso.name, account, o);
      PublishKeeps(t.(exposure := exposed.store), key, sso, client, deployed.result.value, o);
    }
  }

  lemma ExposeKeepsServable(
    x: Exposure, services: map<Key, Service>, sso: Sso, account: string, o: Oracle, app: string)
    requires sso.Id() in services && !sso.spec.skipExpose
    ensures var y := ExposeEffect(x, services, sso, sso.name, account, o).store;
            Servable(services, y, sso, app) <==> Servable(services, x, sso, app)
  {
    ExposeFrame(x, services, sso, sso.name, account, o);
    ExposedHosts(x.ingresses, services, sso.ns, ReadBy(x, sso, sso.name), o.host, app);
    if sso.ns !in x.configMaps {
      OwnReads(services, x, sso, app);
    }
  }

  lemma ProvideKeepsServable(s: System, key: string, sso: Sso, account: string, o: Oracle, app: string)
    requires sso.UpstreamId() in s.proxies.services && AppOf(s.proxies.services, sso, o.appFirst) == app
    ensures var t := ProvideEffect(s, key, sso, NewClient(sso, o), account, o).store;
            && (t.proxies.services == s.proxies.services ||
                t.proxies.services == WithProxyService(s.proxies.services, sso, app))
            && (Servable(t.proxies.services, t.exposure, sso, app) <==>
                Servable(s.proxies.services, s.exposure, sso, app))
  {
    var client := NewClient(sso, o);
    ProvideServes(s, key, sso, client, account, o);
    ServableWithService(s.proxies.services, s.exposure, sso, app);
    var deployed := DeployEffect(s.proxies, sso, client, key, o);
    if deployed.result.Ok? && !sso.spec.skipExpose {
      DeployProvides(s.proxies, sso, client, key, o);
      ExposeKeepsServable(s.exposure, deployed.store.services, sso, account, o, app);
    }
  }

  /** Without its upstream service a call changes neither services nor exposure. */
  lemma ProvideWithoutUpstream(s: System, key: string, sso: Sso, account: string, o: Oracle)
    requires sso.UpstreamId() !in s.proxies.services
    ensures var t := ProvideEffect(s, key, sso, NewClient(sso, o), account, o).store;
            t.proxies.services == s.proxies.services && t.exposure == s.exposure
  {
  }

  /** What the conditions say of services and exposure. */
  predicate Supported(services: map<Key, Service>, x: Exposure, sso: Sso) {
    Deployable(services, sso) && Servable(services, x, sso, App(services, sso))
  }

  predicate SameUpstream(services: map<Key, Service>, services': map<Key, Service>, sso: Sso) {
    && (sso.UpstreamId() in services <==> sso.UpstreamId() in services')
    && (sso.UpstreamId() in services ==> services'[sso.UpstreamId()] == services[sso.UpstreamId()])
  }

  lemma InitializeKeepsSupported(s: System, key: string, sso: Sso, account: string, o: Oracle)
    requires Waiting(s, sso)
    ensures var t := InitializeEffect(s, key, sso, account, o).store;
            && SameUpstream(s.proxies.services, t.proxies.services, sso)
            && (Supported(t.proxies.services, t.exposure, sso) <==> Supported(s.proxies.services, s.exposure, sso))
  {
    if CreateClient !in o.faults {
      var t := s.(dex := Registered(s.dex, NewClient(sso, o)));
      if sso.UpstreamId() in s.proxies.services {
        AppStable(s, sso, o.appFirst);
        ProvideKeepsServable(t, key, sso, account, o, App(s.proxies.services, sso));
      } else {
        ProvideWithoutUpstream(t, key, sso, account, o);
      }
    }
  }

  lemma ClientsIssued(dex: Registry, dex': Registry, id: string)
    requires dex.clients.Keys <= dex.issued <= dex'.issued && dex'.clients - {id} == dex.clients
    requires id in dex'.clients ==> id in dex'.issued
    ensures dex'.clients.Keys <= dex'.issued
  {
    assert forall i :: i in dex'.clients && i != id ==> i in dex'.clients - {id};
  }

  /** A failed call, whatever failed, decides nothing: the conditions are met after it exactly if they were before. */
  lemma FailureDecidesNothing(s: System, role: string, key: string, sso: Sso, o: Oracle)
    requires Waiting(s, sso) && o.newID !in s.dex.issued
    requires !HandleEffect(s, role, key, sso, false, o).outcome.Done?
    ensures var t := HandleEffect(s, role, key, sso, false, o).store;
            && Waiting(t, sso) && t.dex.issued <= s.dex.issued + {o.newID}
            && (Attainable(t, role, sso) <==> Attainable(s, role, sso))
  {
    EnsureGrants(s.roles, role, sso.ns, o.faults);
    if Initializes(s, role, sso, false, o) {
      HandleInitializes(s, role, key, sso, false, o);
      var ensured := EnsureEffect(s.roles, role, sso.ns, o.faults);
      var t := s.(roles := ensured.store);
      var u := InitializeEffect(t, key, sso, ensured.result.value, o).store;
      InitializeFrame(t, key, sso, ensured.result.value, o);
      InitializeKeepsSupported(t, key, sso, ensured.result.value, o);
      ClientsIssued(s.dex, u.dex, o.newID);
    } else {
      HandleOtherwise(s, role, key, sso, false, o);
      RolesOnly(s, role, key, sso, o);
    }
  }

  lemma RolesOnly(s: System, role: string, key: string, sso: Sso, o: Oracle)
    requires !Initialized(s.directory, sso.Id()) && !Initializes(s, role, sso, false, o)
    ensures HandleEffect(s, role, key, sso, false, o).store.roles == EnsureEffect(s.roles, role, sso.ns, o.faults).store
  {
    EnsureSucceeds(s.roles, role, sso.ns, o.faults);
  }

  // ---------- the measure ----------

  /** An expose job would leave the application without hosts. */
  predicate Idle(services: map<Key, Service>, x: Exposure, sso: Sso, app: string) {
    && !HasHosts(x.ingresses, Key(sso.ns, app))
    && !ReadAnnounces(WithProxyService(services, sso, app), x, sso, app)
  }

  /** What is left over: an expose job, and a config map for others. */
  function Measure(services: map<Key, Service>, x: Exposure, sso: Sso): (m: nat)
    requires sso.UpstreamId() in services
    ensures m <= 2
  {
    if sso.spec.skipExpose then 0
    else (if sso.ExposeJobId() in x.jobs then 1 else 0) + (if Idle(services, x, sso, App(services, sso)) then 1 else 0)
  }

  /** With nothing left over a call without faults gets through. */
  lemma NothingLeftOver(s: System, role: string, sso: Sso, o: Oracle)
    requires Waiting(s, sso) && Attainable(s, role, sso)
    requires Measure(s.proxies.services, s.exposure, sso) == 0
    ensures Provides(s, sso, o)
  {
    AppStable(s, sso, o.appFirst);
    if !sso.spec.skipExpose {
      var app := App(s.proxies.services, sso);
      ExposedHosts(s.exposure.ingresses, WithProxyService(s.proxies.services, sso, app), sso.ns,
                   ReadBy(s.exposure, sso, sso.name), o.host, app);
    }
  }

  /** A call without faults takes one thing away that is left over. */
  lemma ExposeDecreases(
    services: map<Key, Service>, x: Exposure, sso: Sso, account: string, o: Oracle)
    requires o.faults == {} && sso.UpstreamId() in services && Measure(services, x, sso) > 0
    requires Servable(services, x, sso, App(services, sso))
    ensures var q := WithProxyService(services, sso, App(services, sso));
            Measure(q, ExposeEffect(x, q, sso, sso.name, account, o).store, sso) < Measure(services, x, sso)
  {
    var app := App(services, sso);
    var q := WithProxyService(services, sso, app);
    var y := ExposeEffect(x, q, sso, sso.name, account, o).store;
    if sso.ExposeJobId() in x.jobs {
      ExposeAfterLeftoverJob(x, q, sso, sso.name, account, o, o);
    } else {
      ExposeSucceeds(x, q, sso, sso.name, account, o);
      ServableWithService(services, x, sso, app);
      OwnReads(q, y, sso, app);
    }
  }

  lemma ProvideDecreases(s: System, key: string, sso: Sso, account: string, o: Oracle)
    requires Waiting(s, sso) && Deployable(s.proxies.services, sso) && o.faults == {}
    requires Servable(s.proxies.services, s.exposure, sso, App(s.proxies.services, sso))
    requires Measure(s.proxies.services, s.exposure, sso) > 0
    ensures var t := ProvideEffect(s, key, sso, NewClient(sso, o), account, o).store;
            && sso.UpstreamId() in t.proxies.services
            && Measure(t.proxies.services, t.exposure, sso) < Measure(s.proxies.services, s.exposure, sso)
  {
    var client := NewClient(sso, o);
    ProvideServes(s, key, sso, client, account, o);
    DeployOutcome(s.proxies, sso, client, key, o);
    AppStable(s, sso, o.appFirst);
    ExposeDecreases(s.proxies.services, s.exposure, sso, account, o);
  }

  lemma HandleDecreases(s: System, role: string, key: string, sso: Sso, o: Oracle)
    requires Waiting(s, sso) && Attainable(s, role, sso) && o.faults == {}
    ensures var h := HandleEffect(s, role, key, sso, false, o);
            || h.outcome.Done?
            || (&& sso.UpstreamId() in h.store.proxies.services
                && Measure(h.store.proxies.services, h.store.exposure, sso) <
                   Measure(s.proxies.services, s.exposure, sso))
  {
    HandleUnfaulted(s, role, key, sso, o);
    if Measure(s.proxies.services, s.exposure, sso) == 0 {
      NothingLeftOver(s, role, sso, o);
    } else {
      HandleInitializes(s, role, key, sso, false, o);
      var ensured := EnsureEffect(s.roles, role, sso.ns, o.faults);
      var t := s.(roles := ensured.store, dex := Registered(s.dex, NewClient(sso, o)));
      ProvideDecreases(t, key, sso, ensured.result.value, o);
    }
  }

  // ---------- sequences of calls ----------

  /** The same event, delivered again and again. */
  function Handles(s: System, role: string, key: string, sso: Sso, os: seq<Oracle>): System
    decreases |os|
  {
    if os == [] then s else Handles(HandleEffect(s, role, key, sso, false, os[0]).store, role, key, sso, os[1..])
  }

  predicate FreshIDs(issued: set<string>, os: seq<Oracle>)
    decreases |os|
  {
    os == [] || (os[0].newID !in issued && FreshIDs(issued + {os[0].newID}, os[1..]))
  }

  predicate AllFail(s: System, role: string, key: string, sso: Sso, os: seq<Oracle>)
    decreases |os|
  {
    os == [] ||
    (var h := HandleEffect(s, role, key, sso, false, os[0]);
     !h.outcome.Done? && AllFail(h.store, role, key, sso, os[1..]))
  }

  /** A service account of the namespace is among the role's subjects. */
  ghost predicate Enrolled(r: Roles, role: string, ns: string) {
    var i := FirstBinding(r.bindings, role);
    i < |r.bindings| && exists x :: x in r.bindings[i].subjects && AccountIn(x, ns)
  }

  /** The SSO is initialised, and its secret, its deployment and its client agree. */
  ghost predicate Settled(s: System, role: string, key: string, sso: Sso) {
    && Initialized(s.directory, sso.Id())
    && InSyncNow(s, s.directory.ssos[sso.Id()], key)
    && Enrolled(s.roles, role, sso.ns)
  }

  lemma {:induction false} SettledStays(s: System, role: string, key: string, sso: Sso, os: seq<Oracle>)
    requires Settled(s, role, key, sso) && forall o :: o in os ==> o.faults == {}
    ensures Handles(s, role, key, sso, os) == s
    decreases |os|
  {
    if os != [] {
      assert os[0] in os;
      RedeliveryChangesNothing(s, role, key, sso, false, os[0]);
      SettledStays(s, role, key, sso, os[1..]);
    }
  }

  lemma DoneSettles(s: System, role: string, key: string, sso: Sso, o: Oracle)
    requires Waiting(s, sso) && o.newID !in s.dex.issued
    ensures var h := HandleEffect(s, role, key, sso, false, o);
            h.outcome.Done? ==>
              Settled(h.store, role, key, sso) && h.store.directory.ssos[sso.Id()].status.clientID == o.newID
  {
    HandleSucceeds(s, role, key, sso, false, o);
    var h := HandleEffect(s, role, key, sso, false, o);
    if h.outcome.Done? {
      HandleInitializes(s, role, key, sso, false, o);
      EnsureGrants(s.roles, role, sso.ns, o.faults);
      var ensured := EnsureEffect(s.roles, role, sso.ns, o.faults);
      var t := s.(roles := ensured.store);
      InitializeCompletes(t, key, sso, ensured.result.value, o);
      InitializeFrame(t, key, sso, ensured.result.value, o);
      assert AccountIn(Subject(SUBJECT_KIND, ensured.result.value, sso.ns), sso.ns);
    }
  }

  /** As many calls without faults as there are things left over, and one more, initialise the SSO. */
  lemma {:induction false} Converges(s: System, role: string, key: string, sso: Sso, os: seq<Oracle>)
    requires Waiting(s, sso) && Attainable(s, role, sso) && FreshIDs(s.dex.issued, os)
    requires forall o :: o in os ==> o.faults == {}
    requires |os| > Measure(s.proxies.services, s.exposure, sso)
    ensures var t := Handles(s, role, key, sso, os);
            Settled(t, role, key, sso) && exists o :: o in os && t.directory.ssos[sso.Id()].status.clientID == o.newID
    decreases |os|
  {
    assert os[0] in os;
    var h := HandleEffect(s, role, key, sso, false, os[0]);
    if h.outcome.Done? {
      DoneSettles(s, role, key, sso, os[0]);
      SettledStays(h.store, role, key, sso, os[1..]);
    } else {
      HandleDecreases(s, role, key, sso, os[0]);
      FailureDecidesNothing(s, role, key, sso, os[0]);
      FreshIDsShrink(s.dex.issued + {os[0].newID}, h.store.dex.issued, os[1..]);
      Converges(h.store, role, key, sso, os[1..]);
    }
  }

  lemma {:induction false} FreshIDsShrink(issued: set<string>, fewer: set<string>, os: seq<Oracle>)
    requires FreshIDs(issued, os) && fewer <= issued
    ensures FreshIDs(fewer, os)
    decreases |os|
  {
    if os != [] {
      FreshIDsShrink(issued + {os[0].newID}, fewer + {os[0].newID}, os[1..]);
    }
  }

  lemma {:induction false} FailuresDecideNothing(
    s: System, role: string, key: string, sso: Sso, failures: seq<Oracle>, os: seq<Oracle>)
    requires Waiting(s, sso) && FreshIDs(s.dex.issued, failures + os)
    requires AllFail(s, role, key, sso, failures)
    ensures var t := Handles(s, role, key, sso, failures);
            && Waiting(t, sso) && FreshIDs(t.dex.issued, os)
            && (Attainable(t, role, sso) <==> Attainable(s, role, sso))
    decreases |failures|
  {
    if failures == [] {
      assert failures + os == os;
    } else {
      var o := failures[0];
      assert (failures + os)[1..] == failures[1..] + os;
      FailureDecidesNothing(s, role, key, sso, o);
      var t := HandleEffect(s, role, key, sso, false, o).store;
      FreshIDsShrink(s.dex.issued + {o.newID}, t.dex.issued, failures[1..] + os);
      FailuresDecideNothing(t, role, key, sso, failures[1..], os);
    }
  }

  /** If the conditions are not met, no number of calls gets through, whatever fails or does not. */
  lemma {:induction false} Hopeless(s: System, role: string, key: string, sso: Sso, os: seq<Oracle>)
    requires Waiting(s, sso) && !Attainable(s, role, sso) && FreshIDs(s.dex.issued, os)
    ensures AllFail(s, role, key, sso, os)
    ensures !Initialized(Handles(s, role, key, sso, os).directory, sso.Id())
    decreases |os|
  {
    if os != [] {
      DoneIsAttainable(s, role, key, sso, os[0]);
      FailureDecidesNothing(s, role, key, sso, os[0]);
      var t := HandleEffect(s, role, key, sso, false, os[0]).store;
      FreshIDsShrink(s.dex.issued + {os[0].newID}, t.dex.issued, os[1..]);
      Hopeless(t, role, key, sso, os[1..]);
    }
  }

  /**
   * Convergence: after any number of calls that failed in any way, three calls without faults initialise the SSO
   * exactly if the conditions were met at first, and with a client that one of the three has created.
   */
  lemma ThreeCallsDecide(
    s: System, role: string, key: string, sso: Sso, failures: seq<Oracle>, a: Oracle, b: Oracle, c: Oracle)
    requires Waiting(s, sso) && FreshIDs(s.dex.issued, failures + [a, b, c])
    requires AllFail(s, role, key, sso, failures)
    requires a.faults == {} && b.faults == {} && c.faults == {}
    ensures var t := Handles(Handles(s, role, key, sso, failures), role, key, sso, [a, b, c]);
            && (Initialized(t.directory, sso.Id()) <==> Attainable(s, role, sso))
            && (Attainable(s, role, sso) ==>
                  && Settled(t, role, key, sso)
                  && t.directory.ssos[sso.Id()].status.clientID in [a.newID, b.newID, c.newID])
  {
    FailuresDecideNothing(s, role, key, sso, failures, [a, b, c]);
    var t := Handles(s, role, key, sso, failures);
    if Attainable(s, role, sso) {
      Converges(t, role, key, sso, [a, b, c]);
    } else {
      Hopeless(t, role, key, sso, [a, b, c]);
    }
  }
}
