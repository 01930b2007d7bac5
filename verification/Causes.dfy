/** The error an event reports is the case, and what a failed event leaves of jobs and config maps. */
module Causes {
  import opened Types
  import opened Names
  import opened Version
  import opened Rbac
  import opened Expose
  import opened Proxy
  import opened Operator
  import opened Isolation
  import opened Success
  import opened Registration

  /** One of these calls is reported to be at fault, and is. */
  predicate FaultOf(e: Error, calls: set<Call>, faults: set<Call>) {
    e.Api? && e.kind == Faulted && e.call in calls && e.call in faults
  }

  // ---------- stage by stage ----------

  ghost predicate GrantingFails(r: Roles, role: string, ns: string, faults: set<Call>, e: Error) {
    || FaultOf(e, {ListBindings, CreateAccount, UpdateBinding}, faults)
    || (&& e == Api(CreateAccount, AlreadyExists)
        && GetAccount in faults && Key(ns, "sso-operator-sa") in r.accounts)
    || (&& e == Invalid(NoBinding)
        && forall b :: b in r.bindings ==> !(b.refKind == "ClusterRole" && b.refName == role))
  }

  lemma EnsureReports(r: Roles, role: string, ns: string, faults: set<Call>)
    ensures var e := EnsureEffect(r, role, ns, faults);
            e.result.Err? ==> GrantingFails(r, role, ns, faults, e.result.error)
  {
  }

  predicate CleaningFails(x: Exposure, sso: Sso, faults: set<Call>, e: Error) {
    || FaultOf(e, {CleanupCreateJob, CleanupDropJob, CleanupAwaitJob, CleanupDeleteJob, CleanupDeleteMap}, faults)
    || (e == Api(CleanupCreateMap, AlreadyExists) && sso.ns in x.configMaps)
    || (e == Api(CleanupCreateJob, AlreadyExists) && sso.CleanupJobId() in x.jobs)
    || (&& e == Api(CleanupDeleteMap, NotFound)
        && CleanupCreateMap in faults && sso.ns !in x.configMaps)
  }

  lemma CleanupReports(x: Exposure, sso: Sso, service: string, account: string, o: Oracle)
    ensures var e := CleanupEffect(x, sso, service, account, o).error;
            e.Some? ==> CleaningFails(x, sso, o.faults, e.value)
  {
  }

  predicate RemovingFails(s: System, sso: Sso, faults: set<Call>, e: Error) {
    || CleaningFails(s.exposure, sso, faults, e)
    || FaultOf(e, {DeleteClient}, faults)
    || (e == Api(DeleteClient, NotFound) && sso.status.clientID !in s.dex.clients)
  }

  lemma RemoveReports(s: System, sso: Sso, account: string, o: Oracle)
    ensures var e := RemoveEffect(s, sso, account, o).error;
            e.Some? ==> RemovingFails(s, sso, o.faults, e.value)
  {
    CleanupReports(s.exposure, sso, sso.name, account, o);
  }

  predicate DeployingFails(services: map<Key, Service>, sso: Sso, faults: set<Call>, e: Error) {
    || FaultOf(e, {ListForAppName, ListForUpstream, CreateSecret, CreateDeployment, CreateService, AwaitService,
                   AwaitPods}, faults)
    || (e == Invalid(NoService) && sso.UpstreamId() !in services)
    || (e == Invalid(IssuerNotHTTPS) && !("https://" <= sso.spec.issuerURL))
  }

  lemma ServiceReports(p: Proxies, sso: Sso, app: string, o: Oracle)
    ensures var e := ServiceEffect(p, sso, app, o);
            e.result.Err? ==> FaultOf(e.result.error, {CreateService, AwaitService, AwaitPods}, o.faults)
  {
  }

  lemma DeploymentReports(p: Proxies, sso: Sso, app: string, version: Value, o: Oracle)
    ensures var e := DeploymentEffect(p, sso, app, version, o);
            e.result.Err? ==>
              FaultOf(e.result.error, {CreateDeployment, CreateService, AwaitService, AwaitPods}, o.faults)
  {
    var d := DeploymentFor(sso, app, version);
    var q := p.(deployments := CreateIn(p.deployments, sso.DeploymentId(), d, CreateDeployment, o.faults).store);
    ServiceReports(q, sso, app, o);
  }

  lemma CreateReports(p: Proxies, sso: Sso, app: string, text: string, o: Oracle)
    ensures var e := CreateEffect(p, sso, app, text, o);
            e.result.Err? ==>
              FaultOf(e.result.error, {CreateSecret, CreateDeployment, CreateService, AwaitService, AwaitPods},
                      o.faults)
  {
    var q := p.(secrets := CreateIn(p.secrets, sso.SecretId(), map[CONFIG_FILE := text], CreateSecret, o.faults).store);
    DeploymentReports(q, sso, app, SecretVersion(text), o);
  }

  lemma DeployReports(p: Proxies, sso: Sso, client: Client, key: string, o: Oracle)
    requires client.redirectURIs != []
    ensures var e := DeployEffect(p, sso, client, key, o);
            e.result.Err? ==> DeployingFails(p.services, sso, o.faults, e.result.error)
  {
    var text := ConfigText(p.services, sso, client, key, ListForUpstream, o.faults);
    if sso.UpstreamId() in p.services && text.Ok? {
      CreateReports(p, sso, AppOf(p.services, sso, o.appFirst), text.value, o);
    }
  }

  /** Of the four ways in which there is no configuration, exactly the first that is so is reported. */
  lemma ConfigReports(
    services: map<Key, Service>, sso: Sso, client: Client, key: string, call: Call, faults: set<Call>)
    ensures var text := ConfigText(services, sso, client, key, call, faults);
            var listed := call !in faults;
            var found := listed && Key(sso.ns, sso.spec.upstream) in services;
            && (text == Err(Api(call, Faulted)) <==> !listed)
            && (text == Err(Invalid(NoService)) <==> listed && !found)
            && (text == Err(Invalid(NoRedirectURL)) <==> found && client.redirectURIs == [])
            && (text == Err(Invalid(IssuerNotHTTPS)) <==>
                  found && client.redirectURIs != [] && !("https://" <= sso.spec.issuerURL))
            && (text.Ok? <==> found && client.redirectURIs != [] && "https://" <= sso.spec.issuerURL)
  {
  }

  predicate ExposingFails(x: Exposure, sso: Sso, faults: set<Call>, e: Error) {
    || FaultOf(e, {ExposeCreateMap, ExposeCreateJob, ExposeDropJob, ExposeAwaitJob, ExposeDeleteJob, ExposeDeleteMap},
               faults)
    || (e == Api(ExposeCreateJob, AlreadyExists) && sso.ExposeJobId() in x.jobs)
  }

  lemma ExposeReports(
    x: Exposure, services: map<Key, Service>, sso: Sso, service: string, account: string, o: Oracle)
    ensures var e := ExposeEffect(x, services, sso, service, account, o).error;
            e.Some? ==> ExposingFails(x, sso, o.faults, e.value)
  {
  }

  predicate UpdatingFails(d: Directory, sso: Sso, faults: set<Call>, e: Error) {
    || FaultOf(e, {ListForUpstreamAgain, UpdateSecret, ListDeployments, UpdateDeployment, AwaitPodsAgain, UpdateStatus},
               faults)
    || (e == Api(UpdateStatus, NotFound) && sso.Id() !in d.ssos)
    || (e == Api(UpdateStatus, Conflict) && sso.Id() in d.ssos && d.ssos[sso.Id()].version != sso.version)
  }

  lemma RecordReports(s: System, key: string, sso: Sso, client: Client, o: Oracle)
    requires Deployed(s.proxies, sso) && client.redirectURIs != []
    ensures var e := RecordEffect(s, key, sso, client, o).error;
            e.Some? ==> UpdatingFails(s.directory, sso, o.faults, e.value)
  {
  }

  predicate PublishingFails(ingresses: map<Key, seq<string>>, id: Key, faults: set<Call>, e: Error) {
    || FaultOf(e, {ListIngresses, UpdateClient}, faults)
    || (e == Invalid(NoIngress) && id !in ingresses)
    || (e == Invalid(NoHost) && id in ingresses && ingresses[id] == [])
  }

  lemma PublishReports(s: System, key: string, sso: Sso, client: Client, app: string, o: Oracle)
    requires Deployed(s.proxies, sso) && client.id in s.dex.clients
    ensures var e := PublishEffect(s, key, sso, client, app, o).error;
            e.Some? ==>
              || PublishingFails(s.exposure.ingresses, Key(sso.ns, app), o.faults, e.value)
              || UpdatingFails(s.directory, sso, o.faults, e.value)
  {
    if Publishes(s.exposure.ingresses, Key(sso.ns, app), o.faults) {
      var published := Published(client, s.exposure.ingresses[Key(sso.ns, app)]);
      var clients := UpdateIn(s.dex.clients, client.id, published, UpdateClient, o.faults).store;
      RecordReports(s.(dex := s.dex.(clients := clients)), key, sso, published, o);
    }
  }

  predicate ProvidingFails(s: System, sso: Sso, o: Oracle, e: Error) {
    || DeployingFails(s.proxies.services, sso, o.faults, e)
    || (!sso.spec.skipExpose && ExposingFails(s.exposure, sso, o.faults, e))
    || (&& sso.UpstreamId() in s.proxies.services
        && PublishingFails(IngressesFound(s.proxies.services, s.exposure, sso, o),
                           AppIngress(s.proxies.services, sso, o), o.faults, e))
    || UpdatingFails(s.directory, sso, o.faults, e)
  }

  lemma ProvideReports(s: System, key: string, sso: Sso, client: Client, account: string, o: Oracle)
    requires client.redirectURIs != [] && client.id in s.dex.clients
    ensures var e := ProvideEffect(s, key, sso, client, account, o).error;
            e.Some? ==> ProvidingFails(s, sso, o, e.value)
  {
    if Reaches(s.proxies.services, s.exposure, sso, o) {
      var u := ProvideReaches(s, key, sso, client, account, o);
      PublishReports(u, key, sso, client, AppOf(s.proxies.services, sso, o.appFirst), o);
    } else {
      DeployReports(s.proxies, sso, client, key, o);
      DeployOutcome(s.proxies, sso, client, key, o);
      var deployed := DeployEffect(s.proxies, sso, client, key, o);
      if deployed.result.Ok? {
        ExposeSucceeds(s.exposure, deployed.store.services, sso, sso.name, account, o);
        ExposeReports(s.exposure, deployed.store.services, sso, sso.name, account, o);
      }
    }
  }

  // ---------- an event ----------

  /** The error says what is the case, of a call the event makes. */
  ghost predicate IsSo(s: System, role: string, sso: Sso, deleted: bool, o: Oracle, e: Error) {
    || GrantingFails(s.roles, role, sso.ns, o.faults, e)
    || (if deleted && sso.status.initialized then RemovingFails(s, sso, o.faults, e)
        else FaultOf(e, {CreateClient}, o.faults) || ProvidingFails(s, sso, o, e))
  }

  lemma InitializeReports(s: System, key: string, sso: Sso, account: string, o: Oracle)
    ensures var h := InitializeEffect(s, key, sso, account, o);
            && (h.outcome.Failed? ==>
                  FaultOf(h.outcome.cause, {CreateClient}, o.faults) || ProvidingFails(s, sso, o, h.outcome.cause))
            && (h.outcome.Undeleted? ==>
                  && ProvidingFails(s, sso, o, h.outcome.cause)
                  && h.outcome.deletion == Api(Compensate, Faulted) && Compensate in o.faults)
  {
    if CreateClient !in o.faults {
      var client := NewClient(sso, o);
      var t := s.(dex := Registered(s.dex, client));
      ProvideReports(t, key, sso, client, account, o);
      ProvideFrame(t, key, sso, client, account, o);
    }
  }

  /** Whatever fails, the cause an event reports is so, and a compensation said to have failed was at fault. */
  lemma HandleReports(s: System, role: string, key: string, sso: Sso, deleted: bool, o: Oracle)
    ensures var h := HandleEffect(s, role, key, sso, deleted, o);
            && (!h.outcome.Done? ==> IsSo(s, role, sso, deleted, o, h.outcome.cause))
            && (h.outcome.Undeleted? ==> h.outcome.deletion == Api(Compensate, Faulted) && Compensate in o.faults)
  {
    EnsureReports(s.roles, role, sso.ns, o.faults);
    var ensured := EnsureEffect(s.roles, role, sso.ns, o.faults);
    if ensured.result.Ok? {
      var t := s.(roles := ensured.store);
      if deleted && sso.status.initialized {
        RemoveReports(t, sso, ensured.result.value, o);
      } else {
        InitializeReports(t, key, sso, ensured.result.value, o);
      }
    }
  }

  // ---------- what is left of jobs and config maps ----------

  /** Whatever fails: a config map that an event leaves is for the SSO's own service, and a job runs as the account. */
  predicate LeavesOwn(x: Exposure, y: Exposure, sso: Sso, account: string) {
    && (sso.ns !in x.configMaps && sso.ns in y.configMaps ==> Describes(y.configMaps[sso.ns], sso.spec, sso.name))
    && (sso.ExposeJobId() !in x.jobs && sso.ExposeJobId() in y.jobs ==>
          y.jobs[sso.ExposeJobId()] == Job(account, Exposing))
    && (sso.CleanupJobId() !in x.jobs && sso.CleanupJobId() in y.jobs ==>
          y.jobs[sso.CleanupJobId()] == Job(account, CleaningUp(sso.name)))
  }

  lemma ExposeLeavesOwn(x: Exposure, services: map<Key, Service>, sso: Sso, account: string, o: Oracle)
    ensures LeavesOwn(x, ExposeEffect(x, services, sso, sso.name, account, o).store, sso, account)
  {
    var y := ExposeEffect(x, services, sso, sso.name, account, o).store;
    ExposeLeavesJob(x, services, sso, sso.name, account, o);
    ExposeLeavesMap(x, services, sso, sso.name, account, o);
    ExposeFrame(x, services, sso, sso.name, account, o);
    JobNamesDiffer(sso.name, sso.name);
    OtherJobStays(x.jobs, y.jobs, sso.ExposeJobId(), sso.CleanupJobId());
  }

  lemma CleanupLeavesOwn(x: Exposure, sso: Sso, account: string, o: Oracle)
    ensures LeavesOwn(x, CleanupEffect(x, sso, sso.name, account, o).store, sso, account)
  {
    var y := CleanupEffect(x, sso, sso.name, account, o).store;
    CleanupLeavesJob(x, sso, sso.name, account, o);
    CleanupLeavesMap(x, sso, sso.name, account, o);
    CleanupFrame(x, sso, sso.name, account, o);
    JobNamesDiffer(sso.name, sso.name);
    OtherJobStays(x.jobs, y.jobs, sso.CleanupJobId(), sso.ExposeJobId());
  }

  lemma OtherJobStays(jobs: map<Key, Job>, jobs': map<Key, Job>, id: Key, other: Key)
    requires jobs' - {id} == jobs - {id}
    ensures id != other ==> (other in jobs' <==> other in jobs)
  {
    assert id != other ==> (other in jobs' <==> other in jobs' - {id});
  }

  lemma ProvideLeavesOwn(s: System, key: string, sso: Sso, client: Client, account: string, o: Oracle)
    requires client.id in s.dex.clients && s.dex.clients[client.id] == client
    ensures LeavesOwn(s.exposure, ProvideEffect(s, key, sso, client, account, o).store.exposure, sso, account)
  {
    var deployed := DeployEffect(s.proxies, sso, client, key, o);
    if deployed.result.Ok? {
      var t := s.(proxies := deployed.store);
      ExposeLeavesOwn(t.exposure, t.proxies.services, sso, account, o);
      var exposed :=
        if sso.spec.skipExpose then Change(t.exposure, None)
        else ExposeEffect(t.exposure, t.proxies.services, sso, sso.name, account, o);
      PublishRegisters(t.(exposure := exposed.store), key, sso, client, deployed.result.value, o);
    }
  }

  lemma HandleLeavesOwn(s: System, role: string, key: string, sso: Sso, deleted: bool, o: Oracle)
    ensures var t := HandleEffect(s, role, key, sso, deleted, o).store;
            var account := EnsureEffect(s.roles, role, sso.ns, o.faults).result;
            if account.Ok? then LeavesOwn(s.exposure, t.exposure, sso, account.value) else t.exposure == s.exposure
  {
    var ensured := EnsureEffect(s.roles, role, sso.ns, o.faults);
    if ensured.result.Ok? {
      var t, account := s.(roles := ensured.store), ensured.result.value;
      if deleted && sso.status.initialized {
        CleanupLeavesOwn(t.exposure, sso, account, o);
      } else if (ListSsos in o.faults || !Initialized(t.directory, sso.Id())) && CreateClient !in o.faults {
        var client := NewClient(sso, o);
        ProvideLeavesOwn(t.(dex := Registered(t.dex, client)), key, sso, client, account, o);
      }
    }
  }
}
