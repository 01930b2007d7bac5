/** The handler of SSO events: a saga over Dex and the cluster, with the deletion of the client as compensation. */
module Operator {
  import opened Types
  import opened Rbac
  import opened Expose
  import opened Proxy
  import Version

  /** All the stores an event can touch. */
  datatype System = System(
    directory: Directory, roles: Roles, exposure: Exposure, proxies: Proxies, dex: Registry)

  /** The stores after an event. */
  datatype Handled = Handled(store: System, outcome: Outcome)

  // ---------- the effect of handling an event ----------

  function HandleEffect(s: System, role: string, key: string, sso: Sso, deleted: bool, o: Oracle): Handled {
    var ensured := EnsureEffect(s.roles, role, sso.ns, o.faults);
    var t := s.(roles := ensured.store);
    if ensured.result.Err? then Handled(t, Failed(ensured.result.error))
    else if deleted && sso.status.initialized then
      var removed := RemoveEffect(t, sso, ensured.result.value, o);
      Handled(removed.store, OutcomeOf(removed.error))
    else if ListSsos !in o.faults && Initialized(t.directory, sso.Id()) then Handled(t, Done)
    else InitializeEffect(t, key, sso, ensured.result.value, o)
  }

  predicate Initialized(d: Directory, id: Key) { id in d.ssos && d.ssos[id].status.initialized }

  function RemoveEffect(s: System, sso: Sso, account: string, o: Oracle): Change<System> {
    var cleaned := CleanupEffect(s.exposure, sso, sso.name, account, o);
    var t := s.(exposure := cleaned.store);
    if cleaned.error.Some? then Change(t, cleaned.error) else Unregister(t, sso.status.clientID, DeleteClient, o.faults)
  }

  function Unregister(s: System, id: string, call: Call, faults: set<Call>): Change<System> {
    var dropped := DeleteIn(s.dex.clients, id, call, faults);
    Change(s.(dex := s.dex.(clients := dropped.store)), dropped.error)
  }

  function NewClient(sso: Sso, o: Oracle): Client {
    Client(o.newID, o.newSecret, [RedirectURL(FAKE_URL)], sso.name)
  }

  function Registered(dex: Registry, client: Client): Registry {
    Registry(dex.clients[client.id := client], dex.issued + {client.id})
  }

  function InitializeEffect(s: System, key: string, sso: Sso, account: string, o: Oracle): Handled {
    if CreateClient in o.faults then Handled(s, Failed(Api(CreateClient, Faulted)))
    else
      var client := NewClient(sso, o);
      var provided := ProvideEffect(s.(dex := Registered(s.dex, client)), key, sso, client, account, o);
      if provided.error.None? then Handled(provided.store, Done)
      else UndoEffect(provided.store, client.id, provided.error.value, o.faults)
  }

  /** The compensation: deletes the client and reports the cause, and the deletion if that fails too. */
  function UndoEffect(s: System, id: string, cause: Error, faults: set<Call>): Handled {
    var undone := Unregister(s, id, Compensate, faults);
    Handled(undone.store, if undone.error.None? then Failed(cause) else Undeleted(cause, undone.error.value))
  }

  /** Everything between the creation of the client and its possible deletion. */
  function ProvideEffect(s: System, key: string, sso: Sso, client: Client, account: string, o: Oracle): Change<System> {
    var deployed := DeployEffect(s.proxies, sso, client, key, o);
    var t := s.(proxies := deployed.store);
    if deployed.result.Err? then Change(t, Some(deployed.result.error))
    else
      var exposed :=
        if sso.spec.skipExpose then Change(t.exposure, None)
        else ExposeEffect(t.exposure, t.proxies.services, sso, sso.name, account, o);
      var u := t.(exposure := exposed.store);
      if exposed.error.Some? then Change(u, exposed.error)
      else PublishEffect(u, key, sso, client, deployed.result.value, o)
  }

  /** Replaces the client's redirect URLs by those of the hosts found for the application. */
  function PublishEffect(s: System, key: string, sso: Sso, client: Client, app: string, o: Oracle): Change<System> {
    var ingress := Key(sso.ns, app);
    if ListIngresses in o.faults then Change(s, Some(Api(ListIngresses, Faulted)))
    else if ingress !in s.exposure.ingresses then Change(s, Some(Invalid(NoIngress)))
    else if s.exposure.ingresses[ingress] == [] then Change(s, Some(Invalid(NoHost)))
    else
      var published := client.(redirectURIs := RedirectURLs(s.exposure.ingresses[ingress]));
      var updated := UpdateIn(s.dex.clients, client.id, published, UpdateClient, o.faults);
      var t := s.(dex := s.dex.(clients := updated.store));
      if updated.error.Some? then Change(t, updated.error) else RecordEffect(t, key, sso, published, o)
  }

  /** Brings the proxy up to date with the client, then records the client in the SSO. */
  function RecordEffect(s: System, key: string, sso: Sso, client: Client, o: Oracle): Change<System> {
    var updated := UpdateEffect(s.proxies, sso, client, key, o);
    var t := s.(proxies := updated.store);
    if updated.error.Some? then Change(t, updated.error)
    else
      var recorded := StatusEffect(t.directory, sso.(status := Status(client.id, true)), o.faults);
      Change(t.(directory := recorded.store), recorded.error)
  }

  /** An SSO is only written by a writer that has seen its last version. */
  function StatusEffect(d: Directory, sso: Sso, faults: set<Call>): Change<Directory> {
    if UpdateStatus in faults then Change(d, Some(Api(UpdateStatus, Faulted)))
    else if sso.Id() !in d.ssos then Change(d, Some(Api(UpdateStatus, NotFound)))
    else if d.ssos[sso.Id()].version != sso.version then Change(d, Some(Api(UpdateStatus, Conflict)))
    else Change(Directory(d.ssos[sso.Id() := sso.(version := d.nextVersion)], d.nextVersion + 1), None)
  }

  // ---------- the objects that do it ----------

  /** The Dex server behind its client. It gives every client a fresh id. */
  class Dex {
    var clients: map<string, Client>
    var issued: set<string>

    ghost function Now(): Registry
      reads this
    {
      Registry(clients, issued)
    }

    method Create(uris: seq<string>, name: string, o: Oracle) returns (r: Result<Client>)
      requires o.newID !in issued
      modifies this
      ensures if CreateClient in o.faults then r == Err(Api(CreateClient, Faulted)) && Now() == old(Now())
              else r == Ok(Client(o.newID, o.newSecret, uris, name)) && Now() == Registered(old(Now()), r.value)
    {
      if CreateClient in o.faults {
        return Err(Api(CreateClient, Faulted));
      }
      var client := Client(o.newID, o.newSecret, uris, name);
      clients, issued := clients[o.newID := client], issued + {o.newID};
      r := Ok(client);
    }

    method Update(id: string, uris: seq<string>, name: string, faults: set<Call>) returns (err: Option<Error>)
      modifies `clients
      ensures if UpdateClient !in faults && id in old(clients) then
                err.None? && clients == old(clients)[id := old(clients)[id].(redirectURIs := uris, name := name)]
              else
                && clients == old(clients)
                && err == Some(Api(UpdateClient, if UpdateClient in faults then Faulted else NotFound))
    {
      if UpdateClient in faults {
        return Some(Api(UpdateClient, Faulted));
      }
      if id !in clients {
        return Some(Api(UpdateClient, NotFound));
      }
      clients := clients[id := clients[id].(redirectURIs := uris, name := name)];
      err := None;
    }

    method Delete(id: string, call: Call, faults: set<Call>) returns (err: Option<Error>)
      modifies `clients
      ensures Reply(clients, err) == DeleteIn(old(clients), id, call, faults)
    {
      if call in faults {
        return Some(Api(call, Faulted));
      }
      if id !in clients {
        return Some(Api(call, NotFound));
      }
      clients := clients - {id};
      err := None;
    }
  }

  /** Looks the SSO up among the live ones, whatever the event says about it. */
  method IsSSOInitialized(ssos: map<Key, Sso>, id: Key) returns (initialized: bool)
    ensures initialized <==> id in ssos && ssos[id].status.initialized
  {
    var names := Cluster.List(ssos, id.ns);
    for i := 0 to |names|
      invariant forall j :: 0 <= j < i ==> names[j] != id.name
    {
      if names[i] == id.name {
        return ssos[id].status.initialized;
      }
    }
    initialized := false;
  }

  /** The hosts of the ingress of a name, in the order of its rules. */
  method FindIngressHosts(ingresses: map<Key, seq<string>>, id: Key, faults: set<Call>) returns (r: Result<seq<string>>)
    ensures r == if ListIngresses in faults then Err(Api(ListIngresses, Faulted))
                 else if id in ingresses then Ok(ingresses[id])
                 else Err(Invalid(NoIngress))
  {
    if ListIngresses in faults {
      return Err(Api(ListIngresses, Faulted));
    }
    var names := Cluster.List(ingresses, id.ns);
    for i := 0 to |names|
      invariant forall j :: 0 <= j < i ==> names[j] != id.name
    {
      if names[i] == id.name {
        var hosts: seq<string> := [];
        var rules := ingresses[id];
        for j := 0 to |rules|
          invariant hosts == rules[..j]
        {
          hosts := hosts + [rules[j]];
        }
        assert rules[..|rules|] == rules;
        return Ok(hosts);
      }
    }
    r := Err(Invalid(NoIngress));
  }

  class Handler {
    const cluster: Cluster
    const dex: Dex
    const role: string
    const cookieKey: string

    constructor (cluster: Cluster, dex: Dex, role: string, cookieKey: string)
      ensures this.cluster == cluster && this.dex == dex && this.role == role && this.cookieKey == cookieKey
    {
      this.cluster, this.dex, this.role, this.cookieKey := cluster, dex, role, cookieKey;
    }

    ghost function Now(): System
      reads cluster, dex
    {
      System(cluster.DirectoryNow(), cluster.RolesNow(), cluster.ExposureNow(), cluster.ProxiesNow(), dex.Now())
    }

    method Handle(sso: Sso, deleted: bool, o: Oracle) returns (outcome: Outcome)
      requires o.newID !in dex.issued
      modifies cluster, dex
      ensures Handled(Now(), outcome) == HandleEffect(old(Now()), role, cookieKey, sso, deleted, o)
    {
      var account := EnsureClusterRoleBinding(cluster, role, sso.ns, o.faults);
      if account.Err? {
        return Failed(account.error);
      }

      if deleted && sso.status.initialized {
        var err := Cleanup(cluster, sso, sso.name, account.value, o);
        if err.Some? {
          return Failed(err.value);
        }
        err := dex.Delete(sso.status.clientID, DeleteClient, o.faults);
        return OutcomeOf(err);
      }

      var initialized := false;
      if ListSsos !in o.faults {
        initialized := IsSSOInitialized(cluster.ssos, sso.Id());
      }
      if initialized {
        return Done;
      }
      outcome := Initialize(sso, account.value, o);
    }

    /** Creates the client and deletes it again if anything after that fails. */
    method Initialize(sso: Sso, account: string, o: Oracle) returns (outcome: Outcome)
      requires o.newID !in dex.issued
      modifies cluster, dex
      ensures Handled(Now(), outcome) == InitializeEffect(old(Now()), cookieKey, sso, account, o)
    {
      var client := dex.Create([RedirectURL(FAKE_URL)], sso.name, o);
      if client.Err? {
        return Failed(client.error);
      }
      var err := Provide(sso, client.value, account, o);
      if err.Some? {
        outcome := Undo(client.value.id, err.value, o.faults);
      } else {
        outcome := Done;
      }
    }

    /** Deletes the client; the outcome says whether that worked. */
    method Undo(id: string, cause: Error, faults: set<Call>) returns (outcome: Outcome)
      modifies dex`clients
      ensures Handled(Now(), outcome) == UndoEffect(old(Now()), id, cause, faults)
    {
      var err := dex.Delete(id, Compensate, faults);
      outcome := if err.Some? then Undeleted(cause, err.value) else Failed(cause);
    }

    /** What Handle does between creating the client and, on any error, undoing that. */
    method Provide(sso: Sso, client: Client, account: string, o: Oracle) returns (err: Option<Error>)
      requires client.id in dex.clients && dex.clients[client.id] == client && client.name == sso.name
      modifies cluster, dex`clients
      ensures Change(Now(), err) == ProvideEffect(old(Now()), cookieKey, sso, client, account, o)
    {
      var proxy;
      err, proxy := Deploy(cluster, sso, client, cookieKey, o);
      if err.Some? {
        return;
      }
      if !sso.spec.skipExpose {
        err := Expose.Expose(cluster, sso, proxy.value.service, account, o);
        if err.Some? {
          return;
        }
      }
      err := Publish(sso, client, proxy.value, o);
    }

    /** The rest of it, once the proxy runs and its ingress should exist. */
    method Publish(sso: Sso, newClient: Client, proxy: ProxyResources, o: Oracle) returns (err: Option<Error>)
      requires newClient.id in dex.clients && dex.clients[newClient.id] == newClient && newClient.name == sso.name
      requires proxy.secret.id == sso.SecretId() && proxy.secret.data.Keys == {Version.CONFIG_FILE}
      requires proxy.deployment == sso.DeploymentId().name
      modifies cluster, dex`clients, proxy.secret
      ensures Change(Now(), err) == PublishEffect(old(Now()), cookieKey, sso, newClient, proxy.app, o)
    {
      var hosts := FindIngressHosts(cluster.ingresses, Key(sso.ns, proxy.app), o.faults);
      if hosts.Err? {
        return Some(hosts.error);
      }
      if |hosts.value| == 0 {
        return Some(Invalid(NoHost));
      }
      var client := newClient;
      var urls := ConvertHostsToRedirectURLs(hosts.value);
      err := dex.Update(client.id, urls, sso.name, o.faults);
      if err.Some? {
        return;
      }
      client := client.(redirectURIs := urls);

      err := Update(cluster, proxy, sso, client, cookieKey, o);
      if err.Some? {
        return;
      }
      err := UpdateSso(sso.(status := Status(client.id, true)), o.faults);
    }

    method UpdateSso(sso: Sso, faults: set<Call>) returns (err: Option<Error>)
      modifies cluster`ssos, cluster`nextVersion
      ensures Change(cluster.DirectoryNow(), err) == StatusEffect(old(cluster.DirectoryNow()), sso, faults)
    {
      if UpdateStatus in faults {
        return Some(Api(UpdateStatus, Faulted));
      }
      if sso.Id() !in cluster.ssos {
        return Some(Api(UpdateStatus, NotFound));
      }
      if cluster.ssos[sso.Id()].version != sso.version {
        return Some(Api(UpdateStatus, Conflict));
      }
      cluster.ssos := cluster.ssos[sso.Id() := sso.(version := cluster.nextVersion)];
      cluster.nextVersion := cluster.nextVersion + 1;
      err := None;
    }
  }
}
