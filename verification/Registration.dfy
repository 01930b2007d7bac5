/** What an initialisation registers in Dex, spelled out. */
module Registration {
  import opened Types
  import opened Rbac
  import opened Expose
  import opened Proxy
  import opened Operator
  import opened Isolation
  import opened Success

  /** One URL for each host, in order. */
  predicate CallBack(urls: seq<string>, hosts: seq<string>) {
    && |urls| == |hosts|
    && forall i :: 0 <= i < |hosts| ==> urls[i] == "https://" + hosts[i] + "/oauth2/callback"
  }

  lemma HostsCallBack(hosts: seq<string>)
    ensures CallBack(RedirectURLs(hosts), hosts)
  {
  }

  lemma PublishRegisters(s: System, key: string, sso: Sso, client: Client, app: string, o: Oracle)
    requires client.id in s.dex.clients && s.dex.clients[client.id] == client
    ensures var t, id := PublishEffect(s, key, sso, client, app, o).store, Key(sso.ns, app);
            && t.exposure == s.exposure && client.id in t.dex.clients
            && t.dex.clients[client.id] == client.(redirectURIs := t.dex.clients[client.id].redirectURIs)
            && (if Publishes(s.exposure.ingresses, id, o.faults) then
                  CallBack(t.dex.clients[client.id].redirectURIs, s.exposure.ingresses[id])
                else t.dex.clients[client.id] == client)
  {
    var id := Key(sso.ns, app);
    if Publishes(s.exposure.ingresses, id, o.faults) {
      HostsCallBack(s.exposure.ingresses[id]);
    }
  }

  /** The call comes as far as registering the hosts' URLs. */
  predicate Registers(services: map<Key, Service>, x: Exposure, sso: Sso, o: Oracle) {
    && Reaches(services, x, sso, o)
    && Publishes(IngressesFound(services, x, sso, o), AppIngress(services, sso, o), o.faults)
  }

  /** Of the new client: named for the SSO, with the hosts' URLs once these are registered, and a placeholder before. */
  predicate IsClientOf(client: Client, services: map<Key, Service>, x: Exposure, sso: Sso, o: Oracle) {
    && client.id == o.newID && client.secret == o.newSecret && client.name == sso.name
    && if Registers(services, x, sso, o) then
         CallBack(client.redirectURIs, IngressesFound(services, x, sso, o)[AppIngress(services, sso, o)])
       else client.redirectURIs == ["https://fake-oauth2-proxy" + "/oauth2/callback"]
  }

  lemma ProvideRegisters(s: System, key: string, sso: Sso, account: string, o: Oracle)
    requires o.newID in s.dex.clients && s.dex.clients[o.newID] == NewClient(sso, o)
    ensures var t := ProvideEffect(s, key, sso, NewClient(sso, o), account, o).store;
            && o.newID in t.dex.clients
            && (Reaches(s.proxies.services, s.exposure, sso, o) ==>
                  t.exposure.ingresses == IngressesFound(s.proxies.services, s.exposure, sso, o))
            && IsClientOf(t.dex.clients[o.newID], s.proxies.services, s.exposure, sso, o)
  {
    var client := NewClient(sso, o);
    if Reaches(s.proxies.services, s.exposure, sso, o) {
      var u := ProvideReaches(s, key, sso, client, account, o);
      PublishRegisters(u, key, sso, client, AppOf(s.proxies.services, sso, o.appFirst), o);
    } else {
      ProvideRegistersNothing(s, key, sso, client, account, o);
    }
  }

  lemma ProvideRegistersNothing(s: System, key: string, sso: Sso, client: Client, account: string, o: Oracle)
    requires client.redirectURIs != [] && !Reaches(s.proxies.services, s.exposure, sso, o)
    ensures ProvideEffect(s, key, sso, client, account, o).store.dex == s.dex
  {
    DeployOutcome(s.proxies, sso, client, key, o);
    var deployed := DeployEffect(s.proxies, sso, client, key, o);
    if deployed.result.Ok? {
      ExposeSucceeds(s.exposure, deployed.store.services, sso, sso.name, account, o);
    }
  }

  /** The client an initialisation leaves in Dex, be it for its success or for a failed compensation. */
  lemma InitializeRegisters(s: System, key: string, sso: Sso, account: string, o: Oracle)
    requires Fresh(s, o)
    ensures var h := InitializeEffect(s, key, sso, account, o);
            o.newID in h.store.dex.clients ==>
              && IsClientOf(h.store.dex.clients[o.newID], s.proxies.services, s.exposure, sso, o)
              && (Reaches(s.proxies.services, s.exposure, sso, o) ==>
                    h.store.exposure.ingresses == IngressesFound(s.proxies.services, s.exposure, sso, o))
  {
    if CreateClient !in o.faults {
      ProvideRegisters(s.(dex := Registered(s.dex, NewClient(sso, o))), key, sso, account, o);
    }
  }

  /**
   * A call that initialises its SSO has registered one URL for every host of the application's ingress, in order, and
   * left id, secret and name of the new client as they were made.
   */
  lemma DoneRegistersAllHosts(
    s: System, role: string, key: string, sso: Sso, deleted: bool, o: Oracle) returns (ingress: Key, hosts: seq<string>)
    requires Fresh(s, o) && Initializes(s, role, sso, deleted, o)
    ensures var h := HandleEffect(s, role, key, sso, deleted, o);
            h.outcome.Done? ==>
              && sso.UpstreamId() in s.proxies.services
              && ingress == Key(sso.ns, AppOf(s.proxies.services, sso, o.appFirst))
              && ingress in h.store.exposure.ingresses && hosts == h.store.exposure.ingresses[ingress] && hosts != []
              && ingress in IngressesFound(s.proxies.services, s.exposure, sso, o)
              && hosts == IngressesFound(s.proxies.services, s.exposure, sso, o)[ingress]
    ensures var h := HandleEffect(s, role, key, sso, deleted, o);
            h.outcome.Done? ==>
              && o.newID in h.store.dex.clients
              && h.store.dex.clients[o.newID].id == o.newID
              && h.store.dex.clients[o.newID].secret == o.newSecret && h.store.dex.clients[o.newID].name == sso.name
              && |h.store.dex.clients[o.newID].redirectURIs| == |hosts|
              && forall i :: 0 <= i < |hosts| ==>
                   h.store.dex.clients[o.newID].redirectURIs[i] == "https://" + hosts[i] + "/oauth2/callback"
  {
    ingress, hosts := sso.Id(), [];
    HandleSucceeds(s, role, key, sso, deleted, o);
    if HandleEffect(s, role, key, sso, deleted, o).outcome.Done? {
      HandleInitializes(s, role, key, sso, deleted, o);
      var ensured := EnsureEffect(s.roles, role, sso.ns, o.faults);
      var t := s.(roles := ensured.store);
      InitializeFrame(t, key, sso, ensured.result.value, o);
      InitializeRegisters(t, key, sso, ensured.result.value, o);
      ingress := AppIngress(s.proxies.services, sso, o);
      hosts := IngressesFound(s.proxies.services, s.exposure, sso, o)[ingress];
    }
  }

  /** With nobody's config map in the way the host is the one made from the SSO's own domain and template. */
  lemma OwnHostFound(services: map<Key, Service>, x: Exposure, sso: Sso, o: Oracle) returns (c: ExposeConfig)
    requires sso.UpstreamId() in services && !sso.spec.skipExpose && sso.ns !in x.configMaps
    requires sso.Id() in services ==>
      IngressName(sso.name, services[sso.Id()]) == AppOf(services, sso, o.appFirst)
    ensures Describes(c, sso.spec, sso.name)
    ensures var ingress := Key(sso.ns, AppOf(services, sso, o.appFirst));
            && ingress in IngressesFound(services, x, sso, o)
            && IngressesFound(services, x, sso, o)[ingress] == [o.host(c)]
  {
    c := ReadBy(x, sso, sso.name);
    var q := WithProxyService(services, sso, AppOf(services, sso, o.appFirst));
    assert sso.name in c.services && Key(sso.ns, sso.name) == sso.Id() && sso.Id() in q;
    assert IngressName(sso.name, q[sso.Id()]) == AppOf(services, sso, o.appFirst);
  }
}
