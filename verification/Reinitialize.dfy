/** What becomes of an SSO that is initialised already and, its status misread, is initialised again. */
module Reinitialize {
  import opened Types
  import opened Config
  import opened Version
  import opened Rbac
  import opened Proxy
  import opened Operator
  import opened Isolation
  import opened Sync
  import opened Success

  /** The secret holds a configuration of another client. */
  lemma OtherClient(s: System, live: Sso, c: Config, keys: set<string>)
    requires SingleLine(c) && c.clientID != live.status.clientID
    requires live.SecretId() in s.proxies.secrets && s.proxies.secrets[live.SecretId()] == map[CONFIG_FILE := Render(c)]
    ensures !InSync(s, live, keys)
  {
    if InSync(s, live, keys) {
      var port, key :| key in keys && InSyncAt(s, live, port, key);
      var client := s.dex.clients[live.status.clientID];
      RenderInjective(c, ConfigFor(live.spec, client, client.redirectURIs[0], port, key));
    }
  }

  lemma StaysInSync(s: System, t: System, live: Sso, keys: set<string>)
    requires InSync(s, live, keys) && Stays(s.proxies, t.proxies, live)
    requires live.status.clientID in t.dex.clients
    requires t.dex.clients[live.status.clientID] == s.dex.clients[live.status.clientID]
    ensures InSync(t, live, keys)
  {
    var port, key :| key in keys && InSyncAt(s, live, port, key);
    assert InSyncAt(t, live, port, key);
  }

  lemma InitializeWrites(s: System, key: string, sso: Sso, account: string, o: Oracle)
    ensures var p := InitializeEffect(s, key, sso, account, o).store.proxies;
            if Rewrites(s.proxies.services, s.exposure, sso, o) then
              && sso.SecretId() in p.secrets
              && p.secrets[sso.SecretId()] ==
                 map[CONFIG_FILE := Render(Rewritten(s.proxies.services, s.exposure, key, sso, o))]
            else Stays(s.proxies, p, sso)
  {
    if CreateClient !in o.faults {
      ProvideWrites(s.(dex := Registered(s.dex, NewClient(sso, o))), key, sso, account, o);
    }
  }

  /** An SSO in sync that is initialised again. */
  ghost predicate Reinitialized(s: System, sso: Sso, o: Oracle, keys: set<string>) {
    && Fresh(s, o) && Initialized(s.directory, sso.Id())
    && s.directory.ssos[sso.Id()].Id() == sso.Id() && InSync(s, s.directory.ssos[sso.Id()], keys)
  }

  lemma InitializeAgainKeeps(s: System, key: string, sso: Sso, account: string, o: Oracle, keys: set<string>)
    requires Reinitialized(s, sso, o, keys) && key in keys
    requires Rewrites(s.proxies.services, s.exposure, sso, o) ==> Finishes(s.directory, sso, o.faults)
    ensures var t := InitializeEffect(s, key, sso, account, o).store;
            Initialized(t.directory, sso.Id()) && InSync(t, t.directory.ssos[sso.Id()], keys)
  {
    var h := InitializeEffect(s, key, sso, account, o);
    InitializeFrame(s, key, sso, account, o);
    InitializeOutcome(s, key, sso, account, o);
    if h.outcome.Done? {
      InitializeCompletes(s, key, sso, account, o);
    } else {
      var live := s.directory.ssos[sso.Id()];
      InitializeWrites(s, key, sso, account, o);
      OffAt(s.dex.clients, h.store.dex.clients, o.newID, live.status.clientID);
      StaysInSync(s, h.store, live, keys);
    }
  }

  lemma UnfinishedKeepsDirectory(s: System, key: string, sso: Sso, account: string, o: Oracle)
    requires Fresh(s, o) && !Finishes(s.directory, sso, o.faults)
    ensures InitializeEffect(s, key, sso, account, o).store.directory == s.directory
  {
    InitializeFrame(s, key, sso, account, o);
    InitializeOutcome(s, key, sso, account, o);
  }

  lemma InitializeAgainLoses(s: System, key: string, sso: Sso, account: string, o: Oracle, keys: set<string>)
    requires Reinitialized(s, sso, o, keys)
    requires Rewrites(s.proxies.services, s.exposure, sso, o) && !Finishes(s.directory, sso, o.faults)
    requires SingleLine(Rewritten(s.proxies.services, s.exposure, key, sso, o))
    ensures !InSync(InitializeEffect(s, key, sso, account, o).store, s.directory.ssos[sso.Id()], keys)
  {
    var h := InitializeEffect(s, key, sso, account, o);
    UnfinishedKeepsDirectory(s, key, sso, account, o);
    InitializeWrites(s, key, sso, account, o);
    OtherClient(h.store, s.directory.ssos[sso.Id()], Rewritten(s.proxies.services, s.exposure, key, sso, o), keys);
  }

  /** What the event may do to an SSO that is initialised: if it rewrites the secret, it must finish. */
  predicate Harmless(s: System, role: string, sso: Sso, deleted: bool, o: Oracle) {
    (&& Initializes(s, role, sso, deleted, o) && Initialized(s.directory, sso.Id())
     && Rewrites(s.proxies.services, s.exposure, sso, o)) ==> Finishes(s.directory, sso, o.faults)
  }

  /** The configuration the event writes, if it comes to that, holds no line breaks. */
  predicate Plain(s: System, key: string, sso: Sso, o: Oracle) {
    Rewrites(s.proxies.services, s.exposure, sso, o) ==>
      SingleLine(Rewritten(s.proxies.services, s.exposure, key, sso, o))
  }

  /** Exactly when an event, in particular one whose status read fails, keeps an initialised SSO in sync. */
  lemma HandleAgain(
    s: System, role: string, key: string, sso: Sso, deleted: bool, o: Oracle, keys: set<string>)
    requires Reinitialized(s, sso, o, keys) && key in keys && !(deleted && sso.status.initialized)
    ensures var t := HandleEffect(s, role, key, sso, deleted, o).store;
            && Initialized(t.directory, sso.Id())
            && (Harmless(s, role, sso, deleted, o) ==> InSync(t, t.directory.ssos[sso.Id()], keys))
            && (Plain(s, key, sso, o) ==>
                  (InSync(t, t.directory.ssos[sso.Id()], keys) <==> Harmless(s, role, sso, deleted, o)))
            && (!Harmless(s, role, sso, deleted, o) ==> t.directory == s.directory)
  {
    var t := HandleEffect(s, role, key, sso, deleted, o).store;
    var live := s.directory.ssos[sso.Id()];
    if Initializes(s, role, sso, deleted, o) {
      HandleInitializes(s, role, key, sso, deleted, o);
      var ensured := EnsureEffect(s.roles, role, sso.ns, o.faults);
      var u := s.(roles := ensured.store);
      StaysInSync(s, u, live, keys);
      if Rewrites(s.proxies.services, s.exposure, sso, o) && !Finishes(s.directory, sso, o.faults) {
        UnfinishedKeepsDirectory(u, key, sso, ensured.result.value, o);
        if Plain(s, key, sso, o) {
          InitializeAgainLoses(u, key, sso, ensured.result.value, o, keys);
        }
      } else {
        InitializeAgainKeeps(u, key, sso, ensured.result.value, o, keys);
      }
    } else {
      HandleOtherwise(s, role, key, sso, deleted, o);
      StaysInSync(s, t, live, keys);
    }
  }
}
