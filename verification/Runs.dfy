/** Runs of the operator among users, other actors and faults, and what holds in every world they reach. */
module Runs {
  import opened Types
  import opened Names
  import opened Config
  import opened Version
  import opened Rbac
  import opened Proxy
  import opened Operator
  import opened Isolation
  import opened Sync
  import opened Success
  import opened Reinitialize

  /**
   * `tombstones` are the deleted SSOs as last stored: what their delete events carry. `keys` are the cookie keys used
   * so far, the present one included. `bare` are the deployments in which a rollout had no place from the start.
   */
  datatype World = World(
    sys: System, tombstones: set<Sso>, role: string, key: string, keys: set<string>, bare: set<Key>)

  datatype Step =
    | CreateSso(ns: string, name: string, spec: Spec)
    | DeleteSso(id: Key)
    /** The operator starts again, with whatever cookie key it then has. */
    | Restart(key: string)
    /** Other actors rewrite what is not the operator's alone. */
    | Outside(roles: Roles, exposure: Exposure, services: map<Key, Service>)
    /** An event is delivered, for the first time or again, with a current or a stale object. */
    | Event(sso: Sso, deleted: bool, o: Oracle)

  function Next(w: World, step: Step): World {
    match step
    case CreateSso(ns, name, spec) =>
      var d := w.sys.directory;
      if Key(ns, name) in d.ssos then w
      else
        var sso := Sso(ns, name, d.nextVersion, spec, Status("", false));
        w.(sys := w.sys.(directory := Directory(d.ssos[sso.Id() := sso], d.nextVersion + 1)))
    case DeleteSso(id) =>
      var d := w.sys.directory;
      if id !in d.ssos then w
      else w.(sys := w.sys.(directory := d.(ssos := d.ssos - {id})), tombstones := w.tombstones + {d.ssos[id]})
    case Restart(key) => w.(key := key, keys := w.keys + {key})
    case Outside(roles, exposure, services) =>
      w.(sys := w.sys.(roles := roles, exposure := exposure, proxies := w.sys.proxies.(services := services)))
    case Event(sso, deleted, o) => w.(sys := HandleEffect(w.sys, w.role, w.key, sso, deleted, o).store)
  }

  function Run(w: World, steps: seq<Step>): World
    decreases |steps|
  {
    if steps == [] then w else Run(Next(w, steps[0]), steps[1..])
  }

  // ---------- the environment ----------

  /** A name the cluster accepts, short enough for its secret's name to be its own. */
  predicate ValidName(name: string) { Short(name, PROXY_SECRET) }

  /** What the environment promises: valid names, fresh client ids, and delete events of deleted SSOs only. */
  predicate Possible(w: World, step: Step) {
    match step
    case CreateSso(_, name, _) => ValidName(name)
    case Event(sso, deleted, o) =>
      ValidName(sso.name) && o.newID !in w.sys.dex.issued && (deleted ==> sso in w.tombstones)
    case _ => true
  }

  predicate PossibleRun(w: World, steps: seq<Step>)
    decreases |steps|
  {
    steps == [] || (Possible(w, steps[0]) && PossibleRun(Next(w, steps[0]), steps[1..]))
  }

  // ---------- the invariants ----------

  function ClientOf(d: Directory, id: Key): string
    requires Initialized(d, id)
  {
    d.ssos[id].status.clientID
  }

  /** Every initialised SSO has a client in Dex, and no other SSO, live or deleted, has the same. */
  ghost predicate Owned(d: Directory, dex: Registry, tombstones: set<Sso>) {
    && dex.clients.Keys <= dex.issued
    && (forall k :: k in d.ssos ==> d.ssos[k].Id() == k && ValidName(k.name))
    && (forall k :: Initialized(d, k) ==> ClientOf(d, k) in dex.clients)
    && (forall k, l :: Initialized(d, k) && Initialized(d, l) && k != l ==> ClientOf(d, k) != ClientOf(d, l))
    && (forall t :: t in tombstones && t.status.initialized ==> t.status.clientID in dex.issued)
    && (forall k, t :: Initialized(d, k) && t in tombstones && t.status.initialized ==>
          ClientOf(d, k) != t.status.clientID)
  }

  ghost predicate Books(w: World) {
    && Owned(w.sys.directory, w.sys.dex, w.tombstones)
    && w.key in w.keys
    && forall id :: Bare(w.sys.proxies.deployments, id) ==> id in w.bare
  }

  ghost predicate InSyncWith(s: System, sso: Sso, keys: set<string>, bare: set<Key>) {
    && InSync(s, sso, keys)
    && (sso.DeploymentId() in bare || VersionedProxy(s.proxies, sso))
  }

  /** Every initialised SSO is in sync with its client, at one of the cookie keys, and its deployment says so. */
  ghost predicate AllInSync(w: World) {
    forall k :: Initialized(w.sys.directory, k) ==> InSyncWith(w.sys, w.sys.directory.ssos[k], w.keys, w.bare)
  }

  lemma SyncedWith(w: World, k: Key)
    requires Books(w) && Initialized(w.sys.directory, k) && InSync(w.sys, w.sys.directory.ssos[k], w.keys)
    ensures InSyncWith(w.sys, w.sys.directory.ssos[k], w.keys, w.bare)
  {
    if !Bare(w.sys.proxies.deployments, w.sys.directory.ssos[k].DeploymentId()) {
      SyncedIsVersioned(w.sys, w.sys.directory.ssos[k], w.keys);
    }
  }

  // ---------- one step ----------

  lemma NamesApart(a: Sso, b: Sso)
    requires ValidName(a.name) && ValidName(b.name) && a.Id() != b.Id()
    ensures a.SecretId() != b.SecretId() && a.DeploymentId() != b.DeploymentId()
  {
    if a.ns == b.ns {
      ShortNamesNeverCollide(a.name, b.name, PROXY_SECRET);
      ShortNamesNeverCollide(a.name, b.name, "");
    }
  }

  lemma CreatingKeepsOwned(d: Directory, dex: Registry, tombstones: set<Sso>, sso: Sso)
    requires Owned(d, dex, tombstones) && sso.Id() !in d.ssos && ValidName(sso.name) && !sso.status.initialized
    ensures Owned(Directory(d.ssos[sso.Id() := sso], d.nextVersion + 1), dex, tombstones)
  {
    var e := Directory(d.ssos[sso.Id() := sso], d.nextVersion + 1);
    assert forall k :: Initialized(e, k) ==> Initialized(d, k) && ClientOf(e, k) == ClientOf(d, k);
  }

  lemma DeletingKeepsOwned(d: Directory, dex: Registry, tombstones: set<Sso>, id: Key)
    requires Owned(d, dex, tombstones) && id in d.ssos
    ensures Owned(d.(ssos := d.ssos - {id}), dex, tombstones + {d.ssos[id]})
  {
    var e := d.(ssos := d.ssos - {id});
    assert forall k :: Initialized(e, k) ==> Initialized(d, k) && k != id && ClientOf(e, k) == ClientOf(d, k);
    assert d.ssos[id].status.initialized ==> Initialized(d, id);
  }

  lemma RemovingKeepsOwned(d: Directory, dex: Registry, tombstones: set<Sso>, sso: Sso)
    requires Owned(d, dex, tombstones) && sso in tombstones && sso.status.initialized
    ensures Owned(d, dex.(clients := dex.clients - {sso.status.clientID}), tombstones)
  {
  }

  /** How an initialisation may change the clients. */
  ghost predicate Issues(dex: Registry, dex': Registry, id: string) {
    && dex.issued <= dex'.issued <= dex.issued + {id}
    && dex'.clients - {id} == dex.clients
    && (id in dex'.clients ==> id in dex'.issued)
  }

  lemma IssuingKeepsOwned(d: Directory, dex: Registry, dex': Registry, tombstones: set<Sso>, id: string)
    requires Owned(d, dex, tombstones) && Issues(dex, dex', id)
    ensures Owned(d, dex', tombstones)
  {
    assert forall i :: i in dex.clients ==> i in dex'.clients - {id};
    assert forall i :: i in dex'.clients && i != id ==> i in dex'.clients - {id};
  }

  lemma RecordingKeepsOwned(
    d: Directory, dex: Registry, d': Directory, dex': Registry, tombstones: set<Sso>, sso: Sso, id: string)
    requires Owned(d, dex, tombstones) && id !in dex.issued && ValidName(sso.name)
    requires Issues(dex, dex', id) && id in dex'.clients && Recorded(d, d', sso, id)
    ensures Owned(d', dex', tombstones)
  {
    IssuingKeepsOwned(d, dex, dex', tombstones, id);
    assert forall k :: Initialized(d', k) && k != sso.Id() ==> Initialized(d, k) && ClientOf(d', k) == ClientOf(d, k);
    assert ClientOf(d', sso.Id()) == id;
  }

  lemma InitializeKeepsOwned(s: System, tombstones: set<Sso>, key: string, sso: Sso, account: string, o: Oracle)
    requires Owned(s.directory, s.dex, tombstones) && o.newID !in s.dex.issued && ValidName(sso.name)
    ensures var t := InitializeEffect(s, key, sso, account, o).store;
            Owned(t.directory, t.dex, tombstones)
  {
    var h := InitializeEffect(s, key, sso, account, o);
    InitializeFrame(s, key, sso, account, o);
    InitializeCompletes(s, key, sso, account, o);
    if h.outcome.Done? {
      RecordingKeepsOwned(s.directory, s.dex, h.store.directory, h.store.dex, tombstones, sso, o.newID);
    } else {
      IssuingKeepsOwned(s.directory, s.dex, h.store.dex, tombstones, o.newID);
    }
  }

  lemma HandleKeepsOwned(
    s: System, tombstones: set<Sso>, role: string, key: string, sso: Sso, deleted: bool, o: Oracle)
    requires Owned(s.directory, s.dex, tombstones) && o.newID !in s.dex.issued && ValidName(sso.name)
    requires deleted ==> sso in tombstones
    ensures var t := HandleEffect(s, role, key, sso, deleted, o).store;
            Owned(t.directory, t.dex, tombstones)
  {
    var ensured := EnsureEffect(s.roles, role, sso.ns, o.faults);
    var t := s.(roles := ensured.store);
    if ensured.result.Ok? {
      if deleted && sso.status.initialized {
        RemoveFrame(t, sso, ensured.result.value, o);
        RemovingKeepsOwned(t.directory, t.dex, tombstones, sso);
      } else {
        InitializeKeepsOwned(t, tombstones, key, sso, ensured.result.value, o);
      }
    }
  }

  /** Whatever happens, faults of any call included, the books stay in order. */
  lemma NextKeepsBooks(w: World, step: Step)
    requires Books(w) && Possible(w, step)
    ensures Books(Next(w, step))
  {
    match step
    case CreateSso(ns, name, spec) =>
      if Key(ns, name) !in w.sys.directory.ssos {
        CreatingKeepsOwned(w.sys.directory, w.sys.dex, w.tombstones,
                           Sso(ns, name, w.sys.directory.nextVersion, spec, Status("", false)));
      }
    case DeleteSso(id) =>
      if id in w.sys.directory.ssos {
        DeletingKeepsOwned(w.sys.directory, w.sys.dex, w.tombstones, id);
      }
    case Restart(_) =>
    case Outside(_, _, _) =>
    case Event(sso, deleted, o) =>
      HandleKeepsOwned(w.sys, w.tombstones, w.role, w.key, sso, deleted, o);
      HandleBares(w.sys, w.role, w.key, sso, deleted, o);
  }

  // ---------- staying in sync ----------

  lemma InSyncElsewhere(s: System, t: System, sso: Sso, other: Sso, keys: set<string>)
    requires InSync(s, other, keys) && Apart(s, t, sso)
    requires ValidName(sso.name) && ValidName(other.name) && other.Id() != sso.Id()
    requires other.status.clientID in t.dex.clients
    requires t.dex.clients[other.status.clientID] == s.dex.clients[other.status.clientID]
    ensures InSync(t, other, keys)
  {
    NamesApart(sso, other);
    OffAt(s.proxies.secrets, t.proxies.secrets, sso.SecretId(), other.SecretId());
    OffAt(s.proxies.deployments, t.proxies.deployments, sso.DeploymentId(), other.DeploymentId());
    StaysInSync(s, t, other, keys);
  }

  /** Handling an SSO leaves every other one in sync. */
  lemma HandleKeepsOthers(
    s: System, tombstones: set<Sso>, role: string, key: string, sso: Sso, deleted: bool, o: Oracle, keys: set<string>,
    k: Key)
    requires Owned(s.directory, s.dex, tombstones) && o.newID !in s.dex.issued && ValidName(sso.name)
    requires deleted ==> sso in tombstones
    requires k != sso.Id() || (deleted && sso.status.initialized)
    requires Initialized(s.directory, k) && InSync(s, s.directory.ssos[k], keys)
    ensures var t := HandleEffect(s, role, key, sso, deleted, o).store;
            && Initialized(t.directory, k) && t.directory.ssos[k] == s.directory.ssos[k]
            && InSync(t, t.directory.ssos[k], keys)
  {
    var t := HandleEffect(s, role, key, sso, deleted, o).store;
    var live := s.directory.ssos[k];
    assert ClientOf(s.directory, k) == live.status.clientID;
    HandleApart(s, role, key, sso, deleted, o);
    if deleted && sso.status.initialized {
      RemovalKeeps(s, role, key, sso, o);
      StaysInSync(s, t, live, keys);
    } else {
      OffAt(s.directory.ssos, t.directory.ssos, sso.Id(), k);
      InSyncElsewhere(s, t, sso, live, keys);
    }
  }

  lemma RemovalKeeps(s: System, role: string, key: string, sso: Sso, o: Oracle)
    requires sso.status.initialized
    ensures var t := HandleEffect(s, role, key, sso, true, o).store;
            t.directory == s.directory && t.proxies == s.proxies
  {
    var ensured := EnsureEffect(s.roles, role, sso.ns, o.faults);
    if ensured.result.Ok? {
      RemoveFrame(s.(roles := ensured.store), sso, ensured.result.value, o);
    }
  }

  /** The SSO itself: in sync after the event if it was initialised before, or is initialised by it. */
  lemma HandleKeepsOwn(
    s: System, tombstones: set<Sso>, role: string, key: string, sso: Sso, deleted: bool, o: Oracle, keys: set<string>)
    requires Owned(s.directory, s.dex, tombstones) && o.newID !in s.dex.issued && key in keys
    requires !(deleted && sso.status.initialized) && Harmless(s, role, sso, deleted, o)
    requires Initialized(s.directory, sso.Id()) ==> InSync(s, s.directory.ssos[sso.Id()], keys)
    ensures var t := HandleEffect(s, role, key, sso, deleted, o).store;
            Initialized(t.directory, sso.Id()) ==> InSync(t, t.directory.ssos[sso.Id()], keys)
  {
    if Initialized(s.directory, sso.Id()) {
      HandleAgain(s, role, key, sso, deleted, o, keys);
    } else if Initializes(s, role, sso, deleted, o) {
      HandleInitializes(s, role, key, sso, deleted, o);
      var ensured := EnsureEffect(s.roles, role, sso.ns, o.faults);
      InitializeFrame(s.(roles := ensured.store), key, sso, ensured.result.value, o);
      InitializeCompletes(s.(roles := ensured.store), key, sso, ensured.result.value, o);
    } else {
      HandleOtherwise(s, role, key, sso, deleted, o);
    }
  }

  /** What a step may do to keep sync: an event must be harmless to its own SSO. Every other step is. */
  predicate HarmlessStep(w: World, step: Step) {
    step.Event? ==> Harmless(w.sys, w.role, step.sso, step.deleted, step.o)
  }

  predicate PlainStep(w: World, step: Step) {
    step.Event? ==> Plain(w.sys, w.key, step.sso, step.o)
  }

  /** Good reads are harmless. */
  lemma GoodReadIsHarmless(w: World, step: Step)
    requires step.Event? ==> ListSsos !in step.o.faults
    ensures HarmlessStep(w, step)
  {
  }

  lemma StillInitialized(w: World, step: Step, k: Key)
    requires Books(w) && Possible(w, step) && step.Event?
    requires Initialized(Next(w, step).sys.directory, k) && k != step.sso.Id()
    ensures Initialized(w.sys.directory, k)
  {
    HandleApart(w.sys, w.role, w.key, step.sso, step.deleted, step.o);
    OffAt(w.sys.directory.ssos, Next(w, step).sys.directory.ssos, step.sso.Id(), k);
  }

  lemma QuietKeepsSync(w: World, step: Step)
    requires Books(w) && AllInSync(w) && !step.Event?
    ensures AllInSync(Next(w, step))
  {
    var x := Next(w, step);
    forall k | Initialized(x.sys.directory, k) ensures InSyncWith(x.sys, x.sys.directory.ssos[k], x.keys, x.bare) {
      assert Initialized(w.sys.directory, k) && x.sys.directory.ssos[k] == w.sys.directory.ssos[k];
      var port, key :| key in w.keys && InSyncAt(w.sys, w.sys.directory.ssos[k], port, key);
      assert key in x.keys && InSyncAt(x.sys, x.sys.directory.ssos[k], port, key);
    }
  }

  /** A harmless step, whatever fails, keeps every initialised SSO in sync. */
  lemma NextKeepsSync(w: World, step: Step)
    requires Books(w) && Possible(w, step) && HarmlessStep(w, step) && AllInSync(w)
    ensures AllInSync(Next(w, step))
  {
    match step
    case Event(sso, deleted, o) =>
      var t := Next(w, step).sys;
      NextKeepsBooks(w, step);
      forall k | Initialized(t.directory, k) ensures InSyncWith(t, t.directory.ssos[k], w.keys, w.bare) {
        if deleted && sso.status.initialized {
          RemovalKeeps(w.sys, w.role, w.key, sso, o);
          HandleKeepsOthers(w.sys, w.tombstones, w.role, w.key, sso, deleted, o, w.keys, k);
        } else if k == sso.Id() {
          HandleKeepsOwn(w.sys, w.tombstones, w.role, w.key, sso, deleted, o, w.keys);
        } else {
          StillInitialized(w, step, k);
          HandleKeepsOthers(w.sys, w.tombstones, w.role, w.key, sso, deleted, o, w.keys, k);
        }
        SyncedWith(Next(w, step), k);
      }
    case _ => QuietKeepsSync(w, step);
  }

  /** And a step that is not takes the SSO of its event out of sync. */
  lemma NextLosesSync(w: World, step: Step)
    requires Books(w) && Possible(w, step) && AllInSync(w)
    requires !HarmlessStep(w, step) && PlainStep(w, step)
    ensures !AllInSync(Next(w, step))
  {
    HandleAgain(w.sys, w.role, w.key, step.sso, step.deleted, step.o, w.keys);
  }

  /** In any world of a run, handling one SSO leaves all that is another's alone. */
  lemma EventsDoNotInterfere(w: World, sso: Sso, deleted: bool, o: Oracle, k: Key)
    requires Books(w) && Possible(w, Event(sso, deleted, o))
    requires k in w.sys.directory.ssos && k != sso.Id()
    ensures var s, t, other := w.sys, Next(w, Event(sso, deleted, o)).sys, w.sys.directory.ssos[k];
            && SameAt(s.directory.ssos, t.directory.ssos, k)
            && (other.status.initialized ==> SameAt(s.dex.clients, t.dex.clients, other.status.clientID))
            && SameAt(s.proxies.secrets, t.proxies.secrets, other.SecretId())
            && SameAt(s.proxies.deployments, t.proxies.deployments, other.DeploymentId())
            && SameAt(s.proxies.services, t.proxies.services, k)
            && SameAt(s.exposure.jobs, t.exposure.jobs, other.ExposeJobId())
            && SameAt(s.exposure.jobs, t.exposure.jobs, other.CleanupJobId())
            && (other.ns != sso.ns ==> SameAt(s.exposure.configMaps, t.exposure.configMaps, other.ns))
  {
    var other := w.sys.directory.ssos[k];
    NamesApart(sso, other);
    if sso.ns == other.ns {
      ShortNamesNeverCollide(sso.name, other.name, EXPOSE);
      ShortNamesNeverCollide(sso.name, other.name, CLEANUP);
    }
    assert other.status.initialized ==>
      Initialized(w.sys.directory, k) && ClientOf(w.sys.directory, k) == other.status.clientID;
    NonInterference(w.sys, w.role, w.key, sso, deleted, o, other);
  }

  // ---------- whole runs ----------

  predicate HarmlessRun(w: World, steps: seq<Step>)
    decreases |steps|
  {
    steps == [] || (HarmlessStep(w, steps[0]) && HarmlessRun(Next(w, steps[0]), steps[1..]))
  }

  predicate PlainRun(w: World, steps: seq<Step>)
    decreases |steps|
  {
    steps == [] || (PlainStep(w, steps[0]) && PlainRun(Next(w, steps[0]), steps[1..]))
  }

  ghost predicate AlwaysInSync(w: World, steps: seq<Step>)
    decreases |steps|
  {
    AllInSync(w) && (steps == [] || AlwaysInSync(Next(w, steps[0]), steps[1..]))
  }

  /**
   * Main invariant: on every run, whatever fails, every initialised SSO is in sync all along if no event that misreads
   * the status of an initialised SSO stops between rewriting its secret and recording its client.
   */
  lemma {:induction false} RunKeepsSync(w: World, steps: seq<Step>)
    requires Books(w) && AllInSync(w)
    requires PossibleRun(w, steps) && HarmlessRun(w, steps)
    ensures Books(Run(w, steps)) && AlwaysInSync(w, steps)
    ensures AllInSync(Run(w, steps))
    decreases |steps|
  {
    if steps != [] {
      NextKeepsBooks(w, steps[0]);
      NextKeepsSync(w, steps[0]);
      RunKeepsSync(Next(w, steps[0]), steps[1..]);
    }
  }

  /** And, of configurations without line breaks, only if. */
  lemma {:induction false} RunKeepsSyncExactly(w: World, steps: seq<Step>)
    requires Books(w) && AllInSync(w)
    requires PossibleRun(w, steps) && PlainRun(w, steps)
    ensures AlwaysInSync(w, steps) <==> HarmlessRun(w, steps)
    decreases |steps|
  {
    if steps != [] {
      NextKeepsBooks(w, steps[0]);
      if HarmlessStep(w, steps[0]) {
        NextKeepsSync(w, steps[0]);
        RunKeepsSyncExactly(Next(w, steps[0]), steps[1..]);
      } else {
        NextLosesSync(w, steps[0]);
      }
    }
  }

  /** In particular a run in which all status reads succeed is harmless, faults of all other calls notwithstanding. */
  lemma {:induction false} GoodReadsAreHarmless(w: World, steps: seq<Step>)
    requires forall step :: step in steps && step.Event? ==> ListSsos !in step.o.faults
    ensures HarmlessRun(w, steps)
    decreases |steps|
  {
    if steps != [] {
      assert steps[0] in steps;
      GoodReadIsHarmless(w, steps[0]);
      GoodReadsAreHarmless(Next(w, steps[0]), steps[1..]);
    }
  }

  /** It starts with any cluster in which no SSO claims to be initialised, whatever else there is in it. */
  lemma InitiallyInSync(w: World)
    requires w.sys.dex.clients.Keys <= w.sys.dex.issued && w.tombstones == {} && w.key in w.keys
    requires forall id :: Bare(w.sys.proxies.deployments, id) ==> id in w.bare
    requires forall k :: k in w.sys.directory.ssos ==>
      && w.sys.directory.ssos[k].Id() == k && ValidName(k.name) && !w.sys.directory.ssos[k].status.initialized
    ensures Books(w) && AllInSync(w)
  {
  }

  /** What the proxy reads in its secret: its own client at the first redirect URL Dex has, and the spec of its SSO. */
  lemma SecretReadsBack(s: System, sso: Sso, keys: set<string>)
    requires InSync(s, sso, keys)
    ensures var text := s.proxies.secrets[sso.SecretId()][CONFIG_FILE];
            var client := s.dex.clients[sso.status.clientID];
            exists c: Config, port ::
              && text == Render(c) && (SingleLine(c) ==> ReadConfig(text) == Some(c))
              && c.clientID == sso.status.clientID && c.clientSecret == client.secret
              && client.redirectURIs != [] && c.redirectURL == client.redirectURIs[0]
              && c.upstream == "http://" + sso.spec.upstream + ":" + Decimal(port)
              && c.port == 4180 && c.oidcIssuerURL == sso.spec.issuerURL
              && c.loginURL == sso.spec.issuerURL + "/auth" && c.redeemURL == sso.spec.issuerURL + "/token"
              && c.forwardToken == sso.spec.forwardToken && c.cookie.secret in keys
              && c.cookie == Cookie(sso.spec.cookie.name, c.cookie.secret, sso.spec.domain, sso.spec.cookie.expire,
                                    sso.spec.cookie.refresh, sso.spec.cookie.secure, sso.spec.cookie.httpOnly)
  {
    var port, key :| key in keys && InSyncAt(s, sso, port, key);
    var client := s.dex.clients[sso.status.clientID];
    var c := ConfigFor(sso.spec, client, client.redirectURIs[0], port, key);
    ReadConfigInverts(c);
    assert s.proxies.secrets[sso.SecretId()][CONFIG_FILE] == Render(c) && c.clientID == client.id;
    assert c.upstream == "http://" + sso.spec.upstream + ":" + Decimal(port);
  }
}
