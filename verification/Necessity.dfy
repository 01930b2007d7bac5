/** Why the main invariant needs its assumptions: what a misread status or a shared name does, and exactly when. */
module Necessity {
  import opened Types
  import opened Names
  import opened Config
  import opened Version
  import opened Rbac
  import opened Proxy
  import opened Operator
  import opened Isolation
  import opened Sync
  import opened Success
  import opened Reinitialize
  import opened Runs

  // ---------- what an event does to any SSO in sync ----------

  lemma OtherStays(s: System, t: System, sso: Sso, other: Sso)
    requires SameProxies(s.proxies, t.proxies, sso)
    requires other.SecretId() == sso.SecretId() ==> Stays(s.proxies, t.proxies, sso)
    ensures Stays(s.proxies, t.proxies, other)
  {
    if other.SecretId() != sso.SecretId() {
      OffAt(s.proxies.secrets, t.proxies.secrets, sso.SecretId(), other.SecretId());
      if other.ns == sso.ns && other.DeploymentId() == sso.DeploymentId() {
        SharedDeploymentSharesSecret(other.name, sso.name);
      }
    }
    if other.DeploymentId() != sso.DeploymentId() {
      OffAt(s.proxies.deployments, t.proxies.deployments, sso.DeploymentId(), other.DeploymentId());
    }
  }

  /**
   * Exactly when an event takes an SSO out of sync, its own or another: if it rewrites a secret and theirs is the same.
   * So initialising one SSO keeps another in sync if and only if their secrets have different names.
   */
  lemma SharedSecretDecides(
    s: System, role: string, key: string, sso: Sso, deleted: bool, o: Oracle, other: Sso, keys: set<string>)
    requires Fresh(s, o) && InSync(s, other, keys) && Plain(s, key, sso, o) && !(deleted && sso.status.initialized)
    ensures var t := HandleEffect(s, role, key, sso, deleted, o).store;
            InSync(t, other, keys) <==>
            !(&& Initializes(s, role, sso, deleted, o) && Rewrites(s.proxies.services, s.exposure, sso, o)
              && other.SecretId() == sso.SecretId())
  {
    var t := HandleEffect(s, role, key, sso, deleted, o).store;
    HandleApart(s, role, key, sso, deleted, o);
    if Initializes(s, role, sso, deleted, o) {
      HandleInitializes(s, role, key, sso, deleted, o);
      var ensured := EnsureEffect(s.roles, role, sso.ns, o.faults);
      InitializeWrites(s.(roles := ensured.store), key, sso, ensured.result.value, o);
      if Rewrites(s.proxies.services, s.exposure, sso, o) && other.SecretId() == sso.SecretId() {
        OtherClient(t, other, Rewritten(s.proxies.services, s.exposure, key, sso, o), keys);
      } else {
        OtherStays(s, t, sso, other);
        StaysInSync(s, t, other, keys);
      }
    } else {
      HandleOtherwise(s, role, key, sso, deleted, o);
      StaysInSync(s, t, other, keys);
    }
  }

  // ---------- two faults are enough ----------

  /** The status read and the first call of the rollout. */
  predicate Misread(faults: set<Call>) { faults == {ListSsos, ListDeployments} }

  /** Wherever one call could rewrite the secret, these two faults take an SSO in sync out of it, and leave no trace. */
  lemma MisreadLosesSync(s: System, role: string, key: string, sso: Sso, o: Oracle, keys: set<string>)
    requires Reinitialized(s, sso, o, keys) && key in keys && Misread(o.faults)
    requires Grants(s.roles, role, sso.ns, o.faults) && Rewrites(s.proxies.services, s.exposure, sso, o)
    requires Plain(s, key, sso, o)
    ensures var t := HandleEffect(s, role, key, sso, false, o).store;
            && t.directory == s.directory
            && o.newID !in t.dex.clients
            && !InSync(t, t.directory.ssos[sso.Id()], keys)
  {
    HandleAgain(s, role, key, sso, false, o, keys);
    HandleInitializes(s, role, key, sso, false, o);
    var ensured := EnsureEffect(s.roles, role, sso.ns, o.faults);
    var t := s.(roles := ensured.store);
    InitializeOutcome(t, key, sso, ensured.result.value, o);
    InitializeFrame(t, key, sso, ensured.result.value, o);
  }

  // ---------- examples ----------

  const NS := "n"
  const ROLE := "r"
  const APPLICATION := "u"
  const COOKIE_KEY := "k"

  const SPEC := Spec("https://i", APPLICATION, "d", "", false, CookieSpec("c", "e", "f", false, false), "", true)
  const CLIENT := Client("x", "s", [RedirectURL(HTTPS + "h")], "")

  function InSyncSso(name: string): Sso { Sso(NS, name, 0, SPEC, Status("x", true)) }

  const SERVICES := map[Key(NS, APPLICATION) := Service(map[], map[], 80)]
  const ROLES := Roles({}, [Binding("b", ROLE_KIND, ROLE, [Subject(SUBJECT_KIND, "a", NS)])])
  const EXPOSURE := Exposure(map[], map[], map[Key(NS, APPLICATION) := ["h"]])

  function Text(): string { Render(ConfigFor(SPEC, CLIENT, CLIENT.redirectURIs[0], 80, COOKIE_KEY)) }

  function ProxiesOf(sso: Sso): Proxies {
    Proxies(map[sso.SecretId() := map[CONFIG_FILE := Text()]],
            map[sso.DeploymentId() := DeploymentFor(sso, APPLICATION, SecretVersion(Text()))],
            SERVICES)
  }

  /** A system with one SSO, initialised and in sync. */
  function Example(name: string): System {
    var sso := InSyncSso(name);
    System(Directory(map[sso.Id() := sso], 1), ROLES, EXPOSURE, ProxiesOf(sso), Registry(map["x" := CLIENT], {"x"}))
  }

  function Faulty(faults: set<Call>): Oracle { Oracle(faults, "y", "t", _ => "h", true, {}) }

  lemma ExampleInSync(name: string)
    ensures InSync(Example(name), InSyncSso(name), {COOKIE_KEY})
  {
    var s, sso := Example(name), InSyncSso(name);
    assert InSyncAt(s, sso, 80, COOKIE_KEY);
  }

  lemma ExampleFound(sso: Sso, o: Oracle)
    requires sso.ns == NS && sso.spec == SPEC
    ensures AppIngress(SERVICES, sso, o) == Key(NS, APPLICATION)
    ensures IngressesFound(SERVICES, EXPOSURE, sso, o) == EXPOSURE.ingresses
  {
    assert sso.UpstreamId() == Key(NS, APPLICATION);
  }

  /** What initialising an SSO of the name writes. */
  function ExampleConfig(name: string): Config {
    var url := RedirectURL(HTTPS + "h");
    ConfigFor(SPEC, Client("y", "t", [url], name), url, 80, COOKIE_KEY)
  }

  lemma ExampleRewrites(sso: Sso, faults: set<Call>)
    requires sso.ns == NS && sso.spec == SPEC && faults <= {ListSsos, ListDeployments}
    ensures Rewrites(SERVICES, EXPOSURE, sso, Faulty(faults))
    ensures Rewritten(SERVICES, EXPOSURE, COOKIE_KEY, sso, Faulty(faults)) ==
            ExampleConfig(sso.name)
  {
    ExampleFound(sso, Faulty(faults));
  }

  lemma ExampleSingleLine(name: string)
    ensures SingleLine(ExampleConfig(name))
  {
    ReadDecimalInverts(80);
  }

  lemma ExampleGrants(sso: Sso, faults: set<Call>)
    requires sso.ns == NS && faults <= {ListSsos, ListDeployments}
    ensures Grants(ROLES, ROLE, sso.ns, faults)
  {
    assert Binds(ROLES.bindings[0], ROLE) && AccountIn(ROLES.bindings[0].subjects[0], NS);
  }

  function ExampleWorld(name: string): World { World(Example(name), {}, ROLE, COOKIE_KEY, {COOKIE_KEY}, {}) }

  lemma ExampleBooks(name: string)
    requires ValidName(name)
    ensures Books(ExampleWorld(name))
  {
    DeploymentForNames(InSyncSso(name), APPLICATION, SecretVersion(Text()));
  }

  lemma ExampleAllInSync(name: string)
    requires Books(ExampleWorld(name))
    ensures AllInSync(ExampleWorld(name))
  {
    ExampleInSync(name);
    var w := ExampleWorld(name);
    forall k | Initialized(w.sys.directory, k) ensures InSyncWith(w.sys, w.sys.directory.ssos[k], w.keys, w.bare) {
      SyncedWith(w, k);
    }
  }

  lemma ExamplePlain(s: System, sso: Sso, faults: set<Call>)
    requires s.proxies.services == SERVICES && s.exposure == EXPOSURE
    requires sso.ns == NS && sso.spec == SPEC && faults <= {ListSsos, ListDeployments}
    ensures Rewrites(s.proxies.services, s.exposure, sso, Faulty(faults)) && Plain(s, COOKIE_KEY, sso, Faulty(faults))
  {
    ExampleRewrites(sso, faults);
    ExampleSingleLine(sso.name);
  }

  lemma MisreadStep(w: World, sso: Sso, o: Oracle)
    requires Books(w) && AllInSync(w) && Possible(w, Event(sso, false, o))
    requires Initialized(w.sys.directory, sso.Id()) && Misread(o.faults)
    requires Grants(w.sys.roles, w.role, sso.ns, o.faults) && Plain(w.sys, w.key, sso, o)
    requires Rewrites(w.sys.proxies.services, w.sys.exposure, sso, o)
    ensures !AllInSync(Next(w, Event(sso, false, o)))
  {
    NextLosesSync(w, Event(sso, false, o));
  }

  /** For any valid name, a run of one event on which the main invariant fails for a misread status. */
  lemma MisreadExample(name: string) returns (w: World, step: Step)
    requires ValidName(name)
    ensures Books(w) && AllInSync(w) && Possible(w, step)
    ensures step.Event? && Misread(step.o.faults)
    ensures !AllInSync(Next(w, step))
  {
    var sso, o := InSyncSso(name), Faulty({ListSsos, ListDeployments});
    w := ExampleWorld(name);
    step := Event(sso, false, o);
    ExampleBooks(name);
    ExampleAllInSync(name);
    ExampleGrants(sso, o.faults);
    ExamplePlain(w.sys, sso, o.faults);
    MisreadStep(w, sso, o);
  }

  function UninitializedSso(name: string): Sso { Sso(NS, name, 1, SPEC, Status("", false)) }

  /** The example with another SSO that is still to be initialised. */
  function ExampleOfTwo(name: string, other: string): System {
    var s, sso := Example(name), UninitializedSso(other);
    s.(directory := Directory(s.directory.ssos[sso.Id() := sso], 2))
  }

  lemma OthersDirectory(name: string, other: string)
    requires name != other
    ensures InSync(ExampleOfTwo(name, other), InSyncSso(name), {COOKIE_KEY})
    ensures ExampleOfTwo(name, other).directory.ssos[Key(NS, other)] == UninitializedSso(other)
  {
    ExampleInSync(name);
    StaysInSync(Example(name), ExampleOfTwo(name, other), InSyncSso(name), {COOKIE_KEY});
  }

  /** Any initialisation that gets through takes every SSO out of sync that shares its secret. */
  lemma SharedSecretLosesSync(s: System, role: string, key: string, sso: Sso, o: Oracle, other: Sso, keys: set<string>)
    requires Fresh(s, o) && InSync(s, other, keys) && other.SecretId() == sso.SecretId()
    requires Initializes(s, role, sso, false, o) && GetsThrough(s, sso, o) && Plain(s, key, sso, o)
    ensures var h := HandleEffect(s, role, key, sso, false, o);
            h.outcome.Done? && !InSync(h.store, other, keys)
  {
    HandleSucceeds(s, role, key, sso, false, o);
    SharedSecretDecides(s, role, key, sso, false, o, other, keys);
  }

  /** For any names of one character too many: without any fault, initialising one SSO takes the other out of sync. */
  lemma LongNamesExample(stem: string, x: char, y: char) returns (s: System, sso: Sso, other: Sso, o: Oracle)
    requires |stem| + |PROXY_SECRET| == MAX_NAME && x != y
    ensures sso.name == stem + [y] && other.name == stem + [x] && o.faults == {}
    ensures InSync(s, other, {COOKIE_KEY})
    ensures var h := HandleEffect(s, ROLE, COOKIE_KEY, sso, false, o);
            h.outcome.Done? && !InSync(h.store, other, {COOKIE_KEY})
  {
    other, sso, o := InSyncSso(stem + [x]), UninitializedSso(stem + [y]), Faulty({});
    s := ExampleOfTwo(other.name, sso.name);
    LongNamesCollide(stem, x, y);
    OthersDirectory(other.name, sso.name);
    ExampleGrants(sso, {});
    ExamplePlain(s, sso, {});
    SharedSecretLosesSync(s, ROLE, COOKIE_KEY, sso, o, other, {COOKIE_KEY});
  }
}
