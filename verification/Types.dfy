/** What the operator reads and writes: objects of the cluster, clients of Dex, and how a call can end. */
module Types {
  import opened Names

  datatype Option<+T> = None | Some(value: T)
  datatype Result<+T> = Ok(value: T) | Err(error: Error)

  // ---------- calls and their errors ----------

  /** The places where the operator calls the API server or Dex while it handles one event. */
  datatype Call =
    | ListBindings | GetAccount | CreateAccount | UpdateBinding
    | CleanupCreateMap | CleanupCreateJob | CleanupDropJob | CleanupAwaitJob | CleanupDeleteJob | CleanupDeleteMap
    | DeleteClient
    | ListSsos | CreateClient
    | ListForAppName | ListForUpstream | CreateSecret | CreateDeployment | CreateService | AwaitService | AwaitPods
    | ExposeCreateMap | ExposeCreateJob | ExposeDropJob | ExposeAwaitJob | ExposeDeleteJob | ExposeDeleteMap
    | ListIngresses | UpdateClient
    | ListForUpstreamAgain | UpdateSecret | ListDeployments | UpdateDeployment | AwaitPodsAgain
    | UpdateStatus
    | Compensate

  datatype Kind = Faulted | AlreadyExists | NotFound | Conflict

  datatype Reason = NoBinding | NoService | NoRedirectURL | IssuerNotHTTPS | NoIngress | NoHost

  datatype Error = Api(call: Call, kind: Kind) | Invalid(reason: Reason)

  /** How an event ends. `Undeleted`: something failed, and then so did the deletion of the client just created. */
  datatype Outcome = Done | Failed(cause: Error) | Undeleted(cause: Error, deletion: Error)

  function OutcomeOf(e: Option<Error>): Outcome { if e.None? then Done else Failed(e.value) }

  /** Everything the environment decides while one event is handled. A call in `faults` fails without effect. */
  datatype Oracle = Oracle(
    faults: set<Call>,
    newID: string, newSecret: string,  // of the client Dex creates
    host: ExposeConfig -> string,      // given by the expose job to the services it exposes
    appFirst: bool,                    // map order: is the app label visited before the release label?
    cleaned: set<Key>)                 // ingresses removed by the cleanup job

  // ---------- objects ----------

  datatype Key = Key(ns: string, name: string)

  datatype CookieSpec = CookieSpec(name: string, expire: string, refresh: string, secure: bool, httpOnly: bool)

  datatype Spec = Spec(
    issuerURL: string, upstream: string, domain: string, certIssuer: string, forwardToken: bool,
    cookie: CookieSpec, urlTemplate: string, skipExpose: bool)

  datatype Status = Status(clientID: string, initialized: bool)

  /** `version` is the resource version: every write of the object gives it a version never used before. */
  datatype Sso = Sso(ns: string, name: string, version: nat, spec: Spec, status: Status) {
    function Id(): Key { Key(ns, name) }
    function SecretId(): Key { Key(ns, BuildName(name, PROXY_SECRET)) }
    function DeploymentId(): Key { Key(ns, BuildName(name, "")) }
    function ExposeJobId(): Key { Key(ns, BuildName(name, EXPOSE)) }
    function CleanupJobId(): Key { Key(ns, BuildName(name, CLEANUP)) }
    function UpstreamId(): Key { Key(ns, spec.upstream) }
  }

  /** What an SSO with a short name calls its objects. */
  lemma ObjectNames(sso: Sso)
    requires |sso.name| < 50
    ensures sso.Id() == Key(sso.ns, sso.name) && sso.UpstreamId() == Key(sso.ns, sso.spec.upstream)
    ensures sso.SecretId() == Key(sso.ns, sso.name + "-proxy-secret") && sso.DeploymentId() == Key(sso.ns, sso.name)
    ensures sso.ExposeJobId() == Key(sso.ns, sso.name + "-expose")
    ensures sso.CleanupJobId() == Key(sso.ns, sso.name + "-cleanup")
  {
  }

  /** SHA-256 is taken to be injective: the digest of a text is the text under another constructor. */
  datatype Value = Text(text: string) | Digest(of: string)

  datatype EnvVar = EnvVar(name: string, value: Value)
  datatype Container = Container(name: string, env: seq<EnvVar>)
  datatype Deployment = Deployment(labels: map<string, string>, containers: seq<Container>)
  datatype Service = Service(labels: map<string, string>, annotations: map<string, string>, port: int)
  datatype ExposeConfig = ExposeConfig(
    domain: string, exposer: string, pathMode: string, http: bool, tlsAcme: bool,
    services: seq<string>, urlTemplate: string)
  datatype Action = Exposing | CleaningUp(filter: string)
  datatype Job = Job(account: string, action: Action)
  datatype Subject = Subject(kind: string, name: string, ns: string)
  datatype Binding = Binding(name: string, refKind: string, refName: string, subjects: seq<Subject>)
  datatype Client = Client(id: string, secret: string, redirectURIs: seq<string>, name: string)

  // ---------- stores, grouped by what changes together ----------

  datatype Directory = Directory(ssos: map<Key, Sso>, nextVersion: nat)

  datatype Roles = Roles(accounts: set<Key>, bindings: seq<Binding>)

  datatype Proxies = Proxies(
    secrets: map<Key, map<string, string>>, deployments: map<Key, Deployment>, services: map<Key, Service>)

  /** There is one expose config map in a namespace, whatever the SSO. */
  datatype Exposure = Exposure(
    configMaps: map<string, ExposeConfig>, jobs: map<Key, Job>, ingresses: map<Key, seq<string>>)

  /** The clients registered in Dex, by id, and every id Dex has given out. */
  datatype Registry = Registry(clients: map<string, Client>, issued: set<string>)

  // ---------- one call on one kind of object ----------

  datatype Reply<K, V> = Reply(store: map<K, V>, error: Option<Error>)

  function CreateIn<K(==), V>(store: map<K, V>, k: K, v: V, call: Call, faults: set<Call>): Reply<K, V> {
    if call in faults then Reply(store, Some(Api(call, Faulted)))
    else if k in store then Reply(store, Some(Api(call, AlreadyExists)))
    else Reply(store[k := v], None)
  }

  function UpdateIn<K(==), V>(store: map<K, V>, k: K, v: V, call: Call, faults: set<Call>): Reply<K, V> {
    if call in faults then Reply(store, Some(Api(call, Faulted)))
    else if k !in store then Reply(store, Some(Api(call, NotFound)))
    else Reply(store[k := v], None)
  }

  function DeleteIn<K(==), V>(store: map<K, V>, k: K, call: Call, faults: set<Call>): Reply<K, V> {
    if call in faults then Reply(store, Some(Api(call, Faulted)))
    else if k !in store then Reply(store, Some(Api(call, NotFound)))
    else Reply(store - {k}, None)
  }

  predicate IsAlreadyExists(e: Option<Error>) {
    e.Some? && e.value.Api? && e.value.kind == AlreadyExists
  }

  /** An error other than that the object is already there. */
  predicate Fails(e: Option<Error>) {
    e.Some? && !IsAlreadyExists(e)
  }

  /** A store after some operation, and how the operation ended. */
  datatype Effect<S, T> = Effect(store: S, result: Result<T>)
  datatype Change<S> = Change(store: S, error: Option<Error>)

  /** The stateful API server. */
  class Cluster {
    var ssos: map<Key, Sso>
    var nextVersion: nat
    var accounts: set<Key>
    var bindings: seq<Binding>
    var secrets: map<Key, map<string, string>>
    var deployments: map<Key, Deployment>
    var services: map<Key, Service>
    var configMaps: map<string, ExposeConfig>
    var jobs: map<Key, Job>
    var ingresses: map<Key, seq<string>>

    ghost function DirectoryNow(): Directory
      reads `ssos, `nextVersion
    {
      Directory(ssos, nextVersion)
    }

    ghost function RolesNow(): Roles
      reads `accounts, `bindings
    {
      Roles(accounts, bindings)
    }

    ghost function ProxiesNow(): Proxies
      reads `secrets, `deployments, `services
    {
      Proxies(secrets, deployments, services)
    }

    ghost function ExposureNow(): Exposure
      reads `configMaps, `jobs, `ingresses
    {
      Exposure(configMaps, jobs, ingresses)
    }

    /** Lists the names of the objects of one kind in a namespace, in some order. */
    static method List<T>(store: map<Key, T>, ns: string) returns (names: seq<string>)
      ensures forall n :: n in names <==> Key(ns, n) in store
      ensures forall i, j :: 0 <= i < j < |names| ==> names[i] != names[j]
    {
      names := [];
      var left := store.Keys;
      while left != {}
        invariant left <= store.Keys
        invariant forall n :: n in names <==> Key(ns, n) in store.Keys - left
        invariant forall i, j :: 0 <= i < j < |names| ==> names[i] != names[j]
        decreases left
      {
        var k :| k in left;
        left := left - {k};
        if k.ns == ns {
          assert Key(ns, k.name) == k;
          names := names + [k.name];
        }
      }
    }
  }
}
