# Verified model of the sso-operator

The sso-operator puts a single sign-on proxy in front of Kubernetes services. For every SSO resource it registers an
OIDC client in Dex, deploys an oauth2_proxy (a secret, a deployment and a service), has a job expose that proxy, reads
the resulting hosts back, rewrites client, secret and deployment, and records the client in the status of the SSO. Any
failure after the client exists triggers a compensation that deletes it again. These Dafny files model that handler, the
code its correctness rests on, and unbounded runs of it among users, other actors, faults and restarts.

## How it is modelled

- Every store (SSOs, role bindings, secrets, deployments, services, the expose config maps, jobs, ingresses, Dex
  clients) is a map or sequence held by an object of class `Cluster`, `Dex` or `OperatorSecret`. The operations are
  methods that change these objects in the order of the source, with its early exits. Each method is proved equal to a
  specification function on values (`HandleEffect`, `DeployEffect`, `UpdateEffect`, `ExposeEffect`, `CleanupEffect`,
  `EnsureEffect`, `StartEffect`); the properties are proved about those functions and about whole runs (`Run`).
- An `Oracle` holds what the environment decides while one event is handled. Its `faults` are call sites, any set of
  them. Assumption: a call at fault has no effect. A request that times out after the server has carried it out, such
  as the creation of a Dex client whose answer is lost, is not modelled; nor is a job that has done its work although
  waiting for it fails.
- The environment: Dex gives every client an id never given before; one worker handles events one after the other;
  a delete event carries the SSO as last stored; a write of an SSO fails unless its resource version is the stored one;
  the expose job gives an ingress, named by the annotation of the service, to every service named in the config map it
  reads, with one host that is some function of that config; the cleanup job removes any set of ingresses. Other actors may at any moment
  rewrite roles, services, config maps, jobs and ingresses (`Outside`), and events may come again with stale objects.
- SHA-256 is taken to be injective (the constructor `Digest`). The order in which Go visits a map is arbitrary: a
  method picks any remaining key. Polling is a finite sequence of observations. Random bytes are an input.
- Names are counted in characters; resource names are ASCII, so these are Go's bytes.

Where the pieces are: `Types` (data and single calls), `Names`, `Config`, `Labels`, `Version`, `Rbac`, `Expose`, `Proxy`
and `Operator` (the code), `Isolation` (frames and non-interference), `Sync` (what one event achieves), `Success`
(exactly when it does), `Created`, `Registration` and `Causes` (what it creates, registers and reports, spelled out),
`Reinitialize` (an SSO that is initialised again), `Runs` (the invariant of all runs),
`Accounting` (where every Dex client belongs), `Convergence` (retries), `Necessity` (why the assumptions are needed),
`RandomKey`, `CookieKey` and `Wait`.

## Main results

1. `Runs.RunKeepsSync` and `RunKeepsSyncExactly`: for SSO names of at most 50 characters, every initialised SSO stays in
   sync along a run, whatever calls fail, if (and, of configurations without line breaks, only if) no event that misreads
   the status of an initialised SSO stops between rewriting its secret and recording its client. In sync means that the client is in Dex, that the secret
   holds the configuration rendered for that client at the first redirect URL Dex has for it (section 3.1.2.3 of
   RFC 6749), for the SSO's own upstream and a cookie key that was in use, and that the deployment names the digest
   of that secret as its SECRET_VERSION, so that it has been rolled out (a deployment the operator finds without that
   variable has no place for it: `World.bare`). Runs without failed status reads are a special case. `Necessity` exhibits runs on which a misread
   status, or names one character longer, break it, and says exactly when a shared name does.
2. `Success.HandleSucceeds`: exactly when an event initialises its SSO, for every set of failing calls;
   `Registration.DoneRegistersAllHosts` says what Dex then has, and `Causes.HandleReports` that a reported cause is so.
3. `Accounting.RunLeaks`, `LeaksExactly` and `NoLeaks`: exact accounting of Dex clients over all runs.
4. `Convergence.ThreeCallsDecide`: after any number of calls that failed in any way, three calls without faults
   initialise the SSO if and only if five conditions held at first; if they did not, no number of calls ever does.
5. `Runs.EventsDoNotInterfere`: handling one SSO leaves what belongs to every other alone.
6. Exact conditions where the code falls short: `Names.BuildNameFitsLabel`, `Config.ReadConfigInverts`,
   `Labels.OrderIndependent`, `Expose.CleanupSucceeds`, `CookieKey.KeySurvives` and `StartSucceeds`.

Where the code falls short of its comments or of its own other half: the comment on `buildName` promises at most 63
characters, which fails when one part has exactly 31 and the other more (with the suffixes in use the bound holds).
`Cleanup` takes an existing config map for a failure, although `Expose`, the same protocol, tolerates one, and it ignores
every other failure to create the map. A cookie key that once cannot be read is deleted and replaced, unless the very
connection fails. A failed status read counts as "not initialised", so an initialised SSO is initialised again.

## Model

| member | source | states |
|---|---|---|
| Runs.RunKeepsSync | pkg/operator/operator.go:77-143 | Main invariant, by induction over every run of creations, deletions, restarts, interference and events with any faults: while every event is harmless, every initialised SSO stays in sync with its own Dex client, its upstream, a cookie key in use and its secret, and its deployment names the digest of that very secret, unless the deployment was found without a SECRET_VERSION at the start |
| Runs.RunKeepsSyncExactly | pkg/operator/operator.go:77-143 | For configurations without line breaks the converse too: every initialised SSO is in sync all along a run if and only if every event of it is harmless |
| Runs.GoodReadsAreHarmless | pkg/operator/operator.go:78-82 | A run in which all status reads succeed is harmless, faults of all other calls notwithstanding |
| Runs.InitiallyInSync | pkg/operator/operator.go:77-85 | Any cluster in which no SSO claims to be initialised starts such a run, whatever secrets, deployments, jobs and clients it already holds |
| Runs.NextKeepsSync | pkg/operator/operator.go:51-148 | One harmless step of any kind, whatever fails, keeps every initialised SSO in sync |
| Runs.NextLosesSync | pkg/operator/operator.go:77-143 | A step that is not harmless, writing a configuration without line breaks, takes an initialised SSO out of sync |
| Runs.NextKeepsBooks | pkg/operator/operator.go:51-148 | One step of any kind, even with a failed status read, keeps every initialised SSO's client in Dex and unshared with any other SSO, live or deleted |
| Runs.EventsDoNotInterfere | pkg/operator/operator.go:51-148 | In every reachable world an event leaves status, client, secret, deployment, service and jobs of every other SSO as they were, and the config map of every other namespace |
| Runs.SecretReadsBack | pkg/proxy/proxy.go:381-420 | What the proxy of an SSO in sync reads in its secret: the recorded client id and secret, the first URL registered in Dex, the upstream of the spec, the login and redeem endpoints of the issuer, the cookie settings of the spec and a cookie key that was in use |
| Sync.InitializeCompletes | pkg/operator/operator.go:88-147 | An initialisation that succeeds has recorded the new client in the current version of the SSO and left secret, deployment and client in agreement, at the listed port of the upstream and the cookie key given, although Deploy tolerated stale objects |
| Sync.UpdateSyncs | pkg/proxy/proxy.go:254-295 | A successful Update leaves the secret with the configuration of the client for the given cookie key and the listed port of the upstream, and the deployment with the version of that very secret, whatever both said before |
| Sync.RolloutExact | pkg/proxy/proxy.go:272-287 | After a rollout every version variable in every container has the new value, and names, labels, lengths and all other variables are unchanged |
| Sync.DeployProvides | pkg/proxy/proxy.go:135-226 | A successful Deploy leaves secret, deployment and service in place, its own or those it found |
| Created.DeployLeaves | pkg/proxy/proxy.go:126-251 | Exactly which of the three objects are there after Deploy, whatever fails, and what those it creates say: a secret with the rendered configuration alone, a deployment whose one container names SECRET_VERSION with the digest of that text, and a service on port 80 that announces the ingress of the application |
| Sync.HandleBares | pkg/proxy/proxy.go:348-351 | No event creates a deployment without SECRET_VERSION or takes the variable from one |
| Sync.InitializeVersions | pkg/operator/operator.go:130-147 | After a successful initialisation the deployment names the digest of the secret then stored, unless one without the variable stood there before |
| Success.HandleSucceeds | pkg/operator/operator.go:51-147 | Exactly when an event that has to initialise its SSO succeeds, for every set of failing calls: granted, the secret rewritten, the rollout and the status write unhindered, and the SSO still in the version seen |
| Success.InitializeOutcome | pkg/operator/operator.go:88-157 | Exactly when an initialisation succeeds, and exactly when a failed one leaves its client behind |
| Success.ProvideWrites | pkg/operator/operator.go:96-143 | Exactly when the secret is rewritten and what it then holds; otherwise an existing secret and deployment are as before |
| Success.DeployOutcome | pkg/proxy/proxy.go:126-251 | Exactly when Deploy succeeds; it adds at most the proxy service to the services, and never alters an existing secret or deployment |
| Success.UpdateLeaves | pkg/proxy/proxy.go:254-295 | Exactly when Update rolls the deployment out, whatever fails, and to the digest of which text; otherwise the deployment is as it was |
| Registration.DoneRegistersAllHosts | pkg/operator/operator.go:112-129 | A call that initialises its SSO has registered in Dex one https callback URL for every host of the application's ingress, in order, and left id, secret and name of the client as they were made |
| Registration.InitializeRegisters | pkg/operator/operator.go:88-157 | Whatever fails, a client left in Dex is named for the SSO and has the URLs of the hosts found, or the placeholder if the call did not come so far |
| Registration.OwnHostFound | pkg/proxy/expose.go:215-244 | With nobody else's config map or service in the way, the only host found is the one made from the SSO's own domain and URL template, over TLS |
| Causes.HandleReports | pkg/operator/operator.go:51-157 | Whatever fails, the cause an event reports is the case: a call at fault that the event makes, or the very condition the error names; and a compensation said to have failed was at fault |
| Causes.ConfigReports | pkg/proxy/proxy.go:381-420 | Of the four ways in which there is no configuration exactly the first that is so is reported |
| Causes.HandleLeavesOwn | pkg/proxy/expose.go:35-134 | A config map that an event leaves describes the SSO's own service, and a job it leaves runs as the account granted in the namespace |
| Reinitialize.HandleAgain | pkg/operator/operator.go:77-143 | Exactly when an event keeps an initialised SSO in sync whose status it may misread: if it rewrites the secret, it must also finish; if it does not, the status is left as it was |
| Isolation.NonInterference | pkg/operator/operator.go:51-148 | Handling one SSO with any faults leaves another's objects unchanged whenever the two do not share a built name |
| Isolation.RedeliveryChangesNothing | pkg/operator/operator.go:77-85 | An event of an SSO initialised by now, however stale, changes no store when the read succeeds and the namespace has its subject |
| Isolation.InitializeFrame | pkg/operator/operator.go:88-157 | An initialisation touches no client but its own, which stays exactly if the outcome is success or a failed compensation; a failed one leaves every SSO as it was |
| Isolation.RemoveFrame | pkg/operator/operator.go:63-75 | A delete event removes exactly the recorded client when it succeeds, no client otherwise, and changes nothing besides but the exposure |
| Isolation.DeployFrame | pkg/proxy/proxy.go:126-251 | Deploy changes at most the secret, the deployment and the service with the names of its SSO |
| Isolation.UpdateFrame | pkg/proxy/proxy.go:254-295 | Update changes at most its secret and its deployment, creates and removes nothing, and leaves all services |
| Accounting.Partition | pkg/operator/operator.go:63-143 | The clients of Dex are the disjoint union of those named by exactly one live initialised SSO, those waiting for a delete event, and the leaked ones |
| Accounting.NextLeaks | pkg/operator/operator.go:137-157 | A step adds to the leaked clients exactly what it leaks, and never takes one away |
| Accounting.LeaksExactly | pkg/operator/operator.go:77-157 | What a step leaks, foretold from the state and the faults: the former client of an SSO initialised again, the new client of a failed initialisation whose deletion fails too, or nothing; so a leak takes a failed compensation or a failed status read of an initialised SSO |
| Accounting.RunLeaks | pkg/operator/operator.go:137-157 | Over any run the number of leaked clients grows by exactly the number of leaks on the way |
| Accounting.NoLeaks | pkg/operator/operator.go:150-157 | Exactly the runs whose events all foresee no leak leave the leaked clients as they were |
| Accounting.GoodCallsLeakNothing | pkg/operator/operator.go:77-157 | Without failed status reads and failed compensations no run leaks a client, whatever else fails |
| Accounting.BlockedDeletes | pkg/operator/operator.go:63-75 | While a config map stands in a namespace, no number of delete events there changes anything but the roles: the clients stay |
| Accounting.UnblockedDelete | pkg/operator/operator.go:63-75 | Exactly when a delete event succeeds, for any faults: granted, its cleanup unhindered and its client pending; then just that client is gone |
| Convergence.HandleUnfaulted | pkg/operator/operator.go:86-147 | Exactly when one call without faults initialises an SSO: a role binding, an upstream service, an HTTPS issuer, no leftover expose job, an ingress with hosts for the application, and the current version of the SSO |
| Convergence.HandleDecreases | pkg/proxy/expose.go:35-84 | If the conditions are met, a call without faults that fails strictly decreases the measure: a leftover expose job, plus a config map that would leave the application without hosts |
| Convergence.FailureDecidesNothing | pkg/operator/operator.go:96-143 | After a failed call, whatever failed, the conditions are met exactly if they were before |
| Convergence.Converges | pkg/operator/operator.go:86-147 | If the conditions are met, one call without faults more than the measure initialises the SSO, with a client made on the way, and the rest of the calls change nothing |
| Convergence.ThreeCallsDecide | pkg/operator/operator.go:86-147 | After any number of calls failed in any way, three without faults initialise the SSO if and only if at first there were a role binding, the current version of the SSO, its upstream, an HTTPS issuer, and hosts for the application or (unless exposing is skipped) a service that announces its ingress, under the name of the SSO or in the config map; it is then in sync with a client of one of the three |
| Convergence.SettledStays | pkg/operator/operator.go:77-85 | Once initialised, any further deliveries leave the whole system as it is |
| Convergence.Hopeless | pkg/operator/operator.go:86-147 | If one of these conditions is not met, every sequence of calls with any faults or none fails, and the SSO is never initialised |
| Convergence.DoneIsAttainable | pkg/operator/operator.go:86-147 | No call gets through, under any faults, unless the conditions are met |
| Necessity.MisreadLosesSync | pkg/operator/operator.go:77-135 | Wherever a call could rewrite the secret, failing just the status read and the listing of deployments leaves an SSO that was in sync out of sync, with an unchanged status and no trace of the new client in Dex |
| Necessity.MisreadExample | pkg/operator/operator.go:77-135 | For any valid name, a concrete run of one event with these two faults on which the main invariant fails |
| Necessity.SharedSecretDecides | pkg/proxy/proxy.go:422-435 | Exactly when an event takes any SSO out of sync, for any faults: if it rewrites a secret and theirs has the same name |
| Necessity.SharedSecretLosesSync | pkg/proxy/proxy.go:422-435 | So an initialisation that gets through takes every SSO out of sync that shares its secret |
| Necessity.LongNamesExample | pkg/proxy/proxy.go:96-97 | For any two names of one character too many that differ in the last, a concrete system in which, without any fault, initialising one SSO takes the other out of sync |
| Operator.Handler.Handle | pkg/operator/operator.go:51-148 | The stateful handler leaves stores and outcome as the specification function says on every path, for live and delete events |
| Operator.Handler.Initialize | pkg/operator/operator.go:88-147 | The client is created, and any later error ends in its deletion, the outcome naming the cause |
| Operator.Handler.Undo | pkg/operator/operator.go:150-157 | The compensation deletes the one client and reports the cause, together with the failure of the deletion if there is one |
| Operator.Handler.Provide | pkg/operator/operator.go:96-110 | Deploys and, unless told to skip it, exposes, stopping at the first error with all effects so far |
| Operator.Handler.Publish | pkg/operator/operator.go:112-143 | Hosts found become the client's redirect URLs in Dex, then in secret and deployment, then in the status |
| Operator.Handler.UpdateSso | pkg/operator/operator.go:137-143 | The status is written under a new version exactly if the SSO exists in the version the handler has seen |
| Operator.Dex.Create | pkg/dex/client.go:68-90 | A client is registered under a fresh id, and no other client changes |
| Operator.Dex.Update | pkg/dex/client.go:93-112 | A known client gets new URLs and name and keeps id and secret; an unknown one is an error without effect |
| Operator.Dex.Delete | pkg/dex/client.go:115-127 | A known client is removed alone; an unknown one is an error without effect |
| Operator.IsSSOInitialized | pkg/kubernetes/sso.go:10-28 | True exactly if the live SSO of that name is initialised, whatever order the list has; an SSO that is gone is not |
| Operator.FindIngressHosts | pkg/kubernetes/ingress.go:11-33 | All hosts of the ingress of that name in the order of its rules, or an error if the listing fails or there is none |
| Proxy.Deploy | pkg/proxy/proxy.go:126-251 | Creates secret, deployment and service, tolerates those that exist, and stops at any other error; the secret it returns has the one entry Update relies on |
| Proxy.Update | pkg/proxy/proxy.go:254-295 | Secret and deployment end as specified on every path; the version comes from the rewritten secret |
| Proxy.UpdateProxySecret | pkg/proxy/proxy.go:422-435 | The secret keeps its single entry, now the new configuration, in memory and in the cluster |
| Proxy.UpdateDeployments | pkg/proxy/proxy.go:272-287 | The deployment of the name is rolled out if it is listed, in whatever order, and every other deployment is unchanged |
| Proxy.UpdateContainers | pkg/proxy/proxy.go:274-277 | Writing through the copied loop variable reaches the environments of the deployment itself |
| Proxy.UpdateContainer | pkg/proxy/proxy.go:297-303 | In place, every entry of the version's name gets the value and every other entry stays |
| Proxy.ProxyConfig | pkg/proxy/proxy.go:381-420 | The rendered configuration for the client's first redirect URL, or the first of four errors that applies |
| Proxy.FindService | pkg/proxy/proxy.go:496-502 | Finds the service of the name in the namespace exactly if there is one |
| Proxy.RedirectURLs | pkg/proxy/proxy.go:71-78 | One callback URL for each host, in order |
| Proxy.ConvertHostsToRedirectURLs | pkg/proxy/proxy.go:71-78 | The loop that appends them builds that list |
| Expose.Expose | pkg/proxy/expose.go:35-84 | The protocol on config map and job ends as specified on every path, reading the map that is actually there |
| Expose.Cleanup | pkg/proxy/expose.go:87-134 | The same for the cleanup, whose test on an existing map is the opposite one |
| Expose.ExposeSucceeds | pkg/proxy/expose.go:35-84 | Exactly when Expose succeeds; then neither its job nor a config map is left, and the job read the map that stood there, or its own if none did |
| Expose.ExposeLeavesJob | pkg/proxy/expose.go:46-76 | Exactly when a call leaves its job, whatever fails, and which |
| Expose.ExposeLeavesMap | pkg/proxy/expose.go:36-83 | Exactly when a call leaves a config map, and ingresses, whatever fails; a map of its own has the SSO's domain and URL template, the exposer Ingress, no path mode, no http, TLS, and the one service |
| Expose.ExposeFrame | pkg/proxy/expose.go:35-84 | Whatever fails, only its own job and the map of its namespace can change, and a map that stays keeps its content |
| Expose.ExposeAfterLeftoverJob | pkg/proxy/expose.go:46-58 | With its job left over, a call without faults fails but removes the job, and the next succeeds |
| Expose.CleanupSucceeds | pkg/proxy/expose.go:87-134 | Exactly when Cleanup succeeds under any faults: an existing map must escape notice by a fault of the call that would find it |
| Expose.CleanupLeavesJob | pkg/proxy/expose.go:97-126 | Exactly when a cleanup leaves its job, whatever fails, and which; a job left over from before is dropped unless the call stops before or at it |
| Expose.CleanupLeavesMap | pkg/proxy/expose.go:88-133 | Exactly when a cleanup leaves a config map, of what content, and which ingresses |
| Expose.CleanupSucceedsUnfaulted | pkg/proxy/expose.go:87-134 | Without faults exactly when neither the config map nor the cleanup job is there |
| Expose.FailedCleanupLeavesMap | pkg/proxy/expose.go:92-131 | A call that created the map leaves it behind exactly if it fails |
| Expose.CleanupFrame | pkg/proxy/expose.go:87-134 | Whatever fails, only its own job and the map of its namespace can change |
| Expose.CleanupsBlocked | pkg/proxy/expose.go:92-95 | With the map there, every later Cleanup of any SSO of the namespace fails and changes nothing |
| Rbac.EnsureClusterRoleBinding | pkg/kubernetes/rbac.go:20-61 | The nested search works on the first binding of the role and the first account of the namespace, with every error path |
| Rbac.CreateServiceAccount | pkg/kubernetes/rbac.go:64-93 | An existing account is reused, a missing one is created, and a failed read of an existing one ends in an error |
| Rbac.EnsureGrants | pkg/kubernetes/rbac.go:20-61 | A call never removes or reorders subjects, adds at most one and to the first binding of the role only, and if it succeeds the returned account is a subject for the namespace |
| Rbac.GrowsTheRolesBinding | pkg/kubernetes/rbac.go:30-57 | If a binding grows, it is the first that refers to a ClusterRole of the operator's role name, by the one subject it lacked |
| Rbac.GrantedByTheRole | pkg/kubernetes/rbac.go:30-57 | A success means that such a binding has the returned account among its subjects, for the namespace |
| Rbac.NoBindingOfTheRole | pkg/kubernetes/rbac.go:60 | Without such a binding the call fails and changes nothing |
| Rbac.EnsureSucceeds | pkg/kubernetes/rbac.go:20-93 | Exactly when a call succeeds: a binding of the role is there, and no call that the present subjects and accounts make necessary fails |
| Rbac.EnsureIdempotent | pkg/kubernetes/rbac.go:33-37 | After a success the next call returns the same account and changes nothing |
| Rbac.AttemptsExtend | pkg/kubernetes/rbac.go:20-61 | Over any run of calls, failed or not, subjects only grow, by at most one for each namespace |
| Names.BuildNameFitsLabel | pkg/proxy/proxy.go:81-106 | At most 63 characters (section 2.3.4 of RFC 1035) if and only if not one part has 31 and the other more; every slice is in range |
| Names.BuildNameParts | pkg/proxy/proxy.go:81-106 | The result is a prefix of the name, a dash and a prefix of the suffix, in full where that fits, and at least 61 characters long where anything is cut |
| Types.ObjectNames | pkg/proxy/proxy.go:81-106 | The secret and jobs of an SSO with a short name are its name with -proxy-secret, -expose and -cleanup, its deployment and service the name itself |
| Names.OperatorNamesFitLabel | pkg/proxy/proxy.go:81-106 | With each suffix the operator uses, every name fits |
| Names.CollisionLaw | pkg/proxy/proxy.go:96-105 | Under one suffix shorter than 31 two names collide exactly if the cut and trimmed prefixes are equal |
| Names.ShortNamesNeverCollide | pkg/proxy/proxy.go:81-106 | Distinct names of at most 62 characters less the suffix and without a final dash never collide |
| Names.LongNamesCollide | pkg/proxy/proxy.go:96-97 | That length is sharp: one character more and two names share a secret |
| Names.SharedDeploymentSharesSecret | pkg/proxy/proxy.go:81-106 | Names that give the same deployment also give the same secret |
| Names.JobNamesDiffer | pkg/proxy/expose.go:136-138 | No expose job has the name of a cleanup job, nor a proxy secret that of the operator's secret, for any two SSOs |
| Names.BuildNameKeepsLabels | pkg/proxy/proxy.go:90-105 | Every branch turns host labels (section 2.1 of RFC 1123) without doubled dashes into such a label |
| Names.BuildNameIdempotent | pkg/proxy/proxy.go:89-105 | Building the name of a built name changes nothing, for every name |
| Config.ReadConfigInverts | pkg/proxy/config.go:39-115 | A line reader recovers port, booleans and all strings of a rendered configuration if and only if no string spans lines; double quotes do no harm |
| Config.RenderInjective | pkg/proxy/config.go:100-115 | The text of a configuration without line breaks is the text of no other configuration, single-line or not |
| Config.RenderNotInjective | pkg/proxy/config.go:46-48 | With line breaks it fails, for infinitely many pairs of configurations |
| Config.RenderShows | pkg/proxy/config.go:39-98 | Each of the sixteen settings stands on a line of its own under its own name |
| Config.RenderShowsFixed | pkg/proxy/config.go:39-98 | The fixed settings, the provider and scope among them, stand in every file |
| Config.ReadDecimalInverts | pkg/proxy/config.go:43 | The decimal form of every integer is read back and holds no line break |
| Version.ComputeSecretVersion | pkg/proxy/proxy.go:305-313 | Digests the entries in the order the map yields; for the one entry the operator stores, the same in any order |
| Version.VersionFollowsConfig | pkg/proxy/proxy.go:305-313 | SECRET_VERSION changes exactly if the rendered text does, and for a configuration without line breaks exactly if the configuration does |
| Version.TwoKeysCanDiffer | pkg/proxy/proxy.go:307-309 | With two entries the order of the map could show, so the single entry is needed |
| Labels.GetAppName | pkg/proxy/proxy.go:514-534 | The loop over the labels, with its early break and any order, computes the name its order of the two labels determines |
| Labels.EveryOrder | pkg/proxy/proxy.go:519-527 | For every enumeration of the labels the result depends on no more than which of the two labels comes first |
| Labels.OrderIndependent | pkg/proxy/proxy.go:514-534 | The order shows if and only if the app label is empty, the release label is not, and the release prefix occurs in the name |
| Labels.ConventionalNames | pkg/proxy/proxy.go:528-534 | A non-empty app label wins, a release prefix is cut off, and a service without these labels gives its name |
| Labels.FindIsFirst | pkg/proxy/proxy.go:532 | The occurrence that is replaced is the first |
| Labels.RemovesTheFirst | pkg/proxy/proxy.go:532 | The first occurrence, wherever it is, is taken out, and what is before and after it stays |
| CookieKey.OperatorSecret.NewHandler | pkg/operator/operator.go:17-41 | A start leaves secret and key as specified on every path |
| CookieKey.OperatorSecret.Read | pkg/operator/config.go:20-50 | Returns the stored key, or drops whatever it could not read or found without a key |
| CookieKey.OperatorSecret.Drop | pkg/operator/config.go:52-58 | Removes the secret unless the call fails |
| CookieKey.OperatorSecret.Store | pkg/operator/config.go:60-83 | Stores the key exactly if the call succeeds and no secret is there |
| CookieKey.StartUsesStoredKey | pkg/operator/operator.go:17-41 | Whenever the operator starts, the key in memory is the stored one |
| CookieKey.StartSucceeds | pkg/operator/operator.go:17-41 | Exactly when the operator starts: a key is read, or no secret is there once the read is over and neither generating nor storing fails; the key is then the one read, or a new alphanumeric one that is now stored |
| CookieKey.StartsUnfaulted | pkg/operator/operator.go:17-41 | From any state, a fresh installation included, the operator starts if no call fails, with a key that is stored, a new one of 32 characters |
| CookieKey.KeySurvives | pkg/operator/config.go:26-50 | Exactly when a stored key survives a start: not if the read fails and the secret is then dropped |
| CookieKey.KeyIsStable | pkg/operator/config.go:20-50 | Over any restarts in which reads of the stored key succeed it never changes, and every started operator uses it |
| CookieKey.KeysAreMade | pkg/operator/operator.go:22-29 | Over any restarts with any faults every stored key is 32 letters and digits |
| RandomKey.GenerateSecret | pkg/proxy/proxy.go:465-475 | The in-place loop maps every byte to its letter, in range, and returns the result |
| RandomKey.SecretIsAlphanumeric | pkg/proxy/proxy.go:466-473 | Every character is a letter or digit |
| RandomKey.PreimagesExact | pkg/proxy/proxy.go:471-473 | The set counted below holds exactly the byte strings that give a secret |
| RandomKey.PreimagesCount | pkg/proxy/proxy.go:471-473 | Every alphanumeric secret of length n has exactly 5^k * 4^(n-k) of them, k the number of its characters in 0 to 7 |
| Wait.WaitForPodsWithLabelRunning | pkg/kubernetes/wait.go:107-142 | Succeeds exactly if some poll sees at least one pod, all running with all containers ready, and never fails before the time is up |
| Wait.WaitForService | pkg/kubernetes/wait.go:176-199 | Succeeds exactly if some poll sees the service appear or disappear as wanted and no earlier one a hopeless error |
| Wait.WaitForJobComplete | pkg/kubernetes/wait.go:233-264 | Succeeds exactly if some poll sees conditions, all complete, before any poll sees another condition or a hopeless error |
| Wait.OneResult | pkg/kubernetes/wait.go:107-264 | A sequence of polls has exactly one result, so the meaning of the waiters is complete |
| Wait.PodsMeaning | pkg/kubernetes/wait.go:117-140 | The wait succeeds exactly if some poll lists at least one pod, all of them running with every container ready |
| Wait.ServiceMeaning | pkg/kubernetes/wait.go:176-199 | It succeeds exactly if the wanted answer comes before any hopeless one, and times out exactly if no answer decides |
| Wait.JobMeaning | pkg/kubernetes/wait.go:233-264 | It succeeds exactly if the first conditions to be seen are all complete and no hopeless error comes before, and times out exactly if no answer decides |

## Left out

- Start-up and wiring: command-line flags, gRPC and TLS, Kubernetes clients, the liveness server, logging, CRD
  registration, Helm charts and generated code under pkg/client.
- Getting a Kubernetes client set before a call: its failure counts as a failure of the call it precedes.
- The internals of SHA-256, base64, YAML, text/template and the random source, and the time polls take.
- Convergence.ThreeCallsDecide: an SSO whose application's name depends on the order of its upstream's labels
  (`Labels.OrderIndependent`) is not covered: its calls may each look for another ingress.
- Runs.RunKeepsSyncExactly: the converse is stated for configurations without line breaks; of the others two may have
  one text (`Config.RenderNotInjective`).
- Accounting.LeaksExactly: a Dex client whose creation was carried out but not answered is not modelled.
- Operator.Dex.Create: the AlreadyExists answer, which Dex does not give to a request without an id, is not modelled.
- Operator.Handler.Handle: a crash of the operator in the middle of an event is not modelled; restarts come between
  events. The exits that each call the compensation are joined in one place.
- Proxy.Deploy: images, probes, resources, volumes, selectors, pull secrets and owner references are constants of the
  objects and left out; so is garbage collection by owner reference.
- Proxy.ProxyConfig: a service without ports, for which the source panics, is not modelled; services have one port.
- Proxy.UpdateDeployments: a concurrent write of a listed deployment shows only as a failed update.
- Expose.Expose: a wait that fails leaves the ingresses as they were; that the job has run all the same is not modelled.
- Expose.Cleanup: the same holds of the ingresses it removes.
- Expose.ExposeSucceeds: a config map of another actor is a record of settings, not YAML text; the job sees it unchanged.
- Config.RenderShows: the template's comment lines, which no reader keeps, are not rendered.
- The waiters used by Deploy, Update, Expose and Cleanup: within an event each is one call that may fail; `Wait` says
  separately when they succeed. The error tests of `IsRetryableAPIError` are reduced to the kinds of answer they tell apart.
- The waiters the operator does not use (`WaitForPodReady`, `WaitForPodComplete`, `WaitForDeploymentToStabilize`,
  `WaitForServiceEndpointsNum`): the same pattern again.
- Changes of an SSO's spec by its user: the operator ignores them once the SSO is initialised.
