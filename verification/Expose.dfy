/** The jobs that make a service public and take that back, and the config map they share in a namespace. */
module Expose {
  import opened Types

  const EXPOSER := "Ingress"
  const INGRESS_NAME := "fabric8.io/ingress.name"

  function ExposeConfigFor(sso: Sso, service: string): ExposeConfig {
    ExposeConfig(sso.spec.domain, EXPOSER, "", false, true, [service], sso.spec.urlTemplate)
  }

  // ---------- the environment: what the expose job does ----------

  function IngressName(service: string, s: Service): string {
    if INGRESS_NAME in s.annotations then s.annotations[INGRESS_NAME] else service
  }

  /** The job gives an ingress, with the host its config makes, to every existing service that config names. */
  function Exposed(
    ingresses: map<Key, seq<string>>, services: map<Key, Service>, ns: string, read: ExposeConfig,
    host: ExposeConfig -> string)
    : map<Key, seq<string>>
  {
    ingresses +
    map s | s in read.services && Key(ns, s) in services ::
      Key(ns, IngressName(s, services[Key(ns, s)])) := [host(read)]
  }

  // ---------- the effect of the calls ----------

  function ExposeEffect(
    x: Exposure, services: map<Key, Service>, sso: Sso, service: string, account: string, o: Oracle): Change<Exposure>
  {
    var maps := CreateIn(x.configMaps, sso.ns, ExposeConfigFor(sso, service), ExposeCreateMap, o.faults);
    if Fails(maps.error) then Change(x, maps.error)
    else ExposeWithMap(x.(configMaps := maps.store), services, sso, account, o)
  }

  /** What follows once the config map is there. */
  function ExposeWithMap(
    x: Exposure, services: map<Key, Service>, sso: Sso, account: string, o: Oracle): Change<Exposure>
    requires sso.ns in x.configMaps
  {
    var id := sso.ExposeJobId();
    var jobs := CreateIn(x.jobs, id, Job(account, Exposing), ExposeCreateJob, o.faults);
    if IsAlreadyExists(jobs.error) then
      var drop := DeleteIn(x.jobs, id, ExposeDropJob, o.faults);
      Change(x.(jobs := drop.store), if drop.error.Some? then drop.error else jobs.error)
    else if jobs.error.Some? then Change(x, jobs.error)
    else if ExposeAwaitJob in o.faults then
      Change(x.(jobs := jobs.store), Some(Api(ExposeAwaitJob, Faulted)))
    else
      var ingresses := Exposed(x.ingresses, services, sso.ns, x.configMaps[sso.ns], o.host);
      var done := DeleteIn(jobs.store, id, ExposeDeleteJob, o.faults);
      if done.error.Some? then Change(x.(jobs := done.store, ingresses := ingresses), done.error)
      else
        var maps := DeleteIn(x.configMaps, sso.ns, ExposeDeleteMap, o.faults);
        Change(Exposure(maps.store, done.store, ingresses), maps.error)
  }

  function CleanupEffect(x: Exposure, sso: Sso, service: string, account: string, o: Oracle): Change<Exposure> {
    var maps := CreateIn(x.configMaps, sso.ns, ExposeConfigFor(sso, service), CleanupCreateMap, o.faults);
    if IsAlreadyExists(maps.error) then Change(x, maps.error)
    else CleanupWithMap(x.(configMaps := maps.store), sso, service, account, o)
  }

  /** What follows unless the config map was already there. Any other failure to create it goes unnoticed. */
  function CleanupWithMap(x: Exposure, sso: Sso, service: string, account: string, o: Oracle): Change<Exposure> {
    var id := sso.CleanupJobId();
    var jobs := CreateIn(x.jobs, id, Job(account, CleaningUp(service)), CleanupCreateJob, o.faults);
    if IsAlreadyExists(jobs.error) then
      var drop := DeleteIn(x.jobs, id, CleanupDropJob, o.faults);
      Change(x.(jobs := drop.store), if drop.error.Some? then drop.error else jobs.error)
    else if jobs.error.Some? then Change(x, jobs.error)
    else if CleanupAwaitJob in o.faults then
      Change(x.(jobs := jobs.store), Some(Api(CleanupAwaitJob, Faulted)))
    else
      var ingresses := x.ingresses - o.cleaned;
      var done := DeleteIn(jobs.store, id, CleanupDeleteJob, o.faults);
      if done.error.Some? then Change(x.(jobs := done.store, ingresses := ingresses), done.error)
      else
        var maps := DeleteIn(x.configMaps, sso.ns, CleanupDeleteMap, o.faults);
        Change(Exposure(maps.store, done.store, ingresses), maps.error)
  }

  // ---------- the calls ----------

  method Expose(cluster: Cluster, sso: Sso, service: string, account: string, o: Oracle) returns (err: Option<Error>)
    modifies cluster`configMaps, cluster`jobs, cluster`ingresses
    ensures Change(cluster.ExposureNow(), err) ==
            ExposeEffect(old(cluster.ExposureNow()), cluster.services, sso, service, account, o)
  {
    var created := CreateIn(cluster.configMaps, sso.ns, ExposeConfigFor(sso, service), ExposeCreateMap, o.faults);
    cluster.configMaps := created.store;
    if created.error.Some? && !IsAlreadyExists(created.error) {
      return created.error;
    }

    var id := sso.ExposeJobId();
    var started := CreateIn(cluster.jobs, id, Job(account, Exposing), ExposeCreateJob, o.faults);
    cluster.jobs := started.store;
    if started.error.Some? {
      if IsAlreadyExists(started.error) {
        var dropped := DeleteIn(cluster.jobs, id, ExposeDropJob, o.faults);
        cluster.jobs := dropped.store;
        if dropped.error.Some? {
          return dropped.error;
        }
      }
      return started.error;
    }

    if ExposeAwaitJob in o.faults {
      return Some(Api(ExposeAwaitJob, Faulted));
    }
    cluster.ingresses :=
      Exposed(cluster.ingresses, cluster.services, sso.ns, cluster.configMaps[sso.ns], o.host);

    var done := DeleteIn(cluster.jobs, id, ExposeDeleteJob, o.faults);
    cluster.jobs := done.store;
    if done.error.Some? {
      return done.error;
    }
    var removed := DeleteIn(cluster.configMaps, sso.ns, ExposeDeleteMap, o.faults);
    cluster.configMaps := removed.store;
    return removed.error;
  }

  method Cleanup(cluster: Cluster, sso: Sso, service: string, account: string, o: Oracle) returns (err: Option<Error>)
    modifies cluster`configMaps, cluster`jobs, cluster`ingresses
    ensures Change(cluster.ExposureNow(), err) == CleanupEffect(old(cluster.ExposureNow()), sso, service, account, o)
  {
    var created := CreateIn(cluster.configMaps, sso.ns, ExposeConfigFor(sso, service), CleanupCreateMap, o.faults);
    cluster.configMaps := created.store;
    if created.error.Some? && IsAlreadyExists(created.error) {
      return created.error;
    }

    var id := sso.CleanupJobId();
    var started := CreateIn(cluster.jobs, id, Job(account, CleaningUp(service)), CleanupCreateJob, o.faults);
    cluster.jobs := started.store;
    if started.error.Some? {
      if IsAlreadyExists(started.error) {
        var dropped := DeleteIn(cluster.jobs, id, CleanupDropJob, o.faults);
        cluster.jobs := dropped.store;
        if dropped.error.Some? {
          return dropped.error;
        }
      }
      return started.error;
    }

    if CleanupAwaitJob in o.faults {
      return Some(Api(CleanupAwaitJob, Faulted));
    }
    cluster.ingresses := cluster.ingresses - o.cleaned;

    var done := DeleteIn(cluster.jobs, id, CleanupDeleteJob, o.faults);
    cluster.jobs := done.store;
    if done.error.Some? {
      return done.error;
    }
    var removed := DeleteIn(cluster.configMaps, sso.ns, CleanupDeleteMap, o.faults);
    cluster.configMaps := removed.store;
    return removed.error;
  }

  // ---------- what Expose achieves ----------

  /** A config that has the one service exposed at the SSO's domain, by an ingress with TLS. */
  predicate Describes(c: ExposeConfig, spec: Spec, service: string) {
    && c.domain == spec.domain && c.urlTemplate == spec.urlTemplate && c.services == [service]
    && c.exposer == "Ingress" && c.pathMode == "" && !c.http && c.tlsAcme
  }

  /** The config map the job would read: the one that is there, or this service's own. */
  function ReadBy(x: Exposure, sso: Sso, service: string): (read: ExposeConfig)
    ensures sso.ns !in x.configMaps ==> Describes(read, sso.spec, service)
  {
    if sso.ns in x.configMaps then x.configMaps[sso.ns] else ExposeConfigFor(sso, service)
  }

  predicate ExposeUnhindered(o: Oracle) {
    o.faults !! {ExposeCreateMap, ExposeCreateJob, ExposeAwaitJob, ExposeDeleteJob, ExposeDeleteMap}
  }

  /** The config map is there for the job, its own or another's, and the job is started. */
  predicate Starts(x: Exposure, sso: Sso, faults: set<Call>) {
    ExposeCreateMap !in faults && ExposeCreateJob !in faults && sso.ExposeJobId() !in x.jobs
  }

  /** The job has run and is taken away. */
  predicate Ends(x: Exposure, sso: Sso, faults: set<Call>) {
    Starts(x, sso, faults) && ExposeAwaitJob !in faults && ExposeDeleteJob !in faults
  }

  /** Exactly when a call leaves a job, whatever fails, and which. */
  lemma ExposeLeavesJob(
    x: Exposure, services: map<Key, Service>, sso: Sso, service: string, account: string, o: Oracle)
    ensures var y, id := ExposeEffect(x, services, sso, service, account, o).store, sso.ExposeJobId();
            && (id in y.jobs <==>
                  if id in x.jobs then
                    ExposeCreateMap in o.faults || ExposeCreateJob in o.faults || ExposeDropJob in o.faults
                  else Starts(x, sso, o.faults) && !Ends(x, sso, o.faults))
            && (id in y.jobs ==> y.jobs[id] == if id in x.jobs then x.jobs[id] else Job(account, Exposing))
  {
  }

  lemma WithMapLeaves(x: Exposure, services: map<Key, Service>, sso: Sso, account: string, o: Oracle)
    requires sso.ns in x.configMaps
    ensures var y := ExposeWithMap(x, services, sso, account, o).store;
            var runs := ExposeCreateJob !in o.faults && sso.ExposeJobId() !in x.jobs && ExposeAwaitJob !in o.faults;
            && y.configMaps ==
               (if runs && ExposeDeleteJob !in o.faults && ExposeDeleteMap !in o.faults then x.configMaps - {sso.ns}
                else x.configMaps)
            && y.ingresses ==
               (if runs then Exposed(x.ingresses, services, sso.ns, x.configMaps[sso.ns], o.host) else x.ingresses)
  {
  }

  /** Exactly when a call leaves a config map, whatever fails, and which, and exactly what ingresses it leaves. */
  lemma ExposeLeavesMap(
    x: Exposure, services: map<Key, Service>, sso: Sso, service: string, account: string, o: Oracle)
    ensures var y := ExposeEffect(x, services, sso, service, account, o).store;
            && (sso.ns in y.configMaps <==>
                  && (sso.ns in x.configMaps || ExposeCreateMap !in o.faults)
                  && !(Ends(x, sso, o.faults) && ExposeDeleteMap !in o.faults))
            && (sso.ns in y.configMaps ==>
                  if sso.ns in x.configMaps then y.configMaps[sso.ns] == x.configMaps[sso.ns]
                  else Describes(y.configMaps[sso.ns], sso.spec, service))
            && y.ingresses ==
               if Starts(x, sso, o.faults) && ExposeAwaitJob !in o.faults then
                 Exposed(x.ingresses, services, sso.ns, ReadBy(x, sso, service), o.host)
               else x.ingresses
  {
    var maps := CreateIn(x.configMaps, sso.ns, ExposeConfigFor(sso, service), ExposeCreateMap, o.faults);
    if !Fails(maps.error) {
      WithMapLeaves(x.(configMaps := maps.store), services, sso, account, o);
    }
  }

  /** Exactly when it succeeds, and then neither its job nor a config map is left, whatever map was there. */
  lemma ExposeSucceeds(
    x: Exposure, services: map<Key, Service>, sso: Sso, service: string, account: string, o: Oracle)
    ensures var c := ExposeEffect(x, services, sso, service, account, o);
            && (c.error.None? <==> ExposeUnhindered(o) && sso.ExposeJobId() !in x.jobs)
            && (c.error.None? ==>
                  c.store == Exposure(
                    x.configMaps - {sso.ns}, x.jobs,
                    Exposed(x.ingresses, services, sso.ns, ReadBy(x, sso, service), o.host)))
  {
    var c := ExposeEffect(x, services, sso, service, account, o);
    if c.error.None? {
      assert c.store.jobs == x.jobs;
      assert c.store.configMaps == x.configMaps - {sso.ns};
    }
  }

  lemma WithMapJobs(x: Exposure, services: map<Key, Service>, sso: Sso, account: string, o: Oracle)
    requires sso.ns in x.configMaps
    ensures var y := ExposeWithMap(x, services, sso, account, o).store;
            y.jobs - {sso.ExposeJobId()} == x.jobs - {sso.ExposeJobId()}
  {
    var id, job := sso.ExposeJobId(), Job(account, Exposing);
    var y := ExposeWithMap(x, services, sso, account, o).store;
    assert y.jobs in [x.jobs, x.jobs - {id}, x.jobs[id := job], x.jobs[id := job] - {id}];
  }

  /**
   * Whatever fails: only its own job and its namespace's map can change, a map that stays keeps its content, and one
   * that goes has been exposed.
   */
  lemma ExposeFrame(
    x: Exposure, services: map<Key, Service>, sso: Sso, service: string, account: string, o: Oracle)
    ensures var y := ExposeEffect(x, services, sso, service, account, o).store;
            && y.jobs - {sso.ExposeJobId()} == x.jobs - {sso.ExposeJobId()}
            && y.configMaps - {sso.ns} == x.configMaps - {sso.ns}
            && (sso.ns in y.configMaps ==> y.configMaps[sso.ns] == ReadBy(x, sso, service))
            && (|| (y.ingresses == x.ingresses && (sso.ns in x.configMaps ==> sso.ns in y.configMaps))
                || y.ingresses == Exposed(x.ingresses, services, sso.ns, ReadBy(x, sso, service), o.host))
  {
    var maps := CreateIn(x.configMaps, sso.ns, ExposeConfigFor(sso, service), ExposeCreateMap, o.faults);
    if !Fails(maps.error) {
      WithMapJobs(x.(configMaps := maps.store), services, sso, account, o);
      WithMapLeaves(x.(configMaps := maps.store), services, sso, account, o);
    }
  }

  /** A job left over costs one call: it fails, but takes the job away, and the next call succeeds. */
  lemma ExposeAfterLeftoverJob(
    x: Exposure, services: map<Key, Service>, sso: Sso, service: string, account: string, o: Oracle, p: Oracle)
    requires sso.ExposeJobId() in x.jobs && o.faults == {} && p.faults == {}
    ensures var c := ExposeEffect(x, services, sso, service, account, o);
            && c.error == Some(Api(ExposeCreateJob, AlreadyExists))
            && c.store.jobs == x.jobs - {sso.ExposeJobId()}
            && c.store.ingresses == x.ingresses
            && ReadBy(c.store, sso, service) == ReadBy(x, sso, service)
            && ExposeEffect(c.store, services, sso, service, account, p).error.None?
  {
    var c := ExposeEffect(x, services, sso, service, account, o);
    ExposeSucceeds(c.store, services, sso, service, account, p);
  }

  // ---------- what Cleanup achieves ----------

  /** A map that is there must escape notice, by a fault of the very call that finds it. */
  predicate CleanupUnhindered(x: Exposure, sso: Sso, o: Oracle) {
    && o.faults !! {CleanupCreateJob, CleanupAwaitJob, CleanupDeleteJob, CleanupDeleteMap}
    && sso.CleanupJobId() !in x.jobs
    && (sso.ns in x.configMaps <==> CleanupCreateMap in o.faults)
  }

  /** Exactly when it succeeds, and then neither its job nor a config map is left. */
  lemma CleanupSucceeds(x: Exposure, sso: Sso, service: string, account: string, o: Oracle)
    ensures var c := CleanupEffect(x, sso, service, account, o);
            && (c.error.None? <==> CleanupUnhindered(x, sso, o))
            && (c.error.None? ==>
                  c.store == Exposure(x.configMaps - {sso.ns}, x.jobs, x.ingresses - o.cleaned))
  {
    var c := CleanupEffect(x, sso, service, account, o);
    if c.error.None? {
      assert c.store.jobs == x.jobs;
      assert c.store.configMaps == x.configMaps - {sso.ns};
    }
  }

  /** The call gets past the config map, its own or one it could not see, and the job is started. */
  predicate StartsCleanup(x: Exposure, sso: Sso, faults: set<Call>) {
    && (sso.ns in x.configMaps ==> CleanupCreateMap in faults)
    && CleanupCreateJob !in faults && sso.CleanupJobId() !in x.jobs
  }

  predicate EndsCleanup(x: Exposure, sso: Sso, faults: set<Call>) {
    StartsCleanup(x, sso, faults) && CleanupAwaitJob !in faults && CleanupDeleteJob !in faults
  }

  lemma CleanupLeavesJob(x: Exposure, sso: Sso, service: string, account: string, o: Oracle)
    ensures var y, id := CleanupEffect(x, sso, service, account, o).store, sso.CleanupJobId();
            && (id in y.jobs <==>
                  if id in x.jobs then
                    || (sso.ns in x.configMaps && CleanupCreateMap !in o.faults)
                    || CleanupCreateJob in o.faults || CleanupDropJob in o.faults
                  else StartsCleanup(x, sso, o.faults) && !EndsCleanup(x, sso, o.faults))
            && (id in y.jobs ==> y.jobs[id] == if id in x.jobs then x.jobs[id] else Job(account, CleaningUp(service)))
  {
  }

  lemma CleanupWithMapLeaves(x: Exposure, sso: Sso, service: string, account: string, o: Oracle)
    ensures var y := CleanupWithMap(x, sso, service, account, o).store;
            var runs := CleanupCreateJob !in o.faults && sso.CleanupJobId() !in x.jobs && CleanupAwaitJob !in o.faults;
            && y.configMaps ==
               (if runs && CleanupDeleteJob !in o.faults && CleanupDeleteMap !in o.faults then x.configMaps - {sso.ns}
                else x.configMaps)
            && y.ingresses == if runs then x.ingresses - o.cleaned else x.ingresses
  {
  }

  lemma CleanupLeavesMap(x: Exposure, sso: Sso, service: string, account: string, o: Oracle)
    ensures var y := CleanupEffect(x, sso, service, account, o).store;
            && (sso.ns in y.configMaps <==>
                  && (sso.ns in x.configMaps || CleanupCreateMap !in o.faults)
                  && !(EndsCleanup(x, sso, o.faults) && CleanupDeleteMap !in o.faults))
            && (sso.ns in y.configMaps ==>
                  if sso.ns in x.configMaps then y.configMaps[sso.ns] == x.configMaps[sso.ns]
                  else Describes(y.configMaps[sso.ns], sso.spec, service))
            && y.ingresses ==
               if StartsCleanup(x, sso, o.faults) && CleanupAwaitJob !in o.faults then x.ingresses - o.cleaned
               else x.ingresses
  {
    var maps := CreateIn(x.configMaps, sso.ns, ExposeConfigFor(sso, service), CleanupCreateMap, o.faults);
    if !IsAlreadyExists(maps.error) {
      CleanupWithMapLeaves(x.(configMaps := maps.store), sso, service, account, o);
    }
  }

  lemma CleanupFrame(x: Exposure, sso: Sso, service: string, account: string, o: Oracle)
    ensures var y := CleanupEffect(x, sso, service, account, o).store;
            && y.jobs - {sso.CleanupJobId()} == x.jobs - {sso.CleanupJobId()}
            && y.configMaps - {sso.ns} == x.configMaps - {sso.ns}
            && (sso.ns in y.configMaps ==> y.configMaps[sso.ns] == ReadBy(x, sso, service))
            && (y.ingresses == x.ingresses || y.ingresses == x.ingresses - o.cleaned)
  {
    var maps := CreateIn(x.configMaps, sso.ns, ExposeConfigFor(sso, service), CleanupCreateMap, o.faults);
    if !IsAlreadyExists(maps.error) {
      CleanupWithMapFrame(x.(configMaps := maps.store), sso, service, account, o);
    }
  }

  lemma CleanupWithMapFrame(x: Exposure, sso: Sso, service: string, account: string, o: Oracle)
    ensures var y := CleanupWithMap(x, sso, service, account, o).store;
            && y.jobs - {sso.CleanupJobId()} == x.jobs - {sso.CleanupJobId()}
            && (y.configMaps == x.configMaps || y.configMaps == x.configMaps - {sso.ns})
            && (y.ingresses == x.ingresses || y.ingresses == x.ingresses - o.cleaned)
  {
    var id, job := sso.CleanupJobId(), Job(account, CleaningUp(service));
    var y := CleanupWithMap(x, sso, service, account, o).store;
    assert y.jobs in [x.jobs, x.jobs - {id}, x.jobs[id := job], x.jobs[id := job] - {id}];
  }

  /** Without faults: exactly when neither the config map nor its own job is there. */
  lemma CleanupSucceedsUnfaulted(x: Exposure, sso: Sso, service: string, account: string, o: Oracle)
    requires o.faults == {}
    ensures CleanupEffect(x, sso, service, account, o).error.None? <==>
            sso.ns !in x.configMaps && sso.CleanupJobId() !in x.jobs
  {
    CleanupSucceeds(x, sso, service, account, o);
  }

  /** A call that could create the map leaves it behind exactly when it fails. */
  lemma FailedCleanupLeavesMap(x: Exposure, sso: Sso, service: string, account: string, o: Oracle)
    requires sso.ns !in x.configMaps && CleanupCreateMap !in o.faults
    ensures var c := CleanupEffect(x, sso, service, account, o);
            sso.ns in c.store.configMaps <==> c.error.Some?
  {
  }

  datatype Attempt = Attempt(sso: Sso, account: string, o: Oracle)

  function Cleanups(x: Exposure, attempts: seq<Attempt>): Exposure
    decreases |attempts|
  {
    if attempts == [] then x
    else
      var a := attempts[0];
      Cleanups(CleanupEffect(x, a.sso, a.sso.name, a.account, a.o).store, attempts[1..])
  }

  /** And then no later Cleanup of any SSO of the namespace does anything, unless a call is faulty just there. */
  lemma {:induction false} CleanupsBlocked(x: Exposure, ns: string, attempts: seq<Attempt>, i: nat)
    requires ns in x.configMaps
    requires forall a :: a in attempts ==> a.sso.ns == ns && CleanupCreateMap !in a.o.faults
    requires i < |attempts|
    ensures Cleanups(x, attempts) == x
    ensures var a := attempts[i];
            CleanupEffect(Cleanups(x, attempts[..i]), a.sso, a.sso.name, a.account, a.o) ==
            Change(x, Some(Api(CleanupCreateMap, AlreadyExists)))
    decreases |attempts|
  {
    var a := attempts[0];
    assert a in attempts;
    assert CleanupEffect(x, a.sso, a.sso.name, a.account, a.o).store == x;
    if i > 0 {
      CleanupsBlocked(x, ns, attempts[1..], i - 1);
      assert attempts[..i][1..] == attempts[1..][..i - 1];
    } else {
      assert attempts[..0] == [];
      if |attempts| > 1 {
        CleanupsBlocked(x, ns, attempts[1..], 0);
      }
    }
  }
}
