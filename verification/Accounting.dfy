/** Where every client of Dex belongs, over all runs. */
module Accounting {
  import opened Types
  import opened Rbac
  import opened Expose
  import opened Operator
  import opened Isolation
  import opened Sync
  import opened Success
  import opened Runs

  /** The clients that initialised SSOs name. */
  function Live(d: Directory): set<string> { set k | k in d.ssos && Initialized(d, k) :: ClientOf(d, k) }

  /** The clients that wait for the delete event of their SSO to succeed. */
  function Pending(dex: Registry, tombstones: set<Sso>): set<string> {
    set t | t in tombstones && t.status.initialized && t.status.clientID in dex.clients :: t.status.clientID
  }

  /** The clients nobody will delete. */
  function LeakedIn(d: Directory, dex: Registry, tombstones: set<Sso>): set<string> {
    dex.clients.Keys - Live(d) - Pending(dex, tombstones)
  }

  function Leaked(w: World): set<string> { LeakedIn(w.sys.directory, w.sys.dex, w.tombstones) }

  /** What an event leaks: the new client if its deletion fails, or the old client of an SSO initialised once more. */
  function LeaksOf(s: System, h: Handled, sso: Sso, id: string): set<string> {
    if h.outcome.Undeleted? then {id}
    else if h.store.directory == s.directory || !Initialized(s.directory, sso.Id()) then {}
    else {ClientOf(s.directory, sso.Id())}
  }

  function Leaks(w: World, step: Step): set<string> {
    if !step.Event? then {}
    else
      var h := HandleEffect(w.sys, w.role, w.key, step.sso, step.deleted, step.o);
      LeaksOf(w.sys, h, step.sso, step.o.newID)
  }

  /** The clients are the disjoint union of the three, and no client is named by two live SSOs. */
  lemma Partition(w: World, k: Key, l: Key)
    requires Books(w)
    ensures w.sys.dex.clients.Keys == Live(w.sys.directory) + Pending(w.sys.dex, w.tombstones) + Leaked(w)
    ensures Live(w.sys.directory) !! Pending(w.sys.dex, w.tombstones) !! Leaked(w)
    ensures var d := w.sys.directory;
            Initialized(d, k) && Initialized(d, l) && ClientOf(d, k) == ClientOf(d, l) ==> k == l
  {
  }

  // ---------- one event ----------

  lemma LiveAfterRecording(d: Directory, e: Directory, sso: Sso, id: string)
    requires Recorded(d, e, sso, id)
    requires forall k, l :: Initialized(d, k) && Initialized(d, l) && k != l ==> ClientOf(d, k) != ClientOf(d, l)
    ensures Live(e) == (if Initialized(d, sso.Id()) then Live(d) - {ClientOf(d, sso.Id())} else Live(d)) + {id}
  {
    var key := sso.Id();
    assert Initialized(e, key) && ClientOf(e, key) == id;
    assert forall k :: k != key ==> (Initialized(e, k) <==> Initialized(d, k));
    assert forall k :: k != key && Initialized(d, k) ==> ClientOf(e, k) == ClientOf(d, k);
  }

  lemma PendingAfterIssuing(d: Directory, dex: Registry, dex': Registry, tombstones: set<Sso>, id: string)
    requires Owned(d, dex, tombstones) && id !in dex.issued && Issues(dex, dex', id)
    ensures Pending(dex', tombstones) == Pending(dex, tombstones)
    ensures dex'.clients.Keys == if id in dex'.clients then dex.clients.Keys + {id} else dex.clients.Keys
  {
    assert forall i :: i in dex.clients ==> i in dex'.clients - {id};
    assert forall i :: i in dex'.clients && i != id ==> i in dex'.clients - {id};
  }

  lemma RecordingLeaks(
    d: Directory, dex: Registry, d': Directory, dex': Registry, tombstones: set<Sso>, sso: Sso, id: string)
    requires Owned(d, dex, tombstones) && id !in dex.issued
    requires Issues(dex, dex', id) && id in dex'.clients && Recorded(d, d', sso, id)
    ensures var former := if Initialized(d, sso.Id()) then {ClientOf(d, sso.Id())} else {};
            && LeakedIn(d', dex', tombstones) == LeakedIn(d, dex, tombstones) + former
            && LeakedIn(d, dex, tombstones) !! former
  {
    PendingAfterIssuing(d, dex, dex', tombstones, id);
    LiveAfterRecording(d, d', sso, id);
    assert Live(d) <= dex.clients.Keys;
    assert Live(d) !! Pending(dex, tombstones);
  }

  lemma FailingLeaks(d: Directory, dex: Registry, dex': Registry, tombstones: set<Sso>, id: string)
    requires Owned(d, dex, tombstones) && id !in dex.issued && Issues(dex, dex', id)
    ensures var latest := if id in dex'.clients then {id} else {};
            && LeakedIn(d, dex', tombstones) == LeakedIn(d, dex, tombstones) + latest
            && LeakedIn(d, dex, tombstones) !! latest
  {
    PendingAfterIssuing(d, dex, dex', tombstones, id);
    assert Live(d) <= dex.clients.Keys;
  }

  lemma InitializeLeaks(s: System, tombstones: set<Sso>, key: string, sso: Sso, account: string, o: Oracle)
    requires Owned(s.directory, s.dex, tombstones) && o.newID !in s.dex.issued
    ensures var h := InitializeEffect(s, key, sso, account, o);
            && LeakedIn(h.store.directory, h.store.dex, tombstones) ==
               LeakedIn(s.directory, s.dex, tombstones) + LeaksOf(s, h, sso, o.newID)
            && LeakedIn(s.directory, s.dex, tombstones) !! LeaksOf(s, h, sso, o.newID)
  {
    var h := InitializeEffect(s, key, sso, account, o);
    InitializeFrame(s, key, sso, account, o);
    InitializeCompletes(s, key, sso, account, o);
    if h.outcome.Done? {
      RecordingLeaks(s.directory, s.dex, h.store.directory, h.store.dex, tombstones, sso, o.newID);
    } else {
      FailingLeaks(s.directory, s.dex, h.store.dex, tombstones, o.newID);
    }
  }

  lemma RemoveLeaks(s: System, tombstones: set<Sso>, sso: Sso, account: string, o: Oracle)
    requires Owned(s.directory, s.dex, tombstones) && sso in tombstones && sso.status.initialized
    ensures var t := RemoveEffect(s, sso, account, o).store;
            LeakedIn(t.directory, t.dex, tombstones) == LeakedIn(s.directory, s.dex, tombstones)
  {
    RemoveFrame(s, sso, account, o);
    var t := RemoveEffect(s, sso, account, o).store;
    if t.dex.clients != s.dex.clients {
      assert Pending(t.dex, tombstones) == Pending(s.dex, tombstones) - {sso.status.clientID};
    }
  }

  lemma EventLeaks(s: System, tombstones: set<Sso>, role: string, key: string, sso: Sso, deleted: bool, o: Oracle)
    requires Owned(s.directory, s.dex, tombstones) && o.newID !in s.dex.issued && (deleted ==> sso in tombstones)
    ensures var h := HandleEffect(s, role, key, sso, deleted, o);
            && LeakedIn(h.store.directory, h.store.dex, tombstones) ==
               LeakedIn(s.directory, s.dex, tombstones) + LeaksOf(s, h, sso, o.newID)
            && LeakedIn(s.directory, s.dex, tombstones) !! LeaksOf(s, h, sso, o.newID)
  {
    var ensured := EnsureEffect(s.roles, role, sso.ns, o.faults);
    var t := s.(roles := ensured.store);
    if ensured.result.Ok? {
      if deleted && sso.status.initialized {
        RemoveLeaks(t, tombstones, sso, ensured.result.value, o);
        RemoveFrame(t, sso, ensured.result.value, o);
      } else if ListSsos in o.faults || !Initialized(t.directory, sso.Id()) {
        InitializeLeaks(t, tombstones, key, sso, ensured.result.value, o);
      }
    }
  }

  /** A step changes the leaked clients by exactly what it leaks. */
  lemma NextLeaks(w: World, step: Step)
    requires Books(w) && Possible(w, step)
    ensures Leaked(Next(w, step)) == Leaked(w) + Leaks(w, step)
    ensures Leaked(w) !! Leaks(w, step)
  {
    match step
    case CreateSso(_, _, _) => StillLive(w, step);
    case DeleteSso(id) => DeleteLeaks(w, id);
    case Restart(_) =>
    case Outside(_, _, _) =>
    case Event(sso, deleted, o) => EventLeaks(w.sys, w.tombstones, w.role, w.key, sso, deleted, o);
  }

  lemma StillLive(w: World, step: Step)
    requires step.CreateSso?
    ensures Live(Next(w, step).sys.directory) == Live(w.sys.directory)
  {
    var d, e := w.sys.directory, Next(w, step).sys.directory;
    assert forall k :: Initialized(e, k) <==> Initialized(d, k);
    assert forall k :: Initialized(e, k) ==> ClientOf(e, k) == ClientOf(d, k);
  }

  lemma DeleteLeaks(w: World, id: Key)
    requires Books(w)
    ensures Leaked(Next(w, DeleteSso(id))) == Leaked(w)
  {
    var d := w.sys.directory;
    if id in d.ssos {
      var x := Next(w, DeleteSso(id));
      var e := x.sys.directory;
      assert forall k :: Initialized(e, k) <==> Initialized(d, k) && k != id;
      assert forall k :: Initialized(e, k) ==> ClientOf(e, k) == ClientOf(d, k);
      var gone := if Initialized(d, id) then {ClientOf(d, id)} else {};
      assert Live(e) == Live(d) - gone;
      assert Pending(x.sys.dex, x.tombstones) == Pending(w.sys.dex, w.tombstones) + gone;
    }
  }

  /** What an event will leak, told before it: the former client, the new one if its deletion is to fail, or nothing. */
  function LeaksAhead(s: System, role: string, sso: Sso, deleted: bool, o: Oracle): set<string> {
    if !Initializes(s, role, sso, deleted, o) then {}
    else if GetsThrough(s, sso, o) then
      if Initialized(s.directory, sso.Id()) then {ClientOf(s.directory, sso.Id())} else {}
    else if CreateClient !in o.faults && Compensate in o.faults then {o.newID}
    else {}
  }

  lemma LeaksForeseen(s: System, role: string, key: string, sso: Sso, deleted: bool, o: Oracle)
    requires Fresh(s, o)
    ensures LeaksOf(s, HandleEffect(s, role, key, sso, deleted, o), sso, o.newID) ==
            LeaksAhead(s, role, sso, deleted, o)
  {
    if Initializes(s, role, sso, deleted, o) {
      HandleInitializes(s, role, key, sso, deleted, o);
      var ensured := EnsureEffect(s.roles, role, sso.ns, o.faults);
      var t := s.(roles := ensured.store);
      InitializeOutcome(t, key, sso, ensured.result.value, o);
      InitializeFrame(t, key, sso, ensured.result.value, o);
      InitializeCompletes(t, key, sso, ensured.result.value, o);
    } else if deleted && sso.status.initialized {
      RemovalKeeps(s, role, key, sso, o);
    } else {
      HandleOtherwise(s, role, key, sso, deleted, o);
    }
  }

  /** Exactly what a step leaks. It takes a failed compensation, or a failed status read of an initialised SSO. */
  lemma LeaksExactly(w: World, step: Step)
    requires Books(w) && Possible(w, step)
    ensures Leaks(w, step) ==
            if step.Event? then LeaksAhead(w.sys, w.role, step.sso, step.deleted, step.o) else {}
    ensures Leaks(w, step) != {} ==>
            && step.Event?
            && (Compensate in step.o.faults ||
                (ListSsos in step.o.faults && Initialized(w.sys.directory, step.sso.Id())))
  {
    if step.Event? {
      LeaksForeseen(w.sys, w.role, w.key, step.sso, step.deleted, step.o);
    }
  }

  // ---------- whole runs ----------

  function Leakage(w: World, steps: seq<Step>): nat
    decreases |steps|
  {
    if steps == [] then 0 else |Leaks(w, steps[0])| + Leakage(Next(w, steps[0]), steps[1..])
  }

  /** Exact accounting: over any run the leaked clients grow by one for each leak, and never otherwise. */
  lemma {:induction false} RunLeaks(w: World, steps: seq<Step>)
    requires Books(w) && PossibleRun(w, steps)
    ensures Leaked(w) <= Leaked(Run(w, steps))
    ensures |Leaked(Run(w, steps))| == |Leaked(w)| + Leakage(w, steps)
    decreases |steps|
  {
    if steps != [] {
      NextKeepsBooks(w, steps[0]);
      NextLeaks(w, steps[0]);
      RunLeaks(Next(w, steps[0]), steps[1..]);
    }
  }

  predicate LeakFree(w: World, steps: seq<Step>)
    decreases |steps|
  {
    steps == [] ||
    ((steps[0].Event? ==> LeaksAhead(w.sys, w.role, steps[0].sso, steps[0].deleted, steps[0].o) == {}) &&
     LeakFree(Next(w, steps[0]), steps[1..]))
  }

  /** Exactly when a run leaks nothing. */
  lemma {:induction false} NoLeaks(w: World, steps: seq<Step>)
    requires Books(w) && PossibleRun(w, steps)
    ensures Leaked(Run(w, steps)) == Leaked(w) <==> LeakFree(w, steps)
    decreases |steps|
  {
    if steps != [] {
      var x := Next(w, steps[0]);
      NextKeepsBooks(w, steps[0]);
      NextLeaks(w, steps[0]);
      LeaksExactly(w, steps[0]);
      RunLeaks(x, steps[1..]);
      if Leaks(w, steps[0]) == {} {
        NoLeaks(x, steps[1..]);
      } else {
        assert !(Leaked(Run(w, steps)) <= Leaked(w));
      }
    }
  }

  /** In particular nothing leaks without failed status reads and failed compensations, whatever else fails. */
  lemma {:induction false} GoodCallsLeakNothing(w: World, steps: seq<Step>)
    requires forall step :: step in steps && step.Event? ==> ListSsos !in step.o.faults && Compensate !in step.o.faults
    ensures LeakFree(w, steps)
    decreases |steps|
  {
    if steps != [] {
      assert steps[0] in steps;
      GoodCallsLeakNothing(Next(w, steps[0]), steps[1..]);
    }
  }

  // ---------- clients that stay pending ----------

  /** The delete event of an initialised SSO of the namespace, with no fault in the creation of the config map. */
  predicate DeleteEvent(step: Step, ns: string) {
    && step.Event? && step.deleted && step.sso.status.initialized && step.sso.ns == ns
    && CleanupCreateMap !in step.o.faults
  }

  lemma BlockedDelete(w: World, step: Step, ns: string)
    requires DeleteEvent(step, ns) && ns in w.sys.exposure.configMaps
    ensures var s := Next(w, step).sys;
            s == w.sys.(roles := s.roles)
    ensures HandleEffect(w.sys, w.role, w.key, step.sso, true, step.o).outcome.Failed?
  {
  }

  /**
   * A config map left in a namespace, as a failed Cleanup or Expose can leave it, keeps every client that is pending
   * there: no number of delete events changes anything but the roles.
   */
  lemma {:induction false} BlockedDeletes(w: World, steps: seq<Step>, ns: string)
    requires ns in w.sys.exposure.configMaps
    requires forall step :: step in steps ==> DeleteEvent(step, ns)
    ensures var s := Run(w, steps).sys;
            s == w.sys.(roles := s.roles)
    decreases |steps|
  {
    if steps != [] {
      assert steps[0] in steps;
      BlockedDelete(w, steps[0], ns);
      BlockedDeletes(Next(w, steps[0]), steps[1..], ns);
    }
  }

  /** Exactly when the delete event of an initialised SSO succeeds, whatever fails; its client is then off the books. */
  lemma UnblockedDelete(w: World, sso: Sso, o: Oracle)
    requires Books(w) && Possible(w, Event(sso, true, o)) && sso.status.initialized
    ensures var h := HandleEffect(w.sys, w.role, w.key, sso, true, o);
            && (h.outcome.Done? <==>
                  && Grants(w.sys.roles, w.role, sso.ns, o.faults)
                  && CleanupUnhindered(w.sys.exposure, sso, o)
                  && DeleteClient !in o.faults && sso.status.clientID in Pending(w.sys.dex, w.tombstones))
            && (h.outcome.Done? ==>
                  && h.store.dex.clients == w.sys.dex.clients - {sso.status.clientID}
                  && sso.status.clientID !in Pending(h.store.dex, w.tombstones))
  {
    EnsureSucceeds(w.sys.roles, w.role, sso.ns, o.faults);
    var ensured := EnsureEffect(w.sys.roles, w.role, sso.ns, o.faults);
    if ensured.result.Ok? {
      CleanupSucceeds(w.sys.exposure, sso, sso.name, ensured.result.value, o);
      RemoveFrame(w.sys.(roles := ensured.store), sso, ensured.result.value, o);
    }
  }
}
