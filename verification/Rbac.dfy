/** The service account under which the expose and cleanup jobs of a namespace run. */
module Rbac {
  import opened Types

  const SUBJECT_KIND := "ServiceAccount"
  const ROLE_KIND := "ClusterRole"
  const ACCOUNT := "sso-operator-sa"

  predicate Binds(b: Binding, role: string) { b.refKind == ROLE_KIND && b.refName == role }

  predicate AccountIn(s: Subject, ns: string) { s.kind == SUBJECT_KIND && s.ns == ns }

  /** The first binding of the role at or after `from`, or the number of bindings. */
  function BindingFrom(bindings: seq<Binding>, role: string, from: nat): (i: nat)
    requires from <= |bindings|
    ensures from <= i <= |bindings|
    ensures i < |bindings| ==> bindings[i].refKind == "ClusterRole" && bindings[i].refName == role
    ensures forall j :: from <= j < i ==> !(bindings[j].refKind == "ClusterRole" && bindings[j].refName == role)
    decreases |bindings| - from
  {
    if from == |bindings| || Binds(bindings[from], role) then from else BindingFrom(bindings, role, from + 1)
  }

  function FirstBinding(bindings: seq<Binding>, role: string): nat { BindingFrom(bindings, role, 0) }

  /** The first service account of the namespace at or after `from`, or the number of subjects. */
  function AccountFrom(subjects: seq<Subject>, ns: string, from: nat): (i: nat)
    requires from <= |subjects|
    ensures from <= i <= |subjects|
    ensures i < |subjects| ==> subjects[i].kind == "ServiceAccount" && subjects[i].ns == ns
    ensures forall j :: from <= j < i ==> !(subjects[j].kind == "ServiceAccount" && subjects[j].ns == ns)
    decreases |subjects| - from
  {
    if from == |subjects| || AccountIn(subjects[from], ns) then from else AccountFrom(subjects, ns, from + 1)
  }

  function FirstAccount(subjects: seq<Subject>, ns: string): nat { AccountFrom(subjects, ns, 0) }

  // ---------- the effect of the calls ----------

  function AccountEffect(r: Roles, ns: string, faults: set<Call>): Effect<Roles, string> {
    var id := Key(ns, ACCOUNT);
    if GetAccount !in faults && id in r.accounts then Effect(r, Ok(ACCOUNT))
    else if CreateAccount in faults then Effect(r, Err(Api(CreateAccount, Faulted)))
    else if id in r.accounts then Effect(r, Err(Api(CreateAccount, AlreadyExists)))
    else Effect(r.(accounts := r.accounts + {id}), Ok(ACCOUNT))
  }

  function Granted(bindings: seq<Binding>, i: nat, account: string, ns: string): seq<Binding>
    requires i < |bindings|
  {
    var b := bindings[i];
    bindings[i := b.(subjects := b.subjects + [Subject(SUBJECT_KIND, account, ns)])]
  }

  /** Adds the operator's account to the binding at `i`. */
  function GrantEffect(r: Roles, i: nat, ns: string, faults: set<Call>): Effect<Roles, string>
    requires i < |r.bindings|
  {
    var account := AccountEffect(r, ns, faults);
    if account.result.Err? then account
    else if UpdateBinding in faults then Effect(account.store, Err(Api(UpdateBinding, Faulted)))
    else Effect(account.store.(bindings := Granted(r.bindings, i, account.result.value, ns)), account.result)
  }

  function EnsureEffect(r: Roles, role: string, ns: string, faults: set<Call>): Effect<Roles, string> {
    var i := FirstBinding(r.bindings, role);
    if ListBindings in faults then Effect(r, Err(Api(ListBindings, Faulted)))
    else if i == |r.bindings| then Effect(r, Err(Invalid(NoBinding)))
    else
      var subjects := r.bindings[i].subjects;
      var j := FirstAccount(subjects, ns);
      if j < |subjects| then Effect(r, Ok(subjects[j].name)) else GrantEffect(r, i, ns, faults)
  }

  method CreateServiceAccount(cluster: Cluster, ns: string, faults: set<Call>) returns (r: Result<string>)
    modifies cluster`accounts
    ensures Effect(cluster.RolesNow(), r) == AccountEffect(old(cluster.RolesNow()), ns, faults)
  {
    var id := Key(ns, ACCOUNT);
    if GetAccount !in faults && id in cluster.accounts {
      return Ok(ACCOUNT);
    }
    if CreateAccount in faults {
      return Err(Api(CreateAccount, Faulted));
    }
    if id in cluster.accounts {
      return Err(Api(CreateAccount, AlreadyExists));
    }
    cluster.accounts := cluster.accounts + {id};
    r := Ok(ACCOUNT);
  }

  method EnsureClusterRoleBinding(cluster: Cluster, role: string, ns: string, faults: set<Call>)
    returns (r: Result<string>)
    modifies cluster`accounts, cluster`bindings
    ensures Effect(cluster.RolesNow(), r) == EnsureEffect(old(cluster.RolesNow()), role, ns, faults)
  {
    if ListBindings in faults {
      return Err(Api(ListBindings, Faulted));
    }
    var list := cluster.bindings;
    for i := 0 to |list|
      invariant cluster.RolesNow() == old(cluster.RolesNow())
      invariant forall j :: 0 <= j < i ==> !Binds(list[j], role)
    {
      var binding := list[i];
      if Binds(binding, role) {
        for j := 0 to |binding.subjects|
          invariant cluster.RolesNow() == old(cluster.RolesNow())
          invariant forall l :: 0 <= l < j ==> !AccountIn(binding.subjects[l], ns)
        {
          if AccountIn(binding.subjects[j], ns) {
            return Ok(binding.subjects[j].name);
          }
        }
        r := CreateServiceAccount(cluster, ns, faults);
        if r.Err? {
          return;
        }
        binding := binding.(subjects := binding.subjects + [Subject(SUBJECT_KIND, r.value, ns)]);
        if UpdateBinding in faults {
          return Err(Api(UpdateBinding, Faulted));
        }
        cluster.bindings := list[i := binding];
        return;
      }
    }
    r := Err(Invalid(NoBinding));
  }

  // ---------- what the effect means ----------

  /** `after` keeps every binding, but for subjects added to the first binding of the role. */
  ghost predicate Extends(before: seq<Binding>, after: seq<Binding>, role: string) {
    var i := FirstBinding(before, role);
    && |after| == |before|
    && (forall j :: 0 <= j < |before| && j != i ==> after[j] == before[j])
    && (i < |before| ==>
          && after[i] == before[i].(subjects := after[i].subjects)
          && before[i].subjects <= after[i].subjects
          && AddedOnce(before[i].subjects, after[i].subjects))
  }

  /** Each added subject is the operator's account and the first account of its namespace. */
  ghost predicate AddedOnce(before: seq<Subject>, after: seq<Subject>) {
    forall q :: |before| <= q < |after| ==>
      && after[q] == Subject(SUBJECT_KIND, ACCOUNT, after[q].ns)
      && forall p :: 0 <= p < q ==> !AccountIn(after[p], after[q].ns)
  }

  lemma FirstBindingIs(bindings: seq<Binding>, role: string, i: nat)
    requires i <= |bindings|
    requires i < |bindings| ==> Binds(bindings[i], role)
    requires forall j :: 0 <= j < i ==> !Binds(bindings[j], role)
    ensures FirstBinding(bindings, role) == i
  {
  }

  lemma GrantedExtends(bindings: seq<Binding>, role: string, ns: string)
    requires var i := FirstBinding(bindings, role);
             i < |bindings| && FirstAccount(bindings[i].subjects, ns) == |bindings[i].subjects|
    ensures var i := FirstBinding(bindings, role);
            var after := Granted(bindings, i, ACCOUNT, ns);
            && Extends(bindings, after, role)
            && FirstBinding(after, role) == i
            && FirstAccount(after[i].subjects, ns) == |bindings[i].subjects|
            && Subject(SUBJECT_KIND, ACCOUNT, ns) in after[i].subjects
  {
    var i := FirstBinding(bindings, role);
    var s := bindings[i].subjects;
    var after := Granted(bindings, i, ACCOUNT, ns);
    var t := after[i].subjects;
    FirstBindingIs(after, role, i);
    assert t[|s|] == Subject(SUBJECT_KIND, ACCOUNT, ns) && AccountIn(t[|s|], ns);
    assert forall p :: 0 <= p < |s| ==> t[p] == s[p];
    assert AddedOnce(s, t);
  }

  lemma ExtendsItself(bindings: seq<Binding>, role: string)
    ensures Extends(bindings, bindings, role)
  {
  }

  lemma GrantCases(r: Roles, i: nat, ns: string, faults: set<Call>)
    requires i < |r.bindings|
    ensures var e := GrantEffect(r, i, ns, faults);
            && r.accounts <= e.store.accounts <= r.accounts + {Key(ns, "sso-operator-sa")}
            && (e.result.Ok? ==> e.result.value == "sso-operator-sa" && Key(ns, "sso-operator-sa") in e.store.accounts)
            && e.store.bindings == if e.result.Ok? then Granted(r.bindings, i, ACCOUNT, ns) else r.bindings
  {
  }

  /** A call adds at most the one subject it needs, whatever fails, and if it succeeds that subject is there. */
  lemma EnsureGrants(r: Roles, role: string, ns: string, faults: set<Call>)
    ensures var e := EnsureEffect(r, role, ns, faults);
            var i := FirstBinding(r.bindings, role);
            && r.accounts <= e.store.accounts <= r.accounts + {Key(ns, "sso-operator-sa")}
            && Extends(r.bindings, e.store.bindings, role)
            && FirstBinding(e.store.bindings, role) == i
            && (e.result.Err? ==> e.store.bindings == r.bindings)
            && (e.result.Ok? ==>
                  && i < |r.bindings|
                  && Subject(SUBJECT_KIND, e.result.value, ns) in e.store.bindings[i].subjects)
  {
    var i := FirstBinding(r.bindings, role);
    ExtendsItself(r.bindings, role);
    if i < |r.bindings| {
      var subjects := r.bindings[i].subjects;
      var j := FirstAccount(subjects, ns);
      if j < |subjects| {
        assert subjects[j] == Subject(SUBJECT_KIND, subjects[j].name, ns);
      } else {
        GrantCases(r, i, ns, faults);
        GrantedExtends(r.bindings, role, ns);
      }
    }
  }

  /** If a binding grows it is the first of the operator's role, and by one subject that it lacked. */
  lemma GrowsTheRolesBinding(r: Roles, role: string, ns: string, faults: set<Call>, i: nat)
    requires i < |r.bindings|
    ensures var e, b := EnsureEffect(r, role, ns, faults), r.bindings[i];
            && |e.store.bindings| == |r.bindings|
            && (e.store.bindings[i] != b ==>
                  && b.refKind == "ClusterRole" && b.refName == role
                  && (forall j :: 0 <= j < i ==>
                        !(r.bindings[j].refKind == "ClusterRole" && r.bindings[j].refName == role))
                  && (forall x :: x in b.subjects ==> !(x.kind == "ServiceAccount" && x.ns == ns))
                  && e.store.bindings[i] ==
                     b.(subjects := b.subjects + [Subject("ServiceAccount", "sso-operator-sa", ns)]))
  {
    var k := FirstBinding(r.bindings, role);
    if k < |r.bindings| {
      GrantCases(r, k, ns, faults);
      var subjects := r.bindings[k].subjects;
      assert FirstAccount(subjects, ns) == |subjects| ==>
        forall x :: x in subjects ==> !(x.kind == "ServiceAccount" && x.ns == ns);
    }
  }

  /** A success means that a binding of the role has the account among its subjects, as one of the namespace. */
  lemma GrantedByTheRole(r: Roles, role: string, ns: string, faults: set<Call>) returns (i: nat)
    requires EnsureEffect(r, role, ns, faults).result.Ok?
    ensures var e := EnsureEffect(r, role, ns, faults);
            && i < |e.store.bindings|
            && e.store.bindings[i].refKind == "ClusterRole" && e.store.bindings[i].refName == role
            && Subject("ServiceAccount", e.result.value, ns) in e.store.bindings[i].subjects
  {
    EnsureGrants(r, role, ns, faults);
    i := FirstBinding(r.bindings, role);
  }

  /** Without a binding of the role the call fails and changes nothing. */
  lemma NoBindingOfTheRole(r: Roles, role: string, ns: string, faults: set<Call>)
    requires forall b :: b in r.bindings ==> !(b.refKind == "ClusterRole" && b.refName == role)
    ensures var e := EnsureEffect(r, role, ns, faults);
            && e.store == r
            && e.result == Err(if ListBindings in faults then Api(ListBindings, Faulted) else Invalid(NoBinding))
  {
    assert forall i :: 0 <= i < |r.bindings| ==> r.bindings[i] in r.bindings;
  }

  /** No binding of the role is missing, and no call that is needed fails. */
  predicate Grants(r: Roles, role: string, ns: string, faults: set<Call>) {
    var i := FirstBinding(r.bindings, role);
    && ListBindings !in faults && i < |r.bindings|
    && (|| FirstAccount(r.bindings[i].subjects, ns) < |r.bindings[i].subjects|
        || (&& UpdateBinding !in faults
            && (if Key(ns, ACCOUNT) in r.accounts then GetAccount else CreateAccount) !in faults))
  }

  /** Exactly when a call succeeds. */
  lemma EnsureSucceeds(r: Roles, role: string, ns: string, faults: set<Call>)
    ensures EnsureEffect(r, role, ns, faults).result.Ok? <==> Grants(r, role, ns, faults)
  {
  }

  /** Once a call has succeeded the next finds the subject and changes nothing. */
  lemma EnsureIdempotent(r: Roles, role: string, ns: string, faults: set<Call>, more: set<Call>)
    requires EnsureEffect(r, role, ns, faults).result.Ok? && ListBindings !in more
    ensures var e := EnsureEffect(r, role, ns, faults);
            EnsureEffect(e.store, role, ns, more) == e
  {
    EnsureGrants(r, role, ns, faults);
    var i := FirstBinding(r.bindings, role);
    if FirstAccount(r.bindings[i].subjects, ns) == |r.bindings[i].subjects| {
      GrantCases(r, i, ns, faults);
      GrantedExtends(r.bindings, role, ns);
    }
  }

  datatype Attempt = Attempt(ns: string, faults: set<Call>)

  function Attempts(r: Roles, role: string, attempts: seq<Attempt>): Roles {
    if attempts == [] then r
    else
      var last := attempts[|attempts| - 1];
      EnsureEffect(Attempts(r, role, attempts[..|attempts| - 1]), role, last.ns, last.faults).store
  }

  /** Over any run of calls in any namespaces the subjects only grow, by at most one for each namespace. */
  lemma {:induction false} AttemptsExtend(r: Roles, role: string, attempts: seq<Attempt>)
    ensures Extends(r.bindings, Attempts(r, role, attempts).bindings, role)
    ensures FirstBinding(Attempts(r, role, attempts).bindings, role) == FirstBinding(r.bindings, role)
  {
    if attempts != [] {
      var last := attempts[|attempts| - 1];
      var l := Attempts(r, role, attempts[..|attempts| - 1]);
      AttemptsExtend(r, role, attempts[..|attempts| - 1]);
      EnsureGrants(l, role, last.ns, last.faults);
      var i := FirstBinding(r.bindings, role);
      var m := Attempts(r, role, attempts);
      if i < |r.bindings| {
        var s, t, u := r.bindings[i].subjects, l.bindings[i].subjects, m.bindings[i].subjects;
        assert forall p :: 0 <= p < |t| ==> u[p] == t[p];
      }
    }
  }
}
