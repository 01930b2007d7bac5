/** The waiters, over what each poll within the time limit observes. */
module Wait {
  /** What a poll makes of its observation. */
  datatype Verdict = Success | Undecided | Fatal

  datatype Waited = Reached | GaveUp | TimedOut

  /** A poll is taken after another only while all were undecided. */
  ghost predicate Explains(verdicts: seq<Verdict>, r: Waited) {
    match r
    case TimedOut => forall i :: 0 <= i < |verdicts| ==> verdicts[i] == Undecided
    case _ =>
      exists n :: First(verdicts, n) && verdicts[n] == if r == Reached then Success else Fatal
  }

  ghost predicate First(verdicts: seq<Verdict>, n: int) {
    0 <= n < |verdicts| && verdicts[n] != Undecided && forall i :: 0 <= i < n ==> verdicts[i] == Undecided
  }

  /** Each sequence of polls has exactly one result. */
  lemma OneResult(verdicts: seq<Verdict>, r: Waited, q: Waited)
    requires Explains(verdicts, r) && Explains(verdicts, q)
    ensures r == q
  {
    if !r.TimedOut? && !q.TimedOut? {
      var m :| First(verdicts, m) && verdicts[m] == if r == Reached then Success else Fatal;
      var n :| First(verdicts, n) && verdicts[n] == if q == Reached then Success else Fatal;
      assert m == n;
    }
  }

  // ---------- pods ----------

  datatype Phase = Pending | Running | Succeeded | Failed | Unknown
  datatype Pod = Pod(phase: Phase, ready: seq<bool>)
  datatype Listing = Unavailable | Pods(pods: seq<Pod>)

  ghost predicate Up(pod: Pod) { pod.phase == Running && forall i :: 0 <= i < |pod.ready| ==> pod.ready[i] }

  /** At least one pod, all of them running with all containers ready. */
  ghost function PodsVerdict(listing: Listing): Verdict {
    if listing.Pods? && listing.pods != [] && (forall i :: 0 <= i < |listing.pods| ==> Up(listing.pods[i]))
    then Success else Undecided
  }

  ghost function PodsVerdicts(polls: seq<Listing>): seq<Verdict> {
    seq(|polls|, i requires 0 <= i < |polls| => PodsVerdict(polls[i]))
  }

  method PodsUp(listing: Listing) returns (ok: bool)
    ensures ok <==> PodsVerdict(listing) == Success
  {
    if listing.Unavailable? || |listing.pods| == 0 {
      return false;
    }
    var pods := listing.pods;
    for i := 0 to |pods|
      invariant forall j :: 0 <= j < i ==> Up(pods[j])
    {
      if pods[i].phase != Running {
        return false;
      }
      for j := 0 to |pods[i].ready|
        invariant forall l :: 0 <= l < j ==> pods[i].ready[l]
      {
        if !pods[i].ready[j] {
          return false;
        }
      }
    }
    ok := true;
  }

  method WaitForPodsWithLabelRunning(polls: seq<Listing>) returns (r: Waited)
    ensures Explains(PodsVerdicts(polls), r)
  {
    var lastKnown := -1;
    for i := 0 to |polls|
      invariant forall j :: 0 <= j < i ==> PodsVerdicts(polls)[j] == Undecided
    {
      if polls[i].Pods? && lastKnown != |polls[i].pods| {
        lastKnown := |polls[i].pods|;
      }
      var ok := PodsUp(polls[i]);
      if ok {
        assert First(PodsVerdicts(polls), i);
        return Reached;
      }
    }
    r := TimedOut;
  }

  /** In terms of the pods: some poll lists at least one, and all it lists run with every container ready. */
  lemma PodsMeaning(polls: seq<Listing>, r: Waited)
    requires Explains(PodsVerdicts(polls), r)
    ensures r != GaveUp
    ensures r == Reached <==>
            exists i :: 0 <= i < |polls| && polls[i].Pods? && |polls[i].pods| > 0 &&
              forall j :: 0 <= j < |polls[i].pods| ==>
                polls[i].pods[j].phase == Running && false !in polls[i].pods[j].ready
  {
    var verdicts := PodsVerdicts(polls);
    assert forall i :: 0 <= i < |polls| ==> verdicts[i] == PodsVerdict(polls[i]);
    if r == Reached {
      var n :| First(verdicts, n) && verdicts[n] == Success;
      assert polls[n].Pods? && |polls[n].pods| > 0;
    }
  }

  // ---------- services and jobs ----------

  /** How a get can end: with the object, or an error that says it is missing, is worth a retry, or is neither. */
  datatype Get<T> = Found(value: T) | Missing | Retryable | Hopeless

  function ServiceVerdict(got: Get<()>, exist: bool): Verdict {
    match got
    case Found(_) => if exist then Success else Undecided
    case Missing => if exist then Undecided else Success
    case Retryable => Undecided
    case Hopeless => Fatal
  }

  function ServiceVerdicts(polls: seq<Get<()>>, exist: bool): seq<Verdict> {
    seq(|polls|, i requires 0 <= i < |polls| => ServiceVerdict(polls[i], exist))
  }

  method WaitForService(polls: seq<Get<()>>, exist: bool) returns (r: Waited)
    ensures Explains(ServiceVerdicts(polls, exist), r)
  {
    for i := 0 to |polls|
      invariant forall j :: 0 <= j < i ==> ServiceVerdicts(polls, exist)[j] == Undecided
    {
      var done, failed := false, false;
      match polls[i] {
        case Found(_) => done := exist;
        case Missing => done := !exist;
        case Retryable =>
        case Hopeless => failed := true;
      }
      assert done || failed ==> First(ServiceVerdicts(polls, exist), i);
      if failed {
        return GaveUp;
      }
      if done {
        return Reached;
      }
    }
    r := TimedOut;
  }

  /** In terms of the answers: the wanted one comes, and before any that is hopeless. */
  lemma ServiceMeaning(polls: seq<Get<()>>, exist: bool, r: Waited)
    requires Explains(ServiceVerdicts(polls, exist), r)
    ensures r == Reached <==>
            exists i :: 0 <= i < |polls| && (if exist then polls[i].Found? else polls[i].Missing?) &&
              forall j :: 0 <= j < i ==> !polls[j].Hopeless?
    ensures r == TimedOut <==>
            forall i :: 0 <= i < |polls| ==>
              polls[i].Retryable? || (if exist then polls[i].Missing? else polls[i].Found?)
  {
    var verdicts := ServiceVerdicts(polls, exist);
    assert forall i :: 0 <= i < |polls| ==> verdicts[i] == ServiceVerdict(polls[i], exist);
    if r != TimedOut {
      var n :| First(verdicts, n) && verdicts[n] == if r == Reached then Success else Fatal;
      assert forall j :: 0 <= j < n ==> polls[j].Retryable? || (if exist then polls[j].Missing? else polls[j].Found?);
      assert r == Reached <==> if exist then polls[n].Found? else polls[n].Missing?;
    }
  }

  datatype Condition = Complete | Other

  /** Complete when there are conditions and all say so; any other condition is the end of it. */
  ghost function JobVerdict(got: Get<seq<Condition>>): Verdict {
    if got.Hopeless? || (got.Found? && Other in got.value) then Fatal
    else if got.Found? && got.value != [] then Success
    else Undecided
  }

  ghost function JobVerdicts(polls: seq<Get<seq<Condition>>>): seq<Verdict> {
    seq(|polls|, i requires 0 <= i < |polls| => JobVerdict(polls[i]))
  }

  method WaitForJobComplete(polls: seq<Get<seq<Condition>>>) returns (r: Waited)
    ensures Explains(JobVerdicts(polls), r)
  {
    for i := 0 to |polls|
      invariant forall j :: 0 <= j < i ==> JobVerdicts(polls)[j] == Undecided
    {
      if polls[i].Hopeless? {
        assert First(JobVerdicts(polls), i);
        return GaveUp;
      }
      if polls[i].Found? && |polls[i].value| > 0 {
        var conditions := polls[i].value;
        assert First(JobVerdicts(polls), i);
        for j := 0 to |conditions|
          invariant forall l :: 0 <= l < j ==> conditions[l] == Complete
        {
          if conditions[j] != Complete {
            return GaveUp;
          }
        }
        return Reached;
      }
    }
    r := TimedOut;
  }

  /** In terms of the conditions: some answer has some, all complete, and none before it has any or is hopeless. */
  lemma JobMeaning(polls: seq<Get<seq<Condition>>>, r: Waited)
    requires Explains(JobVerdicts(polls), r)
    ensures r == Reached <==>
            exists i :: 0 <= i < |polls| && polls[i].Found? && polls[i].value != [] && Other !in polls[i].value &&
              forall j :: 0 <= j < i ==> !polls[j].Hopeless? && (polls[j].Found? ==> polls[j].value == [])
    ensures r == TimedOut <==>
            forall i :: 0 <= i < |polls| ==> !polls[i].Hopeless? && (polls[i].Found? ==> polls[i].value == [])
  {
    var verdicts := JobVerdicts(polls);
    assert forall i :: 0 <= i < |polls| ==> verdicts[i] == JobVerdict(polls[i]);
    if r != TimedOut {
      var n :| First(verdicts, n) && verdicts[n] == if r == Reached then Success else Fatal;
      assert forall j :: 0 <= j < n ==> !polls[j].Hopeless? && (polls[j].Found? ==> polls[j].value == []);
      assert polls[n].Hopeless? || polls[n].Found?;
    }
  }
}
