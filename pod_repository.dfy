/** The pod repository: per-slot instance statistics for one app process and
    the wait for an app's pods to disappear. The cluster client is not
    modelled: what a list call returns is an input value, and the label
    selector the repository passes to it (namespace plus app GUID label) is
    applied by the model itself. */
module Repositories {
  import opened Wrappers

  /** Lifecycle phase a pod reports. It is carried along but, as the state
      derivation below shows, never decides a slot's state. */
  datatype PodPhase = PodPending | PodRunning | PodSucceeded | PodFailed | PodUnknown

  /** One container status: whether its state is "running" and its ready flag. */
  datatype ContainerStatus = ContainerStatus(running: bool, ready: bool)

  /** A pod as the cluster lists it: namespace, app GUID label, the already
      parsed CF_INSTANCE_INDEX of its container, phase and container statuses
      (empty until the kubelet reports any). */
  datatype Pod = Pod(
    namespace: string,
    appGUID: string,
    index: nat,
    phase: PodPhase,
    containerStatuses: seq<ContainerStatus>)

  /** The state reported for one instance slot. */
  datatype InstanceState = Running | Starting | Down
  {
    /** The string the repository puts in PodStatsRecord.State. */
    function Name(): string
    {
      match this
      case Running => "RUNNING"
      case Starting => "STARTING"
      case Down => "DOWN"
    }
  }

  datatype PodStatsRecord = PodStatsRecord(processType: string, index: nat, state: InstanceState)

  datatype FetchPodStatsMessage = FetchPodStatsMessage(
    namespace: string,
    appGUID: string,
    instances: nat,
    processType: string)

  /** Failure of the cluster list call, passed back to the caller unchanged. */
  datatype ListError = ListError(message: string)

  /** The label selector of both operations: same namespace, same app GUID label. */
  predicate Matches(p: Pod, namespace: string, appGUID: string)
  {
    p.namespace == namespace && p.appGUID == appGUID
  }

  // ---------------------------------------------------------------------
  // State derivation
  // ---------------------------------------------------------------------

  /** Scans the container statuses for one that is running and ready. */
  function AnyRunningAndReady(cs: seq<ContainerStatus>): (b: bool)
    ensures b <==> exists i :: 0 <= i < |cs| && cs[i].running && cs[i].ready
  {
    if cs == [] then false
    else if cs[0].running && cs[0].ready then true
    else
      var rest := AnyRunningAndReady(cs[1..]);
      assert forall i :: 1 <= i < |cs| ==> cs[i] == cs[1..][i - 1];
      rest
  }

  /** The state of a slot, given the pod claiming it, if any. */
  function DeriveState(pod: Option<Pod>): (s: InstanceState)
    ensures s == Down <==> pod.None? || pod.value.containerStatuses == []
    ensures s == Running <==>
      pod.Some? && AnyRunningAndReady(pod.value.containerStatuses)
    ensures s == Starting <==>
      pod.Some? && pod.value.containerStatuses != [] &&
      forall i :: 0 <= i < |pod.value.containerStatuses| ==>
        !(pod.value.containerStatuses[i].running && pod.value.containerStatuses[i].ready)
  {
    match pod
    case None => Down
    case Some(p) =>
      if p.containerStatuses == [] then Down
      else if AnyRunningAndReady(p.containerStatuses) then Running
      else Starting
  }

  /** The phase a pod reports never changes the state of its slot. */
  lemma PhaseDoesNotDecide(p: Pod, phase: PodPhase)
    ensures DeriveState(Some(p.(phase := phase))) == DeriveState(Some(p))
  {
  }

  /** A pod whose single container runs and is ready is RUNNING. */
  lemma RunningAndReadyIsRunning(p: Pod)
    requires p.containerStatuses == [ContainerStatus(true, true)]
    ensures DeriveState(Some(p)) == Running
  {
  }

  /** A pod that has reported no container status yet is DOWN, like a missing one. */
  lemma NoStatusesIsDown(p: Pod)
    requires p.containerStatuses == []
    ensures DeriveState(Some(p)) == Down && DeriveState(Some(p)) == DeriveState(None)
  {
  }

  /** A pending pod whose single container runs but is not ready is STARTING. */
  lemma RunningNotReadyIsStarting(p: Pod)
    requires p.phase == PodPending
    requires p.containerStatuses == [ContainerStatus(true, false)]
    ensures DeriveState(Some(p)) == Starting
  {
  }

  // ---------------------------------------------------------------------
  // FetchPodStatsByAppGUID
  // ---------------------------------------------------------------------

  /** Pod `p` is listed for `msg` and declares slot `i`. */
  predicate Claims(p: Pod, msg: FetchPodStatsMessage, i: nat)
  {
    Matches(p, msg.namespace, msg.appGUID) && p.index == i
  }

  /** `state` is an admissible state for slot `i`: DOWN when no listed pod
      claims the slot, otherwise the derived state of a pod that claims it.
      Which of several pods claiming one slot decides is left open. */
  ghost predicate SlotState(state: InstanceState, pods: seq<Pod>, msg: FetchPodStatsMessage, i: nat)
  {
    || (exists p :: p in pods && Claims(p, msg, i) && state == DeriveState(Some(p)))
    || ((forall p :: p in pods ==> !Claims(p, msg, i)) && state == Down)
  }

  /** `records` is a correct answer to `msg` over the pods in the cluster:
      one record per desired slot, in slot order, each carrying the requested
      process type and an admissible state. */
  ghost predicate IsPodStats(records: seq<PodStatsRecord>, pods: seq<Pod>, msg: FetchPodStatsMessage)
  {
    && |records| == msg.instances
    && forall k :: 0 <= k < |records| ==>
         && records[k].processType == msg.processType
         && records[k].index == k
         && SlotState(records[k].state, pods, msg, k)
  }

  /** Lists the pods of the app (or fails with the list error), indexes them
      by instance index, then emits one record per slot 0..instances-1. */
  method FetchPodStatsByAppGUID(listing: Result<seq<Pod>, ListError>, msg: FetchPodStatsMessage)
    returns (r: Result<seq<PodStatsRecord>, ListError>)
    ensures listing.Failure? ==> r == Failure(listing.error)
    ensures listing.Success? ==> r.Success? && IsPodStats(r.value, listing.value, msg)
  {
    if listing.Failure? {
      return Failure(listing.error);
    }
    var pods := listing.value;

    var byIndex: map<nat, Pod> := map[];
    var j := 0;
    while j < |pods|
      invariant 0 <= j <= |pods|
      invariant forall k :: k in byIndex ==> byIndex[k] in pods && Claims(byIndex[k], msg, k)
      invariant forall n :: 0 <= n < j && Matches(pods[n], msg.namespace, msg.appGUID) ==> pods[n].index in byIndex
    {
      var p := pods[j];
      if Matches(p, msg.namespace, msg.appGUID) {
        byIndex := byIndex[p.index := p];
      }
      j := j + 1;
    }

    var records: seq<PodStatsRecord> := [];
    var i: nat := 0;
    while i < msg.instances
      invariant i <= msg.instances
      invariant |records| == i
      invariant forall k :: 0 <= k < i ==>
        records[k].processType == msg.processType && records[k].index == k &&
        SlotState(records[k].state, pods, msg, k)
    {
      var state: InstanceState;
      if i in byIndex {
        state := DeriveState(Some(byIndex[i]));
      } else {
        state := DeriveState(None);
        assert forall n :: 0 <= n < |pods| ==> !Claims(pods[n], msg, i);
      }
      records := records + [PodStatsRecord(msg.processType, i, state)];
      i := i + 1;
    }
    return Success(records);
  }

  /** The set of slot indices a list of records carries. */
  function Indices(records: seq<PodStatsRecord>): set<nat>
  {
    set k | 0 <= k < |records| :: records[k].index
  }

  /** The record indices are exactly {0, ..., instances-1}, each once, and
      every record carries the requested process type. */
  lemma PodStatsCoverSlots(records: seq<PodStatsRecord>, pods: seq<Pod>, msg: FetchPodStatsMessage)
    requires IsPodStats(records, pods, msg)
    ensures forall i: nat :: i in Indices(records) <==> i < msg.instances
    ensures forall k, l :: 0 <= k < l < |records| ==> records[k].index != records[l].index
    ensures forall k :: 0 <= k < |records| ==> records[k].processType == msg.processType
  {
    forall i: nat | i < msg.instances ensures i in Indices(records) {
      assert records[i].index == i;
    }
    forall i | i in Indices(records) ensures i < msg.instances {
      var k :| 0 <= k < |records| && records[k].index == i;
    }
  }

  /** A slot claimed by exactly one listed pod gets that pod's derived state. */
  lemma UniqueClaimDecides(records: seq<PodStatsRecord>, pods: seq<Pod>, msg: FetchPodStatsMessage, i: nat, p: Pod)
    requires IsPodStats(records, pods, msg)
    requires i < msg.instances
    requires p in pods && Claims(p, msg, i)
    requires forall q :: q in pods && Claims(q, msg, i) ==> q == p
    ensures records[i].state == DeriveState(Some(p))
  {
  }

  /** A slot no listed pod claims is DOWN. */
  lemma UnclaimedSlotIsDown(records: seq<PodStatsRecord>, pods: seq<Pod>, msg: FetchPodStatsMessage, i: nat)
    requires IsPodStats(records, pods, msg)
    requires i < msg.instances
    requires forall q :: q in pods ==> !Claims(q, msg, i)
    ensures records[i].state == Down
  {
  }

  /** Pods outside the selector (another app GUID or namespace) never change
      the answer: only the set of matching pods counts. */
  lemma OnlyMatchingPodsCount(records: seq<PodStatsRecord>, pods1: seq<Pod>, pods2: seq<Pod>, msg: FetchPodStatsMessage)
    requires forall p :: Matches(p, msg.namespace, msg.appGUID) ==> (p in pods1 <==> p in pods2)
    ensures IsPodStats(records, pods1, msg) <==> IsPodStats(records, pods2, msg)
  {
    forall k: nat | k < |records|
      ensures SlotState(records[k].state, pods1, msg, k) <==> SlotState(records[k].state, pods2, msg, k)
    {
    }
  }

  // ---------------------------------------------------------------------
  // The three FetchPodStatsByAppGUID scenarios of the repository tests
  // ---------------------------------------------------------------------

  const ScenarioNamespace := "space"
  const ScenarioApp := "the-app-guid"

  function RunningReadyPod(index: nat): Pod
  {
    Pod(ScenarioNamespace, ScenarioApp, index, PodRunning, [ContainerStatus(true, true)])
  }

  function FreshPod(appGUID: string, index: nat): Pod
  {
    Pod(ScenarioNamespace, appGUID, index, PodPending, [])
  }

  function ScenarioMessage(instances: nat): FetchPodStatsMessage
  {
    FetchPodStatsMessage(ScenarioNamespace, ScenarioApp, instances, "web")
  }

  /** The pods every scenario starts with: a running, ready pod at 0, a pod
      at 1 without statuses, and another app's pod at 0. */
  function ScenarioPods(): seq<Pod>
  {
    [RunningReadyPod(0), FreshPod(ScenarioApp, 1), FreshPod("other-app-guid", 0)]
  }

  /** Two desired instances: slot 0 RUNNING despite the foreign pod at 0, slot 1 DOWN. */
  lemma AllRequiredPodsExist(records: seq<PodStatsRecord>)
    requires IsPodStats(records, ScenarioPods(), ScenarioMessage(2))
    ensures records == [PodStatsRecord("web", 0, Running), PodStatsRecord("web", 1, Down)]
    ensures records[0].state.Name() == "RUNNING" && records[1].state.Name() == "DOWN"
  {
    var pods, msg := ScenarioPods(), ScenarioMessage(2);
    assert forall p :: p in pods && Claims(p, msg, 0) ==> p == RunningReadyPod(0);
    assert forall p :: p in pods && Claims(p, msg, 1) ==> p == FreshPod(ScenarioApp, 1);
    UniqueClaimDecides(records, pods, msg, 0, RunningReadyPod(0));
    UniqueClaimDecides(records, pods, msg, 1, FreshPod(ScenarioApp, 1));
  }

  /** Three desired instances with pods only at 0 and 1: slot 2 is DOWN. */
  lemma SomePodsMissing(records: seq<PodStatsRecord>)
    requires IsPodStats(records, ScenarioPods(), ScenarioMessage(3))
    ensures records == [PodStatsRecord("web", 0, Running), PodStatsRecord("web", 1, Down), PodStatsRecord("web", 2, Down)]
    ensures records[0].state.Name() == "RUNNING" && records[1].state.Name() == "DOWN" && records[2].state.Name() == "DOWN"
  {
    var pods, msg := ScenarioPods(), ScenarioMessage(3);
    assert forall p :: p in pods && Claims(p, msg, 0) ==> p == RunningReadyPod(0);
    assert forall p :: p in pods && Claims(p, msg, 1) ==> p == FreshPod(ScenarioApp, 1);
    UniqueClaimDecides(records, pods, msg, 0, RunningReadyPod(0));
    UniqueClaimDecides(records, pods, msg, 1, FreshPod(ScenarioApp, 1));
    UnclaimedSlotIsDown(records, pods, msg, 2);
  }

  /** A pending pod at 2 whose container runs but is not ready: slot 2 is STARTING. */
  lemma PendingPodIsStarting(records: seq<PodStatsRecord>)
    requires IsPodStats(records, ScenarioPods() + [Pod(ScenarioNamespace, ScenarioApp, 2, PodPending, [ContainerStatus(true, false)])], ScenarioMessage(3))
    ensures records == [PodStatsRecord("web", 0, Running), PodStatsRecord("web", 1, Down), PodStatsRecord("web", 2, Starting)]
    ensures records[2].state.Name() == "STARTING"
  {
    var pending := Pod(ScenarioNamespace, ScenarioApp, 2, PodPending, [ContainerStatus(true, false)]);
    var pods, msg := ScenarioPods() + [pending], ScenarioMessage(3);
    assert forall p :: p in pods && Claims(p, msg, 0) ==> p == RunningReadyPod(0);
    assert forall p :: p in pods && Claims(p, msg, 1) ==> p == FreshPod(ScenarioApp, 1);
    assert forall p :: p in pods && Claims(p, msg, 2) ==> p == pending;
    UniqueClaimDecides(records, pods, msg, 0, RunningReadyPod(0));
    UniqueClaimDecides(records, pods, msg, 1, FreshPod(ScenarioApp, 1));
    UniqueClaimDecides(records, pods, msg, 2, pending);
  }

  // ---------------------------------------------------------------------
  // WatchForPodsTermination
  // ---------------------------------------------------------------------

  /** What the waiting caller observes, in order: a look at the pods in the
      cluster, or the cancellation of its context. */
  datatype Observation = Check(pods: seq<Pod>) | Cancelled

  /** The error a cancelled wait returns; only that some error is returned is
      fixed, not which one. */
  datatype WatchError = Canceled

  /** The Go pair `(terminated bool, err error)`. */
  datatype WatchResult = WatchResult(terminated: bool, err: Option<WatchError>)

  /** Number of pods matching the selector. */
  function MatchingCount(pods: seq<Pod>, namespace: string, appGUID: string): (n: nat)
    ensures n <= |pods|
    ensures n == 0 <==> forall i :: 0 <= i < |pods| ==> !Matches(pods[i], namespace, appGUID)
  {
    if pods == [] then 0
    else
      var rest := MatchingCount(pods[1..], namespace, appGUID);
      assert forall i :: 1 <= i < |pods| ==> pods[i] == pods[1..][i - 1];
      (if Matches(pods[0], namespace, appGUID) then 1 else 0) + rest
  }

  /** Adding a pod of another app or namespace does not change the count. */
  lemma {:induction false} ForeignPodNotCounted(pods: seq<Pod>, q: Pod, namespace: string, appGUID: string)
    requires !Matches(q, namespace, appGUID)
    ensures MatchingCount(pods + [q], namespace, appGUID) == MatchingCount(pods, namespace, appGUID)
  {
    if pods != [] {
      assert (pods + [q])[1..] == pods[1..] + [q];
      ForeignPodNotCounted(pods[1..], q, namespace, appGUID);
    }
  }

  /** An observation that ends the wait: cancellation, or a check finding no matching pod. */
  predicate Decisive(o: Observation, namespace: string, appGUID: string)
  {
    o.Cancelled? || MatchingCount(o.pods, namespace, appGUID) == 0
  }

  /** The result a decisive observation produces. */
  function Verdict(o: Observation, namespace: string, appGUID: string): (r: WatchResult)
    requires Decisive(o, namespace, appGUID)
    ensures r.terminated <==> o.Check?
    ensures r.err.Some? <==> o.Cancelled?
  {
    if o.Cancelled? then WatchResult(false, Some(Canceled)) else WatchResult(true, None)
  }

  /** The outcome of waiting through `trace`: decided by its first decisive
      observation, or still waiting (None) when there is none. */
  function AwaitTermination(trace: seq<Observation>, namespace: string, appGUID: string): (r: Option<WatchResult>)
    ensures r.None? <==> forall k :: 0 <= k < |trace| ==> !Decisive(trace[k], namespace, appGUID)
    ensures r.Some? ==>
      exists k :: 0 <= k < |trace| && Decisive(trace[k], namespace, appGUID) &&
        (forall j :: 0 <= j < k ==> !Decisive(trace[j], namespace, appGUID)) &&
        r.value == Verdict(trace[k], namespace, appGUID)
  {
    if trace == [] then None
    else if Decisive(trace[0], namespace, appGUID) then Some(Verdict(trace[0], namespace, appGUID))
    else
      var r := AwaitTermination(trace[1..], namespace, appGUID);
      assert forall k :: 1 <= k < |trace| ==> trace[k] == trace[1..][k - 1];
      r
  }

  /** Repeats checks until one finds no matching pod (true, no error) or the
      context is cancelled (false, an error). */
  method WatchForPodsTermination(trace: seq<Observation>, namespace: string, appGUID: string)
    returns (r: Option<WatchResult>)
    ensures r == AwaitTermination(trace, namespace, appGUID)
  {
    var k := 0;
    while k < |trace|
      invariant 0 <= k <= |trace|
      invariant AwaitTermination(trace[k..], namespace, appGUID) == AwaitTermination(trace, namespace, appGUID)
    {
      var o := trace[k];
      if o.Cancelled? {
        return Some(WatchResult(false, Some(Canceled)));
      }
      if MatchingCount(o.pods, namespace, appGUID) == 0 {
        return Some(WatchResult(true, None));
      }
      assert trace[k..][1..] == trace[k + 1..];
      k := k + 1;
    }
    return None;
  }

  /** Once decided, terminated holds exactly when there is no error. */
  lemma TerminatedIffNoError(trace: seq<Observation>, namespace: string, appGUID: string)
    requires AwaitTermination(trace, namespace, appGUID).Some?
    ensures AwaitTermination(trace, namespace, appGUID).value.terminated <==>
            AwaitTermination(trace, namespace, appGUID).value.err.None?
  {
  }

  /** A cancellation before any check that finds nothing fails the wait,
      whatever observations follow. */
  lemma CancelFirstFails(trace: seq<Observation>, k: nat, namespace: string, appGUID: string)
    requires k < |trace| && trace[k] == Cancelled
    requires forall j :: 0 <= j < k ==> trace[j].Check? && MatchingCount(trace[j].pods, namespace, appGUID) > 0
    ensures AwaitTermination(trace, namespace, appGUID) == Some(WatchResult(false, Some(Canceled)))
  {
  }

  /** A check finding no matching pod before any cancellation succeeds. */
  lemma EmptyCheckFirstSucceeds(trace: seq<Observation>, k: nat, namespace: string, appGUID: string)
    requires k < |trace| && trace[k].Check? && MatchingCount(trace[k].pods, namespace, appGUID) == 0
    requires forall j :: 0 <= j < k ==> trace[j].Check? && MatchingCount(trace[j].pods, namespace, appGUID) > 0
    ensures AwaitTermination(trace, namespace, appGUID) == Some(WatchResult(true, None))
  {
  }

  /** Once the wait is decided, later observations cannot change the result. */
  lemma {:induction false} DecisionIsFinal(trace: seq<Observation>, later: seq<Observation>, namespace: string, appGUID: string)
    requires AwaitTermination(trace, namespace, appGUID).Some?
    ensures AwaitTermination(trace + later, namespace, appGUID) == AwaitTermination(trace, namespace, appGUID)
  {
    assert trace != [];
    assert (trace + later)[0] == trace[0];
    if !Decisive(trace[0], namespace, appGUID) {
      assert (trace + later)[1..] == trace[1..] + later;
      DecisionIsFinal(trace[1..], later, namespace, appGUID);
    }
  }

  // ---------------------------------------------------------------------
  // The three WatchForPodsTermination scenarios of the repository tests
  // ---------------------------------------------------------------------

  /** Both pods of the app are deleted after the call starts: the wait ends
      with (true, no error) once a check finds none left. */
  lemma PodsDeletedTerminates()
    ensures AwaitTermination(
      [Check([FreshPod(ScenarioApp, 0), FreshPod(ScenarioApp, 1)]), Check([FreshPod(ScenarioApp, 1)]), Check([])],
      ScenarioNamespace, ScenarioApp) == Some(WatchResult(true, None))
  {
    var trace := [Check([FreshPod(ScenarioApp, 0), FreshPod(ScenarioApp, 1)]), Check([FreshPod(ScenarioApp, 1)]), Check([])];
    assert MatchingCount(trace[0].pods, ScenarioNamespace, ScenarioApp) > 0;
    assert MatchingCount(trace[1].pods, ScenarioNamespace, ScenarioApp) > 0;
    EmptyCheckFirstSucceeds(trace, 2, ScenarioNamespace, ScenarioApp);
  }

  /** No pod carries the queried GUID and nothing is cancelled: (true, no error). */
  lemma NoMatchingPodsTerminates()
    ensures AwaitTermination([Check([FreshPod(ScenarioApp, 0), FreshPod(ScenarioApp, 1)])], ScenarioNamespace, "i-dont-exist")
            == Some(WatchResult(true, None))
  {
  }

  /** The context is cancelled before the first check: (false, an error),
      although no pod matches the queried GUID. */
  lemma CancelledBeforeCheckFails(later: seq<Observation>)
    ensures AwaitTermination([Cancelled] + later, ScenarioNamespace, "i-dont-exist")
            == Some(WatchResult(false, Some(Canceled)))
  {
  }
}
