/** The monitoring state of one pod and the threads that race on it. */
module PodState {

  datatype State =
    | Unset
    | PodPending | PodRunning | PodSucceeded | PodFailed | PodTerminated | RemovePodFromMap
    | TrafficMonitoringRunning | TrafficMonitoringFailed | TrafficMonitoringEnded
    | DaemonSetShutdown

  predicate IsFinal(s: State) {
    s.TrafficMonitoringEnded? || s.TrafficMonitoringFailed? || s.RemovePodFromMap?
  }

  /** Whether changePodTrafficMonitorState accepts the change; an empty `allowed` allows any
      current state. */
  predicate MayChange(s: State, next: State, allowed: seq<State>) {
    !IsFinal(s) && (allowed == [] || s in allowed) && s != next
  }

  function Change(s: State, next: State, allowed: seq<State>): State {
    if MayChange(s, next, allowed) then next else s
  }

  const EXIT_ALLOWED := [TrafficMonitoringRunning, PodSucceeded, PodFailed, PodTerminated, DaemonSetShutdown]

  class PodArgs {
    var podTrafficMonitorState: State

    constructor ()
      ensures podTrafficMonitorState == Unset
    {
      podTrafficMonitorState := Unset;
    }

    /** One locked state change; `ok` is false when an error is returned. */
    method ChangePodTrafficMonitorState(next: State, allowed: seq<State>) returns (ok: bool)
      modifies this
      ensures var was := old(podTrafficMonitorState);
              ok <==> (was !in {TrafficMonitoringEnded, TrafficMonitoringFailed, RemovePodFromMap}
                       && (|allowed| == 0 || was in allowed) && was != next)
      ensures ok == MayChange(old(podTrafficMonitorState), next, allowed)
      ensures podTrafficMonitorState == if ok then next else old(podTrafficMonitorState)
    {
      if IsFinal(podTrafficMonitorState) {
        return false;
      }
      if |allowed| != 0 && podTrafficMonitorState !in allowed {
        return false;
      }
      if podTrafficMonitorState == next {
        return false;
      }
      podTrafficMonitorState := next;
      return true;
    }

    method MarkAsPruneReady() returns (ok: bool)
      modifies this
      ensures ok <==> old(podTrafficMonitorState) in {TrafficMonitoringEnded, TrafficMonitoringFailed}
      ensures podTrafficMonitorState == if ok then RemovePodFromMap else old(podTrafficMonitorState)
    {
      match podTrafficMonitorState {
        case TrafficMonitoringEnded | TrafficMonitoringFailed =>
          podTrafficMonitorState := RemovePodFromMap;
          return true;
        case _ =>
          return false;
      }
    }
  }

  // ---------------------------------------------------------------------------------
  // The interleaving system

  type Uid = int
  type Pod = nat     // the identity of a PodArgs object
  type Thread = nat

  /** What has happened to the process of one PodArgs object. `Claimed` is the time between
      the state change and the start of the goroutine by the same thread, `Leaving` the time between the end of
      the process and its exit transition. */
  datatype Process = NoProcess | Claimed(starter: Thread) | Alive | Leaving(failed: bool) | Exited

  /** One PodArgs object: its state, how far its creation and its process have got, how many
      processes were started for it, how often its exit transition was refused and its stop
      channel was closed. */
  datatype Record = Record(uid: Uid, creator: Thread, state: State, created: bool, process: Process,
                           starts: nat, refused: nat, closes: nat)

  /** The next atomic step of a thread: a map operation, a locked state change, a channel
      operation or a read of the state. */
  datatype Pc =
    | Done
    // addPodArgsToMap, followed by StartApiDumpProcess if `thenStart`
    | AddStore(pod: Pod, first: State, thenStart: bool)
    | AddInit(pod: Pod, first: State, thenStart: bool)
    // handlePodModifyEvent
    | ModifyLoad(uid: Uid)
    | ModifyCheck(uid: Uid, pod: Pod)
    | ModifyInspect(uid: Uid, pod: Pod)
    | ModifyDelete(uid: Uid)
    | ModifyRun(uid: Uid, pod: Pod)
    // StartApiDumpProcess
    | StartLoad(uid: Uid)
    | StartChange(pod: Pod)
    | StartSpawn(pod: Pod)
    // handlePodDeleteEvent, handleTerminatedPod and StopAllApiDumpProcesses
    | StopLoad(uid: Uid, next: State, allowed: seq<State>)
    | StopChange(uid: Uid, pod: Pod, next: State, allowed: seq<State>)
    | SignalLoad(uid: Uid, thenDelete: bool)
    | SignalSend(uid: Uid, pod: Pod, thenDelete: bool)
    | StopDelete(uid: Uid)
    // handleUnmonitoredPod
    | WatchLoad(uid: Uid)
    | WatchCheck(uid: Uid, pod: Pod)

  /** pruneStoppedProcesses, run by the one health worker: visit an entry of the map, read its
      state, then mark it, or close its channel and delete the entry. */
  datatype Pruner = Resting | Visiting(pod: Pod) | Marking(pod: Pod) | Closing(pod: Pod) | Deleting(pod: Pod)

  datatype System = System(podMap: map<Uid, Pod>, pods: map<Pod, Record>, threads: map<Thread, Pc>, pruner: Pruner)

  ghost predicate Initial(s: System) {
    s == System(map[], map[], map[], Resting)
  }

  function SetState(s: System, pod: Pod, next: State): System
    requires pod in s.pods
  {
    s.(pods := s.pods[pod := s.pods[pod].(state := next)])
  }

  function Goto(s: System, t: Thread, pc: Pc): System {
    s.(threads := s.threads[t := pc])
  }

  /** The stop requests that the handlers make: the state they ask for and from where. */
  ghost predicate StopRequest(next: State, allowed: seq<State>) {
    || (next in {PodSucceeded, PodFailed, PodTerminated} && allowed == [TrafficMonitoringRunning])
    || (next in {PodTerminated, DaemonSetShutdown} && allowed == [])
  }

  /** What a handler thread is started for. A thread that adds a pod brings a new object. */
  datatype Job =
    | Add(pod: Pod, podUid: Uid, first: State, thenStart: bool)
    | Modify(uid: Uid)
    | Watch(uid: Uid)
    | Stop(uid: Uid, next: State, allowed: seq<State>)

  ghost predicate Legal(s: System, t: Thread, job: Job) {
    && t !in s.threads
    && match job
       case Add(pod, _, first, _) => pod !in s.pods && first in {PodPending, PodRunning}
       case Stop(_, next, allowed) => StopRequest(next, allowed)
       case _ => true
  }

  function SpawnStep(s: System, t: Thread, job: Job): System {
    match job
    case Add(pod, uid, first, start) =>
      var created := s.pods[pod := Record(uid, t, Unset, false, NoProcess, 0, 0, 0)];
      Goto(s.(pods := created), t, AddStore(pod, first, start))
    case Modify(uid) => Goto(s, t, ModifyLoad(uid))
    case Watch(uid) => Goto(s, t, WatchLoad(uid))
    case Stop(uid, next, allowed) => Goto(s, t, StopLoad(uid, next, allowed))
  }

  /** One atomic step of handler thread `t`. `choice` resolves what the cluster answers. */
  function ThreadStep(s: System, t: Thread, choice: bool): System
    requires t in s.threads && PodsOf(s.threads[t]) <= s.pods.Keys
  {
    match s.threads[t]
    case Done => s
    case AddStore(pod, first, start) =>
      var uid := s.pods[pod].uid;
      if uid in s.podMap then Goto(s, t, Done)
      else Goto(s.(podMap := s.podMap[uid := pod]), t, AddInit(pod, first, start))
    case AddInit(pod, first, start) =>
      var r := s.pods[pod];
      var s' := s.(pods := s.pods[pod := r.(state := Change(r.state, first, []), created := true)]);
      Goto(s', t, if start && MayChange(r.state, first, []) then StartLoad(r.uid) else Done)
    case ModifyLoad(uid) => Goto(s, t, if uid in s.podMap then ModifyCheck(uid, s.podMap[uid]) else Done)
    case ModifyCheck(uid, pod) =>
      Goto(s, t, if s.pods[pod].state.PodPending? then ModifyInspect(uid, pod) else Done)
    case ModifyInspect(uid, pod) => Goto(s, t, if choice then ModifyRun(uid, pod) else ModifyDelete(uid))
    case ModifyDelete(uid) => Goto(s.(podMap := s.podMap - {uid}), t, Done)
    case ModifyRun(uid, pod) =>
      var state := s.pods[pod].state;
      Goto(SetState(s, pod, Change(state, PodRunning, [PodPending])), t,
           if MayChange(state, PodRunning, [PodPending]) then StartLoad(uid) else Done)
    case StartLoad(uid) => Goto(s, t, if uid in s.podMap then StartChange(s.podMap[uid]) else Done)
    case StartChange(pod) =>
      var r := s.pods[pod];
      if MayChange(r.state, TrafficMonitoringRunning, [PodRunning]) then
        Goto(s.(pods := s.pods[pod := r.(state := TrafficMonitoringRunning, process := Claimed(t))]), t, StartSpawn(pod))
      else Goto(s, t, Done)
    case StartSpawn(pod) =>
      var r := s.pods[pod];
      Goto(s.(pods := s.pods[pod := r.(process := Alive, starts := r.starts + 1)]), t, Done)
    case StopLoad(uid, next, allowed) =>
      Goto(s, t, if uid in s.podMap then StopChange(uid, s.podMap[uid], next, allowed) else Done)
    case StopChange(uid, pod, next, allowed) =>
      var state := s.pods[pod].state;
      Goto(SetState(s, pod, Change(state, next, allowed)), t,
           if MayChange(state, next, allowed) then SignalLoad(uid, next.DaemonSetShutdown?) else Done)
    case SignalLoad(uid, thenDelete) =>
      Goto(s, t, if uid in s.podMap then SignalSend(uid, s.podMap[uid], thenDelete)
                 else if thenDelete then StopDelete(uid) else Done)
    case SignalSend(uid, _, thenDelete) => Goto(s, t, if thenDelete then StopDelete(uid) else Done)
    case StopDelete(uid) => Goto(s.(podMap := s.podMap - {uid}), t, Done)
    case WatchLoad(uid) => Goto(s, t, if uid in s.podMap then WatchCheck(uid, s.podMap[uid]) else Done)
    case WatchCheck(uid, pod) => Goto(s, t, if s.pods[pod].state.PodRunning? then StartLoad(uid) else Done)
  }

  function PodsOf(pc: Pc): set<Pod> {
    match pc
    case AddStore(pod, _, _) => {pod}
    case AddInit(pod, _, _) => {pod}
    case ModifyCheck(_, pod) => {pod}
    case ModifyInspect(_, pod) => {pod}
    case ModifyRun(_, pod) => {pod}
    case StartChange(pod) => {pod}
    case StartSpawn(pod) => {pod}
    case StopChange(_, pod, _, _) => {pod}
    case SignalSend(_, pod, _) => {pod}
    case WatchCheck(_, pod) => {pod}
    case _ => {}
  }

  /** The process of `pod` ends, or makes its deferred exit transition. */
  function ProcessStep(s: System, pod: Pod, failed: bool): System
    requires pod in s.pods
  {
    var r := s.pods[pod];
    match r.process
    case Alive => s.(pods := s.pods[pod := r.(process := Leaving(failed))])
    case Leaving(failed) =>
      var next := if failed then TrafficMonitoringFailed else TrafficMonitoringEnded;
      var ok := MayChange(r.state, next, EXIT_ALLOWED);
      s.(pods := s.pods[pod := r.(state := Change(r.state, next, EXIT_ALLOWED), process := Exited,
                                  refused := if ok then r.refused else r.refused + 1)])
    case _ => s
  }

  /** One step of the pruner; when resting it visits the entry of `uid` if there is one. */
  function PruneStep(s: System, uid: Uid): System
    requires s.pruner.Resting? || s.pruner.pod in s.pods
  {
    match s.pruner
    case Resting => if uid in s.podMap then s.(pruner := Visiting(s.podMap[uid])) else s
    case Visiting(pod) =>
      var state := s.pods[pod].state;
      s.(pruner := if state.TrafficMonitoringEnded? || state.TrafficMonitoringFailed? then Marking(pod)
                   else if state.RemovePodFromMap? then Closing(pod) else Resting)
    case Marking(pod) =>
      var state := s.pods[pod].state;
      var s' := if state.TrafficMonitoringEnded? || state.TrafficMonitoringFailed?
                then SetState(s, pod, RemovePodFromMap) else s;
      s'.(pruner := Resting)
    case Closing(pod) =>
      var r := s.pods[pod];
      s.(pods := s.pods[pod := r.(closes := r.closes + 1)], pruner := Deleting(pod))
    case Deleting(pod) => s.(podMap := s.podMap - {s.pods[pod].uid}, pruner := Resting)
  }

  datatype Actor = Spawner(t: Thread, job: Job) | Handler(t: Thread, choice: bool) | Proc(pod: Pod, failed: bool) | Health(uid: Uid)

  /** Every object that a thread or the map refers to exists. */
  ghost predicate Closed(s: System) {
    && (forall uid :: uid in s.podMap ==> s.podMap[uid] in s.pods)
    && (forall t :: t in s.threads ==> PodsOf(s.threads[t]) <= s.pods.Keys)
    && (s.pruner.Resting? || s.pruner.pod in s.pods)
  }

  ghost predicate Step(s: System, s': System, a: Actor)
    requires Closed(s)
  {
    match a
    case Spawner(t, job) => Legal(s, t, job) && s' == SpawnStep(s, t, job)
    case Handler(t, choice) => t in s.threads && s' == ThreadStep(s, t, choice)
    case Proc(pod, failed) => pod in s.pods && s' == ProcessStep(s, pod, failed)
    case Health(uid) => s' == PruneStep(s, uid)
  }

  // ---------------------------------------------------------------------------------
  // The invariant

  /** What holds of each PodArgs object: before its creator has set the first state it can only
      have been stopped; a process has been claimed at most once, after which the state never
      returns to one from which a start is allowed; until the process has exited the state
      allows the exit; and the channel is closed only in the removal state. */
  ghost predicate RecordInv(r: Record) {
    && (!r.created ==> r.state in {Unset, PodTerminated, DaemonSetShutdown} && r.process.NoProcess?)
    && (r.process.NoProcess? ==>
          r.state in {Unset, PodPending, PodRunning, PodTerminated, DaemonSetShutdown})
    && (r.process.Claimed? || r.process.Alive? || r.process.Leaving? ==> r.state in EXIT_ALLOWED)
    && (r.process.Exited? ==> IsFinal(r.state))
    && r.starts == (if r.process.NoProcess? || r.process.Claimed? then 0 else 1)
    && r.refused == 0
    && r.closes <= 1
    && (r.closes == 1 ==> r.state.RemovePodFromMap?)
  }

  /** What thread `t` may rely on when its next step is `pc`. */
  ghost predicate PcInv(s: System, t: Thread, pc: Pc)
    requires Closed(s) && PodsOf(pc) <= s.pods.Keys
  {
    match pc
    case AddStore(pod, first, _) =>
      && Creating(s.pods[pod], t) && first in {PodPending, PodRunning} && s.pods[pod].closes == 0
      && (forall uid :: uid in s.podMap ==> s.podMap[uid] != pod)
      && (s.pruner.Resting? || s.pruner.pod != pod)
    case AddInit(pod, first, _) => Creating(s.pods[pod], t) && first in {PodPending, PodRunning}
    case StartSpawn(pod) => s.pods[pod].process == Claimed(t)
    case StopChange(_, _, next, allowed) => StopRequest(next, allowed)
    case StopLoad(_, next, allowed) => StopRequest(next, allowed)
    case _ => true
  }

  ghost predicate Creating(r: Record, t: Thread) {
    r.creator == t && !r.created
  }

  /** The map and the pruner: an entry is under its object's own UID, and the channel of an
      object in the map is open unless the pruner has just closed it. */
  ghost predicate MapInv(s: System)
    requires Closed(s)
  {
    && (forall uid :: uid in s.podMap ==> s.pods[s.podMap[uid]].uid == uid)
    && (forall uid :: uid in s.podMap && !(s.pruner.Deleting? && s.pruner.pod == s.podMap[uid]) ==>
          s.pods[s.podMap[uid]].closes == 0)
    && (s.pruner.Visiting? || s.pruner.Marking? || s.pruner.Closing? ==> s.pods[s.pruner.pod].closes == 0)
    && (s.pruner.Closing? ==> s.pods[s.pruner.pod].state.RemovePodFromMap?)
  }

  ghost predicate Inv(s: System) {
    && Closed(s)
    && (forall pod :: pod in s.pods ==> RecordInv(s.pods[pod]))
    && (forall t :: t in s.threads ==> PcInv(s, t, s.threads[t]))
    && MapInv(s)
  }

  lemma InvInitial(s: System)
    requires Initial(s)
    ensures Inv(s)
  {
  }

  /** A thread that touches nothing shared. */
  lemma GotoInv(s: System, t: Thread, pc: Pc)
    requires Inv(s) && PodsOf(pc) <= s.pods.Keys && PcInv(s, t, pc)
    ensures Inv(Goto(s, t, pc))
  {
    var s' := Goto(s, t, pc);
    forall u | u in s'.threads ensures PcInv(s', u, s'.threads[u]) {
      if u != t { assert PcInv(s, u, s.threads[u]); }
    }
  }

  /** One object changes, and no thread that is not done relies on what it was. */
  lemma UpdateInv(s: System, pod: Pod, r': Record)
    requires Inv(s) && pod in s.pods && RecordInv(r')
    requires var r := s.pods[pod];
             && r'.uid == r.uid && r'.creator == r.creator && r'.closes == r.closes
             && (r.state.RemovePodFromMap? ==> r'.state.RemovePodFromMap?)
             && (forall u :: u in s.threads ==> s.threads[u].Done? || PcAllows(r, r', u))
    ensures Inv(s.(pods := s.pods[pod := r']))
  {
    var s' := s.(pods := s.pods[pod := r']);
    forall u | u in s'.threads ensures PcInv(s', u, s'.threads[u]) {
      assert PcInv(s, u, s.threads[u]);
    }
  }

  /** The change from `r` to `r'` takes nothing away that thread `u` relies on. */
  ghost predicate PcAllows(r: Record, r': Record, u: Thread) {
    && (Creating(r, u) ==> Creating(r', u))
    && (r.process == Claimed(u) ==> r'.process == Claimed(u))
  }

  lemma RemoveInv(s: System, uid: Uid)
    requires Inv(s)
    ensures Inv(s.(podMap := s.podMap - {uid}))
  {
    var s' := s.(podMap := s.podMap - {uid});
    forall u | u in s'.threads ensures PcInv(s', u, s'.threads[u]) {
      assert PcInv(s, u, s.threads[u]);
    }
  }

  /** The creator publishes its object. */
  lemma StoreInv(s: System, t: Thread, pod: Pod, first: State, start: bool)
    requires Inv(s) && t in s.threads && s.threads[t] == AddStore(pod, first, start)
    requires s.pods[pod].uid !in s.podMap
    ensures Inv(Goto(s.(podMap := s.podMap[s.pods[pod].uid := pod]), t, AddInit(pod, first, start)))
  {
    var s' := Goto(s.(podMap := s.podMap[s.pods[pod].uid := pod]), t, AddInit(pod, first, start));
    assert PcInv(s, t, s.threads[t]);
    forall u | u in s'.threads ensures PcInv(s', u, s'.threads[u]) {
      if u != t { assert PcInv(s, u, s.threads[u]); }
    }
  }

  /** A new object that nothing refers to yet. */
  lemma CreateInv(s: System, pod: Pod, r: Record)
    requires Inv(s) && pod !in s.pods && RecordInv(r)
    ensures Inv(s.(pods := s.pods[pod := r]))
  {
    var s' := s.(pods := s.pods[pod := r]);
    forall u | u in s'.threads ensures PodsOf(s'.threads[u]) <= s'.pods.Keys && PcInv(s', u, s'.threads[u]) {
      assert PcInv(s, u, s.threads[u]);
    }
  }

  lemma SpawnInv(s: System, t: Thread, job: Job)
    requires Inv(s) && Legal(s, t, job)
    ensures Inv(SpawnStep(s, t, job))
  {
    match job
    case Add(pod, uid, first, start) =>
      var r := Record(uid, t, Unset, false, NoProcess, 0, 0, 0);
      CreateInv(s, pod, r);
      GotoInv(s.(pods := s.pods[pod := r]), t, AddStore(pod, first, start));
    case _ => GotoInv(s, t, SpawnStep(s, t, job).threads[t]);
  }

  lemma GotoTwice(s: System, t: Thread, pc: Pc, pod: Pod, r': Record)
    ensures Goto(Goto(s, t, Done).(pods := s.pods[pod := r']), t, pc) == Goto(s.(pods := s.pods[pod := r']), t, pc)
  {
    assert s.threads[t := Done][t := pc] == s.threads[t := pc];
  }

  /** The thread first stops, then the object changes, then the thread goes on. */
  lemma UpdateAndGoto(s: System, t: Thread, pod: Pod, r': Record, pc: Pc)
    requires Inv(s) && t in s.threads && pod in s.pods && RecordInv(r') && PodsOf(pc) <= s.pods.Keys
    requires var r := s.pods[pod];
             && r'.uid == r.uid && r'.creator == r.creator && r'.closes == r.closes
             && (r.state.RemovePodFromMap? ==> r'.state.RemovePodFromMap?)
             && (forall u :: u in s.threads && u != t ==> PcAllows(r, r', u))
    requires pc.Done? || pc.StartLoad? || pc.SignalLoad? || (pc == StartSpawn(pod) && r'.process == Claimed(t))
    ensures Inv(Goto(s.(pods := s.pods[pod := r']), t, pc))
  {
    var s1 := Goto(s, t, Done);
    GotoInv(s, t, Done);
    UpdateInv(s1, pod, r');
    var s2 := s1.(pods := s.pods[pod := r']);
    assert PcInv(s2, t, pc);
    GotoInv(s2, t, pc);
    GotoTwice(s, t, pc, pod, r');
  }

  /** The creator sets the first state, whatever happened to the object in between. */
  lemma FirstStateInv(s: System, t: Thread, choice: bool)
    requires Inv(s) && t in s.threads && s.threads[t].AddInit?
    ensures Inv(ThreadStep(s, t, choice))
  {
    var s', pod := ThreadStep(s, t, choice), s.threads[t].pod;
    assert PcInv(s, t, s.threads[t]);
    assert RecordInv(s.pods[pod]) && RecordInv(s'.pods[pod]);
    UpdateAndGoto(s, t, pod, s'.pods[pod], s'.threads[t]);
  }

  /** A handler changes only the state of an object. */
  lemma StateChangeInv(s: System, t: Thread, pod: Pod, next: State, allowed: seq<State>, pc: Pc)
    requires Inv(s) && t in s.threads && pod in s.pods && (pc.Done? || pc.StartLoad? || pc.SignalLoad?)
    requires StopRequest(next, allowed) || (next == PodRunning && allowed == [PodPending])
    ensures Inv(Goto(SetState(s, pod, Change(s.pods[pod].state, next, allowed)), t, pc))
  {
    assert RecordInv(s.pods[pod]);
    UpdateAndGoto(s, t, pod, s.pods[pod].(state := Change(s.pods[pod].state, next, allowed)), pc);
  }

  /** Claiming and starting the process. */
  lemma StartInv(s: System, t: Thread, choice: bool)
    requires Inv(s) && t in s.threads
    requires s.threads[t].StartChange? || s.threads[t].StartSpawn?
    ensures Inv(ThreadStep(s, t, choice))
  {
    var s', pod := ThreadStep(s, t, choice), s.threads[t].pod;
    assert PcInv(s, t, s.threads[t]);
    assert RecordInv(s.pods[pod]);
    if s'.pods == s.pods {
      GotoInv(s, t, Done);
    } else {
      UpdateAndGoto(s, t, pod, s'.pods[pod], s'.threads[t]);
    }
  }

  lemma ThreadInv(s: System, t: Thread, choice: bool)
    requires Inv(s) && t in s.threads
    ensures Inv(ThreadStep(s, t, choice))
  {
    var pc, s' := s.threads[t], ThreadStep(s, t, choice);
    assert PcInv(s, t, pc);
    if pc.AddInit? {
      FirstStateInv(s, t, choice);
    } else if pc.ModifyRun? {
      StateChangeInv(s, t, pc.pod, PodRunning, [PodPending], s'.threads[t]);
    } else if pc.StopChange? {
      StateChangeInv(s, t, pc.pod, pc.next, pc.allowed, s'.threads[t]);
    } else if pc.StartChange? || pc.StartSpawn? {
      StartInv(s, t, choice);
    } else if pc.ModifyDelete? || pc.StopDelete? {
      RemoveInv(s, pc.uid);
      GotoInv(s.(podMap := s.podMap - {pc.uid}), t, Done);
    } else if pc.AddStore? && s.pods[pc.pod].uid !in s.podMap {
      StoreInv(s, t, pc.pod, pc.first, pc.thenStart);
    } else if !pc.Done? {
      GotoInv(s, t, s'.threads[t]);
    }
  }

  lemma ProcessInv(s: System, pod: Pod, failed: bool)
    requires Inv(s) && pod in s.pods
    ensures Inv(ProcessStep(s, pod, failed))
  {
    assert RecordInv(s.pods[pod]);
    var s' := ProcessStep(s, pod, failed);
    UpdateInv(s, pod, s'.pods[pod]);
    assert s' == s.(pods := s.pods[pod := s'.pods[pod]]);
  }

  /** The pruner moves on without touching anything shared. */
  lemma PrunerInv(s: System, pruner: Pruner)
    requires Inv(s)
    requires pruner.Resting? || pruner.pod in s.pods
    requires !s.pruner.Deleting?
    requires pruner.Visiting? || pruner.Marking? || pruner.Closing? ==>
               s.pods[pruner.pod].closes == 0 && Published(s, pruner.pod)
    requires pruner.Closing? ==> s.pods[pruner.pod].state.RemovePodFromMap?
    requires !pruner.Deleting?
    ensures Inv(s.(pruner := pruner))
  {
    var s' := s.(pruner := pruner);
    forall u | u in s'.threads ensures PcInv(s', u, s'.threads[u]) {
      assert PcInv(s, u, s.threads[u]);
    }
  }

  /** No thread is still about to put the object into the map. */
  ghost predicate Published(s: System, pod: Pod) {
    forall t :: t in s.threads && s.threads[t].AddStore? ==> s.threads[t].pod != pod
  }

  lemma InMapIsPublished(s: System, uid: Uid)
    requires Inv(s) && uid in s.podMap
    ensures Published(s, s.podMap[uid])
  {
    forall t | t in s.threads && s.threads[t].AddStore? ensures s.threads[t].pod != s.podMap[uid] {
      assert PcInv(s, t, s.threads[t]);
    }
  }

  lemma PrunedIsPublished(s: System)
    requires Inv(s) && !s.pruner.Resting?
    ensures Published(s, s.pruner.pod)
  {
    forall t | t in s.threads && s.threads[t].AddStore? ensures s.threads[t].pod != s.pruner.pod {
      assert PcInv(s, t, s.threads[t]);
    }
  }

  /** close(StopChan): the channel was open and its object is in the removal state. */
  lemma CloseInv(s: System, uid: Uid)
    requires Inv(s) && s.pruner.Closing?
    ensures Inv(PruneStep(s, uid))
  {
    var s', pod := PruneStep(s, uid), s.pruner.pod;
    assert RecordInv(s.pods[pod]);
    PrunedIsPublished(s);
    forall u | u in s'.threads ensures PcInv(s', u, s'.threads[u]) {
      assert PcInv(s, u, s.threads[u]);
    }
  }

  /** The map entry goes; it can only have been the entry of the closed object. */
  lemma DeleteInv(s: System, uid: Uid)
    requires Inv(s) && s.pruner.Deleting?
    ensures Inv(PruneStep(s, uid))
  {
    var s' := PruneStep(s, uid);
    forall u | u in s'.threads ensures PcInv(s', u, s'.threads[u]) {
      assert PcInv(s, u, s.threads[u]);
    }
  }

  lemma PruneInv(s: System, uid: Uid)
    requires Inv(s)
    ensures Inv(PruneStep(s, uid))
  {
    var s' := PruneStep(s, uid);
    match s.pruner
    case Resting =>
      if uid in s.podMap {
        InMapIsPublished(s, uid);
        PrunerInv(s, s'.pruner);
      }
    case Visiting(pod) =>
      PrunedIsPublished(s);
      PrunerInv(s, s'.pruner);
    case Marking(pod) =>
      assert RecordInv(s.pods[pod]);
      PrunerInv(s, Resting);
      var s1 := s.(pruner := Resting);
      if s'.pods != s.pods {
        UpdateInv(s1, pod, s'.pods[pod]);
        assert s' == s1.(pods := s1.pods[pod := s'.pods[pod]]);
      }
    case Closing(pod) => CloseInv(s, uid);
    case Deleting(pod) => DeleteInv(s, uid);
  }

  // ---------------------------------------------------------------------------------
  // What holds in every interleaving

  ghost predicate Next(s: System, s': System) {
    Closed(s) && exists a :: Step(s, s', a)
  }

  ghost predicate Behavior(b: seq<System>) {
    && b != [] && Initial(b[0])
    && (forall i :: 0 < i < |b| ==> Next(b[i - 1], b[i]))
  }

  lemma StepInv(s: System, s': System, a: Actor)
    requires Inv(s) && Step(s, s', a)
    ensures Inv(s')
  {
    match a
    case Spawner(t, job) => SpawnInv(s, t, job);
    case Handler(t, choice) => ThreadInv(s, t, choice);
    case Proc(pod, failed) => ProcessInv(s, pod, failed);
    case Health(uid) => PruneInv(s, uid);
  }

  lemma {:induction false} BehaviorInv(b: seq<System>, i: nat)
    requires Behavior(b) && i < |b|
    ensures Inv(b[i])
  {
    if i == 0 {
      InvInitial(b[0]);
    } else {
      BehaviorInv(b, i - 1);
      assert Next(b[i - 1], b[i]);
      var a :| Step(b[i - 1], b[i], a);
      StepInv(b[i - 1], b[i], a);
    }
  }

  ghost predicate Reachable(s: System) {
    exists b :: Behavior(b) && b[|b| - 1] == s
  }

  lemma ReachableInv(s: System)
    requires Reachable(s)
    ensures Inv(s)
  {
    var b :| Behavior(b) && b[|b| - 1] == s;
    BehaviorInv(b, |b| - 1);
  }

  /** At most one process is ever started for an object; until it has exited, the state allows
      its exit transition, which is therefore never refused. */
  lemma OneProcessPerPodArgs(s: System, pod: Pod)
    requires Reachable(s) && pod in s.pods
    ensures var r := s.pods[pod];
            && r.starts <= 1 && r.refused == 0
            && (r.process.Alive? || r.process.Leaving? ==>
                  MayChange(r.state, TrafficMonitoringEnded, EXIT_ALLOWED) &&
                  MayChange(r.state, TrafficMonitoringFailed, EXIT_ALLOWED))
  {
    ReachableInv(s);
    assert RecordInv(s.pods[pod]);
  }

  /** The stop channel is closed at most once, in the removal state, and only after the one
      process of the object has finished. */
  lemma ChannelClosedAfterExit(s: System, pod: Pod)
    requires Reachable(s) && pod in s.pods
    ensures var r := s.pods[pod];
            && r.closes <= 1
            && (r.closes == 1 ==> r.state.RemovePodFromMap? && r.process.Exited? && r.starts == 1)
  {
    ReachableInv(s);
    assert RecordInv(s.pods[pod]);
  }

  /** Who may change the final states: the process's own exit enters Ended or Failed, the
      pruner moves these to RemovePodFromMap, and nothing leaves RemovePodFromMap. An exited
      process stays exited, and a channel is closed only by the pruner. */
  lemma FinalStatesGuarded(s: System, s': System, a: Actor, pod: Pod)
    requires Reachable(s) && pod in s.pods && Closed(s) && Step(s, s', a)
    ensures pod in s'.pods && GuardedChange(s.pods[pod], s'.pods[pod], a, pod)
  {
    ReachableInv(s);
    StepGuarded(s, s', a, pod);
  }

  predicate Finished(s: State) { s.TrafficMonitoringEnded? || s.TrafficMonitoringFailed? }

  ghost predicate GuardedChange(r: Record, r': Record, a: Actor, pod: Pod) {
    && (Finished(r'.state) && r'.state != r.state ==>
          a.Proc? && a.pod == pod && r.process.Leaving? && r'.process.Exited? && !IsFinal(r.state))
    && (r'.state.RemovePodFromMap? && !r.state.RemovePodFromMap? ==> a.Health? && Finished(r.state))
    && (r.state.RemovePodFromMap? ==> r'.state.RemovePodFromMap?)
    && (IsFinal(r.state) ==> IsFinal(r'.state))
    && (r.process.Exited? ==> r'.process.Exited? && r'.starts == r.starts)
    && (r'.closes != r.closes ==> a.Health? && r.state.RemovePodFromMap? && r.closes == 0 && r'.closes == 1)
  }

  lemma HandlerGuarded(s: System, t: Thread, choice: bool, pod: Pod)
    requires Inv(s) && t in s.threads && pod in s.pods
    ensures var s' := ThreadStep(s, t, choice);
            pod in s'.pods && GuardedChange(s.pods[pod], s'.pods[pod], Handler(t, choice), pod)
  {
    assert PcInv(s, t, s.threads[t]);
    assert RecordInv(s.pods[pod]);
  }

  lemma PrunerGuarded(s: System, uid: Uid, pod: Pod)
    requires Inv(s) && pod in s.pods
    ensures var s' := PruneStep(s, uid);
            pod in s'.pods && GuardedChange(s.pods[pod], s'.pods[pod], Health(uid), pod)
  {
    assert RecordInv(s.pods[pod]);
  }

  lemma StepGuarded(s: System, s': System, a: Actor, pod: Pod)
    requires Inv(s) && Step(s, s', a) && pod in s.pods
    ensures pod in s'.pods && GuardedChange(s.pods[pod], s'.pods[pod], a, pod)
  {
    match a
    case Spawner(_, _) =>
    case Handler(t, choice) => HandlerGuarded(s, t, choice, pod);
    case Proc(_, _) => assert RecordInv(s.pods[pod]);
    case Health(uid) => PrunerGuarded(s, uid, pod);
  }

  // ---------------------------------------------------------------------------------
  // What the handlers achieve when they are not disturbed

  /** Thread `t` takes `n` steps in a row; `choice` is what the cluster answers. */
  function Alone(s: System, t: Thread, choice: bool, n: nat): System
    decreases n
  {
    if n == 0 || t !in s.threads || !(PodsOf(s.threads[t]) <= s.pods.Keys) then s
    else Alone(ThreadStep(s, t, choice), t, choice, n - 1)
  }

  /** What it takes to start a process: the state is PodRunning, and the map still holds the
      object under its UID. */
  ghost predicate Startable(s: System, pod: Pod) {
    && pod in s.pods && s.pods[pod].state.PodRunning?
    && s.pods[pod].uid in s.podMap && s.podMap[s.pods[pod].uid] == pod
  }

  ghost predicate Started(s: System, t: Thread, pod: Pod) {
    && t in s.threads && s.threads[t].Done?
    && pod in s.pods && s.pods[pod].state.TrafficMonitoringRunning?
    && s.pods[pod].process.Alive? && s.pods[pod].starts == 1
  }

  /** StartApiDumpProcess, undisturbed, ends with a live process. */
  lemma StartSucceeds(s: System, t: Thread, choice: bool, pod: Pod)
    requires Startable(s, pod) && s.pods[pod].starts == 0
    requires t in s.threads && s.threads[t] == StartLoad(s.pods[pod].uid)
    ensures Started(Alone(s, t, choice, 3), t, pod)
  {
    var s1 := ThreadStep(s, t, choice);
    assert Alone(s, t, choice, 3) == Alone(s1, t, choice, 2);
    var s2 := ThreadStep(s1, t, choice);
    assert Alone(s, t, choice, 3) == Alone(s2, t, choice, 1);
    assert Alone(s2, t, choice, 1) == Alone(ThreadStep(s2, t, choice), t, choice, 0);
  }

  lemma StartableNotStarted(s: System, pod: Pod)
    requires Reachable(s) && pod in s.pods && s.pods[pod].state in {Unset, PodPending, PodRunning}
    ensures s.pods[pod].starts == 0
  {
    ReachableInv(s);
    assert RecordInv(s.pods[pod]);
  }

  /** Adding an existing pod, whose object nothing has touched and the map still holds, starts
      its process. */
  lemma AddedPodIsMonitored(s: System, t: Thread, choice: bool, pod: Pod)
    requires Reachable(s) && t in s.threads && s.threads[t] == AddInit(pod, PodRunning, true)
    requires pod in s.pods && s.pods[pod].state.Unset?
    requires s.pods[pod].uid in s.podMap && s.podMap[s.pods[pod].uid] == pod
    ensures Started(Alone(s, t, choice, 4), t, pod)
  {
    StartableNotStarted(s, pod);
    StartSucceeds(ThreadStep(s, t, choice), t, choice, pod);
  }

  /** A pod is added only if the map has no object for it; then its object is in the map and,
      undisturbed, in its first state. */
  lemma AddedOncePerUid(s: System, t: Thread, choice: bool, pod: Pod, first: State, start: bool)
    requires t in s.threads && s.threads[t] == AddStore(pod, first, start) && first in {PodPending, PodRunning}
    requires pod in s.pods && s.pods[pod].state.Unset?
    ensures var uid, s' := s.pods[pod].uid, Alone(s, t, choice, 2);
            if uid in s.podMap then s'.podMap == s.podMap && s'.pods == s.pods
            else s'.podMap == s.podMap[uid := pod] && pod in s'.pods && s'.pods[pod].state == first
  {
    var s1 := ThreadStep(s, t, choice);
    assert Alone(s, t, choice, 2) == Alone(s1, t, choice, 1);
    assert Alone(s1, t, choice, 1) == Alone(ThreadStep(s1, t, choice), t, choice, 0);
  }

  lemma {:induction false} AloneSplit(s: System, t: Thread, choice: bool, m: nat, n: nat)
    ensures Alone(s, t, choice, m + n) == Alone(Alone(s, t, choice, m), t, choice, n)
    decreases m
  {
    if m > 0 && t in s.threads && PodsOf(s.threads[t]) <= s.pods.Keys {
      AloneSplit(ThreadStep(s, t, choice), t, choice, m - 1, n);
    } else if m > 0 {
      assert Alone(s, t, choice, n) == s;
    }
  }

  lemma ModifyLeadsToStart(s: System, t: Thread, pod: Pod)
    requires t in s.threads && pod in s.pods && s.pods[pod].state.PodPending?
    requires s.threads[t] == ModifyLoad(s.pods[pod].uid)
    requires s.pods[pod].uid in s.podMap && s.podMap[s.pods[pod].uid] == pod
    ensures var s' := Alone(s, t, true, 4);
            && Startable(s', pod) && s'.pods[pod] == s.pods[pod].(state := PodRunning)
            && t in s'.threads && s'.threads[t] == StartLoad(s.pods[pod].uid)
  {
    var s1 := ThreadStep(s, t, true);
    var s2 := ThreadStep(s1, t, true);
    AloneSplit(s, t, true, 1, 3);
    AloneSplit(s1, t, true, 1, 2);
    AloneSplit(s2, t, true, 1, 1);
  }

  /** A new pod becomes pending; the event that it runs starts its process, if its environment
      is complete. */
  lemma PendingPodIsMonitored(s: System, t: Thread, pod: Pod)
    requires Reachable(s) && t in s.threads && pod in s.pods && s.pods[pod].state.PodPending?
    requires s.threads[t] == ModifyLoad(s.pods[pod].uid)
    requires s.pods[pod].uid in s.podMap && s.podMap[s.pods[pod].uid] == pod
    ensures Started(Alone(s, t, true, 7), t, pod)
  {
    StartableNotStarted(s, pod);
    ModifyLeadsToStart(s, t, pod);
    AloneSplit(s, t, true, 4, 3);
    StartSucceeds(Alone(s, t, true, 4), t, true, pod);
  }

  /** The health check starts a process for a pod that runs without one. */
  lemma UnmonitoredPodIsStarted(s: System, t: Thread, choice: bool, pod: Pod)
    requires Reachable(s) && t in s.threads && Startable(s, pod) && s.threads[t] == WatchLoad(s.pods[pod].uid)
    ensures Started(Alone(s, t, choice, 5), t, pod)
  {
    StartableNotStarted(s, pod);
    var s1 := ThreadStep(s, t, choice);
    assert Alone(s, t, choice, 5) == Alone(s1, t, choice, 4);
    StartSucceeds(ThreadStep(s1, t, choice), t, choice, pod);
  }

  /** A stop request with an empty list reaches every object that is not in a final state; one
      that asks for a running process reaches exactly the objects that have one. A request that
      changed the state goes on to signal the process. */
  lemma StopRequestTakesEffect(s: System, t: Thread, choice: bool, uid: Uid, next: State, allowed: seq<State>)
    requires t in s.threads && s.threads[t] == StopLoad(uid, next, allowed) && uid in s.podMap && s.podMap[uid] in s.pods
    requires StopRequest(next, allowed)
    ensures var pod, s' := s.podMap[uid], Alone(s, t, choice, 2);
            var was := s.pods[pod].state;
            var reached := was !in {TrafficMonitoringEnded, TrafficMonitoringFailed, RemovePodFromMap}
                           && (allowed == [] || was.TrafficMonitoringRunning?) && was != next;
            && pod in s'.pods && t in s'.threads
            && s'.pods[pod].state == (if reached then next else was)
            && (s'.threads[t].SignalLoad? <==> reached)
  {
    var s1 := ThreadStep(s, t, choice);
    assert Alone(s, t, choice, 2) == Alone(s1, t, choice, 1);
    assert Alone(s1, t, choice, 1) == Alone(ThreadStep(s1, t, choice), t, choice, 0);
  }

  /** A leaving process ends in Failed if it failed and in Ended if it did not. */
  lemma ExitIsRecorded(s: System, pod: Pod, choice: bool)
    requires Reachable(s) && pod in s.pods && s.pods[pod].process.Leaving?
    ensures var r := ProcessStep(s, pod, choice).pods[pod];
            && r.process.Exited?
            && r.state == if s.pods[pod].process.failed then TrafficMonitoringFailed else TrafficMonitoringEnded
  {
    ReachableInv(s);
    assert RecordInv(s.pods[pod]);
  }

  /** Two undisturbed visits of the pruner take an exited object out of the map and close its
      stop channel: the first moves it to the removal state. */
  lemma ExitedPodIsPruned(s: System, uid: Uid)
    requires Reachable(s) && Closed(s) && s.pruner.Resting? && uid in s.podMap && Finished(s.pods[s.podMap[uid]].state)
    ensures var pod := s.podMap[uid];
            var s1 := PruneStep(s, uid);
            && s1.pruner == Visiting(pod)
            && var s2 := PruneStep(s1, uid);
               && s2.pruner == Marking(pod)
               && var s3 := PruneStep(s2, uid);
                  && s3.pruner.Resting? && s3.pods[pod].state.RemovePodFromMap? && s3.podMap == s.podMap
                  && Pruned(s3, uid)
  {
    ReachableInv(s);
    assert RecordInv(s.pods[s.podMap[uid]]);
  }

  /** The second visit: read the state, close the channel, delete the entry. */
  ghost predicate Pruned(s: System, uid: Uid)
    requires s.pruner.Resting? && uid in s.podMap && s.podMap[uid] in s.pods
  {
    var pod := s.podMap[uid];
    var s1 := PruneStep(s, uid);
    && s1.pruner == Visiting(pod)
    && var s2 := PruneStep(s1, uid);
       && s2.pruner == Closing(pod)
       && var s3 := PruneStep(s2, uid);
          && s3.pruner == Deleting(pod) && s3.pods[pod].closes == 1
          && var s4 := PruneStep(s3, uid);
             && s4.pruner.Resting? && s4.podMap == s.podMap - {uid}
  }
}
