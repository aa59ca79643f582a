/**
 * The wake/drain protocol of `VMService` (hub/vm/service.py) for one user.
 *
 * Every `await` of the source is an interleaving point, so a run is a sequence of events and one
 * event is the code between two awaits: the answer the awaited call gave, the assignments made on
 * it, and the next call that is left pending.  A program counter names the pending call.
 */
module VmProtocol {
  import opened Options
  import opened VmRegistry

  type CallerId = nat
  type SnapshotId = nat

  /** The user_vms row. */
  datatype Row = Row(
    providerVmId: Option<VmId>,
    endpoint: Option<Endpoint>,
    status: VmStatus,
    lastActiveAt: Option<Time>,
    snapshotId: Option<SnapshotId>)

  datatype WakeResult = ResultRunning | ResultPending | ResultFailed

  /** The call a `wake` is waiting for.  Everything but Waiting, Finished and Raised holds the lock. */
  datatype Pc =
    | Waiting                                                   // async with lock
    | PersistWaking                                             // _persist_status(waking)
    | ReadRow                                                   // _start_or_resume: select the row
    | GetStatus(vm: VmId, ep: Endpoint, snap: Option<SnapshotId>)
    | StopOrphan(vm: VmId, snap: Option<SnapshotId>)
    | ClearStale(snap: Option<SnapshotId>)                      // _clear_vm_mapping, then start afresh
    | Start(snapshot: SnapshotId)
    | PersistVmId(vm: VmId)
    | Configure(vm: VmId)
    | Launch(vm: VmId)                                          // wallet lookup and launch_user_server
    | PersistEndpoint(vm: VmId, ep: Endpoint)
    | Poll(vm: VmId, ep: Endpoint)
    | PushSecrets(vm: VmId, ep: Endpoint)
    | PersistRunning(vm: VmId, ep: Endpoint, now: Time)
    | CleanupStop(vm: VmId)                                     // except VMProviderError: stop the leak
    | ClearFailed                                               // ... and _clear_vm_mapping
    | PersistError                                              // ... and _persist_status(error)
    | Finished(result: WakeResult)
    | Raised                                                    // an exception escaped wake

  /** The call a `drain` is waiting for. */
  datatype DrainPc =
    | DIdle
    | DPersist(vm: VmId)
    | DSnapshot(vm: VmId)
    | DStop(vm: VmId, snap: SnapshotId)
    | DCommit(vm: VmId, snap: SnapshotId)
    | DRegistry(vm: VmId, snap: SnapshotId)
    | DError

  /** What the provider really has, and what has happened so far.  The code sees none of this. */
  datatype World = World(
    live: set<VmId>,           // instances the provider keeps
    started: set<VmId>,        // every instance ever started for this user
    stopAttempted: set<VmId>,  // provider.stop was called on it
    stopRaised: set<VmId>,     // ... and raised
    notReady: set<VmId>,       // get_status answered neither ready nor paused
    lost: set<VmId>,           // its id never reached the row
    probed: set<Endpoint>,     // a health probe of it succeeded
    desync: bool)              // since the last hydrate a raising mapping commit left row and registry apart

  datatype Slot = Slot(
    up: bool,
    golden: Option<SnapshotId>,
    registry: Option<VmState>,
    row: Option<Row>,
    callers: map<CallerId, Pc>,
    lock: Option<CallerId>,
    drain: DrainPc,
    provisioning: bool,
    world: World)

  datatype ErrorKind = ProviderError | OtherError

  /** The answer to an awaited call.  `Failed.applied` says that the call took effect although it
      raised: a commit went through, or the instance is gone. */
  datatype Reply =
    | Ok
    | Failed(kind: ErrorKind, applied: bool)
    | StatusIs(readyOrPaused: bool)
    | VmStarted(vm: VmId)
    | Unreported(vm: VmId)      // an instance came up whose id the caller never learns
    | Url(ep: Endpoint)
    | Healthy
    | Unhealthy
    | TimedOut
    | Snapshot(snap: SnapshotId)
    | Clock(now: Time)

  datatype Event =
    | Crash
    | Hydrate
    | ProvisionCommit
    | ProvisionPut
    | InstanceDies(vm: VmId)
    | TouchRegistry(now: Time)
    | TouchRow(now: Time)
    | CallWake(caller: CallerId)
    | Cancel(caller: CallerId)
    | Acquire(caller: CallerId)
    | Wake(caller: CallerId, reply: Reply)
    | CallDrain
    | Drain(reply: Reply)

  const INIT_WORLD: World := World({}, {}, {}, {}, {}, {}, {}, false)

  function Init(golden: Option<SnapshotId>): Slot {
    Slot(true, golden, None, None, map[], None, DIdle, false, INIT_WORLD)
  }

  // ------------------------------------------------------------------ small steps

  const CLEARED: Overrides := Overrides(Some(None), Some(None), None)

  function SetRegistry(s: Slot, status: VmStatus, o: Overrides): Slot {
    s.(registry := SetStatusIn(s.registry, status, o))
  }

  function Goto(s: Slot, c: CallerId, pc: Pc): Slot {
    s.(callers := s.callers[c := pc])
  }

  /** Leave `async with lock`, by a return or by an exception. */
  function Release(s: Slot, c: CallerId, pc: Pc): Slot {
    s.(callers := s.callers[c := pc], lock := None)
  }

  function RowVm(s: Slot): Option<VmId> {
    if s.row.Some? then s.row.value.providerVmId else None
  }

  function RowEndpoint(s: Slot): Option<Endpoint> {
    if s.row.Some? then s.row.value.endpoint else None
  }

  function RegVm(s: Slot): Option<VmId> {
    if s.registry.Some? then s.registry.value.providerVmId else None
  }

  function RegEndpoint(s: Slot): Option<Endpoint> {
    if s.registry.Some? then s.registry.value.endpoint else None
  }

  /** The persisting helpers write through the row when there is one; a commit that raised without taking effect
      leaves it as it was. */
  function Commit(s: Slot, r: Reply, f: Row -> Row): Slot {
    if s.row.Some? && (r.Ok? || (r.Failed? && r.applied)) then s.(row := Some(f(s.row.value))) else s
  }

  function WithStatus(status: VmStatus): Row -> Row {
    (row: Row) => row.(status := status)
  }

  function WithMapping(vm: Option<VmId>, ep: Option<Endpoint>): Row -> Row {
    (row: Row) => row.(providerVmId := vm, endpoint := ep)
  }

  /** provider.stop was awaited on `v`: the instance is gone on success, and possibly also on an error. */
  function Stopping(s: Slot, v: VmId, r: Reply): Slot {
    var w := s.world;
    s.(world := w.(live := if r.Ok? || (r.Failed? && r.applied) then w.live - {v} else w.live,
                   stopAttempted := w.stopAttempted + {v},
                   stopRaised := if r.Failed? then w.stopRaised + {v} else w.stopRaised))
  }

  /** `except VMProviderError` of wake: stop what the registry still maps, or go straight to `error`. */
  function OnProviderError(s: Slot, c: CallerId): Slot {
    match RegVm(s)
    case Some(v) => Goto(s, c, CleanupStop(v))
    case None => Goto(SetRegistry(s, Error, KEEP), c, PersistError)
  }

  function OnError(s: Slot, c: CallerId, kind: ErrorKind): Slot {
    if kind == ProviderError then OnProviderError(s, c) else Release(s, c, Raised)
  }

  /** Case D begins, unless there is no snapshot to start from. */
  function StartFresh(s: Slot, c: CallerId, snap: Option<SnapshotId>): Slot {
    match snap
    case Some(id) => Goto(s, c, Start(id))
    case None => OnProviderError(s, c)
  }

  // ------------------------------------------------------------------ wake

  /** The lock is free and `c` takes it. */
  function Begin(s: Slot, c: CallerId): Slot {
    match s.registry
    case None => Goto(s, c, Finished(ResultFailed))
    case Some(state) =>
      if state.status == Running && state.endpoint.Some? then Goto(s, c, Finished(ResultRunning))
      else Goto(SetRegistry(s, Waking, KEEP), c, PersistWaking).(lock := Some(c))
  }

  function OnPersistWaking(s: Slot, c: CallerId, r: Reply): Slot {
    var s1 := Commit(s, r, WithStatus(Waking));
    match r
    case Ok => Goto(s1, c, ReadRow)
    case Failed(_, _) => Release(s1, c, Raised)
    case _ => s
  }

  function OnReadRow(s: Slot, c: CallerId, r: Reply): Slot {
    match r
    case Ok =>
      var own := if s.row.Some? then s.row.value.snapshotId else None;
      var snap := if own.Some? then own else s.golden;
      (match (RowVm(s), RowEndpoint(s))
       case (Some(v), Some(e)) => Goto(s, c, GetStatus(v, e, snap))
       case (Some(v), None) => Goto(s, c, StopOrphan(v, snap))
       case (None, _) => StartFresh(s, c, snap))
    case Failed(_, _) => Release(s, c, Raised)
    case _ => s
  }

  /** Cases A and B: reuse a mapped instance the provider reports ready or paused. */
  function OnGetStatus(s: Slot, c: CallerId, pc: Pc, r: Reply): Slot
    requires pc.GetStatus?
  {
    match r
    case StatusIs(true) => Goto(s, c, Poll(pc.vm, pc.ep))
    case StatusIs(false) =>
      var s1 := s.(world := s.world.(notReady := s.world.notReady + {pc.vm}));
      Goto(SetRegistry(s1, Waking, CLEARED), c, ClearStale(pc.snap))
    case Failed(kind, _) => OnError(s, c, kind)
    case _ => s
  }

  /** Case C: a VMProviderError from stop is only logged. */
  function OnStopOrphan(s: Slot, c: CallerId, pc: Pc, r: Reply): Slot
    requires pc.StopOrphan?
  {
    var s1 := Stopping(s, pc.vm, r);
    match r
    case Ok => Goto(SetRegistry(s1, Waking, CLEARED), c, ClearStale(pc.snap))
    case Failed(ProviderError, _) => Goto(SetRegistry(s1, Waking, CLEARED), c, ClearStale(pc.snap))
    case Failed(OtherError, _) => Release(s1, c, Raised)
    case _ => s
  }

  /** A mapping commit raised; `parted` says that only one of the two stores has the new mapping now. */
  function Desync(s: Slot, parted: bool): Slot {
    s.(world := s.world.(desync := s.world.desync || parted))
  }

  function OnClearStale(s: Slot, c: CallerId, pc: Pc, r: Reply): Slot
    requires pc.ClearStale?
  {
    var s1 := Commit(s, r, WithMapping(None, None));
    match r
    case Ok => StartFresh(s1, c, pc.snap)
    case Failed(_, applied) => Release(Desync(s1, !applied), c, Raised)
    case _ => s
  }

  function OnStart(s: Slot, c: CallerId, r: Reply): Slot {
    var w := s.world;
    match r
    case VmStarted(v) =>
      if v in w.started then s else
      var s1 := s.(world := w.(live := w.live + {v}, started := w.started + {v}));
      Goto(SetRegistry(s1, Waking, KEEP.(providerVmId := Some(Some(v)))), c, PersistVmId(v))
    case Unreported(v) =>
      if v in w.started then s else
      s.(world := w.(live := w.live + {v}, started := w.started + {v}, lost := w.lost + {v}))
    case Failed(kind, _) => OnError(s, c, kind)
    case _ => s
  }

  function OnPersistVmId(s: Slot, c: CallerId, pc: Pc, r: Reply): Slot
    requires pc.PersistVmId?
  {
    var s1 := Commit(s, r, (row: Row) => row.(providerVmId := Some(pc.vm)));
    match r
    case Ok => Goto(s1, c, Configure(pc.vm))
    case Failed(_, applied) =>
      var s2 := Desync(s1, !applied);
      var lost := if applied then s2.world.lost else s2.world.lost + {pc.vm};
      Release(s2.(world := s2.world.(lost := lost)), c, Raised)
    case _ => s
  }

  function OnConfigure(s: Slot, c: CallerId, pc: Pc, r: Reply): Slot
    requires pc.Configure?
  {
    match r
    case Ok => Goto(s, c, Launch(pc.vm))
    case Failed(kind, _) => OnError(s, c, kind)
    case _ => s
  }

  function OnLaunch(s: Slot, c: CallerId, pc: Pc, r: Reply): Slot
    requires pc.Launch?
  {
    match r
    case Url(e) => Goto(SetRegistry(s, Waking, KEEP.(endpoint := Some(Some(e)))), c, PersistEndpoint(pc.vm, e))
    case Failed(kind, _) => OnError(s, c, kind)
    case _ => s
  }

  function OnPersistEndpoint(s: Slot, c: CallerId, pc: Pc, r: Reply): Slot
    requires pc.PersistEndpoint?
  {
    var s1 := Commit(s, r, (row: Row) => row.(endpoint := Some(pc.ep)));
    match r
    case Ok => Goto(s1, c, Poll(pc.vm, pc.ep))
    case Failed(_, applied) => Release(Desync(s1, !applied), c, Raised)
    case _ => s
  }

  function OnPoll(s: Slot, c: CallerId, pc: Pc, r: Reply): Slot
    requires pc.Poll?
  {
    match r
    case Healthy =>
      Goto(s.(world := s.world.(probed := s.world.probed + {pc.ep})), c, PushSecrets(pc.vm, pc.ep))
    case Unhealthy => s
    case TimedOut => Release(s, c, Finished(ResultPending))
    case Failed(_, _) => Release(s, c, Raised)
    case _ => s
  }

  /** `secrets_push` may raise, which is only logged; then the clock is read. */
  function OnPushSecrets(s: Slot, c: CallerId, pc: Pc, r: Reply): Slot
    requires pc.PushSecrets?
  {
    match r
    case Clock(now) =>
      var o := Overrides(Some(Some(pc.vm)), Some(Some(pc.ep)), Some(Some(now)));
      Goto(SetRegistry(s, Running, o), c, PersistRunning(pc.vm, pc.ep, now))
    case Failed(_, _) => Release(s, c, Raised)   // only a cancellation gets past `except Exception`
    case _ => s
  }

  function OnPersistRunning(s: Slot, c: CallerId, pc: Pc, r: Reply): Slot
    requires pc.PersistRunning?
  {
    var s1 := Commit(s, r, (row: Row) => row.(status := Running, providerVmId := Some(pc.vm),
                                              endpoint := Some(pc.ep), lastActiveAt := Some(pc.now)));
    match r
    case Ok => Release(s1, c, Finished(ResultRunning))
    case Failed(_, _) => Release(s1, c, Raised)
    case _ => s
  }

  /** Every `Exception` from the clean-up stop is only logged; a cancellation (kind OtherError) escapes. */
  function OnCleanupStop(s: Slot, c: CallerId, pc: Pc, r: Reply): Slot
    requires pc.CleanupStop?
  {
    var s1 := Stopping(s, pc.vm, r);
    match r
    case Ok => Goto(SetRegistry(s1, Waking, CLEARED), c, ClearFailed)
    case Failed(ProviderError, _) => Goto(SetRegistry(s1, Waking, CLEARED), c, ClearFailed)
    case Failed(OtherError, _) => Release(s1, c, Raised)
    case _ => s
  }

  function OnClearFailed(s: Slot, c: CallerId, r: Reply): Slot {
    var s1 := Commit(s, r, WithMapping(None, None));
    match r
    case Ok => Goto(SetRegistry(s1, Error, KEEP), c, PersistError)
    case Failed(_, applied) => Release(Desync(s1, !applied), c, Raised)
    case _ => s
  }

  function OnPersistError(s: Slot, c: CallerId, r: Reply): Slot {
    var s1 := Commit(s, r, WithStatus(Error));
    match r
    case Ok => Release(s1, c, Finished(ResultFailed))
    case Failed(_, _) => Release(s1, c, Raised)
    case _ => s
  }

  /** The calls made by `_start_or_resume`. */
  function StartOrResumeStep(s: Slot, c: CallerId, pc: Pc, r: Reply): Slot {
    match pc
    case ReadRow => OnReadRow(s, c, r)
    case GetStatus(_, _, _) => OnGetStatus(s, c, pc, r)
    case StopOrphan(_, _) => OnStopOrphan(s, c, pc, r)
    case ClearStale(_) => OnClearStale(s, c, pc, r)
    case Start(_) => OnStart(s, c, r)
    case PersistVmId(_) => OnPersistVmId(s, c, pc, r)
    case Configure(_) => OnConfigure(s, c, pc, r)
    case Launch(_) => OnLaunch(s, c, pc, r)
    case PersistEndpoint(_, _) => OnPersistEndpoint(s, c, pc, r)
    case _ => s
  }

  /** The calls made by `wake` itself. */
  function OuterStep(s: Slot, c: CallerId, pc: Pc, r: Reply): Slot {
    match pc
    case PersistWaking => OnPersistWaking(s, c, r)
    case Poll(_, _) => OnPoll(s, c, pc, r)
    case PushSecrets(_, _) => OnPushSecrets(s, c, pc, r)
    case PersistRunning(_, _, _) => OnPersistRunning(s, c, pc, r)
    case CleanupStop(_) => OnCleanupStop(s, c, pc, r)
    case ClearFailed => OnClearFailed(s, c, r)
    case PersistError => OnPersistError(s, c, r)
    case _ => s
  }

  predicate InStartOrResume(pc: Pc) {
    pc.ReadRow? || pc.GetStatus? || pc.StopOrphan? || pc.ClearStale? || pc.Start? ||
    pc.PersistVmId? || pc.Configure? || pc.Launch? || pc.PersistEndpoint?
  }

  function WakeStep(s: Slot, c: CallerId, pc: Pc, r: Reply): Slot {
    if InStartOrResume(pc) then StartOrResumeStep(s, c, pc, r) else OuterStep(s, c, pc, r)
  }

  // ------------------------------------------------------------------ drain

  function BeginDrain(s: Slot): Slot {
    match RegVm(s)
    case None => s
    case Some(v) => SetRegistry(s, Draining, KEEP).(drain := DPersist(v))
  }

  function OnDrainError(s: Slot, kind: ErrorKind): Slot {
    if kind == ProviderError then SetRegistry(s, Error, KEEP).(drain := DError) else s.(drain := DIdle)
  }

  function DrainStep(s: Slot, r: Reply): Slot {
    match s.drain
    case DIdle => s
    case DPersist(v) =>
      var s1 := Commit(s, r, WithStatus(Draining));
      (match r
       case Ok => s1.(drain := DSnapshot(v))
       case Failed(_, _) => s1.(drain := DIdle)
       case _ => s)
    case DSnapshot(v) =>
      (match r
       case Snapshot(id) => s.(drain := DStop(v, id))
       case Failed(kind, _) => OnDrainError(s, kind)
       case _ => s)
    case DStop(v, id) =>
      (match r
       case Ok => Stopping(s, v, r).(drain := DCommit(v, id))
       case Failed(kind, _) => OnDrainError(Stopping(s, v, r), kind)
       case _ => s)
    case DCommit(v, id) =>
      var s1 := Commit(s, r, (row: Row) => row.(status := Stopped, snapshotId := Some(id),
                                                endpoint := None, providerVmId := None));
      (match r
       case Ok => s1.(drain := DRegistry(v, id))
       case Failed(_, applied) => Desync(s1, applied).(drain := DIdle)
       case _ => s)
    case DRegistry(_, _) =>
      if r.Ok? then SetRegistry(s, Stopped, CLEARED).(drain := DIdle) else s
    case DError =>
      var s1 := Commit(s, r, WithStatus(Error));
      if r.Ok? || r.Failed? then s1.(drain := DIdle) else s
  }

  // ------------------------------------------------------------------ one event

  /** What the lock holder is waiting for; Waiting when nobody holds the lock. */
  function HolderPc(s: Slot): Pc {
    if s.lock.Some? && s.lock.value in s.callers then s.callers[s.lock.value] else Waiting
  }

  function Crashed(s: Slot): Slot {
    s.(up := false, registry := None, callers := map[], lock := None, drain := DIdle, provisioning := false,
       world := if HolderPc(s).PersistVmId? then s.world.(lost := s.world.lost + {HolderPc(s).vm}) else s.world)
  }

  function Rehydrated(s: Slot, u: UserId): Slot {
    s.(up := true, world := s.world.(desync := false),
       registry := if s.row.None? then None
                   else Some(VmState(u, s.row.value.providerVmId, s.row.value.endpoint,
                                     s.row.value.status, s.row.value.lastActiveAt)))
  }

  /** An event that cannot happen in `s` changes nothing. */
  function Next(u: UserId, s: Slot, e: Event): Slot {
    match e
    case Crash => Crashed(s)
    case Hydrate => if s.up then s else Rehydrated(s, u)
    case InstanceDies(v) => s.(world := s.world.(live := s.world.live - {v}))
    case _ => if s.up then NextUp(u, s, e) else s
  }

  function NextUp(u: UserId, s: Slot, e: Event): Slot {
    match e
    case ProvisionCommit =>
      if s.row.Some? then s
      else s.(row := Some(Row(None, None, Stopped, None, None)), provisioning := true)
    case ProvisionPut =>
      if !s.provisioning then s
      else s.(registry := Some(VmState(u, None, None, Stopped, None)), provisioning := false)
    case TouchRegistry(now) => SetRegistry(s, Running, KEEP.(lastActiveAt := Some(Some(now))))
    case TouchRow(now) => Commit(s, Ok, (row: Row) => row.(lastActiveAt := Some(now)))
    case CallWake(c) =>
      if c in s.callers && !s.callers[c].Finished? && !s.callers[c].Raised? then s else Goto(s, c, Waiting)
    case Cancel(c) =>
      if c in s.callers && s.callers[c].Waiting? then Goto(s, c, Raised) else s
    case Acquire(c) =>
      if c in s.callers && s.callers[c].Waiting? && s.lock.None? && s.drain.DIdle? then Begin(s, c) else s
    case Wake(c, r) =>
      if s.lock == Some(c) && c in s.callers then WakeStep(s, c, s.callers[c], r) else s
    case CallDrain => if s.lock.None? && s.drain.DIdle? then BeginDrain(s) else s
    case Drain(r) => DrainStep(s, r)
    case _ => s
  }

  /** The state after a whole history of events. */
  function Run(u: UserId, s: Slot, es: seq<Event>): Slot {
    if es == [] then s else Next(u, Run(u, s, es[..|es| - 1]), es[|es| - 1])
  }
}
