/** What every reachable state of the wake/drain protocol keeps. */
module VmSafety {
  import opened Options
  import opened VmRegistry
  import opened VmProtocol

  // ------------------------------------------------------------------ the invariant

  predicate Critical(pc: Pc) {
    !pc.Waiting? && !pc.Finished? && !pc.Raised?
  }

  /** `row` never claims more than it has: the consistency of a persisted row on its own. */
  predicate RowConsistent(row: Row, probed: set<Endpoint>) {
    && (row.endpoint.Some? ==> row.providerVmId.Some?)
    && (row.status == Stopped ==> row.providerVmId.None? && row.endpoint.None?)
    && (row.status == Running ==> row.providerVmId.Some? && row.endpoint.Some? && row.endpoint.value in probed)
  }

  /** The lock belongs to the one caller in the critical section, and a drain runs only without it. */
  ghost predicate Exclusive(s: Slot) {
    && (forall c :: c in s.callers ==> (Critical(s.callers[c]) <==> s.lock == Some(c)))
    && (s.lock.Some? ==> s.lock.value in s.callers && s.drain.DIdle?)
    && (s.lock.Some? || !s.drain.DIdle? ==> s.registry.Some?)
    && (s.registry.Some? ==> s.row.Some?)
    && (s.up && !s.provisioning && s.row.Some? ==> s.registry.Some?)
    && (!s.up ==> s.registry.None? && s.lock.None? && s.callers == map[] && s.drain.DIdle? && !s.provisioning)
    && (s.provisioning ==> s.registry.None? && s.row.Some? && RowVm(s).None? && RowEndpoint(s).None?)
  }

  /** The id is one the protocol gave up on: it was asked to stop, reported not ready, or never recorded. */
  predicate Departed(w: World, v: VmId) {
    v in w.stopAttempted || v in w.notReady || v in w.lost
  }

  /** Where every instance ever started can be. */
  ghost predicate Accounted(s: Slot) {
    var w := s.world;
    && (forall v :: v in w.started ==> RowVm(s) == Some(v) || HolderPc(s) == PersistVmId(v) || Departed(w, v))
    && (RowVm(s).Some? ==> RowVm(s).value in w.started)
    && (RegVm(s).Some? ==> RegVm(s).value in w.started)
    && w.stopAttempted <= w.started && w.notReady <= w.started && w.lost <= w.started && w.live <= w.started
    && (forall v :: v in w.live && v in w.stopAttempted ==> v in w.stopRaised)
    && w.stopRaised <= w.stopAttempted
  }

  predicate RowIs(s: Slot, vm: Option<VmId>, ep: Option<Endpoint>) {
    RowVm(s) == vm && RowEndpoint(s) == ep
  }

  predicate RegIs(s: Slot, vm: Option<VmId>, ep: Option<Endpoint>) {
    RegVm(s) == vm && RegEndpoint(s) == ep
  }

  /** What holds while the lock holder waits at `pc`. */
  ghost predicate AtPc(s: Slot, pc: Pc) {
    && (Critical(pc) && !pc.PersistWaking? ==> s.row.Some? && s.row.value.status == Waking)
    && match pc
       case GetStatus(v, e, _) => RowIs(s, Some(v), Some(e))
       case StopOrphan(v, _) => RowIs(s, Some(v), None)
       case ClearStale(_) => RowVm(s).Some? && Departed(s.world, RowVm(s).value) && RegIs(s, None, None)
       case Start(_) => RowIs(s, None, None)
       case PersistVmId(v) => RowIs(s, None, None) && RegVm(s) == Some(v) && v in s.world.started
       case Configure(v) => RowIs(s, Some(v), None) && RegVm(s) == Some(v)
       case Launch(v) => RowIs(s, Some(v), None) && RegVm(s) == Some(v)
       case PersistEndpoint(v, e) => RowIs(s, Some(v), None) && RegIs(s, Some(v), Some(e))
       case Poll(v, e) => RowIs(s, Some(v), Some(e))
       case PushSecrets(v, e) => RowIs(s, Some(v), Some(e)) && e in s.world.probed
       case PersistRunning(v, e, _) => RowIs(s, Some(v), Some(e)) && RegIs(s, Some(v), Some(e)) && e in s.world.probed
       case CleanupStop(v) => RegVm(s) == Some(v)
       case ClearFailed => (RowVm(s).Some? ==> Departed(s.world, RowVm(s).value)) && RegIs(s, None, None)
       case PersistError => RegVm(s).None?
       case _ => true
  }

  predicate AtDrain(s: Slot) {
    match s.drain
    case DPersist(v) => RegVm(s) == Some(v)
    case DSnapshot(v) => RegVm(s) == Some(v)
    case DStop(v, _) => RegVm(s) == Some(v)
    case DCommit(v, _) => RegVm(s) == Some(v) && v in s.world.stopAttempted && v !in s.world.live
    case DRegistry(v, snap) =>
      && RowIs(s, None, None) && v in s.world.stopAttempted && v !in s.world.live
      && s.row.Some? && s.row.value.status == Stopped && s.row.value.snapshotId == Some(snap)
    case _ => true
  }

  predicate MappingsAgree(s: Slot) {
    RowVm(s) == RegVm(s) && RowEndpoint(s) == RegEndpoint(s)
  }

  /** The registry runs ahead of the row only between a `set_status` and the commit that follows it. */
  predicate InStep(s: Slot) {
    match HolderPc(s)
    case ClearStale(_) => true
    case ClearFailed => RowVm(s).Some?
    case PersistVmId(v) => RegEndpoint(s).None?
    case PersistEndpoint(_, _) => true
    case _ => if s.drain.DRegistry? then true else MappingsAgree(s)
  }

  ghost predicate Inv(s: Slot) {
    && Exclusive(s)
    && (s.row.Some? ==> RowConsistent(s.row.value, s.world.probed))
    && (RegVm(s).Some? && RowVm(s).Some? ==> RegVm(s) == RowVm(s))
    && Accounted(s)
    && AtPc(s, HolderPc(s))
    && AtDrain(s)
    && (s.up && !s.world.desync ==> InStep(s))
  }

  // ------------------------------------------------------------------ preservation, step by step

  /** With no mapping half written the lock may be left at any time. */
  lemma ReleaseKeepsInv(s: Slot, c: CallerId, pc: Pc)
    requires Inv(s) && s.up && s.lock == Some(c) && !Critical(pc) && !HolderPc(s).PersistVmId?
    requires !s.world.desync ==> MappingsAgree(s)
    ensures Inv(Release(s, c, pc))
  {
  }

  lemma ProviderErrorKeepsInv(s: Slot, c: CallerId)
    requires Inv(s) && s.up && s.lock == Some(c)
    requires s.row.Some? && s.row.value.status == Waking && !HolderPc(s).PersistVmId?
    requires !s.world.desync ==> MappingsAgree(s)
    ensures Inv(OnProviderError(s, c))
  {
  }

  lemma ErrorKeepsInv(s: Slot, c: CallerId, kind: ErrorKind)
    requires Inv(s) && s.up && s.lock == Some(c)
    requires s.row.Some? && s.row.value.status == Waking
    requires !HolderPc(s).PersistVmId? && !HolderPc(s).PersistEndpoint?
    requires !HolderPc(s).ClearStale? && !HolderPc(s).ClearFailed?
    ensures Inv(OnError(s, c, kind))
  {
    assert !s.world.desync ==> MappingsAgree(s);
    if kind == ProviderError {
      ProviderErrorKeepsInv(s, c);
    } else {
      ReleaseKeepsInv(s, c, Raised);
    }
  }

  lemma StoppingKeepsInv(s: Slot, v: VmId, r: Reply)
    requires Inv(s) && v in s.world.started && (r.Ok? || r.Failed?)
    ensures Inv(Stopping(s, v, r))
  {
  }

  /** Once its instance was asked to stop, the registry may forget the mapping ahead of the row. */
  lemma ForgetKeepsInv(s: Slot, c: CallerId)
    requires Inv(s) && s.up && s.lock == Some(c)
    requires HolderPc(s).CleanupStop? && HolderPc(s).vm in s.world.stopAttempted
    ensures Inv(Goto(SetRegistry(s, Waking, CLEARED), c, ClearFailed))
  {
  }

  lemma ForgetOrphanKeepsInv(s: Slot, c: CallerId)
    requires Inv(s) && s.up && s.lock == Some(c)
    requires HolderPc(s).StopOrphan? && HolderPc(s).vm in s.world.stopAttempted
    ensures Inv(Goto(SetRegistry(s, Waking, CLEARED), c, ClearStale(HolderPc(s).snap)))
  {
  }

  lemma StartFreshKeepsInv(s: Slot, c: CallerId, snap: Option<SnapshotId>)
    requires Inv(s) && s.up && s.lock == Some(c)
    requires HolderPc(s).ReadRow? || HolderPc(s).Start?
    requires RowIs(s, None, None)
    ensures Inv(StartFresh(s, c, snap))
  {
  }

  lemma ClearStaleDone(s: Slot, c: CallerId, pc: Pc)
    requires Inv(s) && s.up && s.lock == Some(c) && pc == HolderPc(s) && pc.ClearStale?
    ensures Inv(OnClearStale(s, c, pc, Ok))
  {
    var s1 := Commit(s, Ok, WithMapping(None, None));
    var s2 := Goto(s1, c, ReadRow);
    assert Inv(s2);
    StartFreshKeepsInv(s2, c, pc.snap);
    assert OnClearStale(s, c, pc, Ok).callers == StartFresh(s2, c, pc.snap).callers;
  }

  lemma ClearStaleRaises(s: Slot, c: CallerId, pc: Pc, r: Reply)
    requires Inv(s) && s.up && s.lock == Some(c) && pc == HolderPc(s) && pc.ClearStale?
    requires r.Failed?
    ensures Inv(OnClearStale(s, c, pc, r))
  {
  }

  lemma ClearStaleKeepsInv(s: Slot, c: CallerId, pc: Pc, r: Reply)
    requires Inv(s) && s.up && s.lock == Some(c) && pc == HolderPc(s) && pc.ClearStale?
    ensures Inv(OnClearStale(s, c, pc, r))
  {
    if r.Ok? {
      ClearStaleDone(s, c, pc);
    } else if r.Failed? {
      ClearStaleRaises(s, c, pc, r);
    }
  }

  lemma PersistWakingDone(s: Slot, c: CallerId, pc: Pc)
    requires Inv(s) && s.up && s.lock == Some(c) && pc == HolderPc(s) && pc.PersistWaking?
    ensures Inv(OnPersistWaking(s, c, Ok))
  {
  }

  lemma PersistWakingRaises(s: Slot, c: CallerId, pc: Pc, r: Reply)
    requires Inv(s) && s.up && s.lock == Some(c) && pc == HolderPc(s) && pc.PersistWaking?
    requires r.Failed?
    ensures Inv(OnPersistWaking(s, c, r))
  {
  }

  lemma PersistWakingKeepsInv(s: Slot, c: CallerId, pc: Pc, r: Reply)
    requires Inv(s) && s.up && s.lock == Some(c) && pc == HolderPc(s) && pc.PersistWaking?
    ensures Inv(OnPersistWaking(s, c, r))
  {
    if r.Ok? {
      PersistWakingDone(s, c, pc);
    } else if r.Failed? {
      PersistWakingRaises(s, c, pc, r);
    }
  }

  lemma ReadyKeepsInv(s: Slot, c: CallerId, pc: Pc)
    requires Inv(s) && s.up && s.lock == Some(c) && pc == HolderPc(s) && pc.GetStatus?
    ensures Inv(OnGetStatus(s, c, pc, StatusIs(true)))
  {
  }

  lemma NotReadyKeepsInv(s: Slot, c: CallerId, pc: Pc)
    requires Inv(s) && s.up && s.lock == Some(c) && pc == HolderPc(s) && pc.GetStatus?
    ensures Inv(OnGetStatus(s, c, pc, StatusIs(false)))
  {
  }

  lemma GetStatusKeepsInv(s: Slot, c: CallerId, pc: Pc, r: Reply)
    requires Inv(s) && s.up && s.lock == Some(c) && pc == HolderPc(s) && pc.GetStatus?
    ensures Inv(OnGetStatus(s, c, pc, r))
  {
    match r {
      case Failed(kind, _) => ErrorKeepsInv(s, c, kind);
      case StatusIs(ready) => if ready { ReadyKeepsInv(s, c, pc); } else { NotReadyKeepsInv(s, c, pc); }
      case _ =>
    }
  }

  lemma StopOrphanKeepsInv(s: Slot, c: CallerId, pc: Pc, r: Reply)
    requires Inv(s) && s.up && s.lock == Some(c) && pc == HolderPc(s) && pc.StopOrphan?
    ensures Inv(OnStopOrphan(s, c, pc, r))
  {
    if r.Ok? || r.Failed? {
      StoppingKeepsInv(s, pc.vm, r);
      var s1 := Stopping(s, pc.vm, r);
      if r.Failed? && r.kind.OtherError? {
        ReleaseKeepsInv(s1, c, Raised);
      } else {
        ForgetOrphanKeepsInv(s1, c);
      }
    }
  }

  lemma StartedKeepsInv(s: Slot, c: CallerId, pc: Pc, v: VmId)
    requires Inv(s) && s.up && s.lock == Some(c) && pc == HolderPc(s) && pc.Start?
    ensures Inv(OnStart(s, c, VmStarted(v)))
  {
  }

  lemma UnreportedKeepsInv(s: Slot, c: CallerId, pc: Pc, v: VmId)
    requires Inv(s) && s.up && s.lock == Some(c) && pc == HolderPc(s) && pc.Start?
    ensures Inv(OnStart(s, c, Unreported(v)))
  {
  }

  lemma StartKeepsInv(s: Slot, c: CallerId, pc: Pc, r: Reply)
    requires Inv(s) && s.up && s.lock == Some(c) && pc == HolderPc(s) && pc.Start?
    ensures Inv(OnStart(s, c, r))
  {
    match r {
      case Failed(kind, _) => ErrorKeepsInv(s, c, kind);
      case VmStarted(v) => StartedKeepsInv(s, c, pc, v);
      case Unreported(v) => UnreportedKeepsInv(s, c, pc, v);
      case _ =>
    }
  }

  lemma PersistVmIdDone(s: Slot, c: CallerId, pc: Pc)
    requires Inv(s) && s.up && s.lock == Some(c) && pc == HolderPc(s) && pc.PersistVmId?
    ensures Inv(OnPersistVmId(s, c, pc, Ok))
  {
  }

  lemma PersistVmIdRaises(s: Slot, c: CallerId, pc: Pc, r: Reply)
    requires Inv(s) && s.up && s.lock == Some(c) && pc == HolderPc(s) && pc.PersistVmId?
    requires r.Failed?
    ensures Inv(OnPersistVmId(s, c, pc, r))
  {
  }

  lemma PersistVmIdKeepsInv(s: Slot, c: CallerId, pc: Pc, r: Reply)
    requires Inv(s) && s.up && s.lock == Some(c) && pc == HolderPc(s) && pc.PersistVmId?
    ensures Inv(OnPersistVmId(s, c, pc, r))
  {
    if r.Ok? {
      PersistVmIdDone(s, c, pc);
    } else if r.Failed? {
      PersistVmIdRaises(s, c, pc, r);
    }
  }

  lemma ConfigureKeepsInv(s: Slot, c: CallerId, pc: Pc, r: Reply)
    requires Inv(s) && s.up && s.lock == Some(c) && pc == HolderPc(s) && pc.Configure?
    ensures Inv(OnConfigure(s, c, pc, r))
  {
    if r.Failed? { ErrorKeepsInv(s, c, r.kind); }
  }

  lemma LaunchKeepsInv(s: Slot, c: CallerId, pc: Pc, r: Reply)
    requires Inv(s) && s.up && s.lock == Some(c) && pc == HolderPc(s) && pc.Launch?
    ensures Inv(OnLaunch(s, c, pc, r))
  {
    if r.Failed? { ErrorKeepsInv(s, c, r.kind); }
  }

  lemma PersistEndpointDone(s: Slot, c: CallerId, pc: Pc)
    requires Inv(s) && s.up && s.lock == Some(c) && pc == HolderPc(s) && pc.PersistEndpoint?
    ensures Inv(OnPersistEndpoint(s, c, pc, Ok))
  {
  }

  lemma PersistEndpointRaises(s: Slot, c: CallerId, pc: Pc, r: Reply)
    requires Inv(s) && s.up && s.lock == Some(c) && pc == HolderPc(s) && pc.PersistEndpoint?
    requires r.Failed?
    ensures Inv(OnPersistEndpoint(s, c, pc, r))
  {
  }

  lemma PersistEndpointKeepsInv(s: Slot, c: CallerId, pc: Pc, r: Reply)
    requires Inv(s) && s.up && s.lock == Some(c) && pc == HolderPc(s) && pc.PersistEndpoint?
    ensures Inv(OnPersistEndpoint(s, c, pc, r))
  {
    if r.Ok? {
      PersistEndpointDone(s, c, pc);
    } else if r.Failed? {
      PersistEndpointRaises(s, c, pc, r);
    }
  }

  lemma PollKeepsInv(s: Slot, c: CallerId, pc: Pc, r: Reply)
    requires Inv(s) && s.up && s.lock == Some(c) && pc == HolderPc(s) && pc.Poll?
    ensures Inv(OnPoll(s, c, pc, r))
  {
  }

  lemma PushSecretsKeepsInv(s: Slot, c: CallerId, pc: Pc, r: Reply)
    requires Inv(s) && s.up && s.lock == Some(c) && pc == HolderPc(s) && pc.PushSecrets?
    ensures Inv(OnPushSecrets(s, c, pc, r))
  {
  }

  lemma PersistRunningKeepsInv(s: Slot, c: CallerId, pc: Pc, r: Reply)
    requires Inv(s) && s.up && s.lock == Some(c) && pc == HolderPc(s) && pc.PersistRunning?
    ensures Inv(OnPersistRunning(s, c, pc, r))
  {
  }

  lemma CleanupStopKeepsInv(s: Slot, c: CallerId, pc: Pc, r: Reply)
    requires Inv(s) && s.up && s.lock == Some(c) && pc == HolderPc(s) && pc.CleanupStop?
    ensures Inv(OnCleanupStop(s, c, pc, r))
  {
    if r.Ok? || r.Failed? {
      StoppingKeepsInv(s, pc.vm, r);
      if r.Ok? || r.kind.ProviderError? {
        ForgetKeepsInv(Stopping(s, pc.vm, r), c);
      }
    }
  }

  lemma ClearFailedDone(s: Slot, c: CallerId, pc: Pc)
    requires Inv(s) && s.up && s.lock == Some(c) && pc == HolderPc(s) && pc.ClearFailed?
    ensures Inv(OnClearFailed(s, c, Ok))
  {
  }

  lemma ClearFailedRaises(s: Slot, c: CallerId, pc: Pc, r: Reply)
    requires Inv(s) && s.up && s.lock == Some(c) && pc == HolderPc(s) && pc.ClearFailed?
    requires r.Failed?
    ensures Inv(OnClearFailed(s, c, r))
  {
  }

  lemma ClearFailedKeepsInv(s: Slot, c: CallerId, pc: Pc, r: Reply)
    requires Inv(s) && s.up && s.lock == Some(c) && pc == HolderPc(s) && pc.ClearFailed?
    ensures Inv(OnClearFailed(s, c, r))
  {
    if r.Ok? {
      ClearFailedDone(s, c, pc);
    } else if r.Failed? {
      ClearFailedRaises(s, c, pc, r);
    }
  }

  lemma PersistErrorKeepsInv(s: Slot, c: CallerId, pc: Pc, r: Reply)
    requires Inv(s) && s.up && s.lock == Some(c) && pc == HolderPc(s) && pc.PersistError?
    ensures Inv(OnPersistError(s, c, r))
  {
  }

  lemma ReadRowKeepsInv(s: Slot, c: CallerId, r: Reply)
    requires Inv(s) && s.up && s.lock == Some(c) && HolderPc(s).ReadRow?
    ensures Inv(OnReadRow(s, c, r))
  {
    if r.Ok? && RowVm(s).None? {
      var own := if s.row.Some? then s.row.value.snapshotId else None;
      StartFreshKeepsInv(s, c, if own.Some? then own else s.golden);
    }
  }

  lemma StartOrResumeKeepsInv(s: Slot, c: CallerId, pc: Pc, r: Reply)
    requires Inv(s) && s.up && s.lock == Some(c) && pc == HolderPc(s)
    ensures Inv(StartOrResumeStep(s, c, pc, r))
  {
    match pc {
      case ReadRow => ReadRowKeepsInv(s, c, r);
      case GetStatus(_, _, _) => GetStatusKeepsInv(s, c, pc, r);
      case StopOrphan(_, _) => StopOrphanKeepsInv(s, c, pc, r);
      case ClearStale(_) => ClearStaleKeepsInv(s, c, pc, r);
      case Start(_) => StartKeepsInv(s, c, pc, r);
      case PersistVmId(_) => PersistVmIdKeepsInv(s, c, pc, r);
      case Configure(_) => ConfigureKeepsInv(s, c, pc, r);
      case Launch(_) => LaunchKeepsInv(s, c, pc, r);
      case PersistEndpoint(_, _) => PersistEndpointKeepsInv(s, c, pc, r);
      case _ =>
    }
  }

  lemma OuterKeepsInv(s: Slot, c: CallerId, pc: Pc, r: Reply)
    requires Inv(s) && s.up && s.lock == Some(c) && pc == HolderPc(s)
    ensures Inv(OuterStep(s, c, pc, r))
  {
    match pc {
      case PersistWaking => PersistWakingKeepsInv(s, c, pc, r);
      case Poll(_, _) => PollKeepsInv(s, c, pc, r);
      case PushSecrets(_, _) => PushSecretsKeepsInv(s, c, pc, r);
      case PersistRunning(_, _, _) => PersistRunningKeepsInv(s, c, pc, r);
      case CleanupStop(_) => CleanupStopKeepsInv(s, c, pc, r);
      case ClearFailed => ClearFailedKeepsInv(s, c, pc, r);
      case PersistError => PersistErrorKeepsInv(s, c, pc, r);
      case _ =>
    }
  }

  lemma WakeKeepsInv(s: Slot, c: CallerId, r: Reply)
    requires Inv(s) && s.up && s.lock == Some(c)
    ensures Inv(WakeStep(s, c, s.callers[c], r))
  {
    StartOrResumeKeepsInv(s, c, s.callers[c], r);
    OuterKeepsInv(s, c, s.callers[c], r);
  }

  lemma DrainStopKeepsInv(s: Slot, r: Reply)
    requires Inv(s) && s.up && (s.drain.DStop? || s.drain.DSnapshot?)
    ensures Inv(DrainStep(s, r))
  {
    if s.drain.DStop? && (r.Ok? || r.Failed?) { StoppingKeepsInv(s, s.drain.vm, r); }
  }

  lemma DrainCommitKeepsInv(s: Slot, r: Reply)
    requires Inv(s) && s.up && s.drain.DCommit?
    ensures Inv(DrainStep(s, r))
  {
  }

  lemma DrainPersistKeepsInv(s: Slot, r: Reply)
    requires Inv(s) && s.up && s.drain.DPersist?
    ensures Inv(DrainStep(s, r))
  {
  }

  lemma DrainRegistryKeepsInv(s: Slot, r: Reply)
    requires Inv(s) && s.up && s.drain.DRegistry?
    ensures Inv(DrainStep(s, r))
  {
  }

  lemma DrainErrorKeepsInv(s: Slot, r: Reply)
    requires Inv(s) && s.up && s.drain.DError?
    ensures Inv(DrainStep(s, r))
  {
  }

  lemma DrainKeepsInv(s: Slot, r: Reply)
    requires Inv(s) && s.up
    ensures Inv(DrainStep(s, r))
  {
    match s.drain {
      case DSnapshot(_) => DrainStopKeepsInv(s, r);
      case DStop(_, _) => DrainStopKeepsInv(s, r);
      case DCommit(_, _) => DrainCommitKeepsInv(s, r);
      case DPersist(_) => DrainPersistKeepsInv(s, r);
      case DRegistry(_, _) => DrainRegistryKeepsInv(s, r);
      case DError => DrainErrorKeepsInv(s, r);
      case DIdle =>
    }
  }

  lemma CrashKeepsInv(s: Slot)
    requires Inv(s)
    ensures Inv(Crashed(s))
  {
  }

  lemma HydrateKeepsInv(u: UserId, s: Slot)
    requires Inv(s) && !s.up
    ensures Inv(Rehydrated(s, u))
  {
  }

  lemma InstanceDiesKeepsInv(s: Slot, v: VmId)
    requires Inv(s)
    ensures Inv(s.(world := s.world.(live := s.world.live - {v})))
  {
  }

  lemma EnvironmentKeepsInv(u: UserId, s: Slot, e: Event)
    requires Inv(s) && (e.Crash? || e.Hydrate? || e.InstanceDies?)
    ensures Inv(Next(u, s, e))
  {
    match e {
      case Crash => CrashKeepsInv(s);
      case Hydrate => if !s.up { HydrateKeepsInv(u, s); }
      case InstanceDies(v) => InstanceDiesKeepsInv(s, v);
    }
  }

  lemma ProvisionKeepsInv(u: UserId, s: Slot, e: Event)
    requires Inv(s) && s.up && (e.ProvisionCommit? || e.ProvisionPut?)
    ensures Inv(NextUp(u, s, e))
  {
  }

  /** A status and a time of activity are not part of the mapping. */
  lemma SameMappingKeepsInv(s: Slot, s': Slot)
    requires Inv(s) && s.up
    requires s'.registry.Some? == s.registry.Some? && s'.row.Some? == s.row.Some?
    requires s' == s.(registry := s'.registry, row := s'.row)
    requires RegIs(s', RegVm(s), RegEndpoint(s)) && RowIs(s', RowVm(s), RowEndpoint(s))
    requires s.row.Some? ==> s'.row.value == s.row.value.(lastActiveAt := s'.row.value.lastActiveAt)
    ensures Inv(s')
  {
    assert HolderPc(s') == HolderPc(s);
  }

  lemma TouchRegistryKeepsInv(u: UserId, s: Slot, now: Time)
    requires Inv(s) && s.up
    ensures Inv(NextUp(u, s, TouchRegistry(now)))
  {
    SameMappingKeepsInv(s, NextUp(u, s, TouchRegistry(now)));
  }

  lemma TouchRowKeepsInv(u: UserId, s: Slot, now: Time)
    requires Inv(s) && s.up
    ensures Inv(NextUp(u, s, TouchRow(now)))
  {
    SameMappingKeepsInv(s, NextUp(u, s, TouchRow(now)));
  }

  /** A caller may move about outside the lock. */
  lemma MoveOutsideKeepsInv(s: Slot, c: CallerId, pc: Pc)
    requires Inv(s) && s.up && !Critical(pc) && (c in s.callers ==> !Critical(s.callers[c]))
    ensures Inv(Goto(s, c, pc))
  {
    assert HolderPc(Goto(s, c, pc)) == HolderPc(s);
  }

  lemma CallWakeKeepsInv(u: UserId, s: Slot, c: CallerId)
    requires Inv(s) && s.up
    ensures Inv(NextUp(u, s, CallWake(c)))
  {
    if c !in s.callers || !Critical(s.callers[c]) {
      MoveOutsideKeepsInv(s, c, Waiting);
    }
  }

  lemma CancelKeepsInv(u: UserId, s: Slot, c: CallerId)
    requires Inv(s) && s.up
    ensures Inv(NextUp(u, s, Cancel(c)))
  {
    if c in s.callers && s.callers[c].Waiting? {
      MoveOutsideKeepsInv(s, c, Raised);
    }
  }

  lemma CallDrainKeepsInv(u: UserId, s: Slot)
    requires Inv(s) && s.up
    ensures Inv(NextUp(u, s, CallDrain))
  {
  }

  lemma AcquireKeepsInv(u: UserId, s: Slot, c: CallerId)
    requires Inv(s) && s.up
    ensures Inv(NextUp(u, s, Acquire(c)))
  {
  }

  /** Only the answer to `provider.start` brings instances into being. */
  lemma StepStartsOnlyItsOwn(s: Slot, c: CallerId, pc: Pc, r: Reply)
    ensures OuterStep(s, c, pc, r).world.started == s.world.started
    ensures pc.Start? || StartOrResumeStep(s, c, pc, r).world.started == s.world.started
  {
  }

  lemma NextKeepsInv(u: UserId, s: Slot, e: Event)
    requires Inv(s)
    ensures Inv(Next(u, s, e))
  {
    if e.Crash? || e.Hydrate? || e.InstanceDies? {
      EnvironmentKeepsInv(u, s, e);
    } else if s.up {
      match e {
        case Wake(c, r) => if s.lock == Some(c) { WakeKeepsInv(s, c, r); }
        case Drain(r) => DrainKeepsInv(s, r);
        case TouchRegistry(now) => TouchRegistryKeepsInv(u, s, now);
        case TouchRow(now) => TouchRowKeepsInv(u, s, now);
        case CallDrain => CallDrainKeepsInv(u, s);
        case ProvisionCommit => ProvisionKeepsInv(u, s, e);
        case ProvisionPut => ProvisionKeepsInv(u, s, e);
        case Acquire(c) => AcquireKeepsInv(u, s, c);
        case CallWake(c) => CallWakeKeepsInv(u, s, c);
        case Cancel(c) => CancelKeepsInv(u, s, c);
        case _ =>
      }
    }
  }

  lemma {:induction false} RunKeepsInv(u: UserId, s: Slot, es: seq<Event>)
    requires Inv(s)
    ensures Inv(Run(u, s, es))
  {
    if es != [] {
      RunKeepsInv(u, s, es[..|es| - 1]);
      NextKeepsInv(u, Run(u, s, es[..|es| - 1]), es[|es| - 1]);
    }
  }
}
