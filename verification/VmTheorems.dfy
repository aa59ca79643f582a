/** The promises of the wake/drain protocol, over every run. */
module VmTheorems {
  import opened Options
  import opened VmRegistry
  import opened VmProtocol
  import opened VmSafety

  lemma InitInv(golden: Option<SnapshotId>)
    ensures Inv(Init(golden))
  {
  }

  /** Every history from a fresh deployment, whatever the callers, the provider and the database do. */
  function Reached(u: UserId, golden: Option<SnapshotId>, es: seq<Event>): Slot {
    Run(u, Init(golden), es)
  }

  lemma ReachedInv(u: UserId, golden: Option<SnapshotId>, es: seq<Event>)
    ensures Inv(Reached(u, golden, es))
  {
    InitInv(golden);
    RunKeepsInv(u, Init(golden), es);
  }

  // ------------------------------------------------------------------ no orphans

  /** Every live instance is the row's, or about to be written to the row, or one of three excused kinds. */
  lemma NoOrphans(u: UserId, golden: Option<SnapshotId>, es: seq<Event>, v: VmId)
    requires v in Reached(u, golden, es).world.live
    ensures var s := Reached(u, golden, es);
            || RowVm(s) == Some(v)
            || HolderPc(s) == PersistVmId(v)
            || v in s.world.stopRaised || v in s.world.notReady || v in s.world.lost
  {
    ReachedInv(u, golden, es);
  }

  /** The event is the answer `r` to the call the lock holder of `s` is waiting for. */
  predicate Answers(s: Slot, e: Event, r: Reply) {
    e.Wake? && s.up && s.lock == Some(e.caller) && e.caller in s.callers && e.reply == r
  }

  /** The event makes the call fail that `s` is waiting for to stop `v`. */
  predicate StopFails(s: Slot, e: Event, v: VmId) {
    || (e.Wake? && e.reply.Failed? && Answers(s, e, e.reply)
        && (HolderPc(s) == CleanupStop(v) || (HolderPc(s).StopOrphan? && HolderPc(s).vm == v)))
    || (e.Drain? && e.reply.Failed? && s.up && s.drain.DStop? && s.drain.vm == v)
  }

  predicate ReportedNotReady(s: Slot, e: Event, v: VmId) {
    Answers(s, e, StatusIs(false)) && HolderPc(s).GetStatus? && HolderPc(s).vm == v
  }

  /** Its id was lost on the way from the provider to the row: the answer never came, or between `provider.start`
      and `_persist_vm_id` the process crashed or the commit raised without taking effect. */
  predicate LostOnTheWay(s: Slot, e: Event, v: VmId) {
    || (Answers(s, e, Unreported(v)) && HolderPc(s).Start?)
    || (HolderPc(s) == PersistVmId(v)
        && (e.Crash? || (e.Wake? && e.reply.Failed? && !e.reply.applied && Answers(s, e, e.reply))))
  }

  predicate Earned(s: Slot, e: Event, w: World, v: VmId) {
    && (v in w.stopRaised && v !in s.world.stopRaised ==> StopFails(s, e, v))
    && (v in w.notReady && v !in s.world.notReady ==> ReportedNotReady(s, e, v))
    && (v in w.lost && v !in s.world.lost ==> LostOnTheWay(s, e, v))
  }

  lemma StartExcusesAreEarned(s: Slot, c: CallerId, r: Reply, v: VmId)
    requires s.up && s.lock == Some(c) && c in s.callers
    ensures Earned(s, Wake(c, r), StartOrResumeStep(s, c, s.callers[c], r).world, v)
  {
    var pc := s.callers[c];
    assert HolderPc(s) == pc;
    if pc.StopOrphan? {
      assert StartOrResumeStep(s, c, pc, r) == OnStopOrphan(s, c, pc, r);
    }
  }

  lemma OuterExcusesAreEarned(s: Slot, c: CallerId, r: Reply, v: VmId)
    requires s.up && s.lock == Some(c) && c in s.callers
    ensures Earned(s, Wake(c, r), OuterStep(s, c, s.callers[c], r).world, v)
  {
    var pc := s.callers[c];
    assert HolderPc(s) == pc;
    if pc.CleanupStop? {
      assert OuterStep(s, c, pc, r) == OnCleanupStop(s, c, pc, r);
    }
  }

  /** An instance is excused only by the very failure its excuse names. */
  lemma ExcusesAreEarned(u: UserId, s: Slot, e: Event, v: VmId)
    ensures Earned(s, e, Next(u, s, e).world, v)
  {
    if e.Wake? && s.up && s.lock == Some(e.caller) && e.caller in s.callers {
      StartExcusesAreEarned(s, e.caller, e.reply, v);
      OuterExcusesAreEarned(s, e.caller, e.reply, v);
    }
  }

  // ------------------------------------------------------------------ one instance at a time

  /** When an instance is started, whether or not its id comes back, every instance started before it has been
      given up on and has left the row. */
  lemma StartsOnlyAfterDeparture(u: UserId, golden: Option<SnapshotId>, es: seq<Event>, e: Event, v: VmId)
    requires v !in Reached(u, golden, es).world.started
    requires v in Next(u, Reached(u, golden, es), e).world.started
    ensures var s := Reached(u, golden, es);
            && RowVm(s).None?
            && forall v' :: v' in s.world.started ==> Departed(s.world, v')
  {
    ReachedInv(u, golden, es);
    var s := Reached(u, golden, es);
    StartsAtStart(u, s, e, v);
  }

  lemma StartsAtStart(u: UserId, s: Slot, e: Event, v: VmId)
    requires v !in s.world.started && v in Next(u, s, e).world.started
    ensures s.up && HolderPc(s).Start?
  {
    if e.Wake? && s.up && s.lock == Some(e.caller) && e.caller in s.callers {
      StepStartsOnlyItsOwn(s, e.caller, s.callers[e.caller], e.reply);
    }
  }

  /** An event of a run in which nothing fails: no crash, no drain, no raising call, no instance dying on
      its own, and `get_status` says ready or paused exactly for a live instance.  A health poll may time out. */
  predicate Benign(s: Slot, e: Event) {
    match e
    case Crash => false
    case InstanceDies(_) => false
    case CallDrain => false
    case Drain(_) => false
    case Wake(_, r) =>
      && !r.Failed? && !r.Unreported?
      && (r.StatusIs? && HolderPc(s).GetStatus? ==> (r.readyOrPaused <==> HolderPc(s).vm in s.world.live))
    case _ => true
  }

  ghost predicate BenignRun(u: UserId, s: Slot, es: seq<Event>) {
    forall i :: 0 <= i < |es| ==> Benign(Run(u, s, es[..i]), es[i])
  }

  ghost predicate Calm(s: Slot) {
    var w := s.world;
    && Inv(s) && s.up && s.drain.DIdle? && !w.desync
    && w.stopAttempted == {} && w.notReady == {} && w.lost == {} && w.live == w.started
    && !HolderPc(s).StopOrphan? && !HolderPc(s).ClearStale? && !HolderPc(s).CleanupStop? && !HolderPc(s).ClearFailed?
    && (HolderPc(s).PersistError? ==> RowVm(s).None?)
    && (RowVm(s).Some? && RowEndpoint(s).None? ==>
          HolderPc(s).Configure? || HolderPc(s).Launch? || HolderPc(s).PersistEndpoint?)
  }

  ghost predicate CalmBesides(s: Slot) {
    Inv(s) ==> Calm(s)
  }

  predicate Finds(pc: Pc) {
    pc.ReadRow? || pc.GetStatus? || pc.StopOrphan? || pc.ClearStale?
  }

  lemma CalmFinds(s: Slot, c: CallerId, r: Reply)
    requires Calm(s) && Benign(s, Wake(c, r)) && s.lock == Some(c) && Finds(HolderPc(s))
    ensures CalmBesides(StartOrResumeStep(s, c, HolderPc(s), r))
  {
  }

  lemma CalmStarts(s: Slot, c: CallerId, r: Reply)
    requires Calm(s) && Benign(s, Wake(c, r)) && s.lock == Some(c) && !Finds(HolderPc(s))
    ensures CalmBesides(StartOrResumeStep(s, c, HolderPc(s), r))
  {
  }

  lemma CalmOuter(s: Slot, c: CallerId, r: Reply)
    requires Calm(s) && Benign(s, Wake(c, r)) && s.lock == Some(c)
    ensures CalmBesides(OuterStep(s, c, HolderPc(s), r))
  {
  }

  lemma CalmStep(u: UserId, s: Slot, e: Event)
    requires Calm(s) && Benign(s, e)
    ensures Calm(Next(u, s, e))
  {
    NextKeepsInv(u, s, e);
    if e.Wake? && s.lock == Some(e.caller) {
      if Finds(HolderPc(s)) {
        CalmFinds(s, e.caller, e.reply);
      } else if InStartOrResume(HolderPc(s)) {
        CalmStarts(s, e.caller, e.reply);
      } else {
        CalmOuter(s, e.caller, e.reply);
      }
    }
  }

  lemma {:induction false} CalmRun(u: UserId, s: Slot, es: seq<Event>)
    requires Calm(s) && BenignRun(u, s, es)
    ensures Calm(Run(u, s, es))
  {
    if es != [] {
      var front := es[..|es| - 1];
      forall i | 0 <= i < |front| ensures Benign(Run(u, s, front[..i]), front[i]) {
        assert front[..i] == es[..i];
      }
      CalmRun(u, s, front);
      CalmStep(u, Run(u, s, front), es[|es| - 1]);
    }
  }

  /** Concurrent wakes share one instance: however many callers interleave and however often a wake times out
      and is retried, without failures at most one instance is ever started. */
  lemma AtMostOneInstance(u: UserId, golden: Option<SnapshotId>, es: seq<Event>)
    requires BenignRun(u, Init(golden), es)
    ensures |Reached(u, golden, es).world.started| <= 1
  {
    assert Calm(Init(golden)) by { InitInv(golden); }
    CalmRun(u, Init(golden), es);
    var s := Reached(u, golden, es);
    if HolderPc(s).PersistVmId? {
      assert s.world.started <= {HolderPc(s).vm};
      SubsetSize(s.world.started, {HolderPc(s).vm});
    } else if RowVm(s).Some? {
      assert s.world.started <= {RowVm(s).value};
      SubsetSize(s.world.started, {RowVm(s).value});
    } else {
      assert s.world.started == {};
    }
  }

  lemma {:induction false} SubsetSize(a: set<VmId>, b: set<VmId>)
    requires a <= b
    ensures |a| <= |b|
  {
    if a != {} {
      var x :| x in a;
      SubsetSize(a - {x}, b - {x});
    }
  }

  // ------------------------------------------------------------------ the persisted mapping

  lemma RowsStayConsistent(u: UserId, golden: Option<SnapshotId>, es: seq<Event>)
    ensures var s := Reached(u, golden, es);
            s.row.Some? ==>
              var row := s.row.value;
              && (row.endpoint.Some? ==> row.providerVmId.Some?)
              && (row.status == Stopped ==> row.providerVmId.None? && row.endpoint.None?)
              && (row.status == Running ==> row.providerVmId.Some? && row.endpoint.Some?
                                            && row.endpoint.value in s.world.probed)
  {
    ReachedInv(u, golden, es);
  }

  predicate RowRunning(s: Slot) {
    s.row.Some? && s.row.value.status == Running
  }

  predicate RunningEarned(s: Slot, s': Slot) {
    && (RowRunning(s') && !RowRunning(s) ==>
          && HolderPc(s).PersistRunning?
          && RowIs(s', Some(HolderPc(s).vm), Some(HolderPc(s).ep)))
    && (RowRunning(s') && RowRunning(s) ==> RowIs(s', RowVm(s), RowEndpoint(s)))
  }

  lemma StartWritesNoRunning(s: Slot, c: CallerId, r: Reply)
    requires Inv(s) && s.up && s.lock == Some(c) && InStartOrResume(HolderPc(s))
    ensures RunningEarned(s, StartOrResumeStep(s, c, HolderPc(s), r))
  {
  }

  lemma OuterWritesRunningAtEnd(s: Slot, c: CallerId, r: Reply)
    requires Inv(s) && s.up && s.lock == Some(c) && !InStartOrResume(HolderPc(s))
    ensures RunningEarned(s, OuterStep(s, c, HolderPc(s), r))
  {
  }

  /** `running` is written to the row by one commit only, the one that ends a wake; and while it stands, no other
      event replaces the mapping. */
  lemma RunningIsWrittenByWake(u: UserId, s: Slot, e: Event)
    requires Inv(s)
    ensures RunningEarned(s, Next(u, s, e))
  {
    if e.Wake? && s.up && s.lock == Some(e.caller) {
      if InStartOrResume(HolderPc(s)) {
        StartWritesNoRunning(s, e.caller, e.reply);
      } else {
        OuterWritesRunningAtEnd(s, e.caller, e.reply);
      }
    }
  }

  /** c has held the lock ever since it polled `ep` and got a healthy answer: that answer was the last event, or
      came before it and c has the lock still. */
  ghost predicate ProbedInThisWake(u: UserId, golden: Option<SnapshotId>, es: seq<Event>,
                                   c: CallerId, vm: VmId, ep: Endpoint)
  {
    && es != [] && Reached(u, golden, es).lock == Some(c)
    && var front := es[..|es| - 1];
       || (es[|es| - 1] == Wake(c, Healthy) && HolderPc(Reached(u, golden, front)) == Poll(vm, ep)
           && Reached(u, golden, front).lock == Some(c))
       || ProbedInThisWake(u, golden, front, c, vm, ep)
  }

  predicate Probed(pc: Pc, vm: VmId, ep: Endpoint) {
    (pc.PushSecrets? || pc.PersistRunning?) && pc.vm == vm && pc.ep == ep
  }

  /** The two calls after the polling loop are reached from it alone, by a healthy answer. */
  lemma ProbedOnlyByPoll(u: UserId, s: Slot, e: Event, c: CallerId, vm: VmId, ep: Endpoint)
    requires Inv(s) && Next(u, s, e).lock == Some(c) && Probed(HolderPc(Next(u, s, e)), vm, ep)
    ensures s.lock == Some(c)
    ensures Probed(HolderPc(s), vm, ep) || (e == Wake(c, Healthy) && HolderPc(s) == Poll(vm, ep))
  {
    if e.Wake? && s.up && s.lock == Some(e.caller) {
      if InStartOrResume(HolderPc(s)) {
        StartNeverProbes(s, e.caller, e.reply, vm, ep);
      } else {
        OuterProbesByPoll(s, e.caller, e.reply, vm, ep);
      }
    }
  }

  lemma StartNeverProbes(s: Slot, c: CallerId, r: Reply, vm: VmId, ep: Endpoint)
    requires Inv(s) && s.up && s.lock == Some(c) && InStartOrResume(HolderPc(s))
    ensures !Probed(HolderPc(StartOrResumeStep(s, c, HolderPc(s), r)), vm, ep)
  {
  }

  lemma OuterProbesByPoll(s: Slot, c: CallerId, r: Reply, vm: VmId, ep: Endpoint)
    requires Inv(s) && s.up && s.lock == Some(c) && !InStartOrResume(HolderPc(s))
    requires Probed(HolderPc(OuterStep(s, c, HolderPc(s), r)), vm, ep)
    ensures Probed(HolderPc(s), vm, ep) || (r == Healthy && HolderPc(s) == Poll(vm, ep))
  {
  }

  lemma {:induction false} ProbedCallsWereProbed(u: UserId, golden: Option<SnapshotId>, es: seq<Event>,
                                                 c: CallerId, vm: VmId, ep: Endpoint)
    requires Reached(u, golden, es).lock == Some(c) && Probed(HolderPc(Reached(u, golden, es)), vm, ep)
    ensures ProbedInThisWake(u, golden, es, c, vm, ep)
  {
    if es != [] {
      var front := es[..|es| - 1];
      ReachedInv(u, golden, front);
      ProbedOnlyByPoll(u, Reached(u, golden, front), es[|es| - 1], c, vm, ep);
      if Probed(HolderPc(Reached(u, golden, front)), vm, ep) {
        ProbedCallsWereProbed(u, golden, front, c, vm, ep);
      }
    }
  }

  /** So `running` is written only by a wake that, without leaving its lock, had a healthy answer from that very
      endpoint. */
  lemma RunningIsWrittenAfterProbe(u: UserId, golden: Option<SnapshotId>, es: seq<Event>, e: Event)
    requires !RowRunning(Reached(u, golden, es)) && RowRunning(Next(u, Reached(u, golden, es), e))
    ensures var s := Reached(u, golden, es);
            && s.lock.Some? && HolderPc(s).PersistRunning?
            && RowIs(Next(u, s, e), Some(HolderPc(s).vm), Some(HolderPc(s).ep))
            && ProbedInThisWake(u, golden, es, s.lock.value, HolderPc(s).vm, HolderPc(s).ep)
  {
    ReachedInv(u, golden, es);
    var s := Reached(u, golden, es);
    RunningIsWrittenByWake(u, s, e);
    ProbedCallsWereProbed(u, golden, es, s.lock.value, HolderPc(s).vm, HolderPc(s).ep);
  }

  predicate Quiescent(s: Slot) {
    s.up && s.lock.None? && s.drain.DIdle? && !s.provisioning
  }

  predicate MappingCommit(pc: Pc) {
    pc.ClearStale? || pc.ClearFailed? || pc.PersistVmId? || pc.PersistEndpoint?
  }

  /** A raising commit that leaves the stores apart: one of a wake that did not take effect, when the registry is
      ahead, or the last one of a drain that did, when the row is. */
  predicate Parts(s: Slot, e: Event) {
    || (e.Wake? && e.reply.Failed? && !e.reply.applied && Answers(s, e, e.reply) && MappingCommit(HolderPc(s)))
    || (e.Drain? && e.reply.Failed? && e.reply.applied && s.up && s.drain.DCommit?)
  }

  predicate Boots(s: Slot, e: Event) {
    e.Hydrate? && !s.up
  }

  /** Some commit parted the stores and the process has not been booted since: the last event did it, or it
      happened before and the last event is no boot. */
  ghost predicate PartedSinceBoot(u: UserId, golden: Option<SnapshotId>, es: seq<Event>) {
    && es != []
    && var front, e := es[..|es| - 1], es[|es| - 1];
       || Parts(Reached(u, golden, front), e)
       || (PartedSinceBoot(u, golden, front) && !Boots(Reached(u, golden, front), e))
  }

  lemma StartPartsIff(s: Slot, c: CallerId, r: Reply)
    requires s.up && s.lock == Some(c) && c in s.callers && InStartOrResume(s.callers[c])
    ensures StartOrResumeStep(s, c, s.callers[c], r).world.desync <==> s.world.desync || Parts(s, Wake(c, r))
  {
  }

  lemma OuterPartsIff(s: Slot, c: CallerId, r: Reply)
    requires s.up && s.lock == Some(c) && c in s.callers && !InStartOrResume(s.callers[c])
    ensures OuterStep(s, c, s.callers[c], r).world.desync <==> s.world.desync || Parts(s, Wake(c, r))
  {
  }

  lemma EventPartsIff(u: UserId, s: Slot, e: Event)
    ensures Next(u, s, e).world.desync <==> !Boots(s, e) && (s.world.desync || Parts(s, e))
  {
    if e.Wake? && s.up && s.lock == Some(e.caller) && e.caller in s.callers {
      if InStartOrResume(s.callers[e.caller]) {
        StartPartsIff(s, e.caller, e.reply);
      } else {
        OuterPartsIff(s, e.caller, e.reply);
      }
    }
  }

  lemma {:induction false} DesyncIffParted(u: UserId, golden: Option<SnapshotId>, es: seq<Event>)
    ensures Reached(u, golden, es).world.desync <==> PartedSinceBoot(u, golden, es)
  {
    if es != [] {
      var m := |es| - 1;
      DesyncIffParted(u, golden, es[..m]);
      EventPartsIff(u, Reached(u, golden, es[..m]), es[m]);
    }
  }

  /** Unless a commit has parted them since the last boot, registry and row name the same instance and endpoint
      whenever no wake or drain is mid-step, whatever else raised and whatever `touch` calls came in between. */
  lemma QuiescentStoresAgree(u: UserId, golden: Option<SnapshotId>, es: seq<Event>)
    requires Quiescent(Reached(u, golden, es)) && !PartedSinceBoot(u, golden, es)
    ensures var s := Reached(u, golden, es);
            MappingsAgree(s) && (s.registry.Some? <==> s.row.Some?)
  {
    ReachedInv(u, golden, es);
    DesyncIffParted(u, golden, es);
  }

  /** The agreement does need its condition.  When the commit of a mapping raises, the wake ends with the two
      stores disagreeing exactly if the commit had not taken effect, */
  lemma FailedCommitDisagrees(u: UserId, s: Slot, c: CallerId, applied: bool)
    requires Inv(s) && s.up && !s.world.desync && s.lock == Some(c) && MappingCommit(HolderPc(s))
    ensures var s' := Next(u, s, Wake(c, Failed(OtherError, applied)));
            Quiescent(s') && (MappingsAgree(s') <==> applied)
  {
  }

  /** ... and when the last commit of a drain raises, exactly if it had. */
  lemma FailedDrainCommitDisagrees(u: UserId, s: Slot, applied: bool)
    requires Inv(s) && s.up && !s.world.desync && s.drain.DCommit?
    ensures var s' := Next(u, s, Drain(Failed(OtherError, applied)));
            Quiescent(s') && (MappingsAgree(s') <==> !applied)
  {
  }

  // ------------------------------------------------------------------ what the calls achieve

  /** At most one caller of a user is past the lock. */
  lemma OneWakeAtATime(u: UserId, golden: Option<SnapshotId>, es: seq<Event>, c: CallerId, d: CallerId)
    requires var s := Reached(u, golden, es);
             c in s.callers && d in s.callers && Critical(s.callers[c]) && Critical(s.callers[d])
    ensures c == d
  {
    ReachedInv(u, golden, es);
  }
}
