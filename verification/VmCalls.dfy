/** What a whole wake or drain achieves, and what its answer is worth. */
module VmCalls {
  import opened Options
  import opened VmRegistry
  import opened VmProtocol
  import opened VmSafety
  import opened VmTheorems

  function PcOf(s: Slot, c: CallerId): Pc {
    if c in s.callers then s.callers[c] else Waiting
  }

  function RowStatus(s: Slot): Option<VmStatus> {
    if s.row.Some? then Some(s.row.value.status) else None
  }

  function RegStatus(s: Slot): Option<VmStatus> {
    if s.registry.Some? then Some(s.registry.value.status) else None
  }

  /** A wake from its call to the row read ... */
  function WokenToRead(u: UserId, s: Slot, c: CallerId): Slot {
    Next(u, Next(u, Next(u, Next(u, s, CallWake(c)), Acquire(c)), Wake(c, Ok)), Wake(c, Ok))
  }

  /** ... from a fresh start to the launch ... */
  function WokenToLaunch(u: UserId, s: Slot, c: CallerId, v: VmId): Slot {
    Next(u, Next(u, Next(u, s, Wake(c, VmStarted(v))), Wake(c, Ok)), Wake(c, Ok))
  }

  /** ... and from the launch to its return, every call succeeding. */
  function WokenToEnd(u: UserId, s: Slot, c: CallerId, ep: Endpoint, now: Time): Slot {
    var polling := Next(u, Next(u, s, Wake(c, Url(ep))), Wake(c, Ok));
    Next(u, Next(u, Next(u, polling, Wake(c, Healthy)), Wake(c, Clock(now))), Wake(c, Ok))
  }

  lemma CallComes(u: UserId, s: Slot, c: CallerId)
    requires s.up && c !in s.callers
    ensures var s' := Next(u, s, CallWake(c)); PcOf(s', c) == Waiting && s' == Goto(s, c, Waiting)
  {
  }

  lemma LockComes(u: UserId, s: Slot, c: CallerId)
    requires s.up && c in s.callers && s.callers[c].Waiting? && s.lock.None? && s.drain.DIdle? && s.registry.Some?
    requires RegStatus(s) == Some(Running) ==> RegEndpoint(s).None?
    ensures var s' := Next(u, s, Acquire(c));
            PcOf(s', c) == PersistWaking && s' == Goto(SetRegistry(s, Waking, KEEP), c, PersistWaking).(lock := Some(c))
  {
  }

  lemma WakingIsPersisted(u: UserId, s: Slot, c: CallerId)
    requires s.up && s.lock == Some(c) && PcOf(s, c) == PersistWaking && s.row.Some?
    ensures var s' := Next(u, s, Wake(c, Ok));
            && PcOf(s', c) == ReadRow
            && s' == Goto(s, c, ReadRow).(row := Some(s.row.value.(status := Waking)))
  {
  }

  lemma WakeReadsRow(u: UserId, s: Slot, c: CallerId)
    requires Inv(s) && Quiescent(s) && c !in s.callers && s.registry.Some?
    requires RegStatus(s) == Some(Running) ==> RegEndpoint(s).None?
    ensures var s' := Next(u, Next(u, Next(u, s, CallWake(c)), Acquire(c)), Wake(c, Ok));
            && PcOf(s', c) == ReadRow && s'.lock == Some(c) && s'.world == s.world && s'.up && s'.golden == s.golden
            && s'.row == Some(s.row.value.(status := Waking))
            && RegIs(s', RegVm(s), RegEndpoint(s)) && s'.registry.Some?
            && s'.callers.Keys == s.callers.Keys + {c}
  {
    assert s.row.Some?;
    var s1 := Next(u, s, CallWake(c));
    CallComes(u, s, c);
    LockComes(u, s1, c);
    WakingIsPersisted(u, Next(u, s1, Acquire(c)), c);
  }

  lemma StartComes(u: UserId, s: Slot, c: CallerId, v: VmId)
    requires s.up && s.lock == Some(c) && PcOf(s, c).Start? && v !in s.world.started
    ensures var s' := Next(u, s, Wake(c, VmStarted(v)));
            && PcOf(s', c) == PersistVmId(v)
            && s' == Goto(SetRegistry(s, Waking, KEEP.(providerVmId := Some(Some(v)))), c, PersistVmId(v)).(
                       world := s.world.(live := s.world.live + {v}, started := s.world.started + {v}))
  {
  }

  lemma IdIsPersisted(u: UserId, s: Slot, c: CallerId, v: VmId)
    requires s.up && s.lock == Some(c) && PcOf(s, c) == PersistVmId(v) && s.row.Some?
    ensures var s' := Next(u, s, Wake(c, Ok));
            && PcOf(s', c) == Configure(v)
            && s' == Goto(s, c, Configure(v)).(row := Some(s.row.value.(providerVmId := Some(v))))
  {
  }

  lemma ConfigureComes(u: UserId, s: Slot, c: CallerId, v: VmId)
    requires s.up && s.lock == Some(c) && PcOf(s, c) == Configure(v)
    ensures var s' := Next(u, s, Wake(c, Ok)); PcOf(s', c) == Launch(v) && s' == Goto(s, c, Launch(v))
  {
  }

  lemma WakeLaunches(u: UserId, s: Slot, c: CallerId, v: VmId)
    requires s.up && s.lock == Some(c) && PcOf(s, c).Start? && v !in s.world.started
    requires s.row.Some? && s.registry.Some?
    ensures var s' := WokenToLaunch(u, s, c, v);
            && PcOf(s', c) == Launch(v) && s'.lock == Some(c) && s'.up && s'.drain == s.drain
            && s'.provisioning == s.provisioning && s'.row.Some? && s'.registry.Some?
            && RowIs(s', Some(v), RowEndpoint(s)) && s'.world.live == s.world.live + {v}
            && RegVm(s') == Some(v) && s'.callers.Keys == s.callers.Keys + {c}
            && s'.world.probed == s.world.probed && s'.world.desync == s.world.desync
  {
    var s1 := Next(u, s, Wake(c, VmStarted(v)));
    var s2 := Next(u, s1, Wake(c, Ok));
    StartComes(u, s, c, v);
    IdIsPersisted(u, s1, c, v);
    ConfigureComes(u, s2, c, v);
  }

  lemma WakePolls(u: UserId, s: Slot, c: CallerId, v: VmId, ep: Endpoint)
    requires s.up && s.lock == Some(c) && PcOf(s, c) == Launch(v) && s.row.Some? && s.registry.Some?
    ensures var s' := Next(u, Next(u, s, Wake(c, Url(ep))), Wake(c, Ok));
            && PcOf(s', c) == Poll(v, ep) && s'.lock == Some(c) && s'.up && s'.drain == s.drain
            && s'.provisioning == s.provisioning && s'.world == s.world && s'.row.Some? && s'.registry.Some?
  {
    assert PcOf(Next(u, s, Wake(c, Url(ep))), c) == PersistEndpoint(v, ep);
  }

  lemma WakeEnds(u: UserId, s: Slot, c: CallerId, v: VmId, ep: Endpoint, now: Time)
    requires s.up && s.lock == Some(c) && PcOf(s, c) == Poll(v, ep) && s.row.Some? && s.registry.Some?
    requires s.drain.DIdle? && !s.provisioning
    ensures var s' := Next(u, Next(u, Next(u, s, Wake(c, Healthy)), Wake(c, Clock(now))), Wake(c, Ok));
            && PcOf(s', c) == Finished(ResultRunning) && Quiescent(s')
            && RowIs(s', Some(v), Some(ep)) && RowStatus(s') == Some(Running)
            && RegIs(s', Some(v), Some(ep)) && RegStatus(s') == Some(Running)
            && s'.world.live == s.world.live
  {
    var s1 := Next(u, s, Wake(c, Healthy));
    assert PcOf(s1, c) == PushSecrets(v, ep);
    assert PcOf(Next(u, s1, Wake(c, Clock(now))), c) == PersistRunning(v, ep, now);
  }

  lemma FreshStart(u: UserId, s: Slot, c: CallerId)
    requires s.up && s.lock == Some(c) && PcOf(s, c) == ReadRow && RowIs(s, None, None) && s.row.Some?
    requires s.row.value.snapshotId.Some? || s.golden.Some?
    ensures var s' := Next(u, s, Wake(c, Ok));
            && PcOf(s', c).Start? && s' == s.(callers := s'.callers) && s'.callers.Keys == s.callers.Keys + {c}
  {
  }

  /** A wake of a user without a mapped instance goes for a fresh start ... */
  lemma ColdWakeStarts(u: UserId, s: Slot, c: CallerId)
    requires Inv(s) && Quiescent(s) && c !in s.callers && s.registry.Some?
    requires MappingsAgree(s) && RowIs(s, None, None)
    requires s.row.value.snapshotId.Some? || s.golden.Some?
    ensures var s' := WokenToRead(u, s, c);
            && PcOf(s', c).Start? && s'.lock == Some(c) && s'.up && s'.world == s.world
            && RowIs(s', None, None) && s'.row.Some? && s'.registry.Some?
            && s'.callers.Keys == s.callers.Keys + {c}
  {
    WakeReadsRow(u, s, c);
    FreshStart(u, Next(u, Next(u, Next(u, s, CallWake(c)), Acquire(c)), Wake(c, Ok)), c);
  }

  /** ... and, nothing failing, leaves the new instance mapped in both stores and running, the only one added. */
  lemma StartedWakeRuns(u: UserId, s: Slot, c: CallerId, v: VmId, ep: Endpoint, now: Time)
    requires s.up && s.lock == Some(c) && PcOf(s, c).Start? && v !in s.world.started
    requires s.row.Some? && s.registry.Some? && s.drain.DIdle? && !s.provisioning
    ensures var s' := WokenToEnd(u, WokenToLaunch(u, s, c, v), c, ep, now);
            && PcOf(s', c) == Finished(ResultRunning) && Quiescent(s')
            && RowIs(s', Some(v), Some(ep)) && RowStatus(s') == Some(Running)
            && RegIs(s', Some(v), Some(ep)) && RegStatus(s') == Some(Running)
            && s'.world.live == s.world.live + {v}
  {
    WakeLaunches(u, s, c, v);
    var s2 := WokenToLaunch(u, s, c, v);
    WakePolls(u, s2, c, v, ep);
    WakeEnds(u, Next(u, Next(u, s2, Wake(c, Url(ep))), Wake(c, Ok)), c, v, ep, now);
  }

  /** A drain in which nothing fails. */
  function Drained(u: UserId, s: Slot, snap: SnapshotId): Slot {
    var s1 := Next(u, Next(u, Next(u, s, CallDrain), Drain(Ok)), Drain(Snapshot(snap)));
    Next(u, Next(u, Next(u, s1, Drain(Ok)), Drain(Ok)), Drain(Ok))
  }

  /** It undoes a wake: the instance is gone, both stores are back to `stopped` and an empty mapping, and the
      next start will use the snapshot just taken. */
  lemma DrainUndoesWake(u: UserId, s: Slot, snap: SnapshotId)
    requires Inv(s) && Quiescent(s) && RegVm(s).Some? && MappingsAgree(s)
    ensures var s' := Drained(u, s, snap);
            && Quiescent(s') && RowIs(s', None, None) && RegIs(s', None, None)
            && RowStatus(s') == Some(Stopped) && RegStatus(s') == Some(Stopped)
            && s'.row.Some? && s'.row.value.snapshotId == Some(snap)
            && s'.world.live == s.world.live - {RegVm(s).value}
  {
    var v := RegVm(s).value;
    var s1 := Next(u, Next(u, s, CallDrain), Drain(Ok));
    assert s1.drain == DSnapshot(v);
    var s2 := Next(u, Next(u, s1, Drain(Snapshot(snap))), Drain(Ok));
    assert s2.drain == DCommit(v, snap);
  }

  lemma ReclaimStep(u: UserId, s: Slot, d: CallerId, v: VmId)
    requires s.up && s.lock == Some(d) && PcOf(s, d) == ReadRow && RowIs(s, Some(v), None)
    ensures var s' := Next(u, s, Wake(d, Ok));
            && PcOf(s', d).StopOrphan? && PcOf(s', d).vm == v
            && v !in Next(u, s', Wake(d, Ok)).world.live
  {
  }

  /** In a quiet moment the row holds v without an endpoint, as any wake leaves it that an exception cut short
      after `_persist_vm_id`.  The next wake stops v before anything is started exactly if the registry does not
      pass for running; otherwise it answers RUNNING and touches nothing. */
  lemma NextWakeReclaims(u: UserId, s: Slot, d: CallerId, v: VmId)
    requires Inv(s) && Quiescent(s) && d !in s.callers && RowIs(s, Some(v), None)
    ensures var s' := WokenToRead(u, s, d);
            && ((PcOf(s', d).StopOrphan? && PcOf(s', d).vm == v)
                  <==> !(RegStatus(s) == Some(Running) && RegEndpoint(s).Some?))
            && (PcOf(s', d).StopOrphan? ==> v !in Next(u, s', Wake(d, Ok)).world.live)
            && (!PcOf(s', d).StopOrphan? ==> PcOf(s', d) == Finished(ResultRunning) && s'.world == s.world)
  {
    if RegStatus(s) == Some(Running) && RegEndpoint(s).Some? {
      FastWakeAnswers(u, s, d);
    } else {
      WakeReadsRow(u, s, d);
      ReclaimStep(u, Next(u, Next(u, Next(u, s, CallWake(d)), Acquire(d)), Wake(d, Ok)), d, v);
    }
  }

  lemma FastWakeAnswers(u: UserId, s: Slot, d: CallerId)
    requires Quiescent(s) && d !in s.callers && RegStatus(s) == Some(Running) && RegEndpoint(s).Some?
    ensures var s' := Next(u, Next(u, s, CallWake(d)), Acquire(d));
            && PcOf(s', d) == Finished(ResultRunning) && s'.world == s.world && s'.registry == s.registry
            && WokenToRead(u, s, d) == s'
  {
    var s1 := Next(u, s, CallWake(d));
    assert PcOf(s1, d) == Waiting;
    assert Next(u, s1, Acquire(d)).lock.None?;
  }

  /** The failing case: when the commit of the endpoint raises without effect and a `touch` follows, the
      next wake answers RUNNING and leaves the instance where it is. */
  lemma TouchHidesOrphan(u: UserId, s: Slot, c: CallerId, d: CallerId, v: VmId, ep: Endpoint, now: Time)
    requires Inv(s) && s.up && s.lock == Some(c) && HolderPc(s) == PersistEndpoint(v, ep) && d !in s.callers
    ensures var s1 := Next(u, Next(u, s, Wake(c, Failed(OtherError, false))), TouchRegistry(now));
            && Quiescent(s1) && RowIs(s1, Some(v), None)
            && PcOf(WokenToRead(u, s1, d), d) == Finished(ResultRunning)
            && WokenToRead(u, s1, d).world.live == s.world.live
  {
    NextKeepsInv(u, s, Wake(c, Failed(OtherError, false)));
    var s0 := Next(u, s, Wake(c, Failed(OtherError, false)));
    assert RowIs(s0, Some(v), None) && RegEndpoint(s0) == Some(ep) && Quiescent(s0);
    FastWakeAnswers(u, Next(u, s0, TouchRegistry(now)), d);
  }

  // ------------------------------------------------------------------ in every interleaving

  /** RUNNING is answered in two ways.  A wake that went to the end leaves the instance mapped and running in both
      stores, its endpoint probed while it had the lock; the other ones only read the registry. */
  lemma RunningAnswers(u: UserId, golden: Option<SnapshotId>, es: seq<Event>, e: Event, c: CallerId)
    requires PcOf(Reached(u, golden, es), c) != Finished(ResultRunning)
    requires PcOf(Next(u, Reached(u, golden, es), e), c) == Finished(ResultRunning)
    ensures var s, s' := Reached(u, golden, es), Next(u, Reached(u, golden, es), e);
            || (e == Acquire(c) && RegStatus(s) == Some(Running) && RegEndpoint(s).Some?
                && RegIs(s', RegVm(s), RegEndpoint(s)) && s'.world == s.world)
            || (e == Wake(c, Ok) && HolderPc(s).PersistRunning?
                && var v, ep := HolderPc(s).vm, HolderPc(s).ep;
                   && RowIs(s', Some(v), Some(ep)) && RowStatus(s') == Some(Running)
                   && RegIs(s', Some(v), Some(ep))
                   && ProbedInThisWake(u, golden, es, c, v, ep))
  {
    ReachedInv(u, golden, es);
    var s := Reached(u, golden, es);
    if e.Wake? {
      AnswersAtEnd(u, s, e, c);
      ProbedCallsWereProbed(u, golden, es, c, HolderPc(s).vm, HolderPc(s).ep);
    } else {
      OthersAnswerFromRegistry(u, s, e, c);
    }
  }

  lemma OthersAnswerFromRegistry(u: UserId, s: Slot, e: Event, c: CallerId)
    requires !e.Wake? && PcOf(s, c) != Finished(ResultRunning)
    requires PcOf(Next(u, s, e), c) == Finished(ResultRunning)
    ensures e == Acquire(c) && RegStatus(s) == Some(Running) && RegEndpoint(s).Some?
    ensures RegIs(Next(u, s, e), RegVm(s), RegEndpoint(s)) && Next(u, s, e).world == s.world
  {
  }

  lemma FindMovesOnlyItself(s: Slot, c: CallerId, pc: Pc, r: Reply, d: CallerId)
    requires d != c && Finds(pc)
    ensures PcOf(StartOrResumeStep(s, c, pc, r), d) == PcOf(s, d)
  {
  }

  lemma StartMovesOnlyItself(s: Slot, c: CallerId, pc: Pc, r: Reply, d: CallerId)
    requires d != c && !Finds(pc)
    ensures PcOf(StartOrResumeStep(s, c, pc, r), d) == PcOf(s, d)
  {
  }

  lemma OuterMovesOnlyItself(s: Slot, c: CallerId, pc: Pc, r: Reply, d: CallerId)
    requires d != c
    ensures PcOf(OuterStep(s, c, pc, r), d) == PcOf(s, d)
  {
  }

  lemma FindNeverAnswers(s: Slot, c: CallerId, pc: Pc, r: Reply)
    requires c in s.callers && s.callers[c] == pc && Finds(pc)
    ensures !PcOf(StartOrResumeStep(s, c, pc, r), c).Finished?
  {
  }

  lemma StartNeverAnswers(s: Slot, c: CallerId, pc: Pc, r: Reply)
    requires c in s.callers && s.callers[c] == pc && InStartOrResume(pc) && !Finds(pc)
    ensures !PcOf(StartOrResumeStep(s, c, pc, r), c).Finished?
  {
  }

  lemma OuterAnswers(s: Slot, c: CallerId, pc: Pc, r: Reply)
    requires Inv(s) && s.up && s.lock == Some(c) && pc == HolderPc(s)
    requires PcOf(OuterStep(s, c, pc, r), c) == Finished(ResultRunning)
    ensures pc.PersistRunning? && r.Ok?
    ensures var s' := OuterStep(s, c, pc, r);
            && RowIs(s', Some(pc.vm), Some(pc.ep)) && RegIs(s', Some(pc.vm), Some(pc.ep))
            && RowStatus(s') == Some(Running) && pc.ep in s'.world.probed
  {
  }

  /** The only answer of a wake that says RUNNING is the one after the last commit. */
  lemma AnswersAtEnd(u: UserId, s: Slot, e: Event, c: CallerId)
    requires Inv(s) && e.Wake? && PcOf(s, c) != Finished(ResultRunning)
    requires PcOf(Next(u, s, e), c) == Finished(ResultRunning)
    ensures e == Wake(c, Ok) && s.lock == Some(c) && HolderPc(s).PersistRunning?
    ensures var s' := Next(u, s, e);
            && RowIs(s', Some(HolderPc(s).vm), Some(HolderPc(s).ep))
            && RegIs(s', Some(HolderPc(s).vm), Some(HolderPc(s).ep))
            && RowStatus(s') == Some(Running) && HolderPc(s).ep in s'.world.probed
  {
    if s.up && s.lock == Some(e.caller) {
      var d, pc := e.caller, HolderPc(s);
      if d == c {
        if Finds(pc) {
          FindNeverAnswers(s, c, pc, e.reply);
        } else if InStartOrResume(pc) {
          StartNeverAnswers(s, c, pc, e.reply);
        } else {
          OuterAnswers(s, c, pc, e.reply);
        }
      } else if Finds(pc) {
        FindMovesOnlyItself(s, d, pc, e.reply, c);
      } else if InStartOrResume(pc) {
        StartMovesOnlyItself(s, d, pc, e.reply, c);
      } else {
        OuterMovesOnlyItself(s, d, pc, e.reply, c);
      }
    }
  }

  /** The registry passes for running with an endpoint no probe ever reached. */
  predicate VouchesUnprobed(s: Slot) {
    RegStatus(s) == Some(Running) && RegEndpoint(s).Some? && RegEndpoint(s).value !in s.world.probed
  }

  /** A `touch` at a time when the registry maps an endpoint that has never answered a probe. */
  predicate TouchesUnprobed(s: Slot, e: Event) {
    s.up && e.TouchRegistry? && RegEndpoint(s).Some? && RegEndpoint(s).value !in s.world.probed
  }

  lemma StartVouchesForNothing(s: Slot, c: CallerId, r: Reply)
    requires Inv(s) && s.up && s.lock == Some(c) && InStartOrResume(HolderPc(s)) && !VouchesUnprobed(s)
    ensures !VouchesUnprobed(StartOrResumeStep(s, c, HolderPc(s), r))
  {
  }

  lemma OuterVouchesForProbed(s: Slot, c: CallerId, r: Reply)
    requires Inv(s) && s.up && s.lock == Some(c) && !InStartOrResume(HolderPc(s)) && !VouchesUnprobed(s)
    ensures !VouchesUnprobed(OuterStep(s, c, HolderPc(s), r))
  {
  }

  /** Such a touch, and nothing else, makes the registry vouch for an endpoint that was never probed. */
  lemma OnlyTouchVouches(u: UserId, s: Slot, e: Event)
    requires Inv(s) && !VouchesUnprobed(s)
    ensures VouchesUnprobed(Next(u, s, e)) <==> TouchesUnprobed(s, e)
  {
    if e.Wake? && s.up && s.lock == Some(e.caller) {
      if InStartOrResume(HolderPc(s)) {
        StartVouchesForNothing(s, e.caller, e.reply);
      } else {
        OuterVouchesForProbed(s, e.caller, e.reply);
      }
    }
  }

  /** Ends what such a touch began: the registry stops passing for running, the endpoint it maps answers a probe,
      or a wake that has probed its endpoint writes it there. */
  predicate Settles(u: UserId, s: Slot, e: Event) {
    || RegStatus(Next(u, s, e)) != Some(Running)
    || (e.Wake? && Answers(s, e, Healthy) && HolderPc(s).Poll? && RegEndpoint(s) == Some(HolderPc(s).ep))
    || (e.Wake? && e.reply.Clock? && Answers(s, e, e.reply) && HolderPc(s).PushSecrets?)
  }

  /** Read off the history: a `touch` came while the registry mapped an endpoint no probe had reached, and nothing
      has settled it since. */
  predicate TouchedUnsettled(u: UserId, golden: Option<SnapshotId>, es: seq<Event>) {
    && es != []
    && var front, e := es[..|es| - 1], es[|es| - 1];
       || TouchesUnprobed(Reached(u, golden, front), e)
       || (TouchedUnsettled(u, golden, front) && !Settles(u, Reached(u, golden, front), e))
  }

  /** Whatever `_start_or_resume` does to the registry, it takes the status with it. */
  predicate LeavesOrStops(s: Slot, s': Slot) {
    s'.world.probed == s.world.probed && (s'.registry == s.registry || RegStatus(s') != Some(Running))
  }

  lemma FindLeavesOrStops(s: Slot, c: CallerId, pc: Pc, r: Reply)
    requires Finds(pc)
    ensures LeavesOrStops(s, StartOrResumeStep(s, c, pc, r))
  {
  }

  lemma StartLeavesOrStops(s: Slot, c: CallerId, pc: Pc, r: Reply)
    requires InStartOrResume(pc) && !Finds(pc)
    ensures LeavesOrStops(s, StartOrResumeStep(s, c, pc, r))
  {
  }

  lemma StartSettlesIff(u: UserId, s: Slot, c: CallerId, r: Reply)
    requires Inv(s) && s.up && s.lock == Some(c) && InStartOrResume(HolderPc(s)) && VouchesUnprobed(s)
    ensures VouchesUnprobed(Next(u, s, Wake(c, r))) <==> !Settles(u, s, Wake(c, r))
  {
    var s' := StartOrResumeStep(s, c, HolderPc(s), r);
    assert Next(u, s, Wake(c, r)) == s';
    if Finds(HolderPc(s)) {
      FindLeavesOrStops(s, c, HolderPc(s), r);
    } else {
      StartLeavesOrStops(s, c, HolderPc(s), r);
    }
  }

  lemma OuterSettlesIff(u: UserId, s: Slot, c: CallerId, r: Reply)
    requires Inv(s) && s.up && s.lock == Some(c) && !InStartOrResume(HolderPc(s)) && VouchesUnprobed(s)
    ensures VouchesUnprobed(Next(u, s, Wake(c, r))) <==> !Settles(u, s, Wake(c, r))
  {
  }

  lemma OthersSettleIff(u: UserId, s: Slot, e: Event)
    requires Inv(s) && !e.Wake? && VouchesUnprobed(s)
    ensures VouchesUnprobed(Next(u, s, e)) <==> !Settles(u, s, e)
  {
  }

  lemma EventSettlesIff(u: UserId, s: Slot, e: Event)
    requires Inv(s) && VouchesUnprobed(s)
    ensures VouchesUnprobed(Next(u, s, e)) <==> !Settles(u, s, e) || TouchesUnprobed(s, e)
  {
    if !e.Wake? {
      OthersSettleIff(u, s, e);
    } else if s.up && s.lock == Some(e.caller) {
      if InStartOrResume(HolderPc(s)) {
        StartSettlesIff(u, s, e.caller, e.reply);
      } else {
        OuterSettlesIff(u, s, e.caller, e.reply);
      }
    }
  }

  /** The registry vouches for an unprobed endpoint exactly while such a touch is unsettled. */
  lemma {:induction false} VouchesIffTouched(u: UserId, golden: Option<SnapshotId>, es: seq<Event>)
    ensures VouchesUnprobed(Reached(u, golden, es)) <==> TouchedUnsettled(u, golden, es)
  {
    if es != [] {
      var front := es[..|es| - 1];
      var s := Reached(u, golden, front);
      VouchesIffTouched(u, golden, front);
      ReachedInv(u, golden, front);
      if VouchesUnprobed(s) {
        EventSettlesIff(u, s, es[|es| - 1]);
      } else {
        OnlyTouchVouches(u, s, es[|es| - 1]);
      }
    }
  }

  /** What RUNNING is worth: the endpoint the caller is sent to has answered a probe, unless the answer was read
      off the registry while a `touch` of an endpoint no probe had reached was unsettled; and then it has not. */
  lemma RunningMeansProbedIff(u: UserId, golden: Option<SnapshotId>, es: seq<Event>, e: Event, c: CallerId)
    requires PcOf(Reached(u, golden, es), c) != Finished(ResultRunning)
    requires PcOf(Next(u, Reached(u, golden, es), e), c) == Finished(ResultRunning)
    ensures var s' := Next(u, Reached(u, golden, es), e);
            && RegEndpoint(s').Some?
            && (RegEndpoint(s').value in s'.world.probed <==> !(e.Acquire? && TouchedUnsettled(u, golden, es)))
  {
    RunningAnswers(u, golden, es, e, c);
    VouchesIffTouched(u, golden, es);
    ReachedInv(u, golden, es);
    if e.Wake? {
      AnswersAtEnd(u, Reached(u, golden, es), e, c);
    }
  }

  lemma TouchWhilePolling(u: UserId, s: Slot, c: CallerId, v: VmId, ep: Endpoint, now: Time)
    requires Inv(s) && s.up && s.lock == Some(c) && HolderPc(s) == Poll(v, ep) && !s.world.desync
    ensures var s' := Next(u, s, TouchRegistry(now));
            && Inv(s') && s'.up && s'.lock == Some(c) && HolderPc(s') == Poll(v, ep) && s'.callers == s.callers
            && s'.world == s.world && RegStatus(s') == Some(Running) && RegEndpoint(s') == Some(ep)
  {
    NextKeepsInv(u, s, TouchRegistry(now));
  }

  lemma PollTimesOut(u: UserId, s: Slot, c: CallerId, v: VmId, ep: Endpoint)
    requires Inv(s) && s.up && s.lock == Some(c) && HolderPc(s) == Poll(v, ep)
    ensures var s' := Next(u, s, Wake(c, TimedOut));
            && PcOf(s', c) == Finished(ResultPending) && Quiescent(s') && s'.world == s.world
            && s'.registry == s.registry && s'.callers == s.callers[c := Finished(ResultPending)]
  {
  }

  /** A `touch` while a wake polls, and the wake timing out, make the next wake answer RUNNING without
      a probe having succeeded. */
  lemma TouchAnswersForPoll(u: UserId, s: Slot, c: CallerId, d: CallerId, v: VmId, ep: Endpoint, now: Time)
    requires Inv(s) && s.up && s.lock == Some(c) && HolderPc(s) == Poll(v, ep) && d !in s.callers
    requires !s.world.desync && ep !in s.world.probed
    ensures var s1 := Next(u, Next(u, s, TouchRegistry(now)), Wake(c, TimedOut));
            && PcOf(s1, c) == Finished(ResultPending)
            && PcOf(WokenToRead(u, s1, d), d) == Finished(ResultRunning)
            && RegEndpoint(WokenToRead(u, s1, d)) == Some(ep) && ep !in WokenToRead(u, s1, d).world.probed
  {
    var s0 := Next(u, s, TouchRegistry(now));
    TouchWhilePolling(u, s, c, v, ep, now);
    PollTimesOut(u, s0, c, v, ep);
    FastWakeAnswers(u, Next(u, s0, Wake(c, TimedOut)), d);
  }

  /** A drain that comes to its last statement leaves both stores stopped and empty, the new snapshot in the row
      and the instance gone, whatever came in between. */
  lemma DrainedIsForgotten(u: UserId, golden: Option<SnapshotId>, es: seq<Event>)
    requires Reached(u, golden, es).drain.DRegistry?
    ensures var s := Reached(u, golden, es);
            var s' := Next(u, s, Drain(Ok));
            && Quiescent(s') && RowIs(s', None, None) && RegIs(s', None, None)
            && RowStatus(s') == Some(Stopped) && RegStatus(s') == Some(Stopped)
            && s'.row.value.snapshotId == Some(s.drain.snap) && s.drain.vm !in s'.world.live
  {
    ReachedInv(u, golden, es);
  }

  // ------------------------------------------------------------------ histories in which it happens

  lemma RunSnoc(u: UserId, s: Slot, es: seq<Event>, e: Event)
    ensures Run(u, s, es + [e]) == Next(u, Run(u, s, es), e)
  {
    assert (es + [e])[..|es|] == es;
  }

  const PROVISIONED: seq<Event> := [ProvisionCommit, ProvisionPut]
  const CALLED: seq<Event> := PROVISIONED + [CallWake(0)]
  const LOCKED: seq<Event> := CALLED + [Acquire(0)]
  const PERSISTED: seq<Event> := LOCKED + [Wake(0, Ok)]
  const STARTING: seq<Event> := PERSISTED + [Wake(0, Ok)]
  const STARTED: seq<Event> := STARTING + [Wake(0, VmStarted(1))]
  const PARTED: seq<Event> := STARTED + [Wake(0, Failed(OtherError, false))]
  const RECORDED: seq<Event> := STARTED + [Wake(0, Ok)]
  const CONFIGURED: seq<Event> := RECORDED + [Wake(0, Ok)]
  const LAUNCHED: seq<Event> := CONFIGURED + [Wake(0, Url(7))]
  const UNRECORDED: seq<Event> := LAUNCHED + [Wake(0, Failed(OtherError, false))]
  const HIDDEN: seq<Event> := UNRECORDED + [TouchRegistry(0)]
  const POLLING: seq<Event> := LAUNCHED + [Wake(0, Ok)]
  const TOUCHED: seq<Event> := POLLING + [TouchRegistry(0)]
  const GIVEN_UP: seq<Event> := TOUCHED + [Wake(0, TimedOut)]

  lemma ProvisionedHistory(u: UserId, golden: SnapshotId)
    ensures var s := Reached(u, Some(golden), PROVISIONED);
            && Quiescent(s) && s.callers == map[] && s.world == INIT_WORLD && s.golden == Some(golden)
            && s.registry.Some? && s.row.Some? && MappingsAgree(s) && RowIs(s, None, None)
            && RegStatus(s) == Some(Stopped)
  {
    var s0 := Init(Some(golden));
    RunSnoc(u, s0, [], ProvisionCommit);
    RunSnoc(u, s0, [ProvisionCommit], ProvisionPut);
    assert [] + [ProvisionCommit] == [ProvisionCommit];
    assert [ProvisionCommit] + [ProvisionPut] == PROVISIONED;
  }

  lemma StartingHistory(u: UserId, golden: SnapshotId)
    ensures var s := Reached(u, Some(golden), STARTING);
            && s.up && s.lock == Some(0) && PcOf(s, 0).Start? && s.world == INIT_WORLD
            && s.row.Some? && s.registry.Some? && s.callers.Keys == {0}
  {
    ProvisionedHistory(u, golden);
    ReachedInv(u, Some(golden), PROVISIONED);
    RunSnoc(u, Init(Some(golden)), PROVISIONED, CallWake(0));
    RunSnoc(u, Init(Some(golden)), CALLED, Acquire(0));
    RunSnoc(u, Init(Some(golden)), LOCKED, Wake(0, Ok));
    RunSnoc(u, Init(Some(golden)), PERSISTED, Wake(0, Ok));
    ColdWakeStarts(u, Reached(u, Some(golden), PROVISIONED), 0);
  }

  /** From a start, a raising commit of the new id parts the stores exactly if it had no effect. */
  lemma StartThenRaise(u: UserId, s: Slot, c: CallerId, v: VmId, applied: bool)
    requires Inv(s) && s.up && s.lock == Some(c) && PcOf(s, c).Start? && v !in s.world.started && !s.world.desync
    ensures var s1 := Next(u, s, Wake(c, VmStarted(v)));
            var s2 := Next(u, s1, Wake(c, Failed(OtherError, applied)));
            && Quiescent(s2) && (MappingsAgree(s2) <==> applied)
            && (Parts(s1, Wake(c, Failed(OtherError, applied))) <==> !applied)
  {
    NextKeepsInv(u, s, Wake(c, VmStarted(v)));
    var s1 := Next(u, s, Wake(c, VmStarted(v)));
    assert HolderPc(s1) == PersistVmId(v);
    FailedCommitDisagrees(u, s1, c, applied);
  }

  /** A user is provisioned and wakes; the instance starts, and the commit of its id raises without effect.  That
      history ends in a quiet moment with the two stores apart. */
  lemma StoresCanPart(u: UserId, golden: SnapshotId)
    ensures var s := Reached(u, Some(golden), PARTED);
            Quiescent(s) && !MappingsAgree(s) && PartedSinceBoot(u, Some(golden), PARTED)
  {
    StartingHistory(u, golden);
    ReachedInv(u, Some(golden), STARTING);
    StartThenRaise(u, Reached(u, Some(golden), STARTING), 0, 1, false);
    RunSnoc(u, Init(Some(golden)), STARTING, Wake(0, VmStarted(1)));
    RunSnoc(u, Init(Some(golden)), STARTED, Wake(0, Failed(OtherError, false)));
    assert PARTED[..|PARTED| - 1] == STARTED;
  }

  /** The same wake as far as its answer from the launch: instance 1 under endpoint 7. */
  lemma LaunchedHistory(u: UserId, golden: SnapshotId)
    ensures var s := Reached(u, Some(golden), LAUNCHED);
            && s.up && s.lock == Some(0) && HolderPc(s) == PersistEndpoint(1, 7) && s.callers.Keys == {0}
            && s.world.live == {1} && s.world.probed == {} && !s.world.desync
  {
    var s0 := Init(Some(golden));
    StartingHistory(u, golden);
    RunSnoc(u, s0, STARTING, Wake(0, VmStarted(1)));
    RunSnoc(u, s0, STARTED, Wake(0, Ok));
    RunSnoc(u, s0, RECORDED, Wake(0, Ok));
    WakeLaunches(u, Reached(u, Some(golden), STARTING), 0, 1);
    RunSnoc(u, s0, CONFIGURED, Wake(0, Url(7)));
    UrlComes(u, Reached(u, Some(golden), CONFIGURED), 0, 1, 7);
  }

  lemma UrlComes(u: UserId, s: Slot, c: CallerId, v: VmId, ep: Endpoint)
    requires s.up && s.lock == Some(c) && PcOf(s, c) == Launch(v)
    ensures var s' := Next(u, s, Wake(c, Url(ep)));
            && s'.up && s'.lock == Some(c) && HolderPc(s') == PersistEndpoint(v, ep)
            && s'.world == s.world && s'.callers.Keys == s.callers.Keys
  {
  }

  /** Then it polls, is touched, and gives up: the next wake answers RUNNING though 7 never answered a probe. */
  lemma UnprobedRunningHappens(u: UserId, golden: SnapshotId)
    ensures var s := Reached(u, Some(golden), GIVEN_UP);
            && PcOf(s, 0) == Finished(ResultPending)
            && PcOf(WokenToRead(u, s, 1), 1) == Finished(ResultRunning)
            && RegEndpoint(WokenToRead(u, s, 1)) == Some(7) && 7 !in WokenToRead(u, s, 1).world.probed
  {
    var s0 := Init(Some(golden));
    LaunchedHistory(u, golden);
    ReachedInv(u, Some(golden), LAUNCHED);
    RunSnoc(u, s0, LAUNCHED, Wake(0, Ok));
    RunSnoc(u, s0, POLLING, TouchRegistry(0));
    RunSnoc(u, s0, TOUCHED, Wake(0, TimedOut));
    ReachedInv(u, Some(golden), POLLING);
    EndpointIsPersisted(u, Reached(u, Some(golden), LAUNCHED), 0);
    TouchAnswersForPoll(u, Reached(u, Some(golden), POLLING), 0, 1, 1, 7, 0);
  }

  lemma EndpointIsPersisted(u: UserId, s: Slot, c: CallerId)
    requires Inv(s) && s.up && s.lock == Some(c) && HolderPc(s).PersistEndpoint?
    ensures var s' := Next(u, s, Wake(c, Ok));
            && s'.up && s'.lock == Some(c) && HolderPc(s') == Poll(HolderPc(s).vm, HolderPc(s).ep)
            && s'.world == s.world && s'.callers.Keys == s.callers.Keys
  {
  }

  /** Or the commit of the endpoint raises without effect and a touch follows: the next wake answers RUNNING and
      leaves the live instance 1, in the row without an endpoint, where it is. */
  lemma HiddenOrphanHappens(u: UserId, golden: SnapshotId)
    ensures var s := Reached(u, Some(golden), HIDDEN);
            && Quiescent(s) && RowIs(s, Some(1), None)
            && PcOf(WokenToRead(u, s, 1), 1) == Finished(ResultRunning)
            && WokenToRead(u, s, 1).world.live == {1}
  {
    var s0 := Init(Some(golden));
    LaunchedHistory(u, golden);
    ReachedInv(u, Some(golden), LAUNCHED);
    RunSnoc(u, s0, LAUNCHED, Wake(0, Failed(OtherError, false)));
    RunSnoc(u, s0, UNRECORDED, TouchRegistry(0));
    TouchHidesOrphan(u, Reached(u, Some(golden), LAUNCHED), 0, 1, 1, 7, 0);
  }
}
