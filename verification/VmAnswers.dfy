/** What the answers FAILED and PENDING of a wake say about the wake that gave them. */
module VmAnswers {
  import opened Options
  import opened VmRegistry
  import opened VmProtocol
  import opened VmSafety
  import opened VmTheorems
  import opened VmCalls
  import opened VmAgreement
  import opened VmHistory

  /** The calls of `_start_or_resume` whose VMProviderError wake catches; that of a stop is caught before. */
  predicate AsksProvider(pc: Pc) {
    pc.GetStatus? || pc.Start? || pc.Configure? || pc.Launch?
  }

  /** The answer makes `_start_or_resume` raise VMProviderError: the provider's own, or there is nothing to start
      from. */
  predicate Refuses(s: Slot, e: Event, nothing: bool) {
    && e.Wake? && Answers(s, e, e.reply)
    && ( || (e.reply.Failed? && e.reply.kind.ProviderError? && AsksProvider(HolderPc(s)))
         || (e.reply.Ok? && nothing && (HolderPc(s).ClearStale? || (HolderPc(s).ReadRow? && RowVm(s).None?))))
  }

  predicate NothingToStart(u: UserId, golden: Option<SnapshotId>, es: seq<Event>) {
    golden.None? && NeverSaved(u, golden, es)
  }

  /** c has held the lock ever since it was refused. */
  predicate RefusedInThisWake(u: UserId, golden: Option<SnapshotId>, es: seq<Event>, c: CallerId) {
    && es != [] && Reached(u, golden, es).lock == Some(c)
    && var front, e := es[..|es| - 1], es[|es| - 1];
       || Refuses(Reached(u, golden, front), e, NothingToStart(u, golden, front))
       || RefusedInThisWake(u, golden, front, c)
  }

  /** The answer says that v is up: started just now, or found ready or paused. */
  predicate ComesUp(s: Slot, e: Event, v: VmId) {
    || (Answers(s, e, VmStarted(v)) && HolderPc(s).Start? && v !in s.world.started)
    || (Answers(s, e, StatusIs(true)) && HolderPc(s).GetStatus? && HolderPc(s).vm == v)
  }

  /** c has held the lock ever since v came up. */
  predicate CameUpInThisWake(u: UserId, golden: Option<SnapshotId>, es: seq<Event>, c: CallerId, v: VmId) {
    && es != [] && Reached(u, golden, es).lock == Some(c)
    && var front, e := es[..|es| - 1], es[|es| - 1];
       ComesUp(Reached(u, golden, front), e, v) || CameUpInThisWake(u, golden, front, c, v)
  }

  /** The wake is at work on v, which is up. */
  predicate Serves(pc: Pc, v: VmId) {
    match pc
    case PersistVmId(x) => x == v
    case Configure(x) => x == v
    case Launch(x) => x == v
    case PersistEndpoint(x, _) => x == v
    case Poll(x, _) => x == v
    case PushSecrets(x, _) => x == v
    case PersistRunning(x, _, _) => x == v
    case _ => false
  }

  // ------------------------------------------------------------------ step by step

  /** If a wake keeps the lock over the step, it cleans up afterwards exactly if it did before or was refused, and
      serves v exactly if it did before or v came up, unless refused. */
  predicate PhaseFollows(s: Slot, s': Slot, e: Event, nothing: bool, v: VmId) {
    s'.lock.Some? && s'.lock == s.lock ==>
      && (CleansUp(HolderPc(s')) <==> CleansUp(HolderPc(s)) || Refuses(s, e, nothing))
      && (Serves(HolderPc(s'), v) <==> (Serves(HolderPc(s), v) || ComesUp(s, e, v)) && !Refuses(s, e, nothing))
  }

  predicate KnowsSnapshot(s: Slot, nothing: bool) {
    && nothing == (s.golden.None? && (s.row.None? || s.row.value.snapshotId.None?))
    && (HolderPc(s).ClearStale? ==> nothing == HolderPc(s).snap.None?)
  }

  lemma ReadPhase(s: Slot, c: CallerId, r: Reply, nothing: bool, v: VmId)
    requires s.up && s.lock == Some(c) && HolderPc(s).ReadRow? && KnowsSnapshot(s, nothing)
    ensures PhaseFollows(s, OnReadRow(s, c, r), Wake(c, r), nothing, v)
  {
  }

  lemma FindPhase(s: Slot, c: CallerId, r: Reply, nothing: bool, v: VmId)
    requires s.up && s.lock == Some(c) && Finds(HolderPc(s)) && !HolderPc(s).ReadRow? && KnowsSnapshot(s, nothing)
    ensures PhaseFollows(s, StartOrResumeStep(s, c, HolderPc(s), r), Wake(c, r), nothing, v)
  {
  }

  lemma StartPhase(s: Slot, c: CallerId, r: Reply, nothing: bool, v: VmId)
    requires s.up && s.lock == Some(c) && InStartOrResume(HolderPc(s)) && !Finds(HolderPc(s))
    ensures PhaseFollows(s, StartOrResumeStep(s, c, HolderPc(s), r), Wake(c, r), nothing, v)
  {
  }

  lemma OuterPhase(s: Slot, c: CallerId, r: Reply, nothing: bool, v: VmId)
    requires Inv(s) && s.up && s.lock == Some(c) && !InStartOrResume(HolderPc(s))
    ensures PhaseFollows(s, OuterStep(s, c, HolderPc(s), r), Wake(c, r), nothing, v)
  {
  }

  lemma OtherPhase(u: UserId, s: Slot, e: Event, nothing: bool, v: VmId)
    requires Inv(s) && !e.Wake?
    ensures PhaseFollows(s, Next(u, s, e), e, nothing, v)
    ensures Next(u, s, e).lock.Some? && Next(u, s, e).lock != s.lock ==> HolderPc(Next(u, s, e)).PersistWaking?
  {
  }

  lemma WakeStepKeepsOrFrees(s: Slot, c: CallerId, pc: Pc, r: Reply)
    requires s.lock == Some(c)
    ensures WakeStep(s, c, pc, r).lock.None? || WakeStep(s, c, pc, r).lock == s.lock
  {
  }

  lemma EventPhase(u: UserId, s: Slot, e: Event, nothing: bool, v: VmId)
    requires Inv(s) && KnowsSnapshot(s, nothing)
    ensures PhaseFollows(s, Next(u, s, e), e, nothing, v)
    ensures Next(u, s, e).lock.Some? && Next(u, s, e).lock != s.lock ==> HolderPc(Next(u, s, e)).PersistWaking?
  {
    if !e.Wake? {
      OtherPhase(u, s, e, nothing, v);
    } else if s.up && s.lock == Some(e.caller) {
      WakeStepKeepsOrFrees(s, e.caller, HolderPc(s), e.reply);
      if HolderPc(s).ReadRow? {
        ReadPhase(s, e.caller, e.reply, nothing, v);
      } else if Finds(HolderPc(s)) {
        FindPhase(s, e.caller, e.reply, nothing, v);
      } else if InStartOrResume(HolderPc(s)) {
        StartPhase(s, e.caller, e.reply, nothing, v);
      } else {
        OuterPhase(s, e.caller, e.reply, nothing, v);
      }
    }
  }

  lemma KnownSnapshot(u: UserId, golden: Option<SnapshotId>, es: seq<Event>)
    ensures KnowsSnapshot(Reached(u, golden, es), NothingToStart(u, golden, es))
  {
    HistoryCarries(u, golden, es);
    NeverSavedIff(u, golden, es);
  }

  /** A wake inside its lock is cleaning up exactly if it was refused, and at work on v exactly if v has come up
      and it was not refused. */
  lemma {:induction false} PhaseIsTold(u: UserId, golden: Option<SnapshotId>, es: seq<Event>, c: CallerId, v: VmId)
    requires Reached(u, golden, es).lock == Some(c)
    ensures var pc := HolderPc(Reached(u, golden, es));
            && (CleansUp(pc) <==> RefusedInThisWake(u, golden, es, c))
            && (Serves(pc, v) <==> CameUpInThisWake(u, golden, es, c, v) && !RefusedInThisWake(u, golden, es, c))
  {
    if es != [] {
      var front := es[..|es| - 1];
      ReachedInv(u, golden, front);
      KnownSnapshot(u, golden, front);
      EventPhase(u, Reached(u, golden, front), es[|es| - 1], NothingToStart(u, golden, front), v);
      if Reached(u, golden, front).lock == Some(c) {
        PhaseIsTold(u, golden, front, c, v);
      }
    }
  }

  // ------------------------------------------------------------------ the answers

  /** What an answer leaves behind: FAILED a row that says so and, with the stores not parted, no instance in it and
      every one ever started given up on; PENDING the instance mapped, for the next caller to find. */
  ghost predicate LeftBehind(s: Slot, s': Slot, r: Reply, result: WakeResult) {
    match result
    case ResultFailed =>
      && r.Ok? && CleansUp(HolderPc(s)) && RowStatus(s') == Some(Error) && RegVm(s').None?
      && (!s.world.desync ==> RowVm(s').None? && forall v :: v in s'.world.started ==> Departed(s'.world, v))
    case ResultPending =>
      && r.TimedOut? && HolderPc(s).Poll? && s'.world == s.world && RowStatus(s') == Some(Waking)
      && RowIs(s', Some(HolderPc(s).vm), Some(HolderPc(s).ep))
    case ResultRunning =>
      && r.Ok? && HolderPc(s).PersistRunning? && RowStatus(s') == Some(Running)
      && RowIs(s', Some(HolderPc(s).vm), Some(HolderPc(s).ep))
  }

  lemma CleanUpLeaves(s: Slot, c: CallerId, r: Reply, result: WakeResult)
    requires Inv(s) && s.up && s.lock == Some(c) && CleansUp(HolderPc(s))
    requires PcOf(OuterStep(s, c, HolderPc(s), r), c) == Finished(result)
    ensures result == ResultFailed && LeftBehind(s, OuterStep(s, c, HolderPc(s), r), r, result)
  {
    assert HolderPc(s).PersistError?;
    var s' := OnPersistError(s, c, r);
    assert s'.world == s.world && RowVm(s') == RowVm(s);
  }

  lemma OuterLeaves(s: Slot, c: CallerId, r: Reply, result: WakeResult)
    requires Inv(s) && s.up && s.lock == Some(c) && !InStartOrResume(HolderPc(s)) && !CleansUp(HolderPc(s))
    requires PcOf(OuterStep(s, c, HolderPc(s), r), c) == Finished(result)
    ensures LeftBehind(s, OuterStep(s, c, HolderPc(s), r), r, result)
  {
  }

  lemma HolderAnswers(u: UserId, s: Slot, e: Event, c: CallerId, result: WakeResult)
    requires Inv(s) && e.Wake? && !PcOf(s, c).Finished? && PcOf(Next(u, s, e), c) == Finished(result)
    ensures s.lock == Some(c) && e.caller == c && LeftBehind(s, Next(u, s, e), e.reply, result)
  {
    if s.up && s.lock == Some(e.caller) {
      var d, pc := e.caller, HolderPc(s);
      if d == c {
        if Finds(pc) {
          FindNeverAnswers(s, c, pc, e.reply);
        } else if InStartOrResume(pc) {
          StartNeverAnswers(s, c, pc, e.reply);
        } else if CleansUp(pc) {
          CleanUpLeaves(s, c, e.reply, result);
        } else {
          OuterLeaves(s, c, e.reply, result);
        }
      } else if Finds(pc) {
        FindMovesOnlyItself(s, d, pc, e.reply, c);
      } else if InStartOrResume(pc) {
        StartMovesOnlyItself(s, d, pc, e.reply, c);
      } else {
        OuterMovesOnlyItself(s, d, pc, e.reply, c);
      }
    }
  }

  /** A wake that got past the lock answers FAILED exactly if it was refused, and otherwise PENDING or RUNNING about
      an instance that has come up under that very lock. */
  lemma AnswersAreTold(u: UserId, golden: Option<SnapshotId>, es: seq<Event>, e: Event, c: CallerId,
                       result: WakeResult)
    requires e.Wake? && !PcOf(Reached(u, golden, es), c).Finished?
    requires PcOf(Next(u, Reached(u, golden, es), e), c) == Finished(result)
    ensures var s := Reached(u, golden, es);
            && LeftBehind(s, Next(u, s, e), e.reply, result)
            && (result == ResultFailed <==> RefusedInThisWake(u, golden, es, c))
            && (result != ResultFailed ==> CameUpInThisWake(u, golden, es, c, HolderPc(s).vm))
  {
    ReachedInv(u, golden, es);
    var s := Reached(u, golden, es);
    HolderAnswers(u, s, e, c, result);
    var v := match HolderPc(s) case Poll(vm, _) => vm case PersistRunning(vm, _, _) => vm case _ => 0;
    PhaseIsTold(u, golden, es, c, v);
  }

  /** Any other answer is given on taking the lock: FAILED for a user the registry does not know. */
  lemma UnknownUserFails(u: UserId, s: Slot, e: Event, c: CallerId)
    requires !e.Wake? && PcOf(s, c) != Finished(ResultFailed) && PcOf(Next(u, s, e), c) == Finished(ResultFailed)
    ensures e == Acquire(c) && s.registry.None? && Next(u, s, e) == Goto(s, c, Finished(ResultFailed))
  {
  }
}
