/** What a history of drains and activity leaves for the next wake to find. */
module VmHistory {
  import opened Options
  import opened VmRegistry
  import opened VmProtocol
  import opened VmSafety
  import opened VmTheorems
  import opened VmCalls
  import opened VmAgreement

  // ------------------------------------------------------------------ the snapshot a wake starts from

  predicate TakesEffect(r: Reply) {
    r.Ok? || (r.Failed? && r.applied)
  }

  /** The snapshot the provider last reported to a drain. */
  function Reported(u: UserId, golden: Option<SnapshotId>, es: seq<Event>): Option<SnapshotId> {
    if es == [] then None
    else
      var front, e := es[..|es| - 1], es[|es| - 1];
      var s := Reached(u, golden, front);
      if e.Drain? && e.reply.Snapshot? && s.up && s.drain.DSnapshot? then Some(e.reply.snap)
      else Reported(u, golden, front)
  }

  /** The event is the last commit of a drain, taking effect. */
  predicate Saves(s: Slot, e: Event) {
    e.Drain? && TakesEffect(e.reply) && s.up && s.drain.DCommit?
  }

  /** What the last drain whose commit took effect saved: the snapshot reported to it. */
  function Saved(u: UserId, golden: Option<SnapshotId>, es: seq<Event>): Option<SnapshotId> {
    if es == [] then None
    else
      var front, e := es[..|es| - 1], es[|es| - 1];
      if Saves(Reached(u, golden, front), e) then Reported(u, golden, front) else Saved(u, golden, front)
  }

  /** No drain has saved anything. */
  predicate NeverSaved(u: UserId, golden: Option<SnapshotId>, es: seq<Event>) {
    es == [] ||
    (NeverSaved(u, golden, es[..|es| - 1]) && !Saves(Reached(u, golden, es[..|es| - 1]), es[|es| - 1]))
  }

  function OrGolden(saved: Option<SnapshotId>, golden: Option<SnapshotId>): Option<SnapshotId> {
    if saved.Some? then saved else golden
  }

  predicate Carries(pc: Pc, snap: Option<SnapshotId>) {
    match pc
    case GetStatus(_, _, x) => x == snap
    case StopOrphan(_, x) => x == snap
    case ClearStale(x) => x == snap
    case Start(x) => snap == Some(x)
    case _ => true
  }

  predicate DrainCarries(pc: DrainPc, reported: Option<SnapshotId>) {
    match pc
    case DStop(_, x) => reported == Some(x)
    case DCommit(_, x) => reported == Some(x)
    case _ => true
  }

  predicate SnapInv(s: Slot, golden: Option<SnapshotId>, saved: Option<SnapshotId>, reported: Option<SnapshotId>) {
    && s.golden == golden && (if s.row.Some? then s.row.value.snapshotId == saved else saved.None?)
    && Carries(HolderPc(s), OrGolden(saved, golden)) && DrainCarries(s.drain, reported)
  }

  lemma ReadCarries(s: Slot, c: CallerId, r: Reply, golden: Option<SnapshotId>, saved: Option<SnapshotId>,
                    reported: Option<SnapshotId>)
    requires Inv(s) && s.up && s.lock == Some(c) && HolderPc(s).ReadRow? && SnapInv(s, golden, saved, reported)
    ensures SnapInv(OnReadRow(s, c, r), golden, saved, reported)
  {
  }

  lemma ClearCarries(s: Slot, c: CallerId, r: Reply, golden: Option<SnapshotId>, saved: Option<SnapshotId>,
                     reported: Option<SnapshotId>)
    requires Inv(s) && s.up && s.lock == Some(c) && HolderPc(s).ClearStale? && SnapInv(s, golden, saved, reported)
    ensures SnapInv(OnClearStale(s, c, HolderPc(s), r), golden, saved, reported)
  {
  }

  lemma FindCarries(s: Slot, c: CallerId, r: Reply, golden: Option<SnapshotId>, saved: Option<SnapshotId>,
                    reported: Option<SnapshotId>)
    requires Inv(s) && s.up && s.lock == Some(c) && (HolderPc(s).GetStatus? || HolderPc(s).StopOrphan?)
    requires SnapInv(s, golden, saved, reported)
    ensures SnapInv(StartOrResumeStep(s, c, HolderPc(s), r), golden, saved, reported)
  {
  }

  lemma StartCarries(s: Slot, c: CallerId, r: Reply, golden: Option<SnapshotId>, saved: Option<SnapshotId>,
                     reported: Option<SnapshotId>)
    requires Inv(s) && s.up && s.lock == Some(c) && InStartOrResume(HolderPc(s)) && !Finds(HolderPc(s))
    requires SnapInv(s, golden, saved, reported)
    ensures SnapInv(StartOrResumeStep(s, c, HolderPc(s), r), golden, saved, reported)
  {
  }

  lemma CleanUpCarries(s: Slot, c: CallerId, r: Reply, golden: Option<SnapshotId>, saved: Option<SnapshotId>,
                       reported: Option<SnapshotId>)
    requires Inv(s) && s.up && s.lock == Some(c) && CleansUp(HolderPc(s)) && SnapInv(s, golden, saved, reported)
    ensures SnapInv(OuterStep(s, c, HolderPc(s), r), golden, saved, reported)
  {
  }

  lemma OuterCarries(s: Slot, c: CallerId, r: Reply, golden: Option<SnapshotId>, saved: Option<SnapshotId>,
                     reported: Option<SnapshotId>)
    requires Inv(s) && s.up && s.lock == Some(c) && !InStartOrResume(HolderPc(s)) && !CleansUp(HolderPc(s))
    requires SnapInv(s, golden, saved, reported)
    ensures SnapInv(OuterStep(s, c, HolderPc(s), r), golden, saved, reported)
  {
  }

  lemma DrainCarriesOn(s: Slot, r: Reply, golden: Option<SnapshotId>, saved: Option<SnapshotId>,
                       reported: Option<SnapshotId>)
    requires Inv(s) && s.up && SnapInv(s, golden, saved, reported)
    ensures SnapInv(DrainStep(s, r), golden,
                    if Saves(s, Drain(r)) then reported else saved,
                    if r.Snapshot? && s.drain.DSnapshot? then Some(r.snap) else reported)
  {
  }

  lemma OthersCarry(u: UserId, s: Slot, e: Event, golden: Option<SnapshotId>, saved: Option<SnapshotId>,
                    reported: Option<SnapshotId>)
    requires Inv(s) && !e.Wake? && !e.Drain? && SnapInv(s, golden, saved, reported)
    ensures SnapInv(Next(u, s, e), golden, saved, reported)
  {
  }

  lemma {:induction false} HistoryCarries(u: UserId, golden: Option<SnapshotId>, es: seq<Event>)
    ensures SnapInv(Reached(u, golden, es), golden, Saved(u, golden, es), Reported(u, golden, es))
  {
    if es != [] {
      var front, e := es[..|es| - 1], es[|es| - 1];
      var s, saved, reported := Reached(u, golden, front), Saved(u, golden, front), Reported(u, golden, front);
      HistoryCarries(u, golden, front);
      ReachedInv(u, golden, front);
      if e.Drain? {
        if s.up { DrainCarriesOn(s, e.reply, golden, saved, reported); }
      } else if !e.Wake? {
        OthersCarry(u, s, e, golden, saved, reported);
      } else if s.up && s.lock == Some(e.caller) {
        if HolderPc(s).ReadRow? {
          ReadCarries(s, e.caller, e.reply, golden, saved, reported);
        } else if HolderPc(s).ClearStale? {
          ClearCarries(s, e.caller, e.reply, golden, saved, reported);
        } else if Finds(HolderPc(s)) {
          FindCarries(s, e.caller, e.reply, golden, saved, reported);
        } else if InStartOrResume(HolderPc(s)) {
          StartCarries(s, e.caller, e.reply, golden, saved, reported);
        } else if CleansUp(HolderPc(s)) {
          CleanUpCarries(s, e.caller, e.reply, golden, saved, reported);
        } else {
          OuterCarries(s, e.caller, e.reply, golden, saved, reported);
        }
      }
    }
  }

  lemma {:induction false} NeverSavedIff(u: UserId, golden: Option<SnapshotId>, es: seq<Event>)
    ensures NeverSaved(u, golden, es) <==> Saved(u, golden, es).None?
  {
    if es != [] {
      var front := es[..|es| - 1];
      NeverSavedIff(u, golden, front);
      HistoryCarries(u, golden, front);
    }
  }

  /** Over every history a wake starts from what the last drain that took effect saved, and from the golden
      snapshot exactly if no drain ever did. */
  lemma StartsFromLastSaved(u: UserId, golden: Option<SnapshotId>, es: seq<Event>)
    requires HolderPc(Reached(u, golden, es)).Start?
    ensures var x := HolderPc(Reached(u, golden, es)).snapshot;
            if NeverSaved(u, golden, es) then golden == Some(x) else Saved(u, golden, es) == Some(x)
  {
    HistoryCarries(u, golden, es);
    NeverSavedIff(u, golden, es);
  }

  lemma DrainedKeepsInv(u: UserId, s: Slot, snap: SnapshotId)
    requires Inv(s)
    ensures Inv(Drained(u, s, snap))
  {
    var s1 := Next(u, s, CallDrain);
    var s2 := Next(u, s1, Drain(Ok));
    var s3 := Next(u, s2, Drain(Snapshot(snap)));
    var s4 := Next(u, s3, Drain(Ok));
    NextKeepsInv(u, s, CallDrain);
    NextKeepsInv(u, s1, Drain(Ok));
    NextKeepsInv(u, s2, Drain(Snapshot(snap)));
    NextKeepsInv(u, s3, Drain(Ok));
    NextKeepsInv(u, s4, Drain(Ok));
    NextKeepsInv(u, Next(u, s4, Drain(Ok)), Drain(Ok));
  }

  lemma ReadStarts(u: UserId, s: Slot, c: CallerId, snap: SnapshotId)
    requires s.up && s.lock == Some(c) && PcOf(s, c) == ReadRow && RowIs(s, None, None)
    requires s.row.Some? && s.row.value.snapshotId == Some(snap)
    ensures PcOf(Next(u, s, Wake(c, Ok)), c) == Start(snap)
  {
  }

  lemma DrainStepCallers(s: Slot, r: Reply)
    ensures DrainStep(s, r).callers == s.callers
  {
  }

  lemma DrainedCallers(u: UserId, s: Slot, snap: SnapshotId)
    requires Quiescent(s)
    ensures Drained(u, s, snap).callers == s.callers
  {
    forall s, r ensures DrainStep(s, r).callers == s.callers {
      DrainStepCallers(s, r);
    }
  }

  lemma SavedIsResumed(u: UserId, s: Slot, snap: SnapshotId, c: CallerId)
    requires Inv(s) && Quiescent(s) && c !in s.callers && s.registry.Some? && RegStatus(s) == Some(Stopped)
    requires RowIs(s, None, None) && s.row.Some? && s.row.value.snapshotId == Some(snap)
    ensures PcOf(WokenToRead(u, s, c), c) == Start(snap)
  {
    WakeReadsRow(u, s, c);
    ReadStarts(u, Next(u, Next(u, Next(u, s, CallWake(c)), Acquire(c)), Wake(c, Ok)), c, snap);
  }

  /** In particular a wake after a drain resumes what the drain saved. */
  lemma DrainedMachineIsResumed(u: UserId, s: Slot, snap: SnapshotId, c: CallerId)
    requires Inv(s) && Quiescent(s) && RegVm(s).Some? && MappingsAgree(s) && c !in s.callers
    ensures PcOf(WokenToRead(u, Drained(u, s, snap), c), c) == Start(snap)
  {
    DrainUndoesWake(u, s, snap);
    DrainedKeepsInv(u, s, snap);
    DrainedCallers(u, s, snap);
    SavedIsResumed(u, Drained(u, s, snap), snap, c);
  }

  // ------------------------------------------------------------------ the time of last activity

  /** The row's time of last activity, told by the history: the last `touch` of a user with a row, or the clock of
      the last wake whose final commit took effect. */
  function LastActive(u: UserId, golden: Option<SnapshotId>, es: seq<Event>): Option<Time> {
    if es == [] then None
    else
      var front, e := es[..|es| - 1], es[|es| - 1];
      var s := Reached(u, golden, front);
      if e.TouchRow? && s.up && s.row.Some? then Some(e.now)
      else if e.Wake? && Answers(s, e, e.reply) && TakesEffect(e.reply) && HolderPc(s).PersistRunning?
        then Some(HolderPc(s).now)
      else LastActive(u, golden, front)
  }

  predicate RowActiveAt(s: Slot, at: Option<Time>) {
    if s.row.Some? then s.row.value.lastActiveAt == at else at.None?
  }

  lemma StartLeavesActivity(s: Slot, c: CallerId, r: Reply, at: Option<Time>)
    requires Inv(s) && s.up && s.lock == Some(c) && InStartOrResume(HolderPc(s)) && RowActiveAt(s, at)
    ensures RowActiveAt(StartOrResumeStep(s, c, HolderPc(s), r), at)
  {
  }

  lemma OuterActivity(s: Slot, c: CallerId, r: Reply, at: Option<Time>)
    requires Inv(s) && s.up && s.lock == Some(c) && !InStartOrResume(HolderPc(s)) && RowActiveAt(s, at)
    ensures RowActiveAt(OuterStep(s, c, HolderPc(s), r),
                        if TakesEffect(r) && HolderPc(s).PersistRunning? then Some(HolderPc(s).now) else at)
  {
  }

  lemma OtherActivity(u: UserId, s: Slot, e: Event, at: Option<Time>)
    requires Inv(s) && !e.Wake? && RowActiveAt(s, at)
    ensures RowActiveAt(Next(u, s, e), if e.TouchRow? && s.up && s.row.Some? then Some(e.now) else at)
  {
  }

  /** The row always carries it, whatever failed or crashed in between. */
  lemma {:induction false} RowRemembersActivity(u: UserId, golden: Option<SnapshotId>, es: seq<Event>)
    ensures RowActiveAt(Reached(u, golden, es), LastActive(u, golden, es))
  {
    if es != [] {
      var front, e := es[..|es| - 1], es[|es| - 1];
      var s, at := Reached(u, golden, front), LastActive(u, golden, front);
      RowRemembersActivity(u, golden, front);
      ReachedInv(u, golden, front);
      if !e.Wake? {
        OtherActivity(u, s, e, at);
      } else if s.up && s.lock == Some(e.caller) {
        if InStartOrResume(HolderPc(s)) {
          StartLeavesActivity(s, e.caller, e.reply, at);
        } else {
          OuterActivity(s, e.caller, e.reply, at);
        }
      }
    }
  }
}
