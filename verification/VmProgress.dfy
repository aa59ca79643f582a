/** How a wake comes to an end, whatever the others do meanwhile. */
module VmProgress {
  import opened Options
  import opened VmRegistry
  import opened VmProtocol
  import opened VmSafety
  import opened VmTheorems
  import opened VmCalls
  import opened VmService

  /** How many answers a wake at `pc` still needs at most, unhealthy probes apart. */
  function Rank(pc: Pc): nat {
    match pc
    case PersistWaking => 13
    case ReadRow => 12
    case GetStatus(_, _, _) => 11
    case StopOrphan(_, _) => 11
    case ClearStale(_) => 10
    case Start(_) => 9
    case PersistVmId(_) => 8
    case Configure(_) => 7
    case Launch(_) => 6
    case PersistEndpoint(_, _) => 5
    case Poll(_, _) => 4
    case PushSecrets(_, _) => 3
    case PersistRunning(_, _, _) => 2
    case CleanupStop(_) => 3
    case ClearFailed => 2
    case PersistError => 1
    case _ => 0
  }

  lemma RankPositive(pc: Pc)
    ensures Rank(pc) <= 13 && (Critical(pc) ==> Rank(pc) > 0)
  {
  }

  /** Where a wake is on which nothing has failed and that has a snapshot to start from. */
  predicate OnTrack(pc: Pc) {
    match pc
    case GetStatus(_, _, snap) => snap.Some?
    case StopOrphan(_, snap) => snap.Some?
    case ClearStale(snap) => snap.Some?
    case CleanupStop(_) => false
    case ClearFailed => false
    case PersistError => false
    case _ => Critical(pc)
  }

  predicate Succeeds(r: Reply) {
    !r.Failed? && !r.TimedOut?
  }

  predicate Advances(s: Slot, s': Slot, c: CallerId, pc: Pc, r: Reply) {
    && Rank(PcOf(s', c)) < Rank(pc)
    && (Critical(PcOf(s', c)) <==> s'.lock == Some(c))
    && s'.up == s.up && s'.golden == s.golden && c in s'.callers
    && (OnTrack(pc) && Succeeds(r) && s.golden.Some? ==>
          OnTrack(PcOf(s', c)) || PcOf(s', c) == Finished(ResultRunning))
  }

  lemma ReadAdvances(s: Slot, c: CallerId, r: Reply)
    requires Holds(s, c, ReadRow) && Fits(s, ReadRow, r)
    ensures Advances(s, OnReadRow(s, c, r), c, ReadRow, r)
  {
  }

  lemma FindAdvances(s: Slot, c: CallerId, pc: Pc, r: Reply)
    requires Holds(s, c, pc) && Fits(s, pc, r) && Finds(pc) && !pc.ReadRow?
    ensures Advances(s, StartOrResumeStep(s, c, pc, r), c, pc, r)
  {
  }

  lemma StartAdvances(s: Slot, c: CallerId, pc: Pc, r: Reply)
    requires Holds(s, c, pc) && Fits(s, pc, r) && InStartOrResume(pc) && !Finds(pc)
    ensures Advances(s, StartOrResumeStep(s, c, pc, r), c, pc, r)
  {
  }

  lemma OuterAdvances(s: Slot, c: CallerId, pc: Pc, r: Reply)
    requires Holds(s, c, pc) && Fits(s, pc, r) && !InStartOrResume(pc) && r != Unhealthy
    ensures Advances(s, OuterStep(s, c, pc, r), c, pc, r)
  {
  }

  /** Every answer the code acts on brings the wake nearer to its end, an unhealthy probe alone excepted. */
  lemma AnswerAdvances(s: Slot, c: CallerId, pc: Pc, r: Reply)
    requires Holds(s, c, pc) && Fits(s, pc, r) && r != Unhealthy
    ensures Advances(s, WakeStep(s, c, pc, r), c, pc, r)
  {
    if pc.ReadRow? {
      ReadAdvances(s, c, r);
    } else if Finds(pc) {
      FindAdvances(s, c, pc, r);
    } else if InStartOrResume(pc) {
      StartAdvances(s, c, pc, r);
    } else {
      OuterAdvances(s, c, pc, r);
    }
  }

  // ------------------------------------------------------------------ along a script

  /** The wake has not ended after n answers. */
  predicate Pending(u: UserId, t: Task, n: nat)
    requires n <= |t.script| && t.owner.Waker?
  {
    var s := Expected(u, t, n);
    && (n > 0 ==> Pending(u, t, n - 1))
    && Holds(s, t.owner.id, PcOf(s, t.owner.id))
  }

  /** Answer k is one the code acts on, other than an unhealthy probe. */
  predicate Effective(u: UserId, t: Task, k: nat)
    requires k < |t.script| && t.owner.Waker?
  {
    var s := AtAnswer(u, t, k);
    Fits(s, PcOf(s, t.owner.id), t.script[k].reply) && t.script[k].reply != Unhealthy
  }

  function EffectiveAnswers(u: UserId, t: Task, n: nat): nat
    requires n <= |t.script| && t.owner.Waker?
  {
    if n == 0 then 0 else EffectiveAnswers(u, t, n - 1) + if Effective(u, t, n - 1) then 1 else 0
  }

  lemma {:induction false} OthersLeavePending(u: UserId, s: Slot, others: seq<Event>, c: CallerId, pc: Pc)
    requires Holds(s, c, pc) && forall e :: e in others ==> Foreign(Waker(c), e)
    ensures Holds(Run(u, s, others), c, pc) && Run(u, s, others).golden == s.golden
  {
    if others != [] {
      OthersLeavePending(u, s, others[..|others| - 1], c, pc);
      OthersLeaveHolder(u, Run(u, s, others[..|others| - 1]), others[|others| - 1], c, pc);
    }
  }

  lemma PendingAtAnswer(u: UserId, t: Task, k: nat)
    requires k < |t.script| && t.owner.Waker? && Scripted(t) && Pending(u, t, k)
    ensures var s := AtAnswer(u, t, k);
            && Holds(s, t.owner.id, PcOf(Expected(u, t, k), t.owner.id))
            && s.golden == Expected(u, t, k).golden
            && Expected(u, t, k + 1) == WakeStep(s, t.owner.id, PcOf(s, t.owner.id), t.script[k].reply)
  {
    var c, s := t.owner.id, Expected(u, t, k);
    assert forall e :: e in t.script[k].others ==> t.script[k] in t.script && Foreign(t.owner, e);
    OthersLeavePending(u, s, t.script[k].others, c, PcOf(s, c));
    AnswerIsNext(u, t, k + 1, s, AtAnswer(u, t, k));
  }

  /** An answer without effect leaves a wake where it is. */
  lemma IdleAnswerStays(s: Slot, c: CallerId, pc: Pc, r: Reply)
    requires Holds(s, c, pc) && (!Fits(s, pc, r) || r == Unhealthy)
    ensures Holds(WakeStep(s, c, pc, r), c, pc) && WakeStep(s, c, pc, r).golden == s.golden
  {
    if !Fits(s, pc, r) {
      UnfitOnlyTouchesWorld(s, c, pc, r);
    }
  }

  lemma AnswerStep(u: UserId, t: Task, k: nat)
    requires k < |t.script| && t.owner.Waker? && Scripted(t) && Pending(u, t, k)
    ensures var c := t.owner.id;
            var before, after := Expected(u, t, k), Expected(u, t, k + 1);
            if Effective(u, t, k) then Advances(before, after, c, PcOf(before, c), t.script[k].reply)
            else Holds(after, c, PcOf(before, c)) && after.golden == before.golden
  {
    PendingAtAnswer(u, t, k);
    var c, s, r := t.owner.id, AtAnswer(u, t, k), t.script[k].reply;
    if Effective(u, t, k) {
      AnswerAdvances(s, c, PcOf(s, c), r);
    } else {
      IdleAnswerStays(s, c, PcOf(s, c), r);
    }
  }

  /** However the others interleave, a wake never needs more than thirteen answers besides unhealthy probes. */
  lemma {:induction false} WakeEndsInTime(u: UserId, t: Task, n: nat)
    requires n <= |t.script| && t.owner.Waker? && Scripted(t) && Pending(u, t, n)
    ensures EffectiveAnswers(u, t, n) + Rank(PcOf(Expected(u, t, n), t.owner.id)) <= 13
    ensures EffectiveAnswers(u, t, n) < 13
  {
    if n > 0 {
      WakeEndsInTime(u, t, n - 1);
      AnswerStep(u, t, n - 1);
    }
    RankPositive(PcOf(Expected(u, t, n), t.owner.id));
  }

  /** If nothing fails or times out and there is a golden snapshot, it stays on track to the end, ... */
  lemma {:induction false} SuccessStaysOnTrack(u: UserId, t: Task, n: nat)
    requires n <= |t.script| && t.owner.Waker? && Scripted(t) && Pending(u, t, n)
    requires Expected(u, t, 0).golden.Some? && PcOf(Expected(u, t, 0), t.owner.id) == PersistWaking
    requires forall k :: 0 <= k < n ==> Succeeds(t.script[k].reply)
    ensures OnTrack(PcOf(Expected(u, t, n), t.owner.id))
    ensures Expected(u, t, n).golden == Expected(u, t, 0).golden
  {
    if n > 0 {
      SuccessStaysOnTrack(u, t, n - 1);
      AnswerStep(u, t, n - 1);
    }
  }

  /** ... and there, whatever the others did in between, answers RUNNING. */
  lemma SuccessfulWakeAnswersRunning(u: UserId, t: Task, n: nat)
    requires 0 < n <= |t.script| && t.owner.Waker? && Scripted(t)
    requires Pending(u, t, n - 1) && !Pending(u, t, n)
    requires Expected(u, t, 0).golden.Some? && PcOf(Expected(u, t, 0), t.owner.id) == PersistWaking
    requires forall k :: 0 <= k < n ==> Succeeds(t.script[k].reply)
    ensures PcOf(Expected(u, t, n), t.owner.id) == Finished(ResultRunning)
  {
    SuccessStaysOnTrack(u, t, n - 1);
    AnswerStep(u, t, n - 1);
  }
}
