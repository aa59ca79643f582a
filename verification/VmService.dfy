/**
 * `VMService` (hub/vm/service.py) as the code runs: nested calls, `try`/`except`, early returns and the polling
 * loop.  Whatever the other tasks, the provider and the database do while a call is awaited, the statements
 * between two awaits are exactly the steps of the protocol.
 */
module VmService {
  import opened Options
  import opened VmRegistry
  import opened VmProtocol
  import opened VmSafety

  /** What happens while one call is awaited: events of everybody else, then the answer. */
  datatype Answer = Answer(others: seq<Event>, reply: Reply)

  /** How a coroutine got on: it returned, an exception left it, or it is still waiting when the script ends. */
  datatype Outcome<T> = Value(value: T) | Throws(kind: ErrorKind) | Suspended

  datatype VMHandle = VMHandle(vm: VmId, ep: Endpoint)

  /** Whose call it is: a `wake` by a caller, or the `drain`. */
  datatype Owner = Waker(id: CallerId) | Drainer

  function Begins(o: Owner): Event {
    if o.Waker? then Acquire(o.id) else CallDrain
  }

  function Mine(o: Owner, r: Reply): Event {
    if o.Waker? then Event.Wake(o.id, r) else Event.Drain(r)
  }

  /** Nobody else crashes the process or answers for the owner. */
  predicate Foreign(o: Owner, e: Event) {
    !e.Crash? && (if o.Waker? then !(e.Wake? && e.caller == o.id) else !e.Drain?)
  }

  /** The history a script makes. */
  function Happened(o: Owner, script: seq<Answer>): seq<Event> {
    if script == [] then []
    else
      var last := script[|script| - 1];
      Happened(o, script[..|script| - 1]) + (last.others + [Mine(o, last.reply)])
  }

  predicate Holds(s: Slot, c: CallerId, pc: Pc) {
    s.up && s.lock == Some(c) && c in s.callers && s.callers[c] == pc && !pc.Waiting? && !pc.Finished? && !pc.Raised?
  }

  /** The answers the code acts on; any other leaves it waiting. */
  predicate Fits(s: Slot, pc: Pc, r: Reply) {
    r.Failed? ||
    match pc
    case GetStatus(_, _, _) => r.StatusIs?
    case Start(_) => r.VmStarted? && r.vm !in s.world.started
    case Launch(_) => r.Url?
    case Poll(_, _) => r.Healthy? || r.Unhealthy? || r.TimedOut?
    case PushSecrets(_, _) => r.Clock?
    case _ => r.Ok?
  }

  lemma {:induction false} RunConcat(u: UserId, s: Slot, a: seq<Event>, b: seq<Event>)
    ensures Run(u, s, a + b) == Run(u, Run(u, s, a), b)
  {
    if b == [] {
      assert a + b == a;
    } else {
      RunConcat(u, s, a, b[..|b| - 1]);
      assert (a + b)[..|a + b| - 1] == a + b[..|b| - 1];
    }
  }

  predicate Drains(s: Slot, pc: DrainPc) {
    s.up && s.lock.None? && s.drain == pc && !pc.DIdle?
  }

  /** The owner is where it was in `s`. */
  predicate StillThere(s: Slot, now: Slot, o: Owner) {
    && now.golden == s.golden
    && if o.Waker? then o.id in s.callers && Holds(now, o.id, s.callers[o.id]) else Drains(now, s.drain)
  }

  lemma OthersLeaveDrain(u: UserId, s: Slot, e: Event, pc: DrainPc)
    requires Drains(s, pc) && Foreign(Drainer, e)
    ensures Drains(Next(u, s, e), pc) && Next(u, s, e).golden == s.golden
  {
  }

  lemma DrainLeavesHolder(s: Slot, r: Reply, c: CallerId, pc: Pc)
    requires Holds(s, c, pc)
    ensures Holds(DrainStep(s, r), c, pc) && DrainStep(s, r).golden == s.golden
  {
  }

  lemma OthersLeaveHolder(u: UserId, s: Slot, e: Event, c: CallerId, pc: Pc)
    requires Holds(s, c, pc) && Foreign(Waker(c), e)
    ensures Holds(Next(u, s, e), c, pc) && Next(u, s, e).golden == s.golden
  {
    if e.Drain? {
      DrainLeavesHolder(s, e.reply, c, pc);
    }
  }

  lemma UnfitOnlyTouchesWorld(s: Slot, c: CallerId, pc: Pc, r: Reply)
    requires Holds(s, c, pc) && !Fits(s, pc, r)
    ensures WakeStep(s, c, pc, r) == s.(world := WakeStep(s, c, pc, r).world)
  {
  }

  /** One call: whose it is, what the world is going to do meanwhile, and the state it begins in. */
  datatype Task = Task(owner: Owner, script: seq<Answer>, base: Slot)

  predicate Scripted(t: Task) {
    forall a, e :: a in t.script && e in a.others ==> Foreign(t.owner, e)
  }

  /** What the protocol says the state is when the call has begun and n answers have come. */
  function Expected(u: UserId, t: Task, n: nat): Slot
    requires n <= |t.script|
  {
    Run(u, t.base, [Begins(t.owner)] + Happened(t.owner, t.script[..n]))
  }

  lemma AnswerIsNext(u: UserId, t: Task, n: nat, before: Slot, s: Slot)
    requires 0 < n <= |t.script|
    requires before == Expected(u, t, n - 1) && s == Run(u, before, t.script[n - 1].others)
    ensures Expected(u, t, n) == Next(u, s, Mine(t.owner, t.script[n - 1].reply))
  {
    var a := t.script[n - 1];
    var mine := [Mine(t.owner, a.reply)];
    var past := [Begins(t.owner)] + Happened(t.owner, t.script[..n - 1]);
    assert t.script[..n][..n - 1] == t.script[..n - 1];
    assert [Begins(t.owner)] + Happened(t.owner, t.script[..n]) == past + (a.others + mine);
    RunConcat(u, t.base, past, a.others + mine);
    RunConcat(u, before, a.others, mine);
    assert (a.others + mine)[..|a.others|] == a.others;
    assert Run(u, s, mine) == Next(u, s, mine[0]);
  }

  lemma CallBegins(u: UserId, t: Task)
    ensures Expected(u, t, 0) == Next(u, t.base, Begins(t.owner))
  {
    assert [Begins(t.owner)] + Happened(t.owner, t.script[..0]) == [Begins(t.owner)];
    assert Run(u, t.base, []) == t.base;
    assert [Begins(t.owner)][..0] == [];
  }

  // ------------------------------------------------------------------ what the code does with an answer

  /** s, with what the answer to the call at `pc` says about the provider. */
  function Told(s: Slot, c: CallerId, pc: Pc, r: Reply): Slot {
    s.(world := WakeStep(s, c, pc, r).world)
  }

  lemma StatusFollows(s: Slot, v: Slot, c: CallerId, pc: Pc, r: Reply, status: VmStatus)
    requires Holds(s, c, pc) && Fits(s, pc, r)
    requires (pc.PersistWaking? && status == Waking) || (pc.PersistError? && status == Error)
    requires v == Told(s, c, pc, r).(row := Commit(s, r, WithStatus(status)).row)
    ensures r.Ok? && pc.PersistWaking? ==> Goto(v, c, ReadRow) == WakeStep(s, c, pc, r)
    ensures r.Ok? && pc.PersistError? ==> Release(v, c, Finished(ResultFailed)) == WakeStep(s, c, pc, r)
    ensures r.Failed? ==> OnError(v, c, OtherError) == WakeStep(s, c, pc, r)
  {
  }

  function WithVm(vm: VmId): Row -> Row {
    (row: Row) => row.(providerVmId := Some(vm))
  }

  function WithEndpoint(ep: Endpoint): Row -> Row {
    (row: Row) => row.(endpoint := Some(ep))
  }

  function WithRunning(vm: VmId, ep: Endpoint, now: Time): Row -> Row {
    (row: Row) => row.(status := Running, providerVmId := Some(vm), endpoint := Some(ep), lastActiveAt := Some(now))
  }

  lemma ClearFollows(s: Slot, v: Slot, c: CallerId, pc: Pc, r: Reply)
    requires Holds(s, c, pc) && Fits(s, pc, r) && (pc.ClearStale? || pc.ClearFailed?)
    requires v == Told(s, c, pc, r).(row := Commit(s, r, WithMapping(None, None)).row)
    ensures r.Ok? && pc.ClearStale? ==> StartFresh(v, c, pc.snap) == WakeStep(s, c, pc, r)
    ensures r.Ok? && pc.ClearFailed? ==> Goto(SetRegistry(v, Error, KEEP), c, PersistError) == WakeStep(s, c, pc, r)
    ensures r.Failed? ==> OnError(v, c, OtherError) == WakeStep(s, c, pc, r)
  {
  }

  lemma VmIdFollows(s: Slot, v: Slot, c: CallerId, pc: Pc, r: Reply)
    requires Holds(s, c, pc) && Fits(s, pc, r) && pc.PersistVmId?
    requires v == Told(s, c, pc, r).(row := Commit(s, r, WithVm(pc.vm)).row)
    ensures r.Ok? ==> Goto(v, c, Configure(pc.vm)) == WakeStep(s, c, pc, r)
    ensures r.Failed? ==> OnError(v, c, OtherError) == WakeStep(s, c, pc, r)
  {
  }

  lemma EndpointFollows(s: Slot, v: Slot, c: CallerId, pc: Pc, r: Reply)
    requires Holds(s, c, pc) && Fits(s, pc, r) && pc.PersistEndpoint?
    requires v == Told(s, c, pc, r).(row := Commit(s, r, WithEndpoint(pc.ep)).row)
    ensures r.Ok? ==> Goto(v, c, Poll(pc.vm, pc.ep)) == WakeStep(s, c, pc, r)
    ensures r.Failed? ==> OnError(v, c, OtherError) == WakeStep(s, c, pc, r)
  {
  }

  lemma RunningFollows(s: Slot, v: Slot, c: CallerId, pc: Pc, r: Reply)
    requires Holds(s, c, pc) && Fits(s, pc, r) && pc.PersistRunning?
    requires v == Told(s, c, pc, r).(row := Commit(s, r, WithRunning(pc.vm, pc.ep, pc.now)).row)
    ensures r.Ok? ==> Release(v, c, Finished(ResultRunning)) == WakeStep(s, c, pc, r)
    ensures r.Failed? ==> OnError(v, c, OtherError) == WakeStep(s, c, pc, r)
  {
  }

  function Snap(s: Slot): Option<SnapshotId> {
    if s.row.Some? && s.row.value.snapshotId.Some? then s.row.value.snapshotId else s.golden
  }

  lemma ReadRowFollows(s: Slot, v: Slot, c: CallerId, r: Reply)
    requires Holds(s, c, ReadRow) && Fits(s, ReadRow, r) && v == Told(s, c, ReadRow, r)
    ensures r.Failed? ==> OnError(v, c, OtherError) == WakeStep(s, c, ReadRow, r)
    ensures r.Ok? && RowVm(v).Some? && RowEndpoint(v).Some? ==>
              Goto(v, c, GetStatus(RowVm(v).value, RowEndpoint(v).value, Snap(v))) == WakeStep(s, c, ReadRow, r)
    ensures r.Ok? && RowVm(v).Some? && RowEndpoint(v).None? ==>
              Goto(v, c, StopOrphan(RowVm(v).value, Snap(v))) == WakeStep(s, c, ReadRow, r)
    ensures r.Ok? && RowVm(v).None? ==> StartFresh(v, c, Snap(v)) == WakeStep(s, c, ReadRow, r)
  {
    assert v == s;
  }

  lemma GetStatusFollows(s: Slot, v: Slot, c: CallerId, pc: Pc, r: Reply)
    requires Holds(s, c, pc) && Fits(s, pc, r) && pc.GetStatus? && v == Told(s, c, pc, r)
    ensures r.Failed? ==> OnError(v, c, r.kind) == WakeStep(s, c, pc, r)
    ensures r == StatusIs(true) ==> Goto(v, c, Poll(pc.vm, pc.ep)) == WakeStep(s, c, pc, r)
    ensures r == StatusIs(false) ==>
              Goto(SetRegistry(v, Waking, CLEARED), c, ClearStale(pc.snap)) == WakeStep(s, c, pc, r)
  {
  }

  lemma StopOrphanFollows(s: Slot, v: Slot, c: CallerId, pc: Pc, r: Reply)
    requires Holds(s, c, pc) && Fits(s, pc, r) && pc.StopOrphan? && v == Told(s, c, pc, r)
    ensures if r.Failed? && r.kind.OtherError? then OnError(v, c, OtherError) == WakeStep(s, c, pc, r)
            else Goto(SetRegistry(v, Waking, CLEARED), c, ClearStale(pc.snap)) == WakeStep(s, c, pc, r)
  {
  }

  lemma StartFollows(s: Slot, v: Slot, c: CallerId, pc: Pc, r: Reply)
    requires Holds(s, c, pc) && Fits(s, pc, r) && pc.Start? && v == Told(s, c, pc, r)
    ensures if r.Failed? then OnError(v, c, r.kind) == WakeStep(s, c, pc, r)
            else Goto(SetRegistry(v, Waking, KEEP.(providerVmId := Some(Some(r.vm)))), c, PersistVmId(r.vm))
                 == WakeStep(s, c, pc, r)
  {
  }

  lemma ConfigureFollows(s: Slot, v: Slot, c: CallerId, pc: Pc, r: Reply)
    requires Holds(s, c, pc) && Fits(s, pc, r) && pc.Configure? && v == Told(s, c, pc, r)
    ensures if r.Failed? then OnError(v, c, r.kind) == WakeStep(s, c, pc, r)
            else Goto(v, c, Launch(pc.vm)) == WakeStep(s, c, pc, r)
  {
  }

  lemma LaunchFollows(s: Slot, v: Slot, c: CallerId, pc: Pc, r: Reply)
    requires Holds(s, c, pc) && Fits(s, pc, r) && pc.Launch? && v == Told(s, c, pc, r)
    ensures if r.Failed? then OnError(v, c, r.kind) == WakeStep(s, c, pc, r)
            else Goto(SetRegistry(v, Waking, KEEP.(endpoint := Some(Some(r.ep)))), c, PersistEndpoint(pc.vm, r.ep))
                 == WakeStep(s, c, pc, r)
  {
  }

  lemma PollFollows(s: Slot, v: Slot, c: CallerId, pc: Pc, r: Reply)
    requires Holds(s, c, pc) && Fits(s, pc, r) && pc.Poll? && v == Told(s, c, pc, r)
    ensures r.Healthy? ==> Goto(v, c, PushSecrets(pc.vm, pc.ep)) == WakeStep(s, c, pc, r)
    ensures r.Unhealthy? ==> Goto(v, c, pc) == WakeStep(s, c, pc, r)
    ensures r.TimedOut? ==> Release(v, c, Finished(ResultPending)) == WakeStep(s, c, pc, r)
    ensures r.Failed? ==> OnError(v, c, OtherError) == WakeStep(s, c, pc, r)
  {
    assert s.callers[c := pc] == s.callers;
  }

  lemma PushFollows(s: Slot, v: Slot, c: CallerId, pc: Pc, r: Reply)
    requires Holds(s, c, pc) && Fits(s, pc, r) && pc.PushSecrets? && v == Told(s, c, pc, r)
    ensures if r.Failed? then OnError(v, c, OtherError) == WakeStep(s, c, pc, r)
            else Goto(SetRegistry(v, Running, Overrides(Some(Some(pc.vm)), Some(Some(pc.ep)), Some(Some(r.now)))), c,
                      PersistRunning(pc.vm, pc.ep, r.now)) == WakeStep(s, c, pc, r)
  {
  }

  lemma CleanupFollows(s: Slot, v: Slot, c: CallerId, pc: Pc, r: Reply)
    requires Holds(s, c, pc) && Fits(s, pc, r) && pc.CleanupStop? && v == Told(s, c, pc, r)
    ensures if r.Failed? && r.kind.OtherError? then OnError(v, c, OtherError) == WakeStep(s, c, pc, r)
            else Goto(SetRegistry(v, Waking, CLEARED), c, ClearFailed) == WakeStep(s, c, pc, r)
  {
  }

  /** The answers drain acts on. */
  predicate DrainFits(pc: DrainPc, r: Reply) {
    if pc.DSnapshot? then r.Snapshot? || r.Failed? else if pc.DRegistry? then r.Ok? else r.Ok? || r.Failed?
  }

  lemma UnfitLeavesDrain(s: Slot, pc: DrainPc, r: Reply)
    requires Drains(s, pc) && !DrainFits(pc, r)
    ensures DrainStep(s, r) == s
  {
  }

  function DrainTold(s: Slot, r: Reply): Slot {
    s.(world := DrainStep(s, r).world)
  }

  function WithSnapshot(snap: SnapshotId): Row -> Row {
    (row: Row) => row.(status := Stopped, snapshotId := Some(snap), endpoint := None, providerVmId := None)
  }

  lemma DrainStatusFollows(s: Slot, v: Slot, pc: DrainPc, r: Reply, status: VmStatus)
    requires Drains(s, pc) && DrainFits(pc, r)
    requires (pc.DPersist? && status == Draining) || (pc.DError? && status == Error)
    requires v == DrainTold(s, r).(row := Commit(s, r, WithStatus(status)).row)
    ensures pc.DPersist? && r.Ok? ==> v.(drain := DSnapshot(pc.vm)) == DrainStep(s, r)
    ensures pc.DError? || r.Failed? ==> v.(drain := DIdle) == DrainStep(s, r)
  {
  }

  lemma DrainCallFollows(s: Slot, v: Slot, pc: DrainPc, r: Reply)
    requires Drains(s, pc) && DrainFits(pc, r) && (pc.DSnapshot? || pc.DStop?) && v == DrainTold(s, r)
    ensures r.Failed? ==> OnDrainError(v, r.kind) == DrainStep(s, r)
    ensures pc.DSnapshot? && r.Snapshot? ==> v.(drain := DStop(pc.vm, r.snap)) == DrainStep(s, r)
    ensures pc.DStop? && r.Ok? ==> v.(drain := DCommit(pc.vm, pc.snap)) == DrainStep(s, r)
  {
  }

  lemma DrainCommitFollows(s: Slot, v: Slot, pc: DrainPc, r: Reply)
    requires Drains(s, pc) && DrainFits(pc, r) && pc.DCommit?
    requires v == DrainTold(s, r).(row := Commit(s, r, WithSnapshot(pc.snap)).row)
    ensures r.Ok? ==> v.(drain := DRegistry(pc.vm, pc.snap)) == DrainStep(s, r)
    ensures r.Failed? ==> v.(drain := DIdle) == DrainStep(s, r)
  {
  }

  lemma DrainRegistryFollows(s: Slot, v: Slot, pc: DrainPc, r: Reply)
    requires Drains(s, pc) && DrainFits(pc, r) && pc.DRegistry? && v == DrainTold(s, r)
    ensures SetRegistry(v, Stopped, CLEARED).(drain := DIdle) == DrainStep(s, r)
  {
  }

  /** The state in which answer k comes. */
  function AtAnswer(u: UserId, t: Task, k: nat): Slot
    requires k < |t.script|
  {
    Run(u, Expected(u, t, k), t.script[k].others)
  }

  /** A call of drain that raised, and what it raised. */
  datatype Failure = Failure(at: DrainPc, kind: ErrorKind)

  /** The failure drain is told of by the answer r in s, if it acts on it and it is one. */
  function FailureIn(s: Slot, r: Reply): seq<Failure> {
    if Drains(s, s.drain) && DrainFits(s.drain, r) && r.Failed? then [Failure(s.drain, r.kind)] else []
  }

  /** The failures among the first n answers of a drain's script, in order. */
  function Failures(u: UserId, t: Task, n: nat): seq<Failure>
    requires n <= |t.script|
  {
    if n == 0 then [] else Failures(u, t, n - 1) + FailureIn(AtAnswer(u, t, n - 1), t.script[n - 1].reply)
  }

  /** The one thing that went wrong is that the provider refused the snapshot or the stop. */
  predicate ProviderRefused(fs: seq<Failure>) {
    |fs| == 1 && (fs[0].at.DSnapshot? || fs[0].at.DStop?) && fs[0].kind.ProviderError?
  }

  class VMService {
    const user: UserId
    const golden: Option<SnapshotId>
    const registry: VMRegistry
    var row: Option<Row>                  // the user_vms row, as committed
    var callers: map<CallerId, Pc>        // where every caller is
    var lock: Option<CallerId>            // _wake_locks[user]
    var draining: DrainPc
    var provisioning: bool
    var world: World
    var position: nat                     // how much of the running call's script has happened

    constructor (user: UserId, golden: Option<SnapshotId>)
      ensures View() == Init(golden) && this.user == user && fresh(registry)
    {
      this.user, this.golden, position := user, golden, 0;
      registry := new VMRegistry();
      row, callers, lock, draining, provisioning, world := None, map[], None, DIdle, false, INIT_WORLD;
    }

    function View(): Slot
      reads this, registry
    {
      Slot(true, golden, Lookup(registry.byUser, user), row, callers, lock, draining, provisioning, world)
    }

    ghost predicate Settled(t: Task)
      reads this, registry
    {
      Scripted(t) && position <= |t.script| && View() == Expected(user, t, position)
    }

    /** The waker has the lock and is inside its script. */
    ghost predicate Within(t: Task)
      reads this
    {
      Scripted(t) && t.owner.Waker? && position <= |t.script| && lock == Some(t.owner.id)
    }

    /** In `v` the call would have done everything up to its call at `pc`. */
    ghost predicate ReadyIn(v: Slot, t: Task, pc: Pc)
      reads this
    {
      Within(t) && Goto(v, t.owner.id, pc) == Expected(user, t, position)
    }

    /** Everything done since the last answer agrees with the protocol, which now waits at `pc`. */
    ghost predicate Ready(t: Task, pc: Pc)
      reads this, registry
    {
      ReadyIn(View(), t, pc)
    }

    /** The next thing to do is case D, from this snapshot if there is one. */
    ghost predicate Fresh(t: Task, snap: Option<SnapshotId>)
      reads this, registry
    {
      Within(t) && StartFresh(View(), t.owner.id, snap) == Expected(user, t, position)
    }

    /** An exception of this kind is on its way; the protocol has handled it already. */
    ghost predicate Raising(t: Task, kind: ErrorKind)
      reads this, registry
    {
      Within(t) && OnError(View(), t.owner.id, kind) == Expected(user, t, position)
    }

    /** Only the lock is left to be given back, for the protocol to be at `pc`. */
    ghost predicate Leaving(t: Task, pc: Pc)
      reads this, registry
    {
      Within(t) && Release(View(), t.owner.id, pc) == Expected(user, t, position)
    }

    /** The call at `pc` was answered in `s`, and the code has not acted on it yet. */
    ghost predicate Answered(t: Task, pc: Pc, r: Reply, s: Slot)
      reads this, registry
    {
      && Scripted(t) && t.owner.Waker? && position <= |t.script|
      && Holds(s, t.owner.id, pc) && Fits(s, pc, r)
      && WakeStep(s, t.owner.id, pc, r) == Expected(user, t, position)
      && View() == s.(world := WakeStep(s, t.owner.id, pc, r).world)
    }

    /** ... or has acted on it by writing to the row. */
    ghost predicate Committed(t: Task, pc: Pc, r: Reply, s: Slot, f: Row -> Row)
      reads this, registry
    {
      && Scripted(t) && t.owner.Waker? && position <= |t.script|
      && Holds(s, t.owner.id, pc) && Fits(s, pc, r)
      && WakeStep(s, t.owner.id, pc, r) == Expected(user, t, position)
      && View() == Told(s, t.owner.id, pc, r).(row := Commit(s, r, f).row)
    }

    /** The script has ended and the call is still waiting. */
    ghost predicate Waits(t: Task)
      reads this, registry
    {
      && Settled(t) && t.owner.Waker? && position == |t.script|
      && t.owner.id in callers && Holds(View(), t.owner.id, callers[t.owner.id])
    }

    // ---------------------------------------------------------------- what happens during an await

    method Become(s: Slot)
      requires s.up && s.golden == golden
      modifies this, registry
      ensures View() == s && position == old(position)
    {
      registry.byUser := if s.registry.Some? then registry.byUser[user := s.registry.value]
                         else registry.byUser - {user};
      row, callers, lock, draining, provisioning, world := s.row, s.callers, s.lock, s.drain, s.provisioning, s.world;
    }

    /** Everybody else runs. */
    method Interleave(t: Task, others: seq<Event>)
      requires StillThere(View(), View(), t.owner) && forall e :: e in others ==> Foreign(t.owner, e)
      modifies this, registry
      ensures StillThere(old(View()), View(), t.owner)
      ensures View() == Run(user, old(View()), others) && position == old(position)
    {
      for i := 0 to |others|
        invariant StillThere(old(View()), View(), t.owner)
        invariant View() == Run(user, old(View()), others[..i]) && position == old(position)
      {
        assert others[..i + 1][..i] == others[..i];
        if t.owner.Waker? {
          OthersLeaveHolder(user, View(), others[i], t.owner.id, old(View()).callers[t.owner.id]);
        } else {
          OthersLeaveDrain(user, View(), others[i], old(View()).drain);
        }
        Become(Next(user, View(), others[i]));
      }
      assert others[..|others|] == others;
    }

    /** The others run, then an answer to the call at `pc` comes; what it says about the provider is true by
        then.  `s` is the state in which the protocol receives it. */
    method Advance(t: Task, pc: Pc) returns (r: Reply, fits: bool, ghost s: Slot)
      requires Settled(t) && t.owner.Waker? && Holds(View(), t.owner.id, pc) && position < |t.script|
      modifies this, registry
      ensures Scripted(t) && position == old(position) + 1 <= |t.script|
      ensures Holds(s, t.owner.id, pc) && fits == Fits(s, pc, r)
      ensures WakeStep(s, t.owner.id, pc, r) == Expected(user, t, position)
      ensures View() == s.(world := Expected(user, t, position).world)
    {
      var a := t.script[position];
      ghost var before := View();
      Interleave(t, a.others);
      position := position + 1;
      s := View();
      AnswerIsNext(user, t, position, before, s);
      r, fits := a.reply, Fits(View(), pc, a.reply);
      world := WakeStep(View(), t.owner.id, pc, r).world;
    }

    /** Await the call at `pc` until it is answered or the script ends. */
    method Await(t: Task, pc: Pc) returns (r: Option<Reply>, ghost s: Slot)
      requires Ready(t, pc) && !pc.Waiting? && !pc.Finished? && !pc.Raised?
      modifies this, registry
      ensures r.None? ==> Waits(t)
      ensures r.Some? ==> Answered(t, pc, r.value, s) && old(position) < position
    {
      callers := callers[t.owner.id := pc];
      s := View();
      while position < |t.script|
        invariant Settled(t) && Holds(View(), t.owner.id, pc) && old(position) <= position
        decreases |t.script| - position
      {
        var reply, fits;
        reply, fits, s := Advance(t, pc);
        if fits {
          return Some(reply), s;
        }
        UnfitOnlyTouchesWorld(s, t.owner.id, pc, reply);
      }
      r := None;
    }

    /** `if row: ...; await db.commit()`: what is written when the commit takes effect. */
    method AwaitCommit(t: Task, pc: Pc, f: Row -> Row) returns (r: Option<Reply>, ghost s: Slot)
      requires Ready(t, pc) && !pc.Waiting? && !pc.Finished? && !pc.Raised?
      modifies this, registry
      ensures r.None? ==> Waits(t)
      ensures r.Some? ==> Committed(t, pc, r.value, s, f)
    {
      r, s := Await(t, pc);
      if r.None? {
        return;
      }
      if row.Some? && (r.value.Ok? || (r.value.Failed? && r.value.applied)) {
        row := Some(f(row.value));
      }
    }

    /** Leave `async with lock`. */
    method Leave(t: Task, pc: Pc)
      requires Leaving(t, pc)
      modifies this`callers, this`lock
      ensures Settled(t) && lock == None && callers == old(callers)[t.owner.id := pc]
    {
      callers, lock := callers[t.owner.id := pc], None;
    }

    // ---------------------------------------------------------------- the persisting helpers

    method SetStatus(status: VmStatus, o: Overrides)
      modifies registry
      ensures View() == SetRegistry(old(View()), status, o)
    {
      var _ := registry.SetStatus(user, status, o);
    }

    method PersistStatus(t: Task, status: VmStatus, pc: Pc) returns (o: Outcome<()>)
      requires Ready(t, pc) && ((pc.PersistWaking? && status == Waking) || (pc.PersistError? && status == Error))
      modifies this, registry
      ensures o.Suspended? ==> Waits(t)
      ensures o.Value? ==> if pc.PersistWaking? then Ready(t, ReadRow) else Leaving(t, Finished(ResultFailed))
      ensures o.Throws? ==> o.kind == OtherError && Raising(t, OtherError)
    {
      var reply, s := AwaitCommit(t, pc, WithStatus(status));
      if reply.None? {
        return Suspended;
      }
      StatusFollows(s, View(), t.owner.id, pc, reply.value, status);
      o := if reply.value.Failed? then Throws(OtherError) else Value(());
    }

    method ClearVmMapping(t: Task, pc: Pc) returns (o: Outcome<()>)
      requires (pc.ClearStale? || pc.ClearFailed?) && ReadyIn(SetRegistry(View(), Waking, CLEARED), t, pc)
      modifies this, registry
      ensures o.Suspended? ==> Waits(t)
      ensures o.Value? ==> if pc.ClearStale? then Fresh(t, pc.snap)
                           else ReadyIn(SetRegistry(View(), Error, KEEP), t, PersistError)
      ensures o.Throws? ==> o.kind == OtherError && Raising(t, OtherError)
    {
      SetStatus(Waking, CLEARED);
      var reply, s := AwaitCommit(t, pc, WithMapping(None, None));
      if reply.None? {
        return Suspended;
      }
      ClearFollows(s, View(), t.owner.id, pc, reply.value);
      o := if reply.value.Failed? then Throws(OtherError) else Value(());
    }

    method PersistVmIdOf(t: Task, vm: VmId) returns (o: Outcome<()>)
      requires ReadyIn(SetRegistry(View(), Waking, KEEP.(providerVmId := Some(Some(vm)))), t, PersistVmId(vm))
      modifies this, registry
      ensures o.Suspended? ==> Waits(t)
      ensures o.Value? ==> Ready(t, Configure(vm))
      ensures o.Throws? ==> o.kind == OtherError && Raising(t, OtherError)
    {
      SetStatus(Waking, KEEP.(providerVmId := Some(Some(vm))));
      var reply, s := AwaitCommit(t, PersistVmId(vm), WithVm(vm));
      if reply.None? {
        return Suspended;
      }
      VmIdFollows(s, View(), t.owner.id, PersistVmId(vm), reply.value);
      o := if reply.value.Failed? then Throws(OtherError) else Value(());
    }

    method PersistEndpointOf(t: Task, vm: VmId, ep: Endpoint) returns (o: Outcome<()>)
      requires ReadyIn(SetRegistry(View(), Waking, KEEP.(endpoint := Some(Some(ep)))), t, PersistEndpoint(vm, ep))
      modifies this, registry
      ensures o.Suspended? ==> Waits(t)
      ensures o.Value? ==> Ready(t, Poll(vm, ep))
      ensures o.Throws? ==> o.kind == OtherError && Raising(t, OtherError)
    {
      SetStatus(Waking, KEEP.(endpoint := Some(Some(ep))));
      var reply, s := AwaitCommit(t, PersistEndpoint(vm, ep), WithEndpoint(ep));
      if reply.None? {
        return Suspended;
      }
      EndpointFollows(s, View(), t.owner.id, PersistEndpoint(vm, ep), reply.value);
      o := if reply.value.Failed? then Throws(OtherError) else Value(());
    }

    method PersistRunningAt(t: Task, vm: VmId, ep: Endpoint, now: Time) returns (o: Outcome<()>)
      requires Ready(t, PersistRunning(vm, ep, now))
      modifies this, registry
      ensures o.Suspended? ==> Waits(t)
      ensures o.Value? ==> Leaving(t, Finished(ResultRunning))
      ensures o.Throws? ==> o.kind == OtherError && Raising(t, OtherError)
    {
      var reply, s := AwaitCommit(t, PersistRunning(vm, ep, now), WithRunning(vm, ep, now));
      if reply.None? {
        return Suspended;
      }
      RunningFollows(s, View(), t.owner.id, PersistRunning(vm, ep, now), reply.value);
      o := if reply.value.Failed? then Throws(OtherError) else Value(());
    }

    // ---------------------------------------------------------------- _start_or_resume

    method StartOrResume(t: Task) returns (o: Outcome<VMHandle>)
      requires Ready(t, ReadRow)
      modifies this, registry
      ensures o.Suspended? ==> Waits(t)
      ensures o.Value? ==> Ready(t, Poll(o.value.vm, o.value.ep))
      ensures o.Throws? ==> Raising(t, o.kind)
    {
      var reply, s := Await(t, ReadRow);
      if reply.None? {
        return Suspended;
      }
      ReadRowFollows(s, View(), t.owner.id, reply.value);
      if reply.value.Failed? {
        return Throws(OtherError);
      }
      var existingVm := if row.Some? then row.value.providerVmId else None;
      var existingEndpoint := if row.Some? then row.value.endpoint else None;
      var own := if row.Some? then row.value.snapshotId else None;
      var snapshot := if own.Some? then own else golden;

      if existingVm.Some? && existingEndpoint.Some? {
        var status := ReadStatus(t, existingVm.value, existingEndpoint.value, snapshot);
        match status
        case Suspended => return Suspended;
        case Throws(kind) => return Throws(kind);
        case Value(readyOrPaused) =>
          if readyOrPaused {
            return Value(VMHandle(existingVm.value, existingEndpoint.value));
          }
          var cleared := ClearVmMapping(t, ClearStale(snapshot));
          match cleared {
            case Suspended => return Suspended;
            case Throws(kind) => return Throws(kind);
            case Value(_) =>
          }
      } else if existingVm.Some? {
        var cleared := StopOrphaned(t, existingVm.value, snapshot);
        match cleared {
          case Suspended => return Suspended;
          case Throws(kind) => return Throws(kind);
          case Value(_) =>
        }
      }
      o := StartVm(t, snapshot);
    }

    /** Cases A and B ask the provider about the mapped instance. */
    method ReadStatus(t: Task, vm: VmId, ep: Endpoint, snap: Option<SnapshotId>) returns (o: Outcome<bool>)
      requires Ready(t, GetStatus(vm, ep, snap))
      modifies this, registry
      ensures o.Suspended? ==> Waits(t)
      ensures o == Value(true) ==> Ready(t, Poll(vm, ep))
      ensures o == Value(false) ==> ReadyIn(SetRegistry(View(), Waking, CLEARED), t, ClearStale(snap))
      ensures o.Throws? ==> Raising(t, o.kind)
    {
      var reply, s := Await(t, GetStatus(vm, ep, snap));
      if reply.None? {
        return Suspended;
      }
      GetStatusFollows(s, View(), t.owner.id, GetStatus(vm, ep, snap), reply.value);
      o := if reply.value.Failed? then Throws(reply.value.kind) else Value(reply.value.readyOrPaused);
    }

    /** Case C: a VMProviderError from stop is only logged. */
    method StopOrphaned(t: Task, vm: VmId, snap: Option<SnapshotId>) returns (o: Outcome<()>)
      requires Ready(t, StopOrphan(vm, snap))
      modifies this, registry
      ensures o.Suspended? ==> Waits(t)
      ensures o.Value? ==> Fresh(t, snap)
      ensures o.Throws? ==> Raising(t, o.kind)
    {
      var reply, s := Await(t, StopOrphan(vm, snap));
      if reply.None? {
        return Suspended;
      }
      StopOrphanFollows(s, View(), t.owner.id, StopOrphan(vm, snap), reply.value);
      if reply.value.Failed? && reply.value.kind.OtherError? {
        return Throws(OtherError);
      }
      o := ClearVmMapping(t, ClearStale(snap));
    }

    /** Case D: the id is persisted before the user server is launched. */
    method StartVm(t: Task, snapshot: Option<SnapshotId>) returns (o: Outcome<VMHandle>)
      requires Fresh(t, snapshot)
      modifies this, registry
      ensures o.Suspended? ==> Waits(t)
      ensures o.Value? ==> Ready(t, Poll(o.value.vm, o.value.ep))
      ensures o.Throws? ==> Raising(t, o.kind)
    {
      if snapshot.None? {
        return Throws(ProviderError);
      }
      var reply, s := Await(t, Start(snapshot.value));
      if reply.None? {
        return Suspended;
      }
      StartFollows(s, View(), t.owner.id, Start(snapshot.value), reply.value);
      if reply.value.Failed? {
        return Throws(reply.value.kind);
      }
      var vm := reply.value.vm;
      var persisted := PersistVmIdOf(t, vm);
      match persisted
      case Suspended => return Suspended;
      case Throws(kind) => return Throws(kind);
      case Value(_) => o := LaunchUserServer(t, vm);
    }

    method LaunchUserServer(t: Task, vm: VmId) returns (o: Outcome<VMHandle>)
      requires Ready(t, Configure(vm))
      modifies this, registry
      ensures o.Suspended? ==> Waits(t)
      ensures o.Value? ==> Ready(t, Poll(o.value.vm, o.value.ep))
      ensures o.Throws? ==> Raising(t, o.kind)
    {
      var reply, s := Await(t, Configure(vm));
      if reply.None? {
        return Suspended;
      }
      ConfigureFollows(s, View(), t.owner.id, Configure(vm), reply.value);
      if reply.value.Failed? {
        return Throws(reply.value.kind);
      }
      reply, s := Await(t, Launch(vm));
      if reply.None? {
        return Suspended;
      }
      LaunchFollows(s, View(), t.owner.id, Launch(vm), reply.value);
      if reply.value.Failed? {
        return Throws(reply.value.kind);
      }
      var ep := reply.value.ep;
      var persisted := PersistEndpointOf(t, vm, ep);
      match persisted
      case Suspended => o := Suspended;
      case Throws(kind) => o := Throws(kind);
      case Value(_) => o := Value(VMHandle(vm, ep));
    }

    // ---------------------------------------------------------------- wake

    /** `except VMProviderError`: stop what the registry still maps, clear the mapping, end in `error`. */
    method CleanUp(t: Task) returns (o: Outcome<()>)
      requires Raising(t, ProviderError)
      modifies this, registry
      ensures o.Suspended? ==> Waits(t)
      ensures o.Value? ==> Leaving(t, Finished(ResultFailed))
      ensures o.Throws? ==> o.kind == OtherError && Raising(t, OtherError)
    {
      var current := registry.Get(user);
      var leaked := if current.Some? then current.value.providerVmId else None;
      if leaked.Some? {
        var reply, s := Await(t, CleanupStop(leaked.value));
        if reply.None? {
          return Suspended;
        }
        CleanupFollows(s, View(), t.owner.id, CleanupStop(leaked.value), reply.value);
        if reply.value.Failed? && reply.value.kind.OtherError? {
          return Throws(OtherError);
        }
        var cleared := ClearVmMapping(t, ClearFailed);
        if !cleared.Value? {
          return cleared;
        }
      }
      SetStatus(Error, KEEP);
      o := PersistStatus(t, Error, PersistError);
    }

    /** The `while ... else` around the health probe: true once it succeeds, false when the deadline passes. */
    method PollHealth(t: Task, h: VMHandle) returns (o: Outcome<bool>)
      requires Ready(t, Poll(h.vm, h.ep))
      modifies this, registry
      ensures o.Suspended? ==> Waits(t)
      ensures o == Value(true) ==> Ready(t, PushSecrets(h.vm, h.ep))
      ensures o == Value(false) ==> Leaving(t, Finished(ResultPending))
      ensures o.Throws? ==> o.kind == OtherError && Raising(t, OtherError)
    {
      while true
        invariant Ready(t, Poll(h.vm, h.ep))
        decreases |t.script| - position
      {
        var reply, s := Await(t, Poll(h.vm, h.ep));
        if reply.None? {
          return Suspended;
        }
        PollFollows(s, View(), t.owner.id, Poll(h.vm, h.ep), reply.value);
        match reply.value {
          case Healthy => return Value(true);
          case TimedOut => return Value(false);
          case Failed(_, _) => return Throws(OtherError);
          case _ =>
        }
      }
    }

    /** From a healthy endpoint to the end. */
    method MarkRunning(t: Task, h: VMHandle) returns (o: Outcome<()>)
      requires Ready(t, PushSecrets(h.vm, h.ep))
      modifies this, registry
      ensures o.Suspended? ==> Waits(t)
      ensures o.Value? ==> Leaving(t, Finished(ResultRunning))
      ensures o.Throws? ==> o.kind == OtherError && Raising(t, OtherError)
    {
      var reply, s := Await(t, PushSecrets(h.vm, h.ep));
      if reply.None? {
        return Suspended;
      }
      PushFollows(s, View(), t.owner.id, PushSecrets(h.vm, h.ep), reply.value);
      if reply.value.Failed? {
        return Throws(OtherError);
      }
      var now := reply.value.now;
      SetStatus(Running, Overrides(Some(Some(h.vm)), Some(Some(h.ep)), Some(Some(now))));
      o := PersistRunningAt(t, h.vm, h.ep, now);
    }

    /** The body of `async with lock` once the status asks for a start, up to leaving the lock. */
    method Locked(t: Task) returns (o: Outcome<WakeResult>)
      requires ReadyIn(SetRegistry(View(), Waking, KEEP), t, PersistWaking)
      modifies this, registry
      ensures o.Suspended? ==> Waits(t)
      ensures o.Value? ==> Leaving(t, Finished(o.value))
      ensures o.Throws? ==> o.kind == OtherError && Raising(t, OtherError)
    {
      SetStatus(Waking, KEEP);
      var persisted := PersistStatus(t, Waking, PersistWaking);
      match persisted {
        case Suspended => return Suspended;
        case Throws(kind) => return Throws(kind);
        case Value(_) =>
      }
      var started := StartOrResume(t);
      match started
      case Suspended => return Suspended;
      case Throws(OtherError) => return Throws(OtherError);
      case Throws(ProviderError) =>
        var cleaned := CleanUp(t);
        o := if cleaned.Value? then Value(ResultFailed) else if cleaned.Throws? then Throws(OtherError) else Suspended;
      case Value(handle) =>
        var healthy := PollHealth(t, handle);
        match healthy {
          case Suspended => return Suspended;
          case Throws(kind) => return Throws(kind);
          case Value(false) => return Value(ResultPending);
          case Value(true) =>
            var marked := MarkRunning(t, handle);
            o := if marked.Value? then Value(ResultRunning)
                 else if marked.Throws? then Throws(OtherError) else Suspended;
        }
    }

    /** `wake`, granted the lock: however the others interleave and whatever is answered, the state it leaves is
        the one the protocol reaches by the very same events, wherever the script breaks off. */
    method Wake(t: Task) returns (o: Outcome<WakeResult>)
      requires t.base == View() && Scripted(t) && t.owner.Waker?
      requires t.owner.id in callers && callers[t.owner.id] == Waiting && lock == None && draining == DIdle
      modifies this, registry
      ensures position <= |t.script| && View() == Expected(user, t, position)
      ensures o.Suspended? ==> Waits(t)
      ensures o.Value? ==> lock == None && t.owner.id in callers && callers[t.owner.id] == Finished(o.value)
      ensures o.Throws? ==> lock == None && t.owner.id in callers && callers[t.owner.id] == Raised
    {
      CallBegins(user, t);
      position := 0;
      lock := Some(t.owner.id);
      var state := registry.Get(user);
      if state.None? {
        Leave(t, Finished(ResultFailed));
        return Value(ResultFailed);
      }
      if state.value.status == Running && state.value.endpoint.Some? {
        Leave(t, Finished(ResultRunning));
        return Value(ResultRunning);
      }
      o := Locked(t);
      match o
      case Suspended =>
      case Throws(_) => Leave(t, Raised);
      case Value(result) => Leave(t, Finished(result));
    }

    // ---------------------------------------------------------------- drain

    /** The drain has done everything up to its call at `pc`; DIdle when it has returned. */
    ghost predicate DrainReadyIn(v: Slot, t: Task, pc: DrainPc)
      reads this
    {
      && Scripted(t) && t.owner.Drainer? && position <= |t.script|
      && lock.None? && v.(drain := pc) == Expected(user, t, position)
    }

    ghost predicate DrainReady(t: Task, pc: DrainPc)
      reads this, registry
    {
      DrainReadyIn(View(), t, pc)
    }

    /** The registry maps no instance any more and says so. */
    ghost predicate Forgotten()
      reads this, registry
    {
      && RegVm(View()).None? && RegEndpoint(View()).None?
      && (View().registry.Some? ==> View().registry.value.status == Stopped)
    }

    ghost predicate DrainWaits(t: Task)
      reads this, registry
    {
      Settled(t) && t.owner.Drainer? && position == |t.script| && Drains(View(), draining)
    }

    ghost predicate DrainCommitted(t: Task, pc: DrainPc, r: Reply, s: Slot, f: Row -> Row)
      reads this, registry
    {
      && Scripted(t) && t.owner.Drainer? && position <= |t.script|
      && Drains(s, pc) && DrainFits(pc, r) && DrainStep(s, r) == Expected(user, t, position)
      && View() == DrainTold(s, r).(row := Commit(s, r, f).row)
    }

    /** What went wrong with this drain so far. */
    ghost function Wrong(t: Task): seq<Failure>
      reads this
      requires position <= |t.script|
    {
      Failures(user, t, position)
    }

    method AdvanceDrain(t: Task, pc: DrainPc) returns (r: Reply, ghost s: Slot)
      requires Settled(t) && t.owner.Drainer? && Drains(View(), pc) && position < |t.script|
      modifies this, registry
      ensures Scripted(t) && position == old(position) + 1 <= |t.script|
      ensures Drains(s, pc) && DrainStep(s, r) == Expected(user, t, position) && View() == DrainTold(s, r)
      ensures Wrong(t) == old(Wrong(t)) + FailureIn(s, r)
    {
      var a := t.script[position];
      ghost var before := View();
      Interleave(t, a.others);
      position := position + 1;
      s := View();
      AnswerIsNext(user, t, position, before, s);
      r := a.reply;
      world := DrainStep(View(), r).world;
    }

    method AwaitDrain(t: Task, pc: DrainPc) returns (r: Option<Reply>, ghost s: Slot)
      requires DrainReady(t, pc) && !pc.DIdle?
      modifies this, registry
      ensures r.None? ==> DrainWaits(t)
      ensures r.Some? ==>
                && Scripted(t) && position <= |t.script| && Drains(s, pc) && DrainFits(pc, r.value)
                && DrainStep(s, r.value) == Expected(user, t, position) && View() == DrainTold(s, r.value)
      ensures r.Some? ==>
                Wrong(t) == old(Wrong(t)) + if r.value.Failed? then [Failure(pc, r.value.kind)] else []
    {
      draining := pc;
      s := View();
      while position < |t.script|
        invariant Settled(t) && Drains(View(), pc) && Wrong(t) == old(Wrong(t))
        decreases |t.script| - position
      {
        var reply;
        reply, s := AdvanceDrain(t, pc);
        if DrainFits(pc, reply) {
          return Some(reply), s;
        }
        UnfitLeavesDrain(s, pc, reply);
      }
      r := None;
    }

    method CommitDrain(t: Task, pc: DrainPc, f: Row -> Row) returns (r: Option<Reply>, ghost s: Slot)
      requires DrainReady(t, pc) && !pc.DIdle?
      modifies this, registry
      ensures r.None? ==> DrainWaits(t)
      ensures r.Some? ==> DrainCommitted(t, pc, r.value, s, f)
      ensures r.Some? ==>
                Wrong(t) == old(Wrong(t)) + if r.value.Failed? then [Failure(pc, r.value.kind)] else []
    {
      r, s := AwaitDrain(t, pc);
      if r.None? {
        return;
      }
      if row.Some? && (r.value.Ok? || (r.value.Failed? && r.value.applied)) {
        row := Some(f(row.value));
      }
    }

    method PersistDrainStatus(t: Task, status: VmStatus, pc: DrainPc) returns (o: Outcome<()>)
      requires DrainReady(t, pc) && ((pc.DPersist? && status == Draining) || (pc.DError? && status == Error))
      modifies this, registry
      ensures o.Suspended? ==> DrainWaits(t)
      ensures o.Value? ==> DrainReady(t, if pc.DPersist? then DSnapshot(pc.vm) else DIdle)
      ensures o.Throws? ==> o.kind == OtherError && DrainReady(t, DIdle)
      ensures o.Value? ==> Wrong(t) == old(Wrong(t))
      ensures o.Throws? ==> |Wrong(t)| == |old(Wrong(t))| + 1 && Wrong(t)[|Wrong(t)| - 1].at == pc
    {
      var reply, s := CommitDrain(t, pc, WithStatus(status));
      if reply.None? {
        return Suspended;
      }
      DrainStatusFollows(s, View(), pc, reply.value, status);
      o := if reply.value.Failed? then Throws(OtherError) else Value(());
    }

    /** The `try` block: snapshot, stop, forget the mapping. */
    method SnapshotAndStop(t: Task, vm: VmId) returns (o: Outcome<()>)
      requires DrainReady(t, DSnapshot(vm)) && Wrong(t) == []
      modifies this, registry
      ensures o.Suspended? ==> DrainWaits(t)
      ensures o.Value? ==> DrainReady(t, DIdle) && Forgotten()
      ensures o == Throws(ProviderError) ==> DrainReadyIn(SetRegistry(View(), Error, KEEP), t, DError)
      ensures o == Throws(OtherError) ==> DrainReady(t, DIdle)
      ensures o.Value? ==> Wrong(t) == []
      ensures o.Throws? ==> position <= |t.script| && Wrong(t) != []
      ensures o.Throws? ==> (ProviderRefused(Wrong(t)) <==> o.kind == ProviderError)
    {
      var reply, s := AwaitDrain(t, DSnapshot(vm));
      if reply.None? {
        return Suspended;
      }
      DrainCallFollows(s, View(), DSnapshot(vm), reply.value);
      if reply.value.Failed? {
        return Throws(reply.value.kind);
      }
      var snap := reply.value.snap;
      reply, s := AwaitDrain(t, DStop(vm, snap));
      if reply.None? {
        return Suspended;
      }
      DrainCallFollows(s, View(), DStop(vm, snap), reply.value);
      if reply.value.Failed? {
        return Throws(reply.value.kind);
      }
      o := ForgetMapping(t, vm, snap);
    }

    method CommitStopped(t: Task, vm: VmId, snap: SnapshotId) returns (o: Outcome<()>)
      requires DrainReady(t, DCommit(vm, snap)) && Wrong(t) == []
      modifies this, registry
      ensures o.Suspended? ==> DrainWaits(t)
      ensures o.Value? ==> DrainReady(t, DRegistry(vm, snap)) && Wrong(t) == []
      ensures o.Throws? ==> o.kind == OtherError && DrainReady(t, DIdle)
      ensures o.Throws? ==> Wrong(t) != [] && !ProviderRefused(Wrong(t))
    {
      var reply, s := CommitDrain(t, DCommit(vm, snap), WithSnapshot(snap));
      if reply.None? {
        return Suspended;
      }
      DrainCommitFollows(s, View(), DCommit(vm, snap), reply.value);
      o := if reply.value.Failed? then Throws(OtherError) else Value(());
    }

    method ForgetMapping(t: Task, vm: VmId, snap: SnapshotId) returns (o: Outcome<()>)
      requires DrainReady(t, DCommit(vm, snap)) && Wrong(t) == []
      modifies this, registry
      ensures o.Suspended? ==> DrainWaits(t)
      ensures o.Value? ==> DrainReady(t, DIdle) && Forgotten() && Wrong(t) == []
      ensures o.Throws? ==> o.kind == OtherError && DrainReady(t, DIdle)
      ensures o.Throws? ==> Wrong(t) != [] && !ProviderRefused(Wrong(t))
    {
      var committed := CommitStopped(t, vm, snap);
      if !committed.Value? {
        return committed;
      }
      var reply, s := AwaitDrain(t, DRegistry(vm, snap));   // the session closes
      if reply.None? {
        return Suspended;
      }
      DrainRegistryFollows(s, View(), DRegistry(vm, snap), reply.value);
      SetStatus(Stopped, CLEARED);
      o := Value(());
    }

    /** `except VMProviderError` of drain. */
    method DrainFailed(t: Task) returns (o: Outcome<bool>)
      requires DrainReadyIn(SetRegistry(View(), Error, KEEP), t, DError) && ProviderRefused(Wrong(t))
      modifies this, registry
      ensures o.Suspended? ==> DrainWaits(t)
      ensures !o.Suspended? ==> DrainReady(t, DIdle) && Wrong(t) != []
      ensures o.Value? ==> o.value == false && ProviderRefused(Wrong(t))
      ensures o.Throws? ==> !ProviderRefused(Wrong(t))
    {
      SetStatus(Error, KEEP);
      var persisted := PersistDrainStatus(t, Error, DError);
      o := if persisted.Value? then Value(false) else if persisted.Throws? then Throws(persisted.kind) else Suspended;
    }

    method TryDrain(t: Task, vm: VmId) returns (o: Outcome<bool>)
      requires DrainReadyIn(SetRegistry(View(), Draining, KEEP), t, DPersist(vm)) && Wrong(t) == []
      modifies this, registry
      ensures o.Suspended? ==> DrainWaits(t)
      ensures !o.Suspended? ==> DrainReady(t, DIdle)
      ensures o == Value(true) ==> Forgotten()
      ensures !o.Suspended? ==> (o == Value(true) <==> Wrong(t) == [])
      ensures !o.Suspended? ==> (o == Value(false) <==> ProviderRefused(Wrong(t)))
    {
      SetStatus(Draining, KEEP);
      var persisted := PersistDrainStatus(t, Draining, DPersist(vm));
      match persisted {
        case Suspended => return Suspended;
        case Throws(kind) => return Throws(kind);
        case Value(_) =>
      }
      var stopped := SnapshotAndStop(t, vm);
      match stopped
      case Suspended => o := Suspended;
      case Value(_) => o := Value(true);
      case Throws(OtherError) => o := Throws(OtherError);
      case Throws(ProviderError) => o := DrainFailed(t);
    }

    /** `drain`, at a time when no wake is inside the lock.  Come to its end, it answers true exactly if an
        instance was mapped and nothing went wrong, and false exactly if none was mapped or the provider refused. */
    method Drain(t: Task) returns (o: Outcome<bool>)
      requires t.base == View() && Scripted(t) && t.owner.Drainer?
      requires lock == None && draining == DIdle
      modifies this, registry
      ensures position <= |t.script| && View() == Expected(user, t, position)
      ensures if o.Suspended? then DrainWaits(t) else draining == DIdle
      ensures o == Value(true) ==> Forgotten()
      ensures o == Value(true) <==>
              RegVm(t.base).Some? && draining == DIdle && Failures(user, t, position) == []
      ensures o == Value(false) <==>
              RegVm(t.base).None? || (draining == DIdle && ProviderRefused(Failures(user, t, position)))
    {
      CallBegins(user, t);
      position := 0;
      var state := registry.Get(user);
      if state.None? || state.value.providerVmId.None? {
        return Value(false);
      }
      o := TryDrain(t, state.value.providerVmId.value);
      if !o.Suspended? {
        draining := DIdle;
      }
    }
  }

  /** So every promise about the protocol's runs is one about this code: a call begun in a state of the invariant
      leaves it in one, wherever it stops. */
  lemma CallKeepsInv(u: UserId, t: Task, n: nat)
    requires n <= |t.script| && Inv(t.base)
    ensures Inv(Expected(u, t, n))
  {
    RunKeepsInv(u, t.base, [Begins(t.owner)] + Happened(t.owner, t.script[..n]));
  }
}
