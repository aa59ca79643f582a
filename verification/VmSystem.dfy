/** All users together: one protocol instance each, one provider that never hands out an id twice. */
module VmSystem {
  import opened Options
  import opened VmRegistry
  import opened VmProtocol
  import opened VmSafety

  datatype SystemEvent = Reboot | User(user: UserId, event: Event)

  type System = map<UserId, Slot>

  predicate FreshFor(sys: System, e: Event) {
    match e
    case Wake(_, VmStarted(v)) => forall u :: u in sys ==> v !in sys[u].world.started
    case Wake(_, Unreported(v)) => forall u :: u in sys ==> v !in sys[u].world.started
    case _ => true
  }

  /** One process serves everybody, so a crash and the hydrate after it are shared. */
  function SystemNext(sys: System, e: SystemEvent): System {
    match e
    case Reboot => map u | u in sys :: Next(u, Next(u, sys[u], Crash), Hydrate)
    case User(u, ev) =>
      if u in sys && !ev.Crash? && !ev.Hydrate? && FreshFor(sys, ev) then sys[u := Next(u, sys[u], ev)] else sys
  }

  function SystemRun(sys: System, es: seq<SystemEvent>): System {
    if es == [] then sys else SystemNext(SystemRun(sys, es[..|es| - 1]), es[|es| - 1])
  }

  ghost predicate SystemInv(sys: System) {
    && (forall u :: u in sys ==> Inv(sys[u]))
    && (forall u, v :: u in sys && v in sys && u != v ==> sys[u].world.started !! sys[v].world.started)
  }

  /** An event starts nothing but the instance it names. */
  lemma StartsOnlyItsOwn(u: UserId, s: Slot, e: Event)
    ensures s.world.started <= Next(u, s, e).world.started
    ensures forall v :: v in Next(u, s, e).world.started && v !in s.world.started ==>
              e.Wake? && (e.reply == VmStarted(v) || e.reply == Unreported(v))
  {
    if e.Wake? && s.up && s.lock == Some(e.caller) && e.caller in s.callers {
      StepStartsOnlyItsOwn(s, e.caller, s.callers[e.caller], e.reply);
    }
  }

  lemma RebootKeepsInv(sys: System)
    requires SystemInv(sys)
    ensures SystemInv(SystemNext(sys, Reboot))
  {
    forall u | u in sys
      ensures Inv(Next(u, Next(u, sys[u], Crash), Hydrate))
      ensures Next(u, Next(u, sys[u], Crash), Hydrate).world.started == sys[u].world.started
    {
      NextKeepsInv(u, sys[u], Crash);
      NextKeepsInv(u, Next(u, sys[u], Crash), Hydrate);
    }
  }

  lemma ReplaceKeepsInv(sys: System, u: UserId, s: Slot)
    requires SystemInv(sys) && u in sys && Inv(s)
    requires forall v, x :: x in sys && x != u && v in s.world.started ==> v !in sys[x].world.started
    ensures SystemInv(sys[u := s])
  {
  }

  /** A fresh id is nobody else's. */
  lemma EventStaysDisjoint(sys: System, u: UserId, e: Event, v: VmId, x: UserId)
    requires SystemInv(sys) && u in sys && FreshFor(sys, e) && x in sys && x != u
    requires v in Next(u, sys[u], e).world.started
    ensures v !in sys[x].world.started
  {
    StartsOnlyItsOwn(u, sys[u], e);
  }

  lemma UserEventKeepsInv(sys: System, u: UserId, e: Event)
    requires SystemInv(sys)
    ensures SystemInv(SystemNext(sys, User(u, e)))
  {
    if u in sys && !e.Crash? && !e.Hydrate? && FreshFor(sys, e) {
      var s := Next(u, sys[u], e);
      assert Inv(s) by { NextKeepsInv(u, sys[u], e); }
      forall v, x | x in sys && x != u && v in s.world.started ensures v !in sys[x].world.started {
        EventStaysDisjoint(sys, u, e, v, x);
      }
      ReplaceKeepsInv(sys, u, s);
    }
  }

  lemma {:induction false} SystemRunKeepsInv(sys: System, es: seq<SystemEvent>)
    requires SystemInv(sys)
    ensures SystemInv(SystemRun(sys, es))
  {
    if es != [] {
      SystemRunKeepsInv(sys, es[..|es| - 1]);
      match es[|es| - 1] {
        case Reboot => RebootKeepsInv(SystemRun(sys, es[..|es| - 1]));
        case User(u, e) => UserEventKeepsInv(SystemRun(sys, es[..|es| - 1]), u, e);
      }
    }
  }

  /** No instance is ever shared between users, and none is orphaned, in any run of the whole hub. */
  lemma NoInstanceIsSharedOrOrphaned(users: set<UserId>, golden: Option<SnapshotId>, es: seq<SystemEvent>,
                                     u: UserId, v: VmId)
    requires u in SystemRun(map x | x in users :: Init(golden), es)
    requires v in SystemRun(map x | x in users :: Init(golden), es)[u].world.live
    ensures var sys := SystemRun(map x | x in users :: Init(golden), es);
            && (RowVm(sys[u]) == Some(v) || HolderPc(sys[u]) == PersistVmId(v) || v in sys[u].world.stopRaised
                || v in sys[u].world.notReady || v in sys[u].world.lost)
            && forall other :: other in sys && RowVm(sys[other]) == Some(v) ==> other == u
  {
    var sys0 := map x | x in users :: Init(golden);
    SystemRunKeepsInv(sys0, es);
    var sys := SystemRun(sys0, es);
    assert Inv(sys[u]);
    forall other | other in sys && RowVm(sys[other]) == Some(v) ensures other == u {
      assert Inv(sys[other]);
    }
  }
}
