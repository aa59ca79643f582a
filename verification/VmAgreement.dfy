/** Exactly when registry and row agree while no wake or drain is under way. */
module VmAgreement {
  import opened Options
  import opened VmRegistry
  import opened VmProtocol
  import opened VmSafety
  import opened VmTheorems

  /** Between a `set_status` and the commit that follows it, or the other way round in a drain. */
  predicate InWindow(s: Slot) {
    var pc := HolderPc(s);
    pc.ClearStale? || pc.ClearFailed? || pc.PersistVmId? || pc.PersistEndpoint? || s.drain.DRegistry?
  }

  predicate Took(r: Reply) {
    r.Ok? || (r.Failed? && r.applied)
  }

  predicate Missed(r: Reply) {
    r.Failed? && !r.applied
  }

  /** The answer `r` to a wake at `pc`: a mapping commit that takes effect brings the stores together, except that
      the new id may leave an old endpoint behind in the registry; one that does not leaves them apart, except that
      there may be nothing to clear; and a wake that succeeds writes both. */
  predicate ApartAfterWake(s: Slot, pc: Pc, r: Reply, apart: bool) {
    match pc
    case ClearStale(_) => if Took(r) then false else Missed(r) || apart
    case ClearFailed => if Took(r) then false else if Missed(r) then RowVm(s).Some? else apart
    case PersistVmId(_) => if Took(r) then RegEndpoint(s).Some? else Missed(r) || apart
    case PersistEndpoint(_, _) => if Took(r) then false else Missed(r) || apart
    case PushSecrets(_, _) => apart && !r.Clock?
    case _ => apart
  }

  /** A drain parts them when its commit raises after taking effect, and brings them together at its end. */
  predicate ApartAfterDrain(s: Slot, r: Reply, apart: bool) {
    if s.drain.DCommit? then apart || (r.Failed? && r.applied)
    else if s.drain.DRegistry? then apart && !r.Ok?
    else apart
  }

  predicate ApartAfter(s: Slot, e: Event, apart: bool) {
    if Boots(s, e) then false
    else if e.Wake? && Answers(s, e, e.reply) then ApartAfterWake(s, HolderPc(s), e.reply, apart)
    else if e.Drain? && s.up then ApartAfterDrain(s, e.reply, apart)
    else apart
  }

  /** Read off the history: the answers to mapping commits, successful wakes, drains and boots. */
  predicate Apart(u: UserId, golden: Option<SnapshotId>, es: seq<Event>) {
    && es != []
    && var front := es[..|es| - 1];
       ApartAfter(Reached(u, golden, front), es[|es| - 1], Apart(u, golden, front))
  }

  predicate Tells(s: Slot, apart: bool) {
    s.up && !InWindow(s) ==> (apart <==> !MappingsAgree(s))
  }

  lemma FindTells(s: Slot, c: CallerId, r: Reply, apart: bool)
    requires Inv(s) && s.up && s.lock == Some(c) && Finds(HolderPc(s)) && Tells(s, apart)
    ensures Tells(StartOrResumeStep(s, c, HolderPc(s), r), ApartAfterWake(s, HolderPc(s), r, apart))
  {
  }

  lemma StartTells(s: Slot, c: CallerId, r: Reply, apart: bool)
    requires Inv(s) && s.up && s.lock == Some(c) && InStartOrResume(HolderPc(s)) && !Finds(HolderPc(s))
    requires Tells(s, apart)
    ensures Tells(StartOrResumeStep(s, c, HolderPc(s), r), ApartAfterWake(s, HolderPc(s), r, apart))
  {
  }

  predicate CleansUp(pc: Pc) {
    pc.CleanupStop? || pc.ClearFailed? || pc.PersistError?
  }

  lemma CleanUpTells(s: Slot, c: CallerId, r: Reply, apart: bool)
    requires Inv(s) && s.up && s.lock == Some(c) && CleansUp(HolderPc(s)) && Tells(s, apart)
    ensures Tells(OuterStep(s, c, HolderPc(s), r), ApartAfterWake(s, HolderPc(s), r, apart))
  {
  }

  lemma OuterTells(s: Slot, c: CallerId, r: Reply, apart: bool)
    requires Inv(s) && s.up && s.lock == Some(c) && !InStartOrResume(HolderPc(s)) && !CleansUp(HolderPc(s))
    requires Tells(s, apart)
    ensures Tells(OuterStep(s, c, HolderPc(s), r), ApartAfterWake(s, HolderPc(s), r, apart))
  {
  }

  lemma DrainTells(s: Slot, r: Reply, apart: bool)
    requires Inv(s) && s.up && Tells(s, apart)
    ensures Tells(DrainStep(s, r), ApartAfterDrain(s, r, apart))
  {
  }

  lemma OthersTell(u: UserId, s: Slot, e: Event, apart: bool)
    requires Inv(s) && !e.Wake? && !e.Drain? && Tells(s, apart)
    ensures Tells(Next(u, s, e), ApartAfter(s, e, apart))
  {
  }

  lemma EventTells(u: UserId, s: Slot, e: Event, apart: bool)
    requires Inv(s) && Tells(s, apart)
    ensures Tells(Next(u, s, e), ApartAfter(s, e, apart))
  {
    if e.Wake? {
      if s.up && s.lock == Some(e.caller) {
        if Finds(HolderPc(s)) {
          FindTells(s, e.caller, e.reply, apart);
        } else if InStartOrResume(HolderPc(s)) {
          StartTells(s, e.caller, e.reply, apart);
        } else if CleansUp(HolderPc(s)) {
          CleanUpTells(s, e.caller, e.reply, apart);
        } else {
          OuterTells(s, e.caller, e.reply, apart);
        }
      }
    } else if e.Drain? {
      if s.up { DrainTells(s, e.reply, apart); }
    } else {
      OthersTell(u, s, e, apart);
    }
  }

  lemma {:induction false} HistoryTells(u: UserId, golden: Option<SnapshotId>, es: seq<Event>)
    ensures Tells(Reached(u, golden, es), Apart(u, golden, es))
  {
    if es != [] {
      var front := es[..|es| - 1];
      HistoryTells(u, golden, front);
      ReachedInv(u, golden, front);
      EventTells(u, Reached(u, golden, front), es[|es| - 1], Apart(u, golden, front));
    }
  }

  /** In a quiet moment the two stores name the same instance and endpoint exactly if the history says so. */
  lemma QuiescentStoresAgreeIff(u: UserId, golden: Option<SnapshotId>, es: seq<Event>)
    requires Quiescent(Reached(u, golden, es))
    ensures MappingsAgree(Reached(u, golden, es)) <==> !Apart(u, golden, es)
  {
    HistoryTells(u, golden, es);
  }
}
