/** The hub's in-memory cache of user VM states (hub/vm/registry.py). */
module VmRegistry {
  import opened Options

  type UserId = string
  type VmId = nat
  type Endpoint = nat
  type Time = int

  datatype VmStatus = Stopped | Waking | Running | Draining | Error

  datatype VmState = VmState(
    userId: UserId,
    providerVmId: Option<VmId>,
    endpoint: Option<Endpoint>,
    status: VmStatus,
    lastActiveAt: Option<Time>)

  /** The keyword arguments of `set_status`: `None` leaves a field alone, `Some(x)` overwrites it with x. */
  datatype Overrides = Overrides(
    providerVmId: Option<Option<VmId>>,
    endpoint: Option<Option<Endpoint>>,
    lastActiveAt: Option<Option<Time>>)

  const KEEP: Overrides := Overrides(None, None, None)

  function Apply<T>(current: T, override: Option<T>): T {
    match override
    case None => current
    case Some(x) => x
  }

  function Replace(s: VmState, status: VmStatus, o: Overrides): VmState {
    VmState(s.userId, Apply(s.providerVmId, o.providerVmId), Apply(s.endpoint, o.endpoint),
            status, Apply(s.lastActiveAt, o.lastActiveAt))
  }

  function SetStatusIn(current: Option<VmState>, status: VmStatus, o: Overrides): Option<VmState> {
    match current
    case None => None
    case Some(s) => Some(Replace(s, status, o))
  }

  function Lookup(m: map<UserId, VmState>, u: UserId): Option<VmState> {
    if u in m then Some(m[u]) else None
  }

  /** What `hydrate` leaves in the registry: for every user the last of its rows. */
  function Hydrated(m: map<UserId, VmState>, rows: seq<VmState>): map<UserId, VmState> {
    if rows == [] then m
    else Hydrated(m, rows[..|rows| - 1])[rows[|rows| - 1].userId := rows[|rows| - 1]]
  }

  /** With one row per user (the column is unique) hydration is exact: a user with a row gets that
      row's state, and a user without one keeps whatever was there before. */
  lemma {:induction false} HydratedIsExact(m: map<UserId, VmState>, rows: seq<VmState>, u: UserId)
    requires forall i, j :: 0 <= i < j < |rows| ==> rows[i].userId != rows[j].userId
    ensures forall i :: 0 <= i < |rows| && rows[i].userId == u ==> Lookup(Hydrated(m, rows), u) == Some(rows[i])
    ensures (forall i :: 0 <= i < |rows| ==> rows[i].userId != u) ==> Lookup(Hydrated(m, rows), u) == Lookup(m, u)
  {
    if rows != [] {
      HydratedIsExact(m, rows[..|rows| - 1], u);
    }
  }

  class VMRegistry {
    var byUser: map<UserId, VmState>

    constructor ()
      ensures byUser == map[]
    {
      byUser := map[];
    }

    function Get(u: UserId): (r: Option<VmState>)
      reads this
      ensures r.Some? <==> u in byUser
      ensures r.Some? ==> r.value == byUser[u]
    {
      if u in byUser then Some(byUser[u]) else None
    }

    method Put(s: VmState)
      modifies this
      ensures byUser == old(byUser)[s.userId := s]
    {
      byUser := byUser[s.userId := s];
    }

    method SetStatus(u: UserId, status: VmStatus, o: Overrides) returns (r: Option<VmState>)
      modifies this
      ensures r == SetStatusIn(Lookup(old(byUser), u), status, o)
      ensures Lookup(byUser, u) == r
      ensures byUser - {u} == old(byUser) - {u}
    {
      var current := Get(u);
      if current.None? {
        return None;
      }
      var new' := Replace(current.value, status, o);
      byUser := byUser[u := new'];
      return Some(new');
    }

    /** `VMService.hydrate`: one `put` per row of the table. */
    method Hydrate(rows: seq<VmState>)
      modifies this
      ensures byUser == Hydrated(old(byUser), rows)
    {
      for i := 0 to |rows|
        invariant byUser == Hydrated(old(byUser), rows[..i])
      {
        assert rows[..i + 1][..i] == rows[..i];
        Put(rows[i]);
      }
      assert rows[..|rows|] == rows;
    }
  }
}
