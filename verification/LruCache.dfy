/** The cache of parsed strategies (user-server/user_server/strategies/cache.py). */
module LruCache {
  import opened Options

  const MAX_ENTRIES: nat := 256

  type Key = string
  type Source = string

  datatype Handle = Handle(codeHash: Key, body: Source)

  // ------------------------------------------------------------------ recency

  /** `order` without k, the rest in place: what `move_to_end` leaves in front. */
  function Without(order: seq<Key>, k: Key): seq<Key> {
    if order == [] then []
    else if order[|order| - 1] == k then Without(order[..|order| - 1], k)
    else Without(order[..|order| - 1], k) + [order[|order| - 1]]
  }

  /** k becomes the most recently used key. */
  function MoveToEnd(order: seq<Key>, k: Key): seq<Key> {
    Without(order, k) + [k]
  }

  /** The distinct keys of a history of uses, in the order of their last use. */
  function Recency(uses: seq<Key>): seq<Key> {
    if uses == [] then [] else MoveToEnd(Recency(uses[..|uses| - 1]), uses[|uses| - 1])
  }

  /** The last n entries, or all of them. */
  function Newest(order: seq<Key>, n: nat): seq<Key> {
    if |order| <= n then order else order[|order| - n..]
  }

  predicate Distinct(order: seq<Key>) {
    forall i, j :: 0 <= i < j < |order| ==> order[i] != order[j]
  }

  lemma {:induction false} WithoutMembers(order: seq<Key>, k: Key)
    ensures forall x :: x in Without(order, k) <==> x in order && x != k
    ensures k !in order ==> Without(order, k) == order
  {
    if order != [] {
      var m := |order| - 1;
      WithoutMembers(order[..m], k);
      assert order == order[..m] + [order[m]];
    }
  }

  lemma DistinctFront(order: seq<Key>)
    requires Distinct(order) && order != []
    ensures Distinct(order[..|order| - 1]) && order[|order| - 1] !in order[..|order| - 1]
  {
    var m := |order| - 1;
    assert forall i :: 0 <= i < m ==> order[..m][i] != order[m];
  }

  lemma DistinctAppends(order: seq<Key>, k: Key)
    requires Distinct(order) && k !in order
    ensures Distinct(order + [k])
  {
  }

  lemma {:induction false} WithoutIsDistinct(order: seq<Key>, k: Key)
    requires Distinct(order)
    ensures Distinct(Without(order, k))
    ensures |Without(order, k)| == if k in order then |order| - 1 else |order|
  {
    if order != [] {
      var front, last := order[..|order| - 1], order[|order| - 1];
      assert order == front + [last];
      DistinctFront(order);
      WithoutIsDistinct(front, k);
      WithoutMembers(front, k);
      if last != k {
        DistinctAppends(Without(front, k), last);
      }
    }
  }

  lemma WithoutLaws(order: seq<Key>, k: Key)
    ensures forall x :: x in Without(order, k) <==> x in order && x != k
    ensures k !in order ==> Without(order, k) == order
    ensures Distinct(order) ==> Distinct(Without(order, k)) && |Without(order, k)| <= |order|
    ensures Distinct(order) && k in order ==> |Without(order, k)| == |order| - 1
  {
    WithoutMembers(order, k);
    if Distinct(order) {
      WithoutIsDistinct(order, k);
    }
  }

  lemma {:induction false} WithoutSplits(a: seq<Key>, b: seq<Key>, k: Key)
    ensures Without(a + b, k) == Without(a, k) + Without(b, k)
  {
    if b == [] {
      assert a + b == a;
    } else {
      var m := |b| - 1;
      WithoutSplits(a, b[..m], k);
      assert (a + b)[..|a + b| - 1] == a + b[..m];
    }
  }

  function LastUse(uses: seq<Key>, k: Key): int {
    if uses == [] then -1
    else if uses[|uses| - 1] == k then |uses| - 1
    else LastUse(uses[..|uses| - 1], k)
  }

  predicate ByLastUse(order: seq<Key>, uses: seq<Key>) {
    forall i, j :: 0 <= i < j < |order| ==> LastUse(uses, order[i]) < LastUse(uses, order[j])
  }

  lemma {:induction false} WithoutKeepsOrder(order: seq<Key>, k: Key, uses: seq<Key>)
    requires ByLastUse(order, uses)
    ensures ByLastUse(Without(order, k), uses)
  {
    if order != [] {
      var m := |order| - 1;
      WithoutKeepsOrder(order[..m], k, uses);
      WithoutLaws(order[..m], k);
      var v := Without(order[..m], k);
      forall i | 0 <= i < |v| ensures LastUse(uses, v[i]) < LastUse(uses, order[m]) {
        assert v[i] in order[..m];
      }
    }
  }

  lemma UseMovesToEnd(order: seq<Key>, k: Key, uses: seq<Key>)
    requires ByLastUse(order, uses)
    ensures ByLastUse(MoveToEnd(order, k), uses + [k])
  {
    WithoutKeepsOrder(order, k, uses);
    WithoutLaws(order, k);
    var w := Without(order, k);
    assert (uses + [k])[..|uses|] == uses;
    forall i | 0 <= i < |w| ensures LastUse(uses + [k], w[i]) == LastUse(uses, w[i]) < |uses| {
      assert w[i] in w;
      LastUseInRange(uses, w[i]);
    }
  }

  /** Recency is what its name says: every key used, once, sorted by its last use. */
  lemma {:induction false} RecencyIsLastUseOrder(uses: seq<Key>)
    ensures forall k :: k in Recency(uses) <==> k in uses
    ensures ByLastUse(Recency(uses), uses)
    ensures Distinct(Recency(uses))
  {
    if uses != [] {
      var m := |uses| - 1;
      RecencyIsLastUseOrder(uses[..m]);
      WithoutLaws(Recency(uses[..m]), uses[m]);
      UseMovesToEnd(Recency(uses[..m]), uses[m], uses[..m]);
      assert uses == uses[..m] + [uses[m]];
    }
  }

  lemma {:induction false} LastUseInRange(uses: seq<Key>, k: Key)
    ensures LastUse(uses, k) < |uses|
  {
    if uses != [] {
      LastUseInRange(uses[..|uses| - 1], k);
    }
  }

  // ------------------------------------------------------------------ interleaved threads

  type ThreadId = nat

  /** Where a thread is inside `get_or_load(source)`. */
  datatype Thread = Loading(source: Source) | Returned(source: Source, handle: Handle) | Failed

  /** The cache as a value: its keys, oldest first, their handles, and the threads. */
  datatype State = State(order: seq<Key>, handles: map<Key, Handle>, threads: map<ThreadId, Thread>)

  const EMPTY: State := State([], map[], map[])

  datatype Event =
    | LookupBy(thread: ThreadId, source: Source)  // the first critical section
    | InsertBy(thread: ThreadId)                  // load_strategy succeeded; the second critical section
    | LoadFails(thread: ThreadId)                 // load_strategy raised
    | ClearAll

  /** sha256 and the loader are parameters; all that is known of the loader is that it records the hash. */
  ghost predicate LoaderRecordsHash(hash: Source -> Key, load: Source -> Handle) {
    forall s :: load(s).codeHash == hash(s)
  }

  predicate IsLoading(s: State, t: ThreadId) {
    t in s.threads && s.threads[t].Loading?
  }

  /** The handles that stay when only the keys in `order` do. */
  function Kept(handles: map<Key, Handle>, order: seq<Key>): map<Key, Handle> {
    map k | k in handles && k in order :: handles[k]
  }

  function Next(hash: Source -> Key, load: Source -> Handle, s: State, e: Event): State {
    match e
    case LookupBy(t, source) =>
      if IsLoading(s, t) then s else
      var key := hash(source);
      if key in s.handles then
        State(MoveToEnd(s.order, key), s.handles, s.threads[t := Returned(source, s.handles[key])])
      else s.(threads := s.threads[t := Loading(source)])
    case InsertBy(t) =>
      if !IsLoading(s, t) then s else
      var source := s.threads[t].source;
      var key, handle := hash(source), load(source);
      var order := Newest(MoveToEnd(s.order, key), MAX_ENTRIES);
      State(order, Kept(s.handles[key := handle], order), s.threads[t := Returned(source, handle)])
    case LoadFails(t) => if IsLoading(s, t) then s.(threads := s.threads[t := Failed]) else s
    case ClearAll => s.(order := [], handles := map[])
  }

  function Run(hash: Source -> Key, load: Source -> Handle, s: State, es: seq<Event>): State {
    if es == [] then s
    else Next(hash, load, Run(hash, load, s, es[..|es| - 1]), es[|es| - 1])
  }

  lemma DistinctParts(a: seq<Key>, b: seq<Key>)
    requires Distinct(a + b)
    ensures Distinct(b) && forall k :: k in b ==> k !in a
  {
    var all := a + b;
    forall i, j | 0 <= i < j < |b| ensures b[i] != b[j] {
      assert b[i] == all[|a| + i] && b[j] == all[|a| + j];
    }
    forall k | k in b ensures k !in a {
      var j :| 0 <= j < |b| && b[j] == k;
      assert all[|a| + j] == k;
      forall i | 0 <= i < |a| ensures a[i] != k {
        assert a[i] == all[i];
      }
    }
  }

  lemma NewestOf(a: seq<Key>, b: seq<Key>, n: nat)
    requires |b| == n
    ensures Newest(a + b, n) == b
  {
  }

  lemma HitAbsorbs(a: seq<Key>, b: seq<Key>, k: Key)
    requires Distinct(a + b) && k in b
    ensures Newest(MoveToEnd(a + b, k), |b|) == MoveToEnd(b, k) && |MoveToEnd(b, k)| == |b|
  {
    DistinctParts(a, b);
    WithoutSplits(a, b, k);
    WithoutLaws(a, k);
    WithoutLaws(b, k);
    assert MoveToEnd(a + b, k) == a + MoveToEnd(b, k);
    NewestOf(a, MoveToEnd(b, k), |b|);
  }

  /** With one more key than fits, the oldest key of b is what falls out, whatever was forgotten before it. */
  lemma AppendDropsOldest(w: seq<Key>, b: seq<Key>, k: Key)
    requires b != []
    ensures Newest(w + b + [k], |b|) == b[1..] + [k]
  {
    var x, kept := w + [b[0]], b[1..] + [k];
    assert [b[0]] + b[1..] == b;
    assert w + b + [k] == x + kept;
    NewestOf(x, kept, |b|);
  }

  lemma MissAbsorbs(a: seq<Key>, b: seq<Key>, k: Key)
    requires k !in b && b != []
    ensures Newest(MoveToEnd(a + b, k), |b|) == Newest(MoveToEnd(b, k), |b|)
  {
    WithoutSplits(a, b, k);
    WithoutMembers(b, k);
    AppendDropsOldest(Without(a, k), b, k);
    AppendDropsOldest([], b, k);
    assert [] + b == b;
  }

  /** A use commutes with forgetting all but the newest keys. */
  lemma NewestAbsorbs(order: seq<Key>, k: Key, n: nat)
    requires Distinct(order) && n > 0
    ensures Newest(MoveToEnd(Newest(order, n), k), n) == Newest(MoveToEnd(order, k), n)
    ensures k in Newest(order, n) ==> MoveToEnd(Newest(order, n), k) == Newest(MoveToEnd(order, k), n)
  {
    if |order| > n {
      var a, b := order[..|order| - n], order[|order| - n..];
      assert order == a + b;
      if k in b {
        HitAbsorbs(a, b, k);
      } else {
        MissAbsorbs(a, b, k);
      }
    } else {
      WithoutLaws(order, k);
    }
  }

  ghost predicate Inv(hash: Source -> Key, s: State) {
    && Distinct(s.order) && |s.order| <= MAX_ENTRIES
    && (forall k :: k in s.order <==> k in s.handles)
    && (forall k :: k in s.handles ==> s.handles[k].codeHash == k)
    && (forall t :: t in s.threads && s.threads[t].Returned? ==>
          s.threads[t].handle.codeHash == hash(s.threads[t].source))
  }

  /** The order after one more use. */
  lemma UseKeepsOrder(order: seq<Key>, k: Key, n: nat)
    requires Distinct(order) && |order| <= n && n > 0
    ensures var all, after := MoveToEnd(order, k), Newest(MoveToEnd(order, k), n);
            && Distinct(after) && |after| <= n && after != [] && after[|after| - 1] == k
            && (forall x :: x in after ==> x in order || x == k)
            && (k in order ==> after == all && forall x :: x in after <==> x in order)
  {
    WithoutLaws(order, k);
    DistinctAppends(Without(order, k), k);
    var all := MoveToEnd(order, k);
    if |all| > n {
      assert all == all[..|all| - n] + Newest(all, n);
      DistinctParts(all[..|all| - n], Newest(all, n));
    }
    assert forall x :: x in Newest(all, n) ==> x in all;
  }

  lemma LookupKeepsInv(hash: Source -> Key, load: Source -> Handle, s: State, t: ThreadId, source: Source)
    requires Inv(hash, s)
    ensures Inv(hash, Next(hash, load, s, LookupBy(t, source)))
  {
    UseKeepsOrder(s.order, hash(source), MAX_ENTRIES);
  }

  /** The two outcomes of the first critical section. */
  lemma LookupStep(hash: Source -> Key, load: Source -> Handle, s: State, t: ThreadId, source: Source)
    requires Inv(hash, s) && !IsLoading(s, t)
    ensures var s', key := Next(hash, load, s, LookupBy(t, source)), hash(source);
            && Inv(hash, s')
            && (key !in s.handles ==> s' == State(s.order, s.handles, s.threads[t := Loading(source)]))
            && (key in s.handles ==>
                  && s.handles[key].codeHash == key
                  && s' == State(MoveToEnd(s.order, key), s.handles, s.threads[t := Returned(source, s.handles[key])]))
  {
    LookupKeepsInv(hash, load, s, t, source);
  }

  lemma InsertKeepsInv(hash: Source -> Key, load: Source -> Handle, s: State, t: ThreadId)
    requires LoaderRecordsHash(hash, load) && Inv(hash, s)
    ensures Inv(hash, Next(hash, load, s, InsertBy(t)))
  {
    if t in s.threads && s.threads[t].Loading? {
      UseKeepsOrder(s.order, hash(s.threads[t].source), MAX_ENTRIES);
    }
  }

  lemma NextKeepsInv(hash: Source -> Key, load: Source -> Handle, s: State, e: Event)
    requires LoaderRecordsHash(hash, load) && Inv(hash, s)
    ensures Inv(hash, Next(hash, load, s, e))
  {
    match e {
      case LookupBy(t, source) => LookupKeepsInv(hash, load, s, t, source);
      case InsertBy(t) => InsertKeepsInv(hash, load, s, t);
      case _ =>
    }
  }

  lemma {:induction false} RunKeepsInv(hash: Source -> Key, load: Source -> Handle, s: State, es: seq<Event>)
    requires LoaderRecordsHash(hash, load) && Inv(hash, s)
    ensures Inv(hash, Run(hash, load, s, es))
  {
    if es != [] {
      RunKeepsInv(hash, load, s, es[..|es| - 1]);
      NextKeepsInv(hash, load, Run(hash, load, s, es[..|es| - 1]), es[|es| - 1]);
    }
  }

  // ------------------------------------------------------------------ the uses, read off the events

  /** The keys used since the cache was last cleared: a lookup uses its key if it is cached, and an insert uses the
      key of the source its thread is loading. */
  function UsesIn(hash: Source -> Key, es: seq<Event>): seq<Key>
    decreases |es|
  {
    if es == [] then []
    else
      var front, e := es[..|es| - 1], es[|es| - 1];
      match e
      case LookupBy(t, source) =>
        UsesIn(hash, front) +
        if LoadsIn(hash, front, t).None? && hash(source) in CachedBy(UsesIn(hash, front)) then [hash(source)] else []
      case InsertBy(t) =>
        UsesIn(hash, front) +
        if LoadsIn(hash, front, t).Some? then [hash(LoadsIn(hash, front, t).value)] else []
      case LoadFails(_) => UsesIn(hash, front)
      case ClearAll => []
  }

  /** The source a thread is loading: the one it looked up in vain and has neither inserted nor failed on. */
  function LoadsIn(hash: Source -> Key, es: seq<Event>, t: ThreadId): Option<Source>
    decreases |es|
  {
    if es == [] then None
    else
      var front, e := es[..|es| - 1], es[|es| - 1];
      var before := LoadsIn(hash, front, t);
      if !ActsFor(e, t) then before
      else if !e.LookupBy? then None
      else if before.None? && hash(e.source) !in CachedBy(UsesIn(hash, front)) then Some(e.source)
      else before
  }

  /** The 256 keys used last, the newest at the end. */
  function CachedBy(uses: seq<Key>): seq<Key> {
    Newest(Recency(uses), 256)
  }

  lemma UseMovesCached(uses: seq<Key>, k: Key)
    ensures CachedBy(uses + [k]) == Newest(MoveToEnd(CachedBy(uses), k), 256)
    ensures k in CachedBy(uses) ==> CachedBy(uses + [k]) == MoveToEnd(CachedBy(uses), k)
  {
    RecencyIsLastUseOrder(uses);
    assert (uses + [k])[..|uses|] == uses;
    NewestAbsorbs(Recency(uses), k, 256);
  }

  function LoadOf(s: State, t: ThreadId): Option<Source> {
    if IsLoading(s, t) then Some(s.threads[t].source) else None
  }

  /** The state is what the events say. */
  ghost predicate Follows(hash: Source -> Key, s: State, es: seq<Event>) {
    s.order == CachedBy(UsesIn(hash, es)) && forall t: ThreadId :: LoadsIn(hash, es, t) == LoadOf(s, t)
  }

  lemma LoadFollows(hash: Source -> Key, load: Source -> Handle, es: seq<Event>, e: Event, s: State, d: ThreadId)
    requires Inv(hash, s) && Follows(hash, s, es)
    ensures LoadsIn(hash, es + [e], d) == LoadOf(Next(hash, load, s, e), d)
  {
    assert (es + [e])[..|es|] == es;
    assert LoadsIn(hash, es, d) == LoadOf(s, d);
  }

  lemma OrderFollows(hash: Source -> Key, load: Source -> Handle, es: seq<Event>, e: Event, s: State)
    requires Inv(hash, s) && Follows(hash, s, es)
    ensures Next(hash, load, s, e).order == CachedBy(UsesIn(hash, es + [e]))
  {
    assert (es + [e])[..|es|] == es;
    var uses := UsesIn(hash, es);
    assert uses + [] == uses;
    match e {
      case LookupBy(t, source) =>
        assert LoadsIn(hash, es, t) == LoadOf(s, t);
        UseMovesCached(uses, hash(source));
      case InsertBy(t) =>
        assert LoadsIn(hash, es, t) == LoadOf(s, t);
        if IsLoading(s, t) { UseMovesCached(uses, hash(s.threads[t].source)); }
      case _ =>
    }
  }

  lemma {:induction false} RunFollows(hash: Source -> Key, load: Source -> Handle, es: seq<Event>)
    requires LoaderRecordsHash(hash, load)
    ensures Follows(hash, Run(hash, load, EMPTY, es), es)
  {
    if es != [] {
      var front, e := es[..|es| - 1], es[|es| - 1];
      var s := Run(hash, load, EMPTY, front);
      RunFollows(hash, load, front);
      RunKeepsInv(hash, load, EMPTY, front);
      assert front + [e] == es;
      OrderFollows(hash, load, front, e, s);
      forall t: ThreadId ensures LoadsIn(hash, es, t) == LoadOf(Next(hash, load, s, e), t) {
        LoadFollows(hash, load, front, e, s, t);
      }
    }
  }

  /** Under any interleaving the cache holds exactly the 256 most recently used keys, in last-use order; every
      entry is filed under its own hash. */
  lemma CacheIsMostRecentlyUsed(hash: Source -> Key, load: Source -> Handle, es: seq<Event>)
    requires LoaderRecordsHash(hash, load)
    ensures var s := Run(hash, load, EMPTY, es);
            && s.order == Newest(Recency(UsesIn(hash, es)), 256) && |s.order| <= 256
            && (forall k :: k in s.order <==> k in s.handles)
            && (forall k :: k in s.handles ==> s.handles[k].codeHash == k)
  {
    RunFollows(hash, load, es);
    RunKeepsInv(hash, load, EMPTY, es);
  }

  /** k is filed under this handle and is the newest key. */
  predicate IsNewest(s: State, k: Key, handle: Handle) {
    s.order != [] && s.order[|s.order| - 1] == k && k in s.handles && s.handles[k] == handle
  }

  /** What a thread has loaded and inserted is the newest entry, and looking it up at once finds it. */
  lemma InsertedIsFound(hash: Source -> Key, load: Source -> Handle, s: State, t: ThreadId, d: ThreadId)
    requires Inv(hash, s) && IsLoading(s, t) && (d == t || !IsLoading(s, d))
    ensures var source := s.threads[t].source;
            var s' := Next(hash, load, s, InsertBy(t));
            && IsNewest(s', hash(source), load(source))
            && s'.threads == s.threads[t := Returned(source, load(source))]
            && Next(hash, load, s', LookupBy(d, source)).threads == s'.threads[d := Returned(source, load(source))]
  {
    UseKeepsOrder(s.order, hash(s.threads[t].source), MAX_ENTRIES);
  }

  /** Whoever calls get_or_load(s) and returns gets a handle with the hash of s, also when several threads miss
      on the same source together. */
  lemma ReturnedHandleMatchesSource(hash: Source -> Key, load: Source -> Handle, es: seq<Event>, t: ThreadId)
    requires LoaderRecordsHash(hash, load)
    requires t in Run(hash, load, EMPTY, es).threads && Run(hash, load, EMPTY, es).threads[t].Returned?
    ensures var r := Run(hash, load, EMPTY, es).threads[t]; r.handle.codeHash == hash(r.source)
  {
    RunKeepsInv(hash, load, EMPTY, es);
  }

  // ------------------------------------------------------------------ the cache object

  class Cache {
    const hash: Source -> Key
    const load: Source -> Handle
    var order: seq<Key>                  // the OrderedDict's keys, oldest first
    var handles: map<Key, Handle>        // ... and its values
    var threads: map<ThreadId, Thread>   // where every thread is in get_or_load

    function View(): State
      reads this
    {
      State(order, handles, threads)
    }

    ghost predicate Valid()
      reads this
    {
      LoaderRecordsHash(hash, load) && Inv(hash, View())
    }

    constructor (hash: Source -> Key, load: Source -> Handle)
      requires LoaderRecordsHash(hash, load)
      ensures Valid() && View() == EMPTY && this.hash == hash && this.load == load
    {
      this.hash, this.load := hash, load;
      order, handles, threads := [], map[], map[];
    }

    /** The first critical section: a hit is moved to the end. */
    method Lookup(t: ThreadId, source: Source) returns (handle: Option<Handle>)
      requires Valid() && !IsLoading(View(), t)
      modifies this
      ensures Valid() && View() == Next(hash, load, old(View()), LookupBy(t, source))
      ensures handle.Some? <==> hash(source) in old(handles)
      ensures handle.Some? ==> IsNewest(View(), hash(source), old(handles)[hash(source)])
      ensures handle.Some? ==> handle.value == old(handles)[hash(source)]
      ensures threads == old(threads)[t := if handle.Some? then Returned(source, handle.value) else Loading(source)]
      ensures handle.Some? ==> handle.value.codeHash == hash(source)
    {
      LookupStep(hash, load, View(), t, source);
      var key := hash(source);
      if key !in handles {
        threads := threads[t := Loading(source)];
        return None;
      }
      handle := Some(handles[key]);
      order, threads := MoveToEnd(order, key), threads[t := Returned(source, handles[key])];
    }

    /** While there are too many entries the oldest is dropped. */
    method Evict()
      requires Distinct(order) && forall k :: k in order <==> k in handles
      modifies this`order, this`handles
      ensures order == Newest(old(order), MAX_ENTRIES) && handles == Kept(old(handles), order)
    {
      ghost var start, dropped := order, 0;
      assert start[0..] == start;
      while |order| > MAX_ENTRIES
        invariant 0 <= dropped <= |start| && order == start[dropped..]
        invariant dropped == 0 || |order| >= MAX_ENTRIES
        invariant Distinct(order) && forall k :: k in order <==> k in handles
        invariant forall k :: k in handles ==> k in old(handles) && handles[k] == old(handles)[k]
        decreases |order|
      {
        var oldest := order[0];
        assert order == [oldest] + order[1..];
        assert order[1..] == start[dropped + 1..];
        DistinctParts([oldest], order[1..]);
        order, handles, dropped := order[1..], handles - {oldest}, dropped + 1;
      }
    }

    method Store(key: Key, handle: Handle)
      requires Distinct(order) && forall k :: k in order <==> k in handles
      modifies this`order, this`handles
      ensures order == Newest(MoveToEnd(old(order), key), MAX_ENTRIES)
      ensures handles == Kept(old(handles)[key := handle], order)
    {
      WithoutLaws(order, key);
      handles := handles[key := handle];
      order := Without(order, key) + [key];
      Evict();
    }

    /** The second critical section: store, move to the end, and evict. */
    method Insert(t: ThreadId, source: Source, handle: Handle)
      requires Valid() && t in threads && threads[t] == Loading(source) && handle == load(source)
      modifies this
      ensures Valid() && View() == Next(hash, load, old(View()), InsertBy(t))
      ensures IsNewest(View(), hash(source), handle)
    {
      NextKeepsInv(hash, load, View(), InsertBy(t));
      InsertedIsFound(hash, load, View(), t, t);
      Store(hash(source), handle);
      threads := threads[t := Returned(source, handle)];
    }

    method Clear()
      requires Valid()
      modifies this
      ensures Valid() && View() == Next(hash, load, old(View()), ClearAll)
    {
      NextKeepsInv(hash, load, View(), ClearAll);
      order, handles := [], map[];
    }

    /** One event of another thread. */
    method Other(t: ThreadId, e: Event)
      requires Valid() && IsLoading(View(), t) && !ActsFor(e, t)
      modifies this
      ensures Valid() && View() == Next(hash, load, old(View()), e)
      ensures IsLoading(View(), t) && threads[t] == old(threads[t])
    {
      NextKeepsInv(hash, load, View(), e);
      OthersLeaveThread(hash, load, View(), e, t);
      var s := Next(hash, load, View(), e);
      order, handles, threads := s.order, s.handles, s.threads;
    }

    /** What the other threads do while this one loads. */
    method Interleave(t: ThreadId, others: seq<Event>)
      requires Valid() && IsLoading(View(), t) && forall e :: e in others ==> !ActsFor(e, t)
      modifies this
      ensures Valid() && View() == Run(hash, load, old(View()), others)
      ensures IsLoading(View(), t) && threads[t] == old(threads[t])
    {
      for i := 0 to |others|
        invariant Valid() && View() == Run(hash, load, old(View()), others[..i])
        invariant IsLoading(View(), t) && threads[t] == old(threads[t])
      {
        RunUnfolds(hash, load, old(View()), others, i);
        Other(t, others[i]);
      }
      assert others[..|others|] == others;
    }

    /** `get_or_load`; None stands for the exception of the loader.  While it loads, outside the lock, the others
        do as they like. */
    method GetOrLoad(t: ThreadId, source: Source, others: seq<Event>, raises: bool) returns (r: Option<Handle>)
      requires Valid() && !IsLoading(View(), t) && forall e :: e in others ==> !ActsFor(e, t)
      modifies this
      ensures Valid()
      ensures View() == if hash(source) in old(handles) then Next(hash, load, old(View()), LookupBy(t, source))
                        else Run(hash, load, old(View()), Missed(t, source, others, raises))
      ensures r.Some? <==> hash(source) in old(handles) || !raises
      ensures r.Some? ==> r.value.codeHash == hash(source) && IsNewest(View(), hash(source), r.value)
    {
      MissedRun(hash, load, View(), t, source, others, raises);
      r := Lookup(t, source);
      if r.Some? {
        return;
      }
      Interleave(t, others);
      if raises {
        NextKeepsInv(hash, load, View(), LoadFails(t));
        threads := threads[t := Failed];
      } else {
        var handle := load(source);
        Insert(t, source, handle);
        r := Some(handle);
      }
    }
  }

  predicate ActsFor(e: Event, t: ThreadId) {
    (e.LookupBy? || e.InsertBy? || e.LoadFails?) && e.thread == t
  }

  lemma OthersLeaveThread(hash: Source -> Key, load: Source -> Handle, s: State, e: Event, t: ThreadId)
    requires t in s.threads && !ActsFor(e, t)
    ensures t in Next(hash, load, s, e).threads && Next(hash, load, s, e).threads[t] == s.threads[t]
  {
  }

  lemma RunUnfolds(hash: Source -> Key, load: Source -> Handle, s: State, es: seq<Event>, i: nat)
    requires i < |es|
    ensures Run(hash, load, s, es[..i + 1]) == Next(hash, load, Run(hash, load, s, es[..i]), es[i])
  {
    assert es[..i + 1][..i] == es[..i];
  }

  /** The events of a call that misses. */
  function Missed(t: ThreadId, source: Source, others: seq<Event>, raises: bool): seq<Event> {
    [LookupBy(t, source)] + others + [if raises then LoadFails(t) else InsertBy(t)]
  }

  lemma {:induction false} RunAfter(hash: Source -> Key, load: Source -> Handle, s: State, e: Event, es: seq<Event>)
    ensures Run(hash, load, s, [e] + es) == Run(hash, load, Next(hash, load, s, e), es)
  {
    if es == [] {
      assert [e] + es == [e] && [e][..0] == [];
      assert Run(hash, load, s, []) == s;
    } else {
      RunAfter(hash, load, s, e, es[..|es| - 1]);
      assert ([e] + es)[..|es|] == [e] + es[..|es| - 1];
    }
  }

  lemma MissedRun(hash: Source -> Key, load: Source -> Handle, s: State, t: ThreadId, source: Source,
                  others: seq<Event>, raises: bool)
    ensures Run(hash, load, s, Missed(t, source, others, raises))
         == Next(hash, load, Run(hash, load, Next(hash, load, s, LookupBy(t, source)), others),
                 if raises then LoadFails(t) else InsertBy(t))
  {
    var front := [LookupBy(t, source)] + others;
    RunAfter(hash, load, s, LookupBy(t, source), others);
    assert Missed(t, source, others, raises)[..|front|] == front;
  }
}
