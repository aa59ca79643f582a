/** The token bucket in front of the LLM proxy (user-server/user_server/llm/rate_limit.py). */
module RateLimit {
  import opened Options
  import opened RealLemmas

  datatype Bucket = Bucket(capacity: real, refillPerSec: real, tokens: real, last: real)

  datatype Call = Call(now: real, cost: real)

  function Min(a: real, b: real): real {
    if a < b then a else b
  }

  function Refilled(b: Bucket, now: real): real {
    Min(b.capacity, b.tokens + Times(now - b.last, b.refillPerSec))
  }

  predicate Granted(b: Bucket, c: Call) {
    Refilled(b, c.now) >= c.cost
  }

  function Take(b: Bucket, c: Call): Bucket {
    b.(tokens := if Granted(b, c) then Refilled(b, c.now) - c.cost else Refilled(b, c.now), last := c.now)
  }

  function Run(b: Bucket, calls: seq<Call>): Bucket {
    if calls == [] then b else Take(Run(b, calls[..|calls| - 1]), calls[|calls| - 1])
  }

  class TokenBucket {
    const capacity: real
    const refillPerSec: real
    var tokens: real
    var last: real

    constructor (capacity: real, refillPerSec: real, now: real)
      ensures View() == Bucket(capacity, refillPerSec, capacity, now)
    {
      this.capacity, this.refillPerSec, tokens, last := capacity, refillPerSec, capacity, now;
    }

    function View(): Bucket
      reads this
    {
      Bucket(capacity, refillPerSec, tokens, last)
    }

    method TakeTokens(now: real, cost: real) returns (ok: bool)
      modifies this
      ensures ok == Granted(old(View()), Call(now, cost))
      ensures View() == Take(old(View()), Call(now, cost))
    {
      tokens := Min(capacity, tokens + Times(now - last, refillPerSec));
      last := now;
      if tokens >= cost {
        tokens := tokens - cost;
        return true;
      }
      return false;
    }
  }

  /** The process-wide bucket and the counters that only observe. */
  class RateLimiter {
    const bucket: TokenBucket
    var agentCounts: map<string, nat>

    constructor (now: real)
      ensures fresh(bucket) && agentCounts == map[]
      ensures bucket.View() == Bucket(60.0, 1.0, 60.0, now)
    {
      bucket := new TokenBucket(60.0, 1.0, now);
      agentCounts := map[];
    }

    /** False stands for the RateLimited error. */
    method CheckAndCount(agentId: Option<string>, now: real) returns (ok: bool)
      modifies this, bucket
      ensures ok == Granted(old(bucket.View()), Call(now, 1.0))
      ensures bucket.View() == Take(old(bucket.View()), Call(now, 1.0))
      ensures agentCounts == if ok then Counted(old(agentCounts), agentId) else old(agentCounts)
    {
      ok := bucket.TakeTokens(now, 1.0);
      if ok && agentId.Some? && agentId.value != "" {
        var n := if agentId.value in agentCounts then agentCounts[agentId.value] else 0;
        agentCounts := agentCounts[agentId.value := n + 1];
      }
    }
  }

  function Counted(counts: map<string, nat>, agentId: Option<string>): map<string, nat> {
    if agentId.None? || agentId.value == "" then counts
    else counts[agentId.value := (if agentId.value in counts then counts[agentId.value] else 0) + 1]
  }

  // ------------------------------------------------------------------ the laws

  predicate Sane(b: Bucket) {
    0.0 <= b.tokens <= b.capacity && b.refillPerSec >= 0.0
  }

  /** The clock never runs backwards, from `b.last` on, and no cost is negative. */
  predicate Monotone(b: Bucket, calls: seq<Call>) {
    && (forall i :: 0 <= i < |calls| ==> calls[i].cost >= 0.0 && calls[i].now >= b.last)
    && (forall i, j :: 0 <= i < j < |calls| ==> calls[i].now <= calls[j].now)
  }

  lemma RefillNeverTakes(b: Bucket, now: real)
    requires Sane(b) && now >= b.last
    ensures b.tokens <= Refilled(b, now) <= b.capacity
  {
    TimesMono(0.0, now - b.last, b.refillPerSec);
    TimesZero(b.refillPerSec, 0.0);
    TimesZero(now - b.last, b.refillPerSec);
  }

  /** Tokens stay within [0, capacity] in every run. */
  lemma {:induction false} TokensStayInRange(b: Bucket, calls: seq<Call>)
    requires Sane(b) && Monotone(b, calls)
    ensures Sane(Run(b, calls)) && Run(b, calls).last >= b.last
    ensures Run(b, calls).capacity == b.capacity && Run(b, calls).refillPerSec == b.refillPerSec
    ensures calls != [] ==> Run(b, calls).last == calls[|calls| - 1].now
  {
    if calls != [] {
      var front := calls[..|calls| - 1];
      TokensStayInRange(b, front);
      RefillNeverTakes(Run(b, front), calls[|calls| - 1].now);
    }
  }

  function GrantedCost(b: Bucket, calls: seq<Call>): real {
    if calls == [] then 0.0
    else
      var front, c := calls[..|calls| - 1], calls[|calls| - 1];
      GrantedCost(b, front) + if Granted(Run(b, front), c) then c.cost else 0.0
  }

  /** What is left and what was granted never exceed a full bucket plus the refill since the first call. */
  lemma {:induction false} PotentialIsBounded(b: Bucket, calls: seq<Call>)
    requires Sane(b) && Monotone(b, calls) && calls != []
    ensures Run(b, calls).tokens + GrantedCost(b, calls)
         <= b.capacity + Times(calls[|calls| - 1].now - calls[0].now, b.refillPerSec)
  {
    var m := |calls| - 1;
    var front, c := calls[..m], calls[m];
    TimesZero(0.0, b.refillPerSec);
    if m == 0 {
      RefillNeverTakes(b, c.now);
      assert Run(b, front) == b && GrantedCost(b, front) == 0.0;
    } else {
      PotentialIsBounded(b, front);
      TokensStayInRange(b, front);
      TimesAdd(front[m - 1].now - calls[0].now, c.now - front[m - 1].now, b.refillPerSec);
    }
  }

  /** Window bound: over any stretch of calls of any run, the granted cost is at most the capacity plus the
      refill over the time from the first to the last of them. */
  lemma GrantsAreRateLimited(b: Bucket, before: seq<Call>, stretch: seq<Call>)
    requires Sane(b) && Monotone(b, before + stretch) && stretch != []
    ensures GrantedCost(Run(b, before), stretch)
         <= b.capacity + Times(stretch[|stretch| - 1].now - stretch[0].now, b.refillPerSec)
  {
    var all := before + stretch;
    forall i | 0 <= i < |before| ensures before[i] == all[i] {
    }
    forall i | 0 <= i < |stretch| ensures stretch[i] == all[|before| + i] {
    }
    TokensStayInRange(b, before);
    var mid := Run(b, before);
    assert Monotone(mid, stretch);
    PotentialIsBounded(mid, stretch);
    TokensStayInRange(mid, stretch);
  }

  /** The calls that were granted. */
  function Accepted(b: Bucket, calls: seq<Call>): seq<Call> {
    if calls == [] then []
    else
      var front, c := calls[..|calls| - 1], calls[|calls| - 1];
      if Granted(Run(b, front), c) then Accepted(b, front) + [c] else Accepted(b, front)
  }

  /** Refilling in two steps is refilling in one. */
  lemma RefillTwice(cap: real, tokens: real, t0: real, t1: real, t2: real, rate: real)
    requires t0 <= t1 <= t2 && rate >= 0.0
    ensures Min(cap, Min(cap, tokens + Times(t1 - t0, rate)) + Times(t2 - t1, rate))
         == Min(cap, tokens + Times(t2 - t0, rate))
  {
    TimesAdd(t1 - t0, t2 - t1, rate);
    TimesMono(0.0, t2 - t1, rate);
    TimesZero(rate, 0.0);
    TimesZero(t2 - t1, rate);
  }

  lemma {:induction false} RunKeepsParameters(b: Bucket, calls: seq<Call>)
    ensures Run(b, calls).capacity == b.capacity && Run(b, calls).refillPerSec == b.refillPerSec
  {
    if calls != [] {
      RunKeepsParameters(b, calls[..|calls| - 1]);
    }
  }

  lemma TakeDependsOnRefill(s: Bucket, t: Bucket, c: Call)
    requires s.capacity == t.capacity && s.refillPerSec == t.refillPerSec
    requires Refilled(s, c.now) == Refilled(t, c.now)
    ensures Granted(s, c) == Granted(t, c) && Take(s, c) == Take(t, c)
  {
  }

  lemma DeniedTakeLeavesNoTrace(s: Bucket, c: Call, later: real)
    requires Sane(s) && s.last <= c.now <= later && !Granted(s, c)
    ensures Refilled(Take(s, c), later) == Refilled(s, later)
  {
    RefillTwice(s.capacity, s.tokens, s.last, c.now, later, s.refillPerSec);
  }

  lemma AppendAccepted(b: Bucket, kept: seq<Call>, c: Call)
    requires Granted(Run(b, kept), c) && Accepted(b, kept) == kept
    ensures Run(b, kept + [c]) == Take(Run(b, kept), c)
    ensures Accepted(b, kept + [c]) == kept + [c]
  {
    assert (kept + [c])[..|kept|] == kept;
  }

  /** Denied calls leave no trace: without them the bucket refills to the same level at any later time, and every
      remaining call is granted. */
  lemma {:induction false} DeniedCallsLeaveNoTrace(b: Bucket, calls: seq<Call>, later: real)
    requires Sane(b) && Monotone(b, calls)
    requires later >= b.last && forall i :: 0 <= i < |calls| ==> calls[i].now <= later
    ensures Refilled(Run(b, Accepted(b, calls)), later) == Refilled(Run(b, calls), later)
    ensures Accepted(b, Accepted(b, calls)) == Accepted(b, calls)
  {
    if calls != [] {
      var m := |calls| - 1;
      var front, c := calls[..m], calls[m];
      var kept := Accepted(b, front);
      DeniedCallsLeaveNoTrace(b, front, c.now);
      DeniedCallsLeaveNoTrace(b, front, later);
      TokensStayInRange(b, front);
      RunKeepsParameters(b, kept);
      TakeDependsOnRefill(Run(b, kept), Run(b, front), c);
      if Granted(Run(b, front), c) {
        AppendAccepted(b, kept, c);
      } else {
        DeniedTakeLeavesNoTrace(Run(b, front), c, later);
      }
    }
  }

  /** An idle bucket grants again: after the time its rate needs for the cost, whatever was left in it. */
  lemma IdleBucketGrants(b: Bucket, c: Call)
    requires Sane(b) && b.refillPerSec > 0.0 && 0.0 <= c.cost <= b.capacity
    requires c.now >= b.last + c.cost / b.refillPerSec
    ensures Granted(b, c)
  {
    DivMul(c.cost, b.refillPerSec);
    TimesMono(c.cost / b.refillPerSec, c.now - b.last, b.refillPerSec);
    TimesZero(c.now - b.last, b.refillPerSec);
    TimesZero(c.cost / b.refillPerSec, b.refillPerSec);
  }

  /** In particular so does one that has just denied the call, and it cannot grant sooner: it grants exactly once
      the time for what it lacked has passed. */
  lemma DeniedCallWaits(b: Bucket, c: Call, later: real)
    requires Sane(b) && b.refillPerSec > 0.0 && c.cost <= b.capacity && c.now >= b.last && later >= c.now
    requires !Granted(b, c)
    ensures Granted(Take(b, c), Call(later, c.cost))
       <==> later - c.now >= (c.cost - Refilled(b, c.now)) / b.refillPerSec
  {
    var lack, wait, rate := c.cost - Refilled(b, c.now), later - c.now, b.refillPerSec;
    DivMul(lack, rate);
    TimesZero(wait, rate);
    if wait >= lack / rate {
      MulMono(lack / rate, wait, rate);
    } else {
      MulMonoStrict(wait, lack / rate, rate);
    }
  }
}
