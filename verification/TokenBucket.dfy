/**
 The token bucket of pkg/ratelimiter/tokenbucket.go. Tokens are exact reals, times are whole
 nanoseconds, and a wait is truncated to whole nanoseconds as in the source.
 */
module TokenBucket {
  import opened Common

  datatype Limits = Limits(rate: real, burst: real)

  datatype Entry = Entry(tokens: real, last: int)

  /** The answer of any limiter. */
  datatype Result = Result(allowed: bool, remaining: int, limit: int, retryAfter: int)

  /** One AllowN call on a key: the clock it read, the tokens asked for, and who asked. */
  datatype Call = Call(now: int, n: int, owner: nat)

  const NANOS := 1_000_000_000.0

  ghost predicate Sane(l: Limits) { l.rate > 0.0 && l.burst >= 1.0 }

  function InSeconds(nanos: int): real { nanos as real / NANOS }

  function MinReal(a: real, b: real): real { if a <= b then a else b }

  /** A request for no tokens counts as a request for one. */
  function Need(n: int): int { if n <= 0 then 1 else n }

  function Refilled(l: Limits, e: Option<Entry>, now: int): Entry {
    if e.None? then Entry(l.burst, now)
    else if InSeconds(now - e.value.last) > 0.0 then
      Entry(MinReal(l.burst, e.value.tokens + InSeconds(now - e.value.last) * l.rate), now)
    else e.value
  }

  predicate Allows(l: Limits, e: Option<Entry>, now: int, n: int) {
    Refilled(l, e, now).tokens >= Need(n) as real
  }

  function Spent(l: Limits, e: Option<Entry>, now: int, n: int): Entry {
    var r := Refilled(l, e, now);
    if Allows(l, e, now, n) then r.(tokens := r.tokens - Need(n) as real) else r
  }

  /** Nanoseconds, not yet truncated, until n tokens are there. */
  function Due(l: Limits, e: Option<Entry>, now: int, n: int): real
    requires l.rate > 0.0
  {
    (Need(n) as real - Refilled(l, e, now).tokens) / l.rate * NANOS
  }

  /** One call on a bucket, spelled out. A new key starts full; time since the last call adds rate
      tokens a second, up to the burst; a request takes n tokens, at least one, if they are there, and
      nothing otherwise. */
  ghost predicate BucketStep(l: Limits, before: Option<Entry>, n: int, now: int, after: Entry, allowed: bool) {
    var need := (if n >= 1 then n else 1) as real;
    var passed := if before.Some? && now > before.value.last then now - before.value.last else 0;
    var there := if before.None? then l.burst else before.value.tokens + passed as real / 1_000_000_000.0 * l.rate;
    var full := if passed > 0 && there > l.burst then l.burst else there;
    && (allowed <==> full >= need)
    && after.tokens == (if allowed then full - need else full)
    && after.last == (if before.Some? && now <= before.value.last then before.value.last else now)
  }

  lemma SpentIsBucketStep(l: Limits, e: Option<Entry>, n: int, now: int)
    ensures BucketStep(l, e, n, now, Spent(l, e, now, n), Allows(l, e, now, n))
  {
    if e.Some? {
      assert InSeconds(now - e.value.last) > 0.0 <==> now > e.value.last;
      assert InSeconds(now - e.value.last) == (now - e.value.last) as real / 1_000_000_000.0;
      hide InSeconds;
    }
  }

  // ---- histories of one key ----

  function After(l: Limits, calls: seq<Call>): Option<Entry> {
    if calls == [] then None
    else
      var c := calls[|calls| - 1];
      Some(Spent(l, After(l, calls[..|calls| - 1]), c.now, c.n))
  }

  /** The tokens the last call of a nonempty history was granted. */
  function LastGrant(l: Limits, calls: seq<Call>): nat
    requires calls != []
  {
    var c := calls[|calls| - 1];
    if Allows(l, After(l, calls[..|calls| - 1]), c.now, c.n) then Need(c.n) else 0
  }

  function GrantedIn(l: Limits, calls: seq<Call>, from: int, to: int): nat {
    if calls == [] then 0
    else
      GrantedIn(l, calls[..|calls| - 1], from, to)
      + (if from <= calls[|calls| - 1].now <= to then LastGrant(l, calls) else 0)
  }

  function GrantedTo(l: Limits, calls: seq<Call>, owner: nat): nat {
    if calls == [] then 0
    else
      GrantedTo(l, calls[..|calls| - 1], owner)
      + (if calls[|calls| - 1].owner == owner then LastGrant(l, calls) else 0)
  }

  /** The tokens granted are those of the calls that were allowed, n each and at least one. */
  lemma GrantedInAppend(l: Limits, calls: seq<Call>, c: Call, from: int, to: int)
    ensures GrantedIn(l, [], from, to) == 0
    ensures GrantedIn(l, calls + [c], from, to) == GrantedIn(l, calls, from, to)
            + if from <= c.now <= to && Allows(l, After(l, calls), c.now, c.n) then (if c.n >= 1 then c.n else 1) else 0
  {
    assert (calls + [c])[..|calls|] == calls;
  }

  ghost predicate Nondecreasing(calls: seq<Call>) {
    forall i, j :: 0 <= i < j < |calls| ==> calls[i].now <= calls[j].now
  }

  lemma OtherKey(prefix: string, key: string, other: string)
    requires other != key
    ensures prefix + other != prefix + key
  {
    assert (prefix + other)[|prefix|..] == other && (prefix + key)[|prefix|..] == key;
  }

  lemma BucketAppend(l: Limits, calls: seq<Call>, c: Call)
    ensures After(l, []) == None
    ensures After(l, calls + [c]) == Some(Spent(l, After(l, calls), c.now, c.n))
  {
    assert (calls + [c])[..|calls|] == calls;
  }

  class TokenBucketLimiter {
    const limits: Limits
    const prefix: string
    var buckets: map<string, Entry>
    /** Every AllowN call since the key was last reset. */
    ghost var calls: map<string, seq<Call>>

    ghost predicate Valid()
      reads this
    {
      && Sane(limits)
      && buckets.Keys == calls.Keys
      && forall k :: k in buckets ==> After(limits, calls[k]) == Some(buckets[k])
    }

    ghost function History(key: string): seq<Call>
      reads this
    {
      if prefix + key in calls then calls[prefix + key] else []
    }

    function Bucket(key: string): Option<Entry>
      reads this
    {
      if prefix + key in buckets then Some(buckets[prefix + key]) else None
    }

    /** Non-positive rates and bursts below one are replaced. */
    constructor (rate: real, burst: real, prefix: string)
      ensures Valid() && buckets == map[] && calls == map[] && this.prefix == prefix
      ensures limits.rate == (if rate <= 0.0 then 1.0 else rate) && limits.burst == (if burst < 1.0 then 1.0 else burst)
    {
      limits := Limits(if rate <= 0.0 then 1.0 else rate, if burst < 1.0 then 1.0 else burst);
      this.prefix, buckets, calls := prefix, map[], map[];
    }

    method AllowN(key: string, n: int, now: int, ghost owner: nat) returns (res: Result)
      requires Valid()
      modifies this
      ensures Valid()
      ensures History(key) == old(History(key)) + [Call(now, n, owner)]
      ensures forall k :: k != key ==> History(k) == old(History(k)) && Bucket(k) == old(Bucket(k))
      ensures res.allowed == Allows(limits, old(Bucket(key)), now, n)
      ensures Bucket(key) == Some(Spent(limits, old(Bucket(key)), now, n))
      ensures BucketStep(limits, old(Bucket(key)), n, now, Bucket(key).value, res.allowed)
      ensures res.limit == limits.burst.Floor && res.remaining == Bucket(key).value.tokens.Floor
      ensures res.retryAfter == if res.allowed then 0 else Due(limits, old(Bucket(key)), now, n).Floor
    {
      var fullKey := prefix + key;
      forall k | k != key ensures prefix + k != fullKey { OtherKey(prefix, key, k); }
      hide Allows, Spent, Due, After, BucketStep;
      ghost var h := old(History(key)) + [Call(now, n, owner)];
      BucketAppend(limits, old(History(key)), Call(now, n, owner));
      var e;
      e, res := Answer(fullKey, n, now);
      Put(fullKey, e, h);
    }

    method Put(fullKey: string, e: Entry, ghost h: seq<Call>)
      requires Valid() && After(limits, h) == Some(e)
      modifies this
      ensures Valid() && buckets == old(buckets)[fullKey := e] && calls == old(calls)[fullKey := h]
    {
      hide After;
      calls, buckets := calls[fullKey := h], buckets[fullKey := e];
    }

    /** The bucket brought up to date; a new key starts full. */
    method Refill(fullKey: string, now: int) returns (e: Entry)
      ensures e == Refilled(limits, if fullKey in buckets then Some(buckets[fullKey]) else None, now)
    {
      if fullKey !in buckets {
        return Entry(limits.burst, now);
      }
      e := buckets[fullKey];
      var elapsed := InSeconds(now - e.last);
      if elapsed > 0.0 {
        e := Entry(MinReal(limits.burst, e.tokens + elapsed * limits.rate), now);
      }
    }

    /** The decision, and the bucket as it is then stored. */
    method Answer(fullKey: string, n: int, now: int) returns (e: Entry, res: Result)
      requires Sane(limits)
      ensures var before := if fullKey in buckets then Some(buckets[fullKey]) else None;
        && e == Spent(limits, before, now, n)
        && BucketStep(limits, before, n, now, e, res.allowed)
        && res.allowed == Allows(limits, before, now, n)
        && res.retryAfter == if res.allowed then 0 else Due(limits, before, now, n).Floor
      ensures res.limit == limits.burst.Floor && res.remaining == e.tokens.Floor
    {
      SpentIsBucketStep(limits, if fullKey in buckets then Some(buckets[fullKey]) else None, n, now);
      hide BucketStep;
      hide Refilled;
      var need := if n <= 0 then 1.0 else n as real;
      e := Refill(fullKey, now);
      if e.tokens >= need {
        e := e.(tokens := e.tokens - need);
        return e, Result(true, e.tokens.Floor, limits.burst.Floor, 0);
      }
      var deficit := need - e.tokens;
      res := Result(false, e.tokens.Floor, limits.burst.Floor, (deficit / limits.rate * NANOS).Floor);
    }

    method Reset(key: string)
      requires Valid()
      modifies this
      ensures Valid() && Bucket(key) == None && History(key) == []
    {
      buckets, calls := buckets - {prefix + key}, calls - {prefix + key};
    }
  }

  // ---- the rate bound ----

  /** The refill of an interval, at most. */
  function Inflow(l: Limits, nanos: int): real { InSeconds(nanos) * l.rate }

  lemma RefillBound(l: Limits, e: Entry, now: int)
    requires Sane(l) && e.last <= now && e.tokens <= l.burst
    ensures Refilled(l, Some(e), now).last == now && Refilled(l, Some(e), now).tokens <= l.burst
    ensures Refilled(l, Some(e), now).tokens <= e.tokens + Inflow(l, now - e.last)
  {
    assert InSeconds(0) == 0.0;
    if now > e.last { assert InSeconds(now - e.last) > 0.0; }
  }

  lemma {:induction false} BucketIsWithinBurst(l: Limits, calls: seq<Call>)
    requires Sane(l) && calls != [] && Nondecreasing(calls)
    ensures var e := After(l, calls).value; 0.0 <= e.tokens <= l.burst && e.last == calls[|calls| - 1].now
  {
    var init, c := calls[..|calls| - 1], calls[|calls| - 1];
    if init != [] {
      BucketIsWithinBurst(l, init);
      var e := After(l, init).value;
      RefillBound(l, e, c.now);
      RefillNeverLoses(l, e, c.now);
    }
  }

  lemma RefillNeverLoses(l: Limits, e: Entry, now: int)
    requires Sane(l) && e.tokens <= l.burst
    ensures Refilled(l, Some(e), now).tokens >= e.tokens
  {
    if InSeconds(now - e.last) > 0.0 { assert InSeconds(now - e.last) * l.rate > 0.0; }
  }

  lemma SecondsAdd(a: int, b: int, rate: real)
    ensures InSeconds(a) * rate + InSeconds(b) * rate == InSeconds(a + b) * rate
  {
    assert InSeconds(a) + InSeconds(b) == InSeconds(a + b);
  }

  lemma SecondsGrow(a: int, b: int, rate: real)
    requires 0 <= a <= b && rate > 0.0
    ensures 0.0 <= InSeconds(a) * rate <= InSeconds(b) * rate
  {
    assert 0.0 <= InSeconds(a) <= InSeconds(b);
    assert (InSeconds(b) - InSeconds(a)) * rate >= 0.0;
  }

  lemma SpendKeepsTotal(l: Limits, e: Option<Entry>, now: int, n: int)
    ensures (if Allows(l, e, now, n) then Need(n) else 0) as real + Spent(l, e, now, n).tokens ==
        Refilled(l, e, now).tokens
  {
  }

  /** One more call: what is granted plus what is left is at most the burst, and at most what was
      left before plus the inflow since. */
  lemma OneCall(l: Limits, calls: seq<Call>)
    requires Sane(l) && calls != [] && Nondecreasing(calls)
    ensures var init, c := calls[..|calls| - 1], calls[|calls| - 1];
      && LastGrant(l, calls) as real + After(l, calls).value.tokens <= l.burst
      && (init != [] ==>
            LastGrant(l, calls) as real + After(l, calls).value.tokens
            <= After(l, init).value.tokens + Inflow(l, c.now - init[|init| - 1].now))
  {
    var init, c := calls[..|calls| - 1], calls[|calls| - 1];
    var e := After(l, init);
    SpendKeepsTotal(l, e, c.now, c.n);
    if init != [] {
      BucketIsWithinBurst(l, init);
      RefillBound(l, e.value, c.now);
    }
  }

  /** Granted in the interval plus left over is within the burst and the inflow so far. */
  ghost predicate Bounded(l: Limits, calls: seq<Call>, from: int, to: int) {
    && (calls == [] || calls[|calls| - 1].now < from ==> GrantedIn(l, calls, from, to) == 0)
    && (calls != [] && from <= calls[|calls| - 1].now <= to ==>
          GrantedIn(l, calls, from, to) as real + After(l, calls).value.tokens <= l.burst
              + Inflow(l, calls[|calls| - 1].now - from))
    && GrantedIn(l, calls, from, to) as real <= l.burst + Inflow(l, to - from)
  }

  lemma InsideTotal(l: Limits, calls: seq<Call>, from: int, to: int)
    requires Sane(l) && Nondecreasing(calls) && calls != [] && from <= calls[|calls| - 1].now <= to
    requires Bounded(l, calls[..|calls| - 1], from, to)
    ensures GrantedIn(l, calls, from, to) as real + After(l, calls).value.tokens <= l.burst
        + Inflow(l, calls[|calls| - 1].now - from)
  {
    var init, now := calls[..|calls| - 1], calls[|calls| - 1].now;
    var grant, left := LastGrant(l, calls) as real, After(l, calls).value.tokens;
    OneCall(l, calls);
    if init == [] || init[|init| - 1].now < from {
      InflowGrows(l, 0, now - from);
    } else {
      InflowAdds(l, init[|init| - 1].now - from, now - init[|init| - 1].now);
    }
  }

  lemma InflowGrows(l: Limits, a: int, b: int)
    requires Sane(l) && 0 <= a <= b
    ensures 0.0 <= Inflow(l, a) <= Inflow(l, b)
  {
    SecondsGrow(a, b, l.rate);
  }

  lemma InflowAdds(l: Limits, a: int, b: int)
    ensures Inflow(l, a) + Inflow(l, b) == Inflow(l, a + b)
  {
    SecondsAdd(a, b, l.rate);
  }

  lemma {:induction false} AlwaysBounded(l: Limits, calls: seq<Call>, from: int, to: int)
    requires Sane(l) && Nondecreasing(calls) && from <= to
    ensures Bounded(l, calls, from, to)
  {
    InflowGrows(l, 0, to - from);
    if calls != [] {
      AlwaysBounded(l, calls[..|calls| - 1], from, to);
      if from <= calls[|calls| - 1].now <= to {
        InsideTotal(l, calls, from, to);
        BucketIsWithinBurst(l, calls);
        InflowGrows(l, calls[|calls| - 1].now - from, to - from);
      }
    }
  }

  /** Over any interval, and whoever the callers are, one account is granted at most
      burst + rate * length tokens. */
  lemma RateBound(l: Limits, calls: seq<Call>, from: int, to: int)
    requires Sane(l) && Nondecreasing(calls) && from <= to
    ensures GrantedIn(l, calls, from, to) as real <= l.burst + Inflow(l, to - from)
  {
    AlwaysBounded(l, calls, from, to);
  }
}
