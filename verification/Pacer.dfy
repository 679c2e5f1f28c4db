/**
 Outbound pacing (pkg/ratelimiter/pacer.go): the ban gate, the recipient cap and the loop that
 waits for account tokens.

 Time comes from a clock whose every reading is later than the one before, by at most `gap`;
 a sleep of d ends at least d later, and may end any amount later.
 */
module Pacer {
  import opened Common
  import opened TokenBucket
  import FixedWindow

  class Clock {
    var now: int
    const gap: int

    constructor (start: int, gap: int)
      requires gap >= 1
      ensures now == start && this.gap == gap
    {
      now, this.gap := start, gap;
    }

    method Read() returns (t: int)
      requires gap >= 1
      modifies this
      ensures old(now) < t <= old(now) + gap && now == t
    {
      var tick: int := *;
      t := now + (if 1 <= tick <= gap then tick else 1);
      now := t;
    }

    method Sleep(d: int)
      modifies this
      ensures now >= old(now) + Max(d, 0)
    {
      var late: int := *;
      now := now + Max(d, 0) + Max(late, 0);
    }
  }

  datatype Verdict = Cleared | Limited(retryAfter: int, limit: int, remaining: int) | Cancelled

  /** The readings and jitter of a run that had the account to itself. */
  datatype Readings = Readings(start: int, first: int, check: int, jitter: int, second: int)

  // ---- one waiting loop with no other spender ----

  /** How long the loop sleeps after a first refusal. */
  function FirstSleep(l: Limits, e: Option<Entry>, n: int, maxWait: int, r: Readings): int
    requires l.rate > 0.0
  {
    Min(Due(l, e, r.first, n).Floor + r.jitter, r.start + maxWait - r.check)
  }

  /** Readings that a clock with this gap can give, as far as the loop takes them. */
  ghost predicate Possible(l: Limits, e: Option<Entry>, n: int, maxWait: int, gap: int, r: Readings)
    requires l.rate > 0.0
  {
    && r.start < r.first <= r.start + gap
    && (!Allows(l, e, r.first, n) ==>
          && r.first < r.check <= r.first + gap && 0 <= r.jitter
          && (r.check < r.start + maxWait ==> r.second > r.check + FirstSleep(l, e, n, maxWait, r)))
  }

  /** Whether the loop clears the request: at the first attempt, or at a second one after a single
      sleep. */
  predicate Clears(l: Limits, e: Option<Entry>, n: int, maxWait: int, r: Readings) {
    || Allows(l, e, r.first, n)
    || (r.check < r.start + maxWait && Allows(l, Some(Spent(l, e, r.first, n)), r.second, n))
  }

  /** A bucket within its capacity, last touched no later than `now`. */
  ghost predicate Usable(l: Limits, e: Option<Entry>, now: int) {
    Sane(l) && (e.Some? ==> e.value.tokens <= l.burst && e.value.last <= now)
  }

  lemma InTime(x: real, deficit: real, rate: real)
    requires rate > 0.0
    ensures x / NANOS * rate >= deficit <==> x >= deficit / rate * NANOS
  {
    var q := deficit / rate;
    assert q * rate == deficit;
    assert x / NANOS * rate - deficit == (x / NANOS - q) * rate;
    assert x / NANOS >= q <==> x >= q * NANOS;
  }

  lemma RefillFrom(l: Limits, e: Entry, now: int)
    requires Sane(l) && e.last <= now && e.tokens <= l.burst
    ensures Refilled(l, Some(e), now) == Entry(MinReal(l.burst, e.tokens + Inflow(l, now - e.last)), now)
  {
    assert InSeconds(0) * l.rate == 0.0;
    if now > e.last { assert InSeconds(now - e.last) > 0.0; }
  }

  /** Refilling to one time and then to a later one is refilling to the later one. */
  lemma RefillInTwoSteps(l: Limits, e: Option<Entry>, a: int, b: int)
    requires Usable(l, e, a) && a <= b
    ensures Usable(l, Some(Refilled(l, e, a)), a) && Refilled(l, e, a).last == a
    ensures Refilled(l, Some(Refilled(l, e, a)), b).tokens ==
        Refilled(l, if e.None? then Some(Entry(l.burst, a)) else e, b).tokens
  {
    if e.Some? {
      RefillFrom(l, e.value, a);
      RefillFrom(l, e.value, b);
      InflowAdds(l, a - e.value.last, b - a);
      InflowGrows(l, 0, b - a);
    }
    RefillFrom(l, Refilled(l, e, a), b);
  }

  /** Later is allowed exactly when the time due at an earlier moment has passed. */
  lemma AllowedOnceDue(l: Limits, e: Entry, now: int, n: int)
    requires Usable(l, Some(e), now) && Need(n) as real <= l.burst
    ensures Allows(l, Some(e), now, n) <==> (now - e.last) as real >= (Need(n) as real - e.tokens) / l.rate * NANOS
  {
    RefillFrom(l, e, now);
    InTime((now - e.last) as real, Need(n) as real - e.tokens, l.rate);
  }

  /** Both attempts, in terms of the time due when the loop took its first reading. */
  lemma AttemptsAgainstDue(l: Limits, e: Option<Entry>, n: int, start: int, first: int, second: int)
    requires Usable(l, e, start) && Need(n) as real <= l.burst && start <= first <= second
    ensures Allows(l, e, first, n) <==> (first - start) as real >= Due(l, e, start, n)
    ensures !Allows(l, e, first, n) ==> Due(l, e, first, n) == Due(l, e, start, n) - (first - start) as real
    ensures !Allows(l, e, first, n) ==>
              (Allows(l, Some(Spent(l, e, first, n)), second, n) <==> (second - start) as real >= Due(l, e, start, n))
  {
    var s := Refilled(l, e, start);
    RefillInTwoSteps(l, e, start, first);
    if e.None? {
      FullBucketAllows(l, first, n);
      FullBucketAllows(l, start, n);
    } else {
      AllowedOnceDue(l, s, first, n);
      if !Allows(l, e, first, n) { RefusedThenDue(l, e, n, start, first, second); }
    }
  }

  lemma FullBucketAllows(l: Limits, now: int, n: int)
    requires Sane(l) && Need(n) as real <= l.burst
    ensures Allows(l, None, now, n) && Due(l, None, now, n) <= 0.0
  {
    assert (Need(n) as real - l.burst) / l.rate <= 0.0;
  }

  lemma RefusedThenDue(l: Limits, e: Option<Entry>, n: int, start: int, first: int, second: int)
    requires e.Some? && Usable(l, e, start) && Need(n) as real <= l.burst && start <= first <= second
    requires !Allows(l, e, first, n)
    ensures Due(l, e, first, n) == Due(l, e, start, n) - (first - start) as real
    ensures Allows(l, Some(Spent(l, e, first, n)), second, n) <==> (second - start) as real >= Due(l, e, start, n)
  {
    hide Refilled, Inflow;
    var s, f := Refilled(l, e, start), Refilled(l, e, first);
    StillFilling(l, e, n, start, first);
    DueFalls(Need(n) as real, s.tokens, l.rate, first - start);
    AllowedOnceDue(l, f, second, n);
  }

  /** A bucket that refuses has not been full since. */
  lemma StillFilling(l: Limits, e: Option<Entry>, n: int, start: int, first: int)
    requires e.Some? && Usable(l, e, start) && Need(n) as real <= l.burst && start <= first
    requires !Allows(l, e, first, n)
    ensures var s := Refilled(l, e, start);
      && Refilled(l, e, first) == Entry(s.tokens + InSeconds(first - start) * l.rate, first)
      && Usable(l, Some(Refilled(l, e, first)), first)
  {
    RefillInTwoSteps(l, e, start, first);
    RefillFrom(l, Refilled(l, e, start), first);
    RefillFrom(l, e.value, first);
  }

  lemma DueFalls(need: real, tokens: real, rate: real, nanos: int)
    requires rate > 0.0
    ensures (need - (tokens + InSeconds(nanos) * rate)) / rate * NANOS == (need - tokens) / rate * NANOS - nanos as real
  {
    assert (need - (tokens + InSeconds(nanos) * rate)) / rate == (need - tokens) / rate - InSeconds(nanos);
  }

  /** Although the reported wait is rounded down, an uncapped sleep is always long enough: a second
      refusal means the deadline has passed. So there is never a third attempt. */
  lemma NoThirdAttempt(l: Limits, e: Option<Entry>, n: int, maxWait: int, gap: int, r: Readings)
    requires Usable(l, e, r.start) && Need(n) as real <= l.burst && Possible(l, e, n, maxWait, gap, r)
    requires !Allows(l, e, r.first, n) && r.check < r.start + maxWait
    ensures r.first < r.second
    ensures !Allows(l, Some(Spent(l, e, r.first, n)), r.second, n) ==> r.second > r.start + maxWait
  {
    RefusalHasWait(l, e, r.first, n);
    AttemptsAgainstDue(l, e, n, r.start, r.first, r.second);
  }

  function Ceil(x: real): int { -((-x).Floor) }

  /** When the longest wait is enough, for a clock whose readings are at most `gap` apart and a
      request for which `due` nanoseconds are missing when the loop starts. */
  predicate Enough(due: real, maxWait: int, gap: int) {
    due <= 1.0 || (due <= (maxWait + 1) as real && maxWait > gap + Min(gap, Ceil(due) - 1))
  }

  lemma EnoughSuffices(l: Limits, e: Option<Entry>, n: int, maxWait: int, gap: int, r: Readings)
    requires Usable(l, e, r.start) && Need(n) as real <= l.burst && Possible(l, e, n, maxWait, gap, r)
    requires Enough(Due(l, e, r.start, n), maxWait, gap)
    ensures Clears(l, e, n, maxWait, r)
  {
    var due := Due(l, e, r.start, n);
    AttemptsAgainstDue(l, e, n, r.start, r.first, r.first);
    if !Allows(l, e, r.first, n) {
      assert r.first - r.start <= Ceil(due) - 1;
      assert r.check < r.start + maxWait;
      NoThirdAttempt(l, e, n, maxWait, gap, r);
      AttemptsAgainstDue(l, e, n, r.start, r.first, r.second);
    }
  }

  /** Readings on which the request is refused although nothing else spends. */
  function Unlucky(due: real, maxWait: int, gap: int, start: int): Readings {
    if maxWait <= gap + Min(gap, Ceil(due) - 1) then
      var first := start + Min(gap, Ceil(due) - 1);
      Readings(start, first, first + gap, 0, start)
    else Readings(start, start + 1, start + 2, 0, start + maxWait + 1)
  }

  lemma EnoughIsNeeded(l: Limits, e: Option<Entry>, n: int, maxWait: int, gap: int, start: int)
    requires Usable(l, e, start) && Need(n) as real <= l.burst && gap >= 1
    requires !Enough(Due(l, e, start, n), maxWait, gap)
    ensures var r := Unlucky(Due(l, e, start, n), maxWait, gap, start);
      Possible(l, e, n, maxWait, gap, r) && !Clears(l, e, n, maxWait, r)
  {
    var due := Due(l, e, start, n);
    var r := Unlucky(due, maxWait, gap, start);
    assert Ceil(due) >= 2;
    AttemptsAgainstDue(l, e, n, start, r.first, r.first);
    assert !Allows(l, e, r.first, n);
    if r.check < start + maxWait {
      AttemptsAgainstDue(l, e, n, start, r.first, r.second);
    }
  }

  /** In pace mode a request with the account to itself is cleared for certain exactly when the
      missing tokens accrue within the longest wait and the clock readings in between cannot use
      the wait up. */
  lemma ClearsForCertainIff(l: Limits, e: Option<Entry>, n: int, maxWait: int, gap: int, start: int)
    requires Usable(l, e, start) && Need(n) as real <= l.burst && gap >= 1
    ensures (forall r: Readings :: r.start == start && Possible(l, e, n, maxWait, gap, r) ==>
        Clears(l, e, n, maxWait, r))
            <==> Enough(Due(l, e, start, n), maxWait, gap)
  {
    if Enough(Due(l, e, start, n), maxWait, gap) {
      forall r: Readings | r.start == start && Possible(l, e, n, maxWait, gap, r) ensures Clears(l, e, n, maxWait, r) {
        EnoughSuffices(l, e, n, maxWait, gap, r);
      }
    } else {
      EnoughIsNeeded(l, e, n, maxWait, gap, start);
    }
  }

  /** However small the deficit, a long enough pause between the first refusal and the check of the
      deadline turns it into a rejection, even with a wait that covers the deficit many times. */
  lemma PauseRejects(l: Limits, e: Option<Entry>, n: int, maxWait: int, start: int)
    requires Usable(l, e, start) && Need(n) as real <= l.burst && Due(l, e, start, n) > 1.0
        && maxWait >= Ceil(Due(l, e, start, n))
    ensures exists r: Readings ::
              r.start == start && Possible(l, e, n, maxWait, maxWait, r) && !Clears(l, e, n, maxWait, r)
  {
    assert Ceil(Due(l, e, start, n)) >= 2;
    EnoughIsNeeded(l, e, n, maxWait, maxWait, start);
  }

  /** Calls on a key are in clock order and none is in the future. */
  ghost predicate ClockOrdered(calls: seq<Call>, now: int) {
    Nondecreasing(calls) && (calls != [] ==> calls[|calls| - 1].now <= now)
  }

  lemma ClockOrderedAppend(calls: seq<Call>, now: int, c: Call)
    requires ClockOrdered(calls, now) && now <= c.now
    ensures ClockOrdered(calls + [c], c.now)
  {
  }

  /** What a refused attempt leaves to wait for. */
  lemma RefusalHasWait(l: Limits, e: Option<Entry>, now: int, n: int)
    requires Sane(l) && !Allows(l, e, now, n)
    ensures Due(l, e, now, n) > 0.0 && Due(l, e, now, n).Floor >= 0
  {
    assert (Need(n) as real - Refilled(l, e, now).tokens) / l.rate > 0.0;
  }

  /** A wait of w nanoseconds, reported together with this bucket, is right: no reading before it is up
      allows n, and every reading more than a nanosecond after it does, if the bucket can hold n. */
  ghost predicate TellsWait(l: Limits, left: Entry, n: int, w: int) {
    && 0 <= w
    && (forall now :: left.last <= now < left.last + w ==> !Allows(l, Some(left), now, n))
    && (Need(n) as real <= l.burst ==> forall now :: now > left.last + w ==> Allows(l, Some(left), now, n))
  }

  /** Too early is refused. */
  lemma NotBeforeDue(l: Limits, e: Entry, now: int, n: int)
    requires Usable(l, Some(e), now) && Allows(l, Some(e), now, n)
    ensures (now - e.last) as real >= (Need(n) as real - e.tokens) / l.rate * NANOS
  {
    RefillFrom(l, e, now);
    InTime((now - e.last) as real, Need(n) as real - e.tokens, l.rate);
  }

  /** The truncated wait of a refusal is right. */
  lemma RefusalTellsWait(l: Limits, e: Option<Entry>, at: int, n: int)
    requires Usable(l, e, at) && !Allows(l, e, at, n)
    ensures var left := Spent(l, e, at, n); left.last == at && TellsWait(l, left, n, Due(l, e, at, n).Floor)
  {
    var left, due := Spent(l, e, at, n), Due(l, e, at, n);
    if e.Some? { RefillFrom(l, e.value, at); }
    RefusalHasWait(l, e, at, n);
    assert left == Refilled(l, e, at) && Usable(l, Some(left), at);
    assert due == (Need(n) as real - left.tokens) / l.rate * NANOS;
    forall now | left.last <= now < left.last + due.Floor ensures !Allows(l, Some(left), now, n) {
      if Allows(l, Some(left), now, n) { NotBeforeDue(l, left, now, n); }
    }
    if Need(n) as real <= l.burst {
      forall now | now > left.last + due.Floor ensures Allows(l, Some(left), now, n) {
        AllowedOnceDue(l, left, now, n);
      }
    }
  }

  lemma GrantAppend(l: Limits, calls: seq<Call>, c: Call, owner: nat)
    ensures GrantedTo(l, calls + [c], owner)
         == GrantedTo(l, calls, owner)
            + if owner == c.owner && Allows(l, After(l, calls), c.now, c.n) then Need(c.n) else 0
  {
    assert (calls + [c])[..|calls|] == calls;
  }

  class Pacer {
    const enabled: bool
    const paces: bool
    const maxWait: int
    const jitter: int
    const account: TokenBucketLimiter
    const recipient: FixedWindow.MemoryLimiter?
    const fallback: FixedWindow.MemoryLimiter?
    const clock: Clock
    /** No other request spends from an account while this one waits. */
    const alone: bool
    /** The request is not cancelled while it waits. */
    const patient: bool

    ghost predicate Valid()
      reads this, account, recipient, fallback, clock
    {
      && clock.gap >= 1
      && account.Valid()
      && (forall k :: ClockOrdered(account.History(k), clock.now))
      && (recipient != null ==> recipient.Valid())
      && (fallback != null ==> fallback.Valid())
      && (fallback != null ==> fallback != recipient)
    }

    /** NewPacer: the recipient cap exists only with a positive limit and window. */
    constructor (enabled: bool, paces: bool, rate: real, burst: real, maxWait: int, jitter: int,
                 recipientLimit: int, recipientWindow: int, fallback: FixedWindow.MemoryLimiter?,
                 clock: Clock, alone: bool, patient: bool)
      requires clock.gap >= 1 && (fallback != null ==> fallback.Valid())
      ensures Valid() && fresh(account) && (recipient != null ==> fresh(recipient))
      ensures recipient != null <==> recipientLimit > 0 && recipientWindow > 0
    {
      this.enabled, this.paces, this.maxWait, this.jitter := enabled, paces, maxWait, jitter;
      this.fallback, this.clock, this.alone, this.patient := fallback, clock, alone, patient;
      account := new TokenBucketLimiter(rate, burst, "acct:");
      if recipientLimit > 0 && recipientWindow > 0 {
        recipient := new FixedWindow.MemoryLimiter(recipientLimit, recipientWindow, "rcpt:");
      } else {
        recipient := null;
      }
    }

    method Now() returns (t: int)
      requires Valid()
      modifies clock
      ensures Valid() && old(clock.now) < t <= old(clock.now) + clock.gap && clock.now == t
    {
      t := clock.Read();
    }

    method Sleep(d: int)
      requires Valid()
      modifies clock
      ensures Valid() && clock.now >= old(clock.now) + Max(d, 0)
    {
      clock.Sleep(d);
    }

    lemma AttemptTellsWait(key: string, at: int, n: int)
      requires Valid() && clock.now <= at
      ensures var l, b := account.limits, account.Bucket(key);
        !Allows(l, b, at, n) ==>
          Spent(l, b, at, n).last == at && TellsWait(l, Spent(l, b, at, n), n, Due(l, b, at, n).Floor)
    {
      hide TellsWait, Allows, Due, Spent, Usable, Refilled;
      BucketIsUsable(key, at);
      if !Allows(account.limits, account.Bucket(key), at, n) {
        RefusalTellsWait(account.limits, account.Bucket(key), at, n);
      }
    }

    /** One AllowN call of the account bucket, at the clock's next reading. */
    method Attempt(key: string, n: int, ghost owner: nat) returns (res: Result, ghost at: int)
      requires Valid()
      modifies account, clock
      ensures Valid()
      ensures old(clock.now) < at <= old(clock.now) + clock.gap && clock.now == at
      ensures res.allowed == Allows(account.limits, old(account.Bucket(key)), at, n)
      ensures account.Bucket(key) == Some(Spent(account.limits, old(account.Bucket(key)), at, n))
      ensures !res.allowed ==> res.retryAfter == Due(account.limits, old(account.Bucket(key)), at, n).Floor
      ensures !res.allowed ==> account.Bucket(key).value.last == at
                               && TellsWait(account.limits, account.Bucket(key).value, n, res.retryAfter)
      ensures res.limit == account.limits.burst.Floor && res.remaining == account.Bucket(key).value.tokens.Floor
      ensures account.History(key) == old(account.History(key)) + [Call(at, n, owner)]
      ensures forall k :: k != key ==>
          account.History(k) == old(account.History(k)) && account.Bucket(k) == old(account.Bucket(k))
    {
      ghost var h, last := account.History(key), clock.now;
      var t := clock.Read();
      at := t;
      hide TellsWait, Allows, Due, Spent, Usable, Refilled;
      AttemptTellsWait(key, t, n);
      res := account.AllowN(key, n, t, owner);
      ClockOrderedAppend(h, last, Call(t, n, owner));
      forall k ensures ClockOrdered(account.History(k), clock.now) {
        if k != key { assert account.History(k) == old(account.History(k)); }
      }
    }

    /** Whatever other goroutines ask of the account buckets between two steps of this request. */
    method Others(ghost me: nat)
      requires Valid()
      modifies account, clock
      ensures Valid() && clock.now >= old(clock.now)
      ensures alone ==> clock.now == old(clock.now)
      ensures forall k :: alone ==>
          account.History(k) == old(account.History(k)) && account.Bucket(k) == old(account.Bucket(k))
      ensures forall k :: SpentBy(me, k) == old(SpentBy(me, k))
    {
      if alone { return; }
      hide ClockOrdered, GrantedTo;
      var more: int := *;
      while more > 0
        invariant Valid() && clock.now >= old(clock.now)
        invariant forall k :: SpentBy(me, k) == old(SpentBy(me, k))
      {
        Other(me);
        more := more - 1;
      }
    }

    /** One call of somebody else's, on any account. */
    method Other(ghost me: nat)
      requires Valid()
      modifies account, clock
      ensures Valid() && clock.now >= old(clock.now)
      ensures forall k :: SpentBy(me, k) == old(SpentBy(me, k))
    {
      hide ClockOrdered, GrantedTo, Spent, Due, Allows, After;
      var key: string := *;
      var n: int := *;
      ghost var h := account.History(key);
      var res, at := Attempt(key, n, me + 1);
      GrantAppend(account.limits, h, Call(at, n, me + 1), me);
      forall k ensures SpentBy(me, k) == old(SpentBy(me, k)) {
        if k != key { assert account.History(k) == old(account.History(k)); }
      }
    }

    method RandJitter() returns (d: int)
      ensures 0 <= d && (jitter > 0 ==> d < jitter) && (jitter <= 0 ==> d == 0)
    {
      if jitter <= 0 { return 0; }
      d := *;
      d := if 0 <= d < jitter then d else 0;
    }

    /** Whoever waits on it, an account is granted at most burst + rate * length in any interval. */
    lemma AccountRateBound(key: string, from: int, to: int)
      requires Valid() && from <= to
      ensures GrantedIn(account.limits, account.History(key), from, to) as real
              <= account.limits.burst + Inflow(account.limits, to - from)
    {
      assert ClockOrdered(account.History(key), clock.now);
      RateBound(account.limits, account.History(key), from, to);
    }

    ghost function SpentBy(owner: nat, key: string): nat
      reads account
    {
      GrantedTo(account.limits, account.History(key), owner)
    }

    method TryOnce(ghost me: nat, phone: string, n: int) returns (res: Result, ghost at: int)
      requires Valid()
      modifies account, clock
      ensures Valid() && old(clock.now) < at == clock.now && account.Bucket(phone).Some?
      ensures SpentBy(me, phone) == old(SpentBy(me, phone)) + if res.allowed then Need(n) else 0
      ensures !res.allowed ==> account.Bucket(phone).value.last == at
                               && TellsWait(account.limits, account.Bucket(phone).value, n, res.retryAfter)
      ensures res.limit == account.limits.burst.Floor
      ensures res.remaining == account.Bucket(phone).value.tokens.Floor
      ensures alone ==> at <= old(clock.now) + clock.gap
      ensures alone ==> res.allowed == Allows(account.limits, old(account.Bucket(phone)), at, n)
      ensures alone ==> account.Bucket(phone) == Some(Spent(account.limits, old(account.Bucket(phone)), at, n))
      ensures alone && !res.allowed ==> res.retryAfter == Due(account.limits, old(account.Bucket(phone)), at, n).Floor
    {
      Others(me);
      ghost var h, b := account.History(phone), account.Bucket(phone);
      res, at := Attempt(phone, n, me);
      assert b == After(account.limits, h);
      GrantAppend(account.limits, h, Call(at, n, me), me);
    }

    /** What a refusal by the account reports: the wait for the bucket as its last attempt left it, at
        that attempt's reading, and in reject mode the bucket's numbers besides. That is still the
        bucket if the request rejects at once or has the account to itself. */
    ghost predicate Reported(v: Verdict, phone: string, n: int, left: Entry)
      reads account
    {
      v.Limited? ==>
        && TellsWait(account.limits, left, n, v.retryAfter)
        && (if paces then v.limit == 0 && v.remaining == 0
            else v.limit == account.limits.burst.Floor && v.remaining == left.tokens.Floor)
        && (alone || !paces ==> account.Bucket(phone) == Some(left))
    }

    /** One pass of the account loop; `slept` is the sleep it asked for. */
    method Round(ghost me: nat, phone: string, n: int, deadline: int)
      returns (done: bool, v: Verdict, ghost slept: int, ghost at: int, ghost check: int, ghost extra: int,
               ghost left: Entry)
      requires Valid()
      modifies account, clock
      ensures Valid()
      ensures SpentBy(me, phone) == old(SpentBy(me, phone)) + if done && v.Cleared? then Need(n) else 0
      ensures old(clock.now) < at <= clock.now && 0 <= slept && (done ==> slept == 0)
      ensures !done ==> at < check < deadline && slept <= deadline - check && check + slept <= clock.now
      ensures patient && done ==> !v.Cancelled?
      ensures done ==> Reported(v, phone, n, left)
      ensures done && v.Limited? ==> left.last == at
      ensures alone && done && v.Limited? ==>
          v.retryAfter == Due(account.limits, old(account.Bucket(phone)), at, n).Floor
      ensures alone ==> at <= old(clock.now) + clock.gap
      ensures alone && done && v.Cleared? ==> Allows(account.limits, old(account.Bucket(phone)), at, n)
      ensures alone && !(done && v.Cleared?) ==> !Allows(account.limits, old(account.Bucket(phone)), at, n)
      ensures alone ==> account.Bucket(phone) == Some(Spent(account.limits, old(account.Bucket(phone)), at, n))
      ensures alone && paces && !(done && v.Cleared?) ==> at < check <= at + clock.gap
      ensures alone && paces && done && v.Limited? ==> check >= deadline
      ensures 0 <= extra
      ensures alone && !done ==>
          slept == Min(Due(account.limits, old(account.Bucket(phone)), at, n).Floor + extra, deadline - check)
    {
      hide Refilled, Allows, Due, Spent, GrantedTo, After, ClockOrdered, TellsWait;
      slept, check, extra := 0, 0, 0;
      var res: Result;
      res, at := TryOnce(me, phone, n);
      left := account.Bucket(phone).value;
      assert !res.allowed ==> res.retryAfter >= 0 by { WaitIsNatural(left, n, res); }
      if res.allowed {
        return true, Cleared, slept, at, check, extra, left;
      }
      if !paces {
        return true, Limited(res.retryAfter, res.limit, res.remaining), slept, at, check, extra, left;
      }
      Others(me);
      var now := Now();
      check := now;
      var remaining := deadline - now;
      if remaining <= 0 {
        return true, Limited(res.retryAfter, 0, 0), slept, at, check, extra, left;
      }
      var more := RandJitter();
      extra := more;
      var wait := Min(res.retryAfter + more, remaining);
      var cancelled: bool := *;
      if cancelled && !patient && wait > 0 {
        return true, Cancelled, slept, at, check, extra, left;
      }
      Sleep(wait);
      return false, Cancelled, wait, at, check, extra, left;
    }

    lemma WaitIsNatural(left: Entry, n: int, res: Result)
      requires !res.allowed ==> TellsWait(account.limits, left, n, res.retryAfter)
      ensures !res.allowed ==> res.retryAfter >= 0
    {
    }

    lemma BucketIsUsable(key: string, now: int)
      requires Valid() && clock.now <= now
      ensures Usable(account.limits, account.Bucket(key), now)
    {
      var h := account.History(key);
      assert ClockOrdered(h, clock.now);
      if account.Bucket(key).Some? { BucketIsWithinBurst(account.limits, h); }
    }

    /** The loop has the account to itself, may wait, and asks for something it can get. */
    ghost predicate Undisturbed(n: int) {
      alone && patient && paces && Need(n) as real <= account.limits.burst
    }

    /** The account loop. `slept` is the total of the sleeps asked for; `seen` the readings. */
    method AcquireAccount(ghost me: nat, phone: string, n: int)
      returns (v: Verdict, ghost slept: int, ghost seen: Readings, ghost left: Entry)
      requires Valid()
      modifies account, clock
      ensures Valid()
      ensures SpentBy(me, phone) == old(SpentBy(me, phone)) + if v.Cleared? then Need(n) else 0
      ensures 0 <= slept <= Max(0, maxWait)
      ensures patient ==> !v.Cancelled?
      ensures Reported(v, phone, n, left)
      ensures v.Limited? ==> old(clock.now) < left.last <= clock.now
      ensures seen.start <= clock.now
      ensures old(clock.now) < seen.start <= old(clock.now) + clock.gap
      ensures Undisturbed(n) ==> Possible(account.limits, old(account.Bucket(phone)), n, maxWait, clock.gap, seen)
      ensures Undisturbed(n) ==> (v.Cleared? <==> Clears(account.limits, old(account.Bucket(phone)), n, maxWait, seen))
    {
      hide Refilled, Allows, Due, Spent, GrantedTo, After, TellsWait;
      slept := 0;
      var start := Now();
      seen := Readings(start, start, start, 0, start);
      var deadline := start + maxWait;
      ghost var l, e := account.limits, account.Bucket(phone);
      BucketIsUsable(phone, start);
      ghost var again := false;
      while true
        invariant Valid()
        invariant SpentBy(me, phone) == old(SpentBy(me, phone))
        invariant start <= clock.now && seen.start == start
        invariant 0 <= slept <= clock.now - start && slept <= Max(0, maxWait)
        invariant Undisturbed(n) && !again ==> account.Bucket(phone) == e && clock.now == start
        invariant Undisturbed(n) && again ==>
                    && start < seen.first <= start + clock.gap && !Allows(l, e, seen.first, n)
                    && seen.first < seen.check <= seen.first + clock.gap && seen.check < deadline && 0 <= seen.jitter
                    && account.Bucket(phone) == Some(Spent(l, e, seen.first, n))
                    && clock.now >= seen.check + FirstSleep(l, e, n, maxWait, seen)
        decreases Max(0, deadline - clock.now)
      {
        ghost var more, at, check, extra;
        var done: bool;
        done, v, more, at, check, extra, left := Round(me, phone, n, deadline);
        if !again {
          seen := seen.(first := at, check := check, jitter := extra);
        } else {
          seen := seen.(second := at);
          if Undisturbed(n) { NoThirdAttempt(l, e, n, maxWait, clock.gap, seen); }
        }
        if done { return; }
        again := true;
        slept := slept + more;
      }
    }

    /** Room in the recipient's window for n more, at whatever time it is checked. */
    ghost predicate RecipientHasRoom(key: string, n: int)
      reads recipient
    {
      recipient != null ==>
        && n <= recipient.setting.limit
        && (recipient.Stored(key).Some? ==> recipient.Stored(key).value.count + n <= recipient.setting.limit)
    }

    /** A fixed-window limiter was asked once, at `at`, and gave this answer. */
    static twostate predicate Counts(m: FixedWindow.MemoryLimiter, key: string, n: int, at: int, allowed: bool)
      reads m
    {
      && m.Asked(key) == old(m.Asked(key)) + [FixedWindow.Ask(at, n)]
      && m.Stored(key) == Some(FixedWindow.Counted(m.setting, old(m.Stored(key)), FixedWindow.Ask(at, n)))
      && (allowed <==> FixedWindow.Grants(m.setting, old(m.Stored(key)), FixedWindow.Ask(at, n)))
    }

    /** What a fixed-window refusal reports, as of now. */
    ghost predicate Refused(m: FixedWindow.MemoryLimiter, key: string, v: Verdict)
      reads m, clock
    {
      && m.Stored(key).Some?
      && v == Limited(m.Stored(key).value.expiresAt - clock.now, m.setting.limit,
          m.setting.limit - m.Stored(key).value.count)
    }

    /** No ban, or one that has run out. */
    static predicate Unbanned(ban: Option<int>, now: int) { ban.Some? ==> ban.value <= now }

    ghost predicate HasRoom(phone: string, to: string, n: int)
      reads recipient
    {
      to == "" || RecipientHasRoom(phone + ":" + to, n)
    }

    /** fallbackReject: the fixed-window limiter decides, at the reading `at`. */
    method FallbackReject(phone: string, n: int) returns (v: Verdict, ghost at: int)
      requires Valid()
      modifies fallback, clock
      ensures Valid() && !v.Cancelled? && old(clock.now) <= at <= clock.now
      ensures fallback == null ==> v.Cleared?
      ensures fallback != null ==> Counts(fallback, phone, n, at, v.Cleared?)
      ensures v.Limited? ==> fallback != null && Refused(fallback, phone, v)
    {
      at := clock.now;
      if fallback == null { return Cleared, at; }
      var t := Now();
      at := t;
      var later := Now();
      var res := fallback.AllowN(phone, n, t, later);
      v := if res.allowed then Cleared else Limited(res.retryAfter, res.limit, res.remaining);
    }

    /** The recipient's cap: a refusal is final, and a token once taken is not given back. */
    method CapRecipient(key: string, n: int) returns (v: Verdict, ghost at: int)
      requires Valid() && recipient != null
      modifies recipient, clock
      ensures Valid() && !v.Cancelled? && old(clock.now) <= at <= clock.now
      ensures Counts(recipient, key, n, at, v.Cleared?) && (v.Limited? ==> Refused(recipient, key, v))
      ensures old(RecipientHasRoom(key, n)) ==> v.Cleared?
    {
      var t := Now();
      at := t;
      var later := Now();
      var res := recipient.AllowN(key, n, t, later);
      v := if res.allowed then Cleared else Limited(res.retryAfter, res.limit, res.remaining);
    }

    /** Wait. `ban` is the account's ban deadline while it is banned; `asked` is when a fixed-window
        limiter was asked, `room` its answer, and `left` the account's bucket after the last attempt. */
    method Wait(ghost me: nat, phone: string, to: string, n: int, ban: Option<int>)
      returns (v: Verdict, ghost slept: int, ghost seen: Readings, ghost asked: int, ghost room: bool,
               ghost left: Entry)
      requires Valid()
      modifies account, recipient, fallback, clock
      ensures Valid()
      ensures SpentBy(me, phone) == old(SpentBy(me, phone)) + if enabled && v.Cleared? then Need(n) else 0
      ensures 0 <= slept <= Max(0, maxWait)
      ensures old(clock.now) <= asked <= clock.now
      ensures enabled && ban.Some? && ban.value > clock.now ==> v == Limited(ban.value - clock.now, 0, 0)
      ensures enabled && (ban.Some? ==> ban.value <= clock.now) && n as real > account.limits.burst ==>
                v == Limited(0, account.limits.burst.Floor, 0)
      ensures enabled && (recipient == null || to == "") ==> room
      // the recipient's slot: never taken by a request above the burst, always by a cleared one
      ensures enabled && n as real > account.limits.burst && recipient != null ==>
                recipient.Asked(phone + ":" + to) == old(recipient.Asked(phone + ":" + to))
      ensures enabled && v.Cleared? && recipient != null && to != "" ==>
          room && Counts(recipient, phone + ":" + to, n, asked, room)
      ensures enabled && Unbanned(ban, old(clock.now)) && n as real <= account.limits.burst
              && recipient != null && to != "" ==>
                Counts(recipient, phone + ":" + to, n, asked, room)
                    && (!room ==> Refused(recipient, phone + ":" + to, v))
      ensures !enabled ==>
          (fallback == null ==> v.Cleared?) && (fallback != null ==> Counts(fallback, phone, n, asked, v.Cleared?))
      ensures !enabled && v.Limited? ==> fallback != null && Refused(fallback, phone, v)
      ensures enabled && Unbanned(ban, old(clock.now)) && n as real <= account.limits.burst && room ==>
          Reported(v, phone, n, left) && (v.Limited? ==> old(clock.now) < left.last <= clock.now)
      ensures enabled && Unbanned(ban, old(clock.now)) && n >= 1 && Undisturbed(n) && old(HasRoom(phone, to, n)) ==>
                && Possible(account.limits, old(account.Bucket(phone)), n, maxWait, clock.gap, seen)
                && (v.Cleared? <==> Clears(account.limits, old(account.Bucket(phone)), n, maxWait, seen))
    {
      hide Refilled, Allows, Due, Spent, GrantedTo, After, Possible, Clears, Usable, ClockOrdered, TellsWait;
      hide FixedWindow.Counted, FixedWindow.Grants, FixedWindow.WindowAfter, FixedWindow.Current, Sane, MinReal;
      slept, seen, asked, room, left := 0, Readings(0, 0, 0, 0, 0), clock.now, true, Entry(0.0, 0);
      if !enabled {
        v, asked := FallbackReject(phone, n);
        return;
      }
      if ban.Some? {
        var t := Now();
        if ban.value - t > 0 {
          return Limited(ban.value - t, 0, 0), slept, seen, asked, room, left;
        }
      }
      if n as real > account.limits.burst {
        return Limited(0, account.limits.burst.Floor, 0), slept, seen, asked, room, left;
      }
      if recipient != null && to != "" {
        v, asked := CapRecipient(phone + ":" + to, n);
        room := v.Cleared?;
        if !v.Cleared? { return; }
      }
      v, slept, seen, left := AcquireAccount(me, phone, n);
    }
  }
}
