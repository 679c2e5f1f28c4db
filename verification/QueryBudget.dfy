/**
 Cached reads under a per-account budget: internal/usecase/whatsapp/query.go and the freshness
 check of GetAvatar in internal/usecase/whatsapp/read_usecase.go.
 */
module QueryBudget {
  import opened Common
  import FixedWindow

  /** A read's result; `kind` is its Go type, which a cached value must match. */
  datatype Value = Value(kind: nat, content: nat)

  datatype CacheEntry = CacheEntry(value: Value, expiresAt: int)

  datatype Answer = Got(value: Value) | Failed | TooManyRequests

  /** A successful server read of a cached kind, and when its result was stored. */
  datatype Fetch = Fetch(key: string, value: Value, storedAt: int)

  /** A read that reached the server, at the clock reading its token was granted. */
  datatype ServerRead = ServerRead(account: string, at: int)

  function ReadsWithin(served: seq<ServerRead>, account: string, from: int, to: int): nat {
    if served == [] then 0
    else
      var r := served[|served| - 1];
      ReadsWithin(served[..|served| - 1], account, from, to)
      + if r.account == account && from <= r.at <= to then 1 else 0
  }

  lemma ReadsWithinAppend(served: seq<ServerRead>, r: ServerRead, account: string, from: int, to: int)
    ensures ReadsWithin([], account, from, to) == 0
    ensures ReadsWithin(served + [r], account, from, to)
         == ReadsWithin(served, account, from, to) + if r.account == account && from <= r.at <= to then 1 else 0
  {
    assert (served + [r])[..|served|] == served;
  }

  /** The cache holds only results of successful fetches, each for one TTL from when it was stored. */
  ghost predicate Backed(cache: map<string, CacheEntry>, fetches: seq<Fetch>, ttl: int) {
    forall k :: k in cache ==> Fetch(k, cache[k].value, cache[k].expiresAt - ttl) in fetches
  }

  /** Every server read was paid for by one granted token of its account. */
  ghost predicate Paid(served: seq<ServerRead>, account: string, c: FixedWindow.Setting, asks: seq<FixedWindow.Ask>) {
    && (forall i :: 0 <= i < |asks| ==> asks[i].n == 1)
    && forall from, to :: ReadsWithin(served, account, from, to) == FixedWindow.GrantedWithin(c, asks, from, to)
  }

  ghost predicate UpTo(asks: seq<FixedWindow.Ask>, now: int) {
    FixedWindow.InOrder(asks) && (asks != [] ==> asks[|asks| - 1].now <= now)
  }

  lemma PayOne(served: seq<ServerRead>, account: string, c: FixedWindow.Setting, asks: seq<FixedWindow.Ask>, now: int)
    requires Paid(served, account, c, asks)
    ensures var a := FixedWindow.Ask(now, 1);
      Paid(if FixedWindow.Grants(c, FixedWindow.WindowAfter(c, asks), a) then served + [ServerRead(account, now)]
          else served,
           account, c, asks + [a])
  {
    var a := FixedWindow.Ask(now, 1);
    var granted := FixedWindow.Grants(c, FixedWindow.WindowAfter(c, asks), a);
    var more := if granted then served + [ServerRead(account, now)] else served;
    assert (asks + [a])[..|asks|] == asks && (granted ==> more[..|more| - 1] == served);
    forall from, to ensures ReadsWithin(more, account, from, to) == FixedWindow.GrantedWithin(c, asks + [a], from, to) {
      assert ReadsWithin(served, account, from, to) == FixedWindow.GrantedWithin(c, asks, from, to);
    }
  }

  lemma OthersUnpaid(served: seq<ServerRead>, account: string, r: ServerRead, from: int, to: int)
    requires r.account != account
    ensures ReadsWithin(served + [r], account, from, to) == ReadsWithin(served, account, from, to)
  {
    assert (served + [r])[..|served|] == served;
  }

  lemma OthersStayPaid(served: seq<ServerRead>, account: string, r: ServerRead, c: FixedWindow.Setting,
      asks: seq<FixedWindow.Ask>)
    requires Paid(served, account, c, asks) && r.account != account
    ensures Paid(served + [r], account, c, asks)
  {
    forall from, to
      ensures ReadsWithin(served + [r], account, from, to) == FixedWindow.GrantedWithin(c, asks, from, to)
    {
      OthersUnpaid(served, account, r, from, to);
    }
  }

  /** Time passes for an account that asks nothing. */
  lemma StillUpTo(asks: seq<FixedWindow.Ask>, seen: int, now: int)
    requires UpTo(asks, seen) && seen <= now
    ensures UpTo(asks, now)
  {
  }

  lemma UpToAppend(asks: seq<FixedWindow.Ask>, seen: int, now: int)
    requires UpTo(asks, seen) && seen <= now
    ensures UpTo(asks + [FixedWindow.Ask(now, 1)], now)
  {
  }

  class ReadService {
    const ttl: int
    const budget: FixedWindow.MemoryLimiter
    var cache: map<string, CacheEntry>
    ghost var fetches: seq<Fetch>
    ghost var served: seq<ServerRead>
    /** The latest clock reading so far. */
    ghost var seen: int

    ghost predicate Valid()
      reads this, budget
    {
      && budget.Valid() && budget.setting.window >= 0
      && Backed(cache, fetches, ttl)
      && forall a :: Paid(served, a, budget.setting, budget.Asked(a)) && UpTo(budget.Asked(a), seen)
    }

    /** Settings in nanoseconds; non-positive ones get the defaults. */
    constructor (ttl: int, limit: int, window: int, now: int)
      ensures Valid() && fresh(budget) && fetches == [] && served == [] && cache == map[] && seen == now
      ensures this.ttl == if ttl <= 0 then 300_000_000_000 else ttl
      ensures budget.setting ==
          FixedWindow.Setting(if limit <= 0 then 30 else limit, if window <= 0 then 60_000_000_000 else window)
    {
      this.ttl := if ttl <= 0 then 300_000_000_000 else ttl;
      var perWindow, length := if limit <= 0 then 30 else limit, if window <= 0 then 60_000_000_000 else window;
      budget := new FixedWindow.MemoryLimiter(perWindow, length, "whatsapp:gateway:readquery:");
      cache, fetches, this.served, seen := map[], [], [], now;
    }

    /** Takes one token and, if it is granted, notes the server read that follows. */
    method SpendReadBudget(account: string, now: int, later: int) returns (granted: bool)
      requires Valid() && seen <= now
      modifies budget, this`served, this`seen
      ensures Valid() && seen == now
      ensures served == if granted then old(served) + [ServerRead(account, now)] else old(served)
      ensures budget.Asked(account) == old(budget.Asked(account)) + [FixedWindow.Ask(now, 1)]
      ensures granted <==> old(InBudget(account, now))
    {
      ghost var asks := budget.Asked(account);
      assert Paid(served, account, budget.setting, asks) && UpTo(asks, seen);
      assert budget.Stored(account) == FixedWindow.WindowAfter(budget.setting, asks);
      var res := budget.AllowN(account, 1, now, later);
      granted := res.allowed;
      PayOne(served, account, budget.setting, asks, now);
      UpToAppend(asks, seen, now);
      hide Paid, UpTo;
      ghost var before, last := served, seen;
      if granted { served := served + [ServerRead(account, now)]; }
      seen := now;
      forall a ensures Paid(served, a, budget.setting, budget.Asked(a)) && UpTo(budget.Asked(a), seen) {
        if a != account {
          assert budget.Asked(a) == old(budget.Asked(a)) && Paid(before, a, budget.setting, budget.Asked(a));
          StillUpTo(budget.Asked(a), last, now);
          if granted { OthersStayPaid(before, a, ServerRead(account, now), budget.setting, budget.Asked(a)); }
        }
      }
    }

    method Get(key: string, now: int) returns (v: Option<Value>)
      ensures v == if key in cache && now <= cache[key].expiresAt then Some(cache[key].value) else None
    {
      if key !in cache || now > cache[key].expiresAt { return None; }
      return Some(cache[key].value);
    }

    /** The account's window has room for one more read. */
    ghost predicate InBudget(account: string, now: int)
      reads budget
    {
      FixedWindow.Grants(budget.setting, FixedWindow.WindowAfter(budget.setting, budget.Asked(account)),
          FixedWindow.Ask(now, 1))
    }

    predicate Hit(key: string, kind: nat, now: int)
      reads this`cache
    {
      key in cache && now <= cache[key].expiresAt && cache[key].value.kind == kind
    }

    method Set(key: string, value: Value, now: int)
      requires Backed(cache, fetches, ttl)
      modifies this`cache, this`fetches
      ensures cache == old(cache)[key := CacheEntry(value, now + ttl)]
      ensures fetches == old(fetches) + [Fetch(key, value, now)]
      ensures Backed(cache, fetches, ttl)
    {
      cache := cache[key := CacheEntry(value, now + ttl)];
      fetches := fetches + [Fetch(key, value, now)];
    }

    /** `result` is what the server would answer, None for an error; t1 to t4 are the clock readings
        of the cache lookup, the budget (twice) and the store. */
    method QueryWithBudget(account: string, key: string, kind: nat, result: Option<Value>, t1: int, t2: int,
        t3: int, t4: int)
      returns (answer: Answer)
      requires Valid() && seen <= t1 <= t2 <= t3 <= t4
      requires result.Some? ==> result.value.kind == kind
      modifies this, budget
      ensures Valid() && seen <= t4
      // a fresh entry of the right type answers; otherwise it takes a token
      ensures key in old(cache) && t1 <= old(cache)[key].expiresAt && old(cache)[key].value.kind == kind ==>
                answer == Got(old(cache)[key].value) && served == old(served)
      ensures old(Hit(key, kind, t1))
              <==> key in old(cache) && t1 <= old(cache)[key].expiresAt && old(cache)[key].value.kind == kind
      ensures !old(Hit(key, kind, t1)) ==> (answer.TooManyRequests? <==> !old(InBudget(account, t2)))
      // a cached answer is a value some fetch returned for this key, stored at most one TTL ago
      ensures answer.Got? && served == old(served) ==>
                && fetches == old(fetches) && cache == old(cache)
                && exists f :: f in old(fetches) && f.key == key && f.value == answer.value && t1 - f.storedAt <= ttl
      // otherwise it is what the server said just now, for one token, and it is stored
      ensures answer.Got? && served != old(served) ==>
                && served == old(served) + [ServerRead(account, t2)] && result == Some(answer.value)
                && fetches == old(fetches) + [Fetch(key, answer.value, t4)]
                && cache == old(cache)[key := CacheEntry(answer.value, t4 + ttl)]
      ensures answer.Got? ==> answer.value.kind == kind
      ensures answer.Failed? ==> served == old(served) + [ServerRead(account, t2)] && result == None
      ensures answer.TooManyRequests? ==> served == old(served)
      ensures !answer.Got? ==> cache == old(cache) && fetches == old(fetches)
    {
      hide Paid, UpTo, InBudget;
      var hit := Get(key, t1);
      if hit.Some? && hit.value.kind == kind {
        assert Fetch(key, cache[key].value, cache[key].expiresAt - ttl) in fetches;
        hide Backed;
        return Got(hit.value);
      }
      hide Backed;
      var granted := SpendReadBudget(account, t2, t3);
      if !granted { return TooManyRequests; }
      if result.None? { return Failed; }
      Set(key, result.value, t4);
      return Got(result.value);
    }

    /** A read that bypasses the cache, such as an avatar freshness check. */
    method CheckFreshness(account: string, result: Option<Value>, t2: int, t3: int) returns (answer: Answer)
      requires Valid() && seen <= t2 <= t3
      modifies budget, this`served, this`seen
      ensures Valid() && seen == t2
      ensures answer.TooManyRequests? <==> !old(InBudget(account, t2))
      ensures answer.TooManyRequests? ==> served == old(served)
      ensures !answer.TooManyRequests? ==>
                && served == old(served) + [ServerRead(account, t2)]
                && answer == if result.Some? then Got(result.value) else Failed
    {
      var granted := SpendReadBudget(account, t2, t3);
      if !granted { return TooManyRequests; }
      answer := if result.Some? then Got(result.value) else Failed;
    }

    /** Over any k windows an account's server reads, cache misses and freshness checks together,
        stay within k + 1 limits. */
    lemma ReadsAreBounded(account: string, from: int, k: nat)
      requires Valid() && k >= 1
      ensures ReadsWithin(served, account, from, from + k * budget.setting.window)
              <= (k + 1) * Max(0, budget.setting.limit)
    {
      var asks := budget.Asked(account);
      assert Paid(served, account, budget.setting, asks) && UpTo(asks, seen);
      FixedWindow.WindowBound(budget.setting, asks, from, k);
    }
  }
}
