/**
 The two fixed-window limiters: pkg/ratelimiter/memory.go, and pkg/ratelimiter/redis.go with its
 counter script.
 */
module FixedWindow {
  import opened Common
  import opened TokenBucket

  datatype Setting = Setting(limit: int, window: int)

  datatype Window = Window(count: int, expiresAt: int)

  /** One AllowN call on a key: the clock it read and the tokens asked for. */
  datatype Ask = Ask(now: int, n: int)

  function Current(c: Setting, w: Option<Window>, now: int): Window {
    if w.None? || now > w.value.expiresAt then Window(0, now + c.window) else w.value
  }

  predicate Grants(c: Setting, w: Option<Window>, a: Ask) {
    Current(c, w, a.now).count + a.n <= c.limit
  }

  function Counted(c: Setting, w: Option<Window>, a: Ask): Window {
    var cur := Current(c, w, a.now);
    if Grants(c, w, a) then cur.(count := cur.count + a.n) else cur
  }

  /** One call on a window, spelled out. Without a window, or once it has passed, a new one starts
      from nothing; a request counts if it fits, and not otherwise. */
  ghost predicate WindowStep(c: Setting, before: Option<Window>, n: int, now: int, after: Window, allowed: bool) {
    var anew := before.None? || now > before.value.expiresAt;
    var used := if anew then 0 else before.value.count;
    && (allowed <==> used + n <= c.limit)
    && after.count == (if allowed then used + n else used)
    && after.expiresAt == (if anew then now + c.window else before.value.expiresAt)
  }

  lemma CountedIsWindowStep(c: Setting, w: Option<Window>, a: Ask)
    ensures WindowStep(c, w, a.n, a.now, Counted(c, w, a), Grants(c, w, a))
  {
  }

  function WindowAfter(c: Setting, asks: seq<Ask>): Option<Window> {
    if asks == [] then None
    else Some(Counted(c, WindowAfter(c, asks[..|asks| - 1]), asks[|asks| - 1]))
  }

  predicate LastGranted(c: Setting, asks: seq<Ask>)
    requires asks != []
  {
    Grants(c, WindowAfter(c, asks[..|asks| - 1]), asks[|asks| - 1])
  }

  /** Tokens granted at times in the closed interval. */
  function GrantedWithin(c: Setting, asks: seq<Ask>, from: int, to: int): int {
    if asks == [] then 0
    else
      GrantedWithin(c, asks[..|asks| - 1], from, to)
      + (if from <= asks[|asks| - 1].now <= to && LastGranted(c, asks) then asks[|asks| - 1].n else 0)
  }

  lemma GrantedWithinAppend(c: Setting, asks: seq<Ask>, a: Ask, from: int, to: int)
    ensures GrantedWithin(c, [], from, to) == 0
    ensures GrantedWithin(c, asks + [a], from, to) == GrantedWithin(c, asks, from, to)
            + if from <= a.now <= to && Grants(c, WindowAfter(c, asks), a) then a.n else 0
  {
    assert (asks + [a])[..|asks|] == asks;
  }

  ghost predicate InOrder(asks: seq<Ask>) {
    forall i, j :: 0 <= i < j < |asks| ==> asks[i].now <= asks[j].now
  }

  ghost predicate PositiveAsks(asks: seq<Ask>) {
    forall i :: 0 <= i < |asks| ==> asks[i].n >= 1
  }

  lemma WindowAppend(c: Setting, asks: seq<Ask>, a: Ask)
    ensures WindowAfter(c, []) == None
    ensures WindowAfter(c, asks + [a]) == Some(Counted(c, WindowAfter(c, asks), a))
  {
    assert (asks + [a])[..|asks|] == asks;
  }

  class MemoryLimiter {
    const setting: Setting
    const prefix: string
    var store: map<string, Window>
    /** Every AllowN call since the key was last reset. */
    ghost var asks: map<string, seq<Ask>>

    ghost predicate Valid()
      reads this
    {
      && store.Keys == asks.Keys
      && forall k :: k in store ==> WindowAfter(setting, asks[k]) == Some(store[k])
    }

    ghost function Asked(key: string): seq<Ask>
      reads this
    {
      if prefix + key in asks then asks[prefix + key] else []
    }

    function Stored(key: string): Option<Window>
      reads this
    {
      if prefix + key in store then Some(store[prefix + key]) else None
    }

    constructor (limit: int, window: int, prefix: string)
      ensures Valid() && setting == Setting(limit, window) && this.prefix == prefix && store == map[] && asks == map[]
    {
      setting, this.prefix, store, asks := Setting(limit, window), prefix, map[], map[];
    }

    /** `now` decides; `later` is the reading the reported waits are computed from. */
    method AllowN(key: string, n: int, now: int, later: int) returns (res: Result)
      requires Valid()
      modifies this
      ensures Valid()
      ensures Asked(key) == old(Asked(key)) + [Ask(now, n)]
      ensures forall k :: k != key ==> Asked(k) == old(Asked(k)) && Stored(k) == old(Stored(k))
      ensures res.allowed == Grants(setting, old(Stored(key)), Ask(now, n))
      ensures Stored(key) == Some(Counted(setting, old(Stored(key)), Ask(now, n)))
      ensures WindowStep(setting, old(Stored(key)), n, now, Stored(key).value, res.allowed)
      ensures res.limit == setting.limit && res.remaining == setting.limit - Stored(key).value.count
      ensures res.retryAfter == if res.allowed then 0 else Stored(key).value.expiresAt - later
    {
      var fullKey := prefix + key;
      forall k | k != key ensures prefix + k != fullKey { OtherKey(prefix, key, k); }
      hide Grants, Counted, WindowAfter, WindowStep;
      ghost var h := old(Asked(key)) + [Ask(now, n)];
      WindowAppend(setting, old(Asked(key)), Ask(now, n));
      var entry;
      entry, res := Answer(fullKey, n, now, later);
      Put(fullKey, entry, h);
    }

    method Put(fullKey: string, entry: Window, ghost h: seq<Ask>)
      requires Valid() && WindowAfter(setting, h) == Some(entry)
      modifies this
      ensures Valid() && store == old(store)[fullKey := entry] && asks == old(asks)[fullKey := h]
    {
      hide WindowAfter;
      asks, store := asks[fullKey := h], store[fullKey := entry];
    }

    /** The decision, and the window as it is then stored. */
    method Answer(fullKey: string, n: int, now: int, later: int) returns (entry: Window, res: Result)
      ensures var before := if fullKey in store then Some(store[fullKey]) else None;
        && entry == Counted(setting, before, Ask(now, n))
        && res.allowed == Grants(setting, before, Ask(now, n))
        && WindowStep(setting, before, n, now, entry, res.allowed)
      ensures res.limit == setting.limit && res.remaining == setting.limit - entry.count
      ensures res.retryAfter == if res.allowed then 0 else entry.expiresAt - later
    {
      CountedIsWindowStep(setting, if fullKey in store then Some(store[fullKey]) else None, Ask(now, n));
      hide WindowStep;
      entry := Entry(fullKey, now);
      if entry.count + n > setting.limit {
        return entry, Result(false, setting.limit - entry.count, setting.limit, entry.expiresAt - later);
      }
      entry := entry.(count := entry.count + n);
      res := Result(true, setting.limit - entry.count, setting.limit, 0);
    }

    /** The window in force, or a new one when there is none or it has passed. */
    method Entry(fullKey: string, now: int) returns (entry: Window)
      ensures entry == Current(setting, if fullKey in store then Some(store[fullKey]) else None, now)
    {
      if fullKey !in store || now > store[fullKey].expiresAt {
        entry := Window(0, now + setting.window);
      } else {
        entry := store[fullKey];
      }
    }

    method Reset(key: string)
      requires Valid()
      modifies this
      ensures Valid() && Stored(key) == None && Asked(key) == []
    {
      store, asks := store - {prefix + key}, asks - {prefix + key};
    }
  }

  // ---- the window bound ----

  lemma {:induction false} CountWithinLimit(c: Setting, asks: seq<Ask>)
    requires PositiveAsks(asks) && asks != []
    ensures 0 <= WindowAfter(c, asks).value.count <= Max(0, c.limit)
  {
    if |asks| > 1 { CountWithinLimit(c, asks[..|asks| - 1]); }
  }

  lemma {:induction false} WindowIsAhead(c: Setting, asks: seq<Ask>)
    requires InOrder(asks) && asks != [] && c.window >= 0
    ensures asks[|asks| - 1].now <= WindowAfter(c, asks).value.expiresAt <= asks[|asks| - 1].now + c.window
  {
    if |asks| > 1 { WindowIsAhead(c, asks[..|asks| - 1]); }
  }

  /** Granted from `from` on is covered by `m` full windows and the current one, and the current
      window began at least m - 1 windows after `from`, if there were full windows. */
  ghost predicate Covered(c: Setting, asks: seq<Ask>, from: int, to: int, m: nat)
    requires asks != []
  {
    var w := WindowAfter(c, asks).value;
    && GrantedWithin(c, asks, from, to) <= m * Max(0, c.limit) + w.count
    && (asks[|asks| - 1].now < from ==> GrantedWithin(c, asks, from, to) == 0)
    && (m == 1 ==> from <= w.expiresAt - c.window)
    && (m >= 2 ==> from + (m - 1) * c.window < w.expiresAt - c.window)
  }

  lemma SameWindow(c: Setting, asks: seq<Ask>, from: int, to: int, m: nat)
    requires PositiveAsks(asks) && |asks| > 1 && asks[|asks| - 2].now <= asks[|asks| - 1].now <= to
    requires Covered(c, asks[..|asks| - 1], from, to, m)
    requires asks[|asks| - 1].now <= WindowAfter(c, asks[..|asks| - 1]).value.expiresAt
    ensures Covered(c, asks, from, to, m)
  {
  }

  lemma NewWindow(c: Setting, asks: seq<Ask>, from: int, to: int, m: nat)
    requires PositiveAsks(asks) && |asks| > 1 && asks[|asks| - 2].now <= asks[|asks| - 1].now <= to && c.window >= 0
    requires Covered(c, asks[..|asks| - 1], from, to, m)
    requires asks[|asks| - 1].now > WindowAfter(c, asks[..|asks| - 1]).value.expiresAt
    ensures Covered(c, asks, from, to, if asks[|asks| - 1].now < from then 0 else m + 1)
  {
    var init, a, lim := asks[..|asks| - 1], asks[|asks| - 1], Max(0, c.limit);
    CountWithinLimit(c, init);
    CountWithinLimit(c, asks);
    if a.now >= from {
      assert (m + 1) * lim == m * lim + lim;
      if m >= 1 { assert (m - 1) * c.window + c.window == m * c.window; }
    }
  }

  lemma {:induction false} WindowsUsed(c: Setting, asks: seq<Ask>, from: int, to: int) returns (m: nat)
    requires InOrder(asks) && PositiveAsks(asks) && c.window >= 0 && asks != [] && asks[|asks| - 1].now <= to
    ensures Covered(c, asks, from, to, m)
  {
    m := 0;
    if |asks| > 1 {
      m := WindowsUsed(c, asks[..|asks| - 1], from, to);
      if asks[|asks| - 1].now > WindowAfter(c, asks[..|asks| - 1]).value.expiresAt {
        NewWindow(c, asks, from, to, m);
        m := if asks[|asks| - 1].now < from then 0 else m + 1;
      } else {
        SameWindow(c, asks, from, to, m);
      }
    }
  }

  lemma Times(a: nat, b: nat, lim: nat)
    requires a <= b
    ensures 0 <= a * lim <= b * lim && (b + 1) * lim == b * lim + lim
  {
  }

  lemma NoMoreThanK(c: Setting, from: int, k: nat, m: nat, began: int)
    requires c.window >= 0 && k >= 1 && began <= from + k * c.window
    requires m >= 2 ==> from + (m - 1) * c.window < began
    ensures m <= k
  {
    if m > k { Times(k, m - 1, c.window); }
  }

  /** Any closed interval as long as k windows sees at most k + 1 limits' worth of grants, whatever
      was asked for and when. */
  lemma {:induction false} WindowBound(c: Setting, asks: seq<Ask>, from: int, k: nat)
    requires InOrder(asks) && PositiveAsks(asks) && c.window >= 0 && k >= 1
    ensures GrantedWithin(c, asks, from, from + k * c.window) <= (k + 1) * Max(0, c.limit)
  {
    var to, lim := from + k * c.window, Max(0, c.limit);
    Times(0, k, lim);
    if asks != [] {
      if asks[|asks| - 1].now > to {
        WindowBound(c, asks[..|asks| - 1], from, k);
      } else {
        var m := WindowsUsed(c, asks, from, to);
        CoveredIsBounded(c, asks, from, k, m);
      }
    }
  }

  lemma CoveredIsBounded(c: Setting, asks: seq<Ask>, from: int, k: nat, m: nat)
    requires InOrder(asks) && PositiveAsks(asks) && c.window >= 0 && k >= 1 && asks != []
    requires asks[|asks| - 1].now <= from + k * c.window && Covered(c, asks, from, from + k * c.window, m)
    ensures GrantedWithin(c, asks, from, from + k * c.window) <= (k + 1) * Max(0, c.limit)
  {
    CountWithinLimit(c, asks);
    WindowIsAhead(c, asks);
    NoMoreThanK(c, from, k, m, WindowAfter(c, asks).value.expiresAt - c.window);
    Times(m, k, Max(0, c.limit));
  }

  // ---- the Redis form ----

  /** A Redis key: its value and, once PEXPIRE ran, when it goes away. */
  datatype Counter = Counter(value: int, expiresAt: Option<int>)

  /** The script on one key; the second result is whether it set the expiry. */
  function Script(r: Option<Counter>, n: int, windowMs: int, now: int): (Counter, bool) {
    var live := r.Some? && !(r.value.expiresAt.Some? && r.value.expiresAt.value <= now);
    var current := (if live then r.value.value else 0) + n;
    var kept := if live then r.value.expiresAt else None;
    if current == n then (Counter(current, Some(now + windowMs)), true) else (Counter(current, kept), false)
  }

  /** The script, spelled out: a key that is gone or has run out counts from nothing; the request is
      counted in any case; the expiry is set when the count is the request's own, and kept otherwise. */
  ghost predicate ScriptStep(before: Option<Counter>, n: int, windowMs: int, now: int, after: Counter) {
    var anew := before.None? || (before.value.expiresAt.Some? && before.value.expiresAt.value <= now);
    && after.value == (if anew then n else before.value.value + n)
    && after.expiresAt ==
         if after.value == n then Some(now + windowMs) else if anew then None else before.value.expiresAt
  }

  class RedisLimiter {
    const limit: int
    const windowMs: int
    const prefix: string
    var keys: map<string, Counter>

    constructor (limit: int, windowMs: int, prefix: string)
      ensures this.limit == limit && this.windowMs == windowMs && this.prefix == prefix && keys == map[]
    {
      this.limit, this.windowMs, this.prefix, keys := limit, windowMs, prefix, map[];
    }

    /** INCRBY, then PEXPIRE when the counter has just been created, then PTTL (-1 for a key
        without an expiry). */
    method AllowN(key: string, n: int, now: int) returns (allowed: bool, remaining: int, ttlMs: int)
      modifies this
      ensures var fullKey := prefix + key;
        var (counter, _) := Script(if fullKey in old(keys) then Some(old(keys)[fullKey]) else None, n, windowMs, now);
        && keys == old(keys)[fullKey := counter]
        && ScriptStep(if fullKey in old(keys) then Some(old(keys)[fullKey]) else None, n, windowMs, now, counter)
        && allowed == (counter.value <= limit) && remaining == Max(0, limit - counter.value)
        && ttlMs == (if counter.expiresAt.Some? then counter.expiresAt.value - now else -1)
    {
      var fullKey := prefix + key;
      if fullKey !in keys || (keys[fullKey].expiresAt.Some? && keys[fullKey].expiresAt.value <= now) {
        keys := keys[fullKey := Counter(0, None)];
      }
      var current := keys[fullKey].value + n;
      keys := keys[fullKey := Counter(current, keys[fullKey].expiresAt)];
      if current == n {
        keys := keys[fullKey := Counter(current, Some(now + windowMs))];
      }
      ttlMs := if keys[fullKey].expiresAt.Some? then keys[fullKey].expiresAt.value - now else -1;
      remaining := limit - current;
      if remaining < 0 {
        remaining := 0;
      }
      allowed := current <= limit;
    }
  }

  function ScriptAfter(asks: seq<Ask>, windowMs: int): (Option<Counter>, bool) {
    if asks == [] then (None, false)
    else
      var (c, expirySet) :=
          Script(ScriptAfter(asks[..|asks| - 1], windowMs).0, asks[|asks| - 1].n, windowMs, asks[|asks| - 1].now);
      (Some(c), expirySet)
  }

  predicate RedisAllows(c: Setting, asks: seq<Ask>)
    requires asks != []
  {
    ScriptAfter(asks, c.window).0.value.value <= c.limit
  }

  /** All the calls fall into the window the first one opens, before either form lets it go. */
  ghost predicate OneWindow(c: Setting, asks: seq<Ask>) {
    forall i :: 0 <= i < |asks| ==> asks[0].now <= asks[i].now < asks[0].now + c.window
  }

  lemma {:induction false} WithinOneWindow(c: Setting, asks: seq<Ask>)
    requires OneWindow(c, asks) && PositiveAsks(asks) && asks != []
    ensures WindowAfter(c, asks).value.expiresAt == asks[0].now + c.window
    ensures ScriptAfter(asks, c.window).0.value.expiresAt == Some(asks[0].now + c.window)
    ensures 0 <= WindowAfter(c, asks).value.count <= ScriptAfter(asks, c.window).0.value.value
    ensures ScriptAfter(asks, c.window).0.value.value >= |asks|
    ensures ScriptAfter(asks, c.window).1 <==> |asks| == 1
  {
    if |asks| > 1 { WithinOneWindow(c, asks[..|asks| - 1]); }
  }

  /** Within a window, whatever the Redis form allows the memory form allows too, and the script
      sets the expiry at the first call and never again. */
  lemma RedisAllowsLess(c: Setting, asks: seq<Ask>)
    requires OneWindow(c, asks) && PositiveAsks(asks) && asks != []
    ensures RedisAllows(c, asks) ==> LastGranted(c, asks)
    ensures ScriptAfter(asks, c.window).1 <==> |asks| == 1
  {
    WithinOneWindow(c, asks);
    if |asks| > 1 { WithinOneWindow(c, asks[..|asks| - 1]); }
  }

  /** With one token at a time the two forms decide alike. */
  lemma {:induction false} SingleTokensAgree(c: Setting, asks: seq<Ask>)
    requires OneWindow(c, asks) && asks != [] && forall i :: 0 <= i < |asks| ==> asks[i].n == 1
    ensures WindowAfter(c, asks).value.count == Min(|asks|, Max(0, c.limit))
    ensures ScriptAfter(asks, c.window).0.value.value == |asks|
    ensures RedisAllows(c, asks) <==> LastGranted(c, asks)
  {
    WithinOneWindow(c, asks);
    if |asks| > 1 {
      WithinOneWindow(c, asks[..|asks| - 1]);
      SingleTokensAgree(c, asks[..|asks| - 1]);
    }
  }

  /** The forms decide every one of these requests alike. */
  ghost predicate DecideAlike(c: Setting, asks: seq<Ask>) {
    forall i :: 1 <= i <= |asks| ==> (RedisAllows(c, asks[..i]) <==> LastGranted(c, asks[..i]))
  }

  /** After a request that did not fit what the memory form's window had left, none fits again. */
  ghost predicate NoneFitsAfterRefusal(c: Setting, asks: seq<Ask>) {
    forall i, j :: 1 <= i < j <= |asks| && !LastGranted(c, asks[..i]) ==> !LastGranted(c, asks[..j])
  }

  ghost predicate AllGranted(c: Setting, asks: seq<Ask>) {
    forall i :: 1 <= i <= |asks| ==> LastGranted(c, asks[..i])
  }

  /** Up to the first refusal both forms count the same; from then on Redis is over the limit. */
  lemma {:induction false} RefusalsPutRedisOver(c: Setting, asks: seq<Ask>)
    requires OneWindow(c, asks) && PositiveAsks(asks) && asks != []
    ensures var total := ScriptAfter(asks, c.window).0.value.value;
      if AllGranted(c, asks) then total == WindowAfter(c, asks).value.count <= c.limit else total > c.limit
  {
    WithinOneWindow(c, asks);
    var init := asks[..|asks| - 1];
    assert asks[..|asks|] == asks;
    if init != [] {
      WithinOneWindow(c, init);
      RefusalsPutRedisOver(c, init);
      assert forall i :: 1 <= i <= |init| ==> init[..i] == asks[..i];
      if !AllGranted(c, init) {
        var i :| 1 <= i <= |init| && !LastGranted(c, init[..i]);
        assert !LastGranted(c, asks[..i]);
      } else if LastGranted(c, asks) {
        assert forall i :: 1 <= i <= |asks| ==> asks[..i] == if i == |asks| then asks else init[..i];
      }
    }
  }

  /** Within a window the two forms decide a whole sequence alike exactly when nothing fits after a
      refusal: Redis has counted what it refused. */
  lemma DecideAlikeIff(c: Setting, asks: seq<Ask>)
    requires OneWindow(c, asks) && PositiveAsks(asks)
    ensures DecideAlike(c, asks) <==> NoneFitsAfterRefusal(c, asks)
  {
    forall i | 1 <= i <= |asks|
      ensures RedisAllows(c, asks[..i]) <==> AllGranted(c, asks[..i])
      ensures AllGranted(c, asks[..i]) ==> LastGranted(c, asks[..i])
    {
      RefusalsPutRedisOver(c, asks[..i]);
      assert asks[..i][..i] == asks[..i];
    }
    if NoneFitsAfterRefusal(c, asks) {
      forall j | 1 <= j <= |asks| && LastGranted(c, asks[..j]) ensures RedisAllows(c, asks[..j]) {
        forall i | 1 <= i <= j ensures LastGranted(c, asks[..j][..i]) { assert asks[..j][..i] == asks[..i]; }
      }
    } else {
      var i, j :| 1 <= i < j <= |asks| && !LastGranted(c, asks[..i]) && LastGranted(c, asks[..j]);
      assert asks[..j][..i] == asks[..i];
      assert !AllGranted(c, asks[..j]);
    }
  }

  /** With larger requests they need not: Redis counts what it refused. */
  lemma RefusedTokensCount(c: Setting, now: int)
    requires c.limit >= 1 && c.window >= 1
    ensures var asks := [Ask(now, c.limit + 1), Ask(now, 1)];
      OneWindow(c, asks) && LastGranted(c, asks) && !RedisAllows(c, asks)
  {
    var asks := [Ask(now, c.limit + 1), Ask(now, 1)];
    assert asks[..1] == [asks[0]] && [asks[0]][..0] == [];
    assert WindowAfter(c, []) == None;
    assert WindowAfter(c, [asks[0]]) == Some(Window(0, now + c.window));
    assert ScriptAfter([asks[0]], c.window).0 == Some(Counter(c.limit + 1, Some(now + c.window)));
  }
}
