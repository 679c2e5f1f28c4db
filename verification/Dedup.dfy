/** The duplicate-suppression cache of pkg/queue/dedup.go. */
module Dedup {
  import opened Common

  /** A scope is a queue name, which holds no ':'. */
  ghost predicate IsScope(s: string) { ':' !in s }

  function CacheKey(scope: string, id: string): string { scope + ":" + id }

  lemma CacheKeysAreDistinct(scope: string, id: string, scope': string, id': string)
    requires IsScope(scope) && IsScope(scope') && CacheKey(scope, id) == CacheKey(scope', id')
    ensures scope == scope' && id == id'
  {
    var k := CacheKey(scope, id);
    assert k[|scope|] == ':' && k[|scope'|] == ':';
    assert |scope| == |scope'|;
    assert scope == k[..|scope|] && scope' == k[..|scope'|];
    assert id == k[|scope| + 1..] && id' == k[|scope'| + 1..];
  }

  /** One MarkProcessed call with a nonempty id. */
  datatype Mark = Mark(scope: string, id: string, at: int)

  /** When (scope, id) was last marked: the history the cache is meant to stand for. */
  ghost function LastMark(history: seq<Mark>, scope: string, id: string): Option<int> {
    if history == [] then None
    else
      var m := history[|history| - 1];
      if m.scope == scope && m.id == id then Some(m.at) else LastMark(history[..|history| - 1], scope, id)
  }

  /** (scope, id) was last marked less than the TTL ago. */
  ghost predicate MarkedWithin(history: seq<Mark>, scope: string, id: string, now: int, ttl: int) {
    var last := LastMark(history, scope, id);
    last.Some? && now - last.value < ttl
  }

  /** Marks are made one after another, none later than `seen`. */
  ghost predicate InOrder(history: seq<Mark>, seen: int) {
    forall i :: 0 <= i < |history| ==>
      history[i].at <= seen && forall j :: i < j < |history| ==> history[i].at <= history[j].at
  }

  lemma InOrderLater(history: seq<Mark>, seen: int, later: int)
    requires InOrder(history, seen) && seen <= later
    ensures InOrder(history, later)
  {
  }

  lemma {:induction false} LastMarkIsAMark(history: seq<Mark>, scope: string, id: string)
    ensures LastMark(history, scope, id).Some? ==> Mark(scope, id, LastMark(history, scope, id).value) in history
  {
    if history != [] { LastMarkIsAMark(history[..|history| - 1], scope, id); }
  }

  lemma {:induction false} NoMarkIsLater(history: seq<Mark>, seen: int, scope: string, id: string, i: nat)
    requires InOrder(history, seen) && i < |history| && history[i].scope == scope && history[i].id == id
    ensures LastMark(history, scope, id).Some? && history[i].at <= LastMark(history, scope, id).value
  {
    var n := |history| - 1;
    if history[n].scope != scope || history[n].id != id {
      assert forall k :: 0 <= k < n ==> history[..n][k] == history[k];
      NoMarkIsLater(history[..n], seen, scope, id, i);
    }
  }

  /** Some mark of (scope, id), the last or an earlier one, is less than the TTL old. */
  lemma MarkedWithinIff(history: seq<Mark>, seen: int, scope: string, id: string, now: int, ttl: int)
    requires InOrder(history, seen)
    ensures MarkedWithin(history, scope, id, now, ttl)
            <==> exists m :: m in history && m.scope == scope && m.id == id && now - m.at < ttl
  {
    LastMarkIsAMark(history, scope, id);
    if m :| m in history && m.scope == scope && m.id == id && now - m.at < ttl {
      var i :| 0 <= i < |history| && history[i] == m;
      NoMarkIsLater(history, seen, scope, id, i);
    }
  }

  ghost function Marks(history: seq<Mark>): map<string, int> {
    if history == [] then map[]
    else
      var m := history[|history| - 1];
      Marks(history[..|history| - 1])[CacheKey(m.scope, m.id) := m.at]
  }

  lemma {:induction false} MarksHoldLastMarks(history: seq<Mark>, scope: string, id: string)
    requires IsScope(scope) && forall m :: m in history ==> IsScope(m.scope)
    ensures LastMark(history, scope, id)
            == if CacheKey(scope, id) in Marks(history) then Some(Marks(history)[CacheKey(scope, id)]) else None
  {
    if history != [] {
      var m := history[|history| - 1];
      MarksHoldLastMarks(history[..|history| - 1], scope, id);
      if CacheKey(m.scope, m.id) == CacheKey(scope, id) { CacheKeysAreDistinct(scope, id, m.scope, m.id); }
    }
  }

  class DedupCache {
    const ttl: int
    var entries: map<string, int>
    var nextSweep: int
    /** Every mark since the cache was made; never swept. */
    ghost var history: seq<Mark>
    /** The latest clock reading so far. */
    ghost var seen: int

    /** The entries are the marks, except that some expired ones are gone. */
    ghost predicate Valid()
      reads this
    {
      && (forall m :: m in history ==> IsScope(m.scope))
      && InOrder(history, seen)
      && Follows(entries, Marks(history), ttl, seen)
      && (ttl >= 0 ==> nextSweep <= seen + ttl && forall k :: k in entries ==> nextSweep <= entries[k] + ttl)
    }

    constructor (ttl: int, now: int)
      ensures Valid() && this.ttl == ttl && history == [] && seen == now
    {
      this.ttl, entries, nextSweep, history, seen := ttl, map[], now + ttl, [], now;
    }

    /** Drops entries past their expiry, at most once per TTL. Afterwards no entry is kept that was
        marked more than two TTLs ago. */
    method SweepLocked(now: int)
      requires Valid() && seen <= now
      modifies this`entries, this`nextSweep, this`seen
      ensures Valid() && seen == now
      ensures ttl >= 0 ==> forall k :: k in entries ==> k in Marks(history) && now - Marks(history)[k] <= 2 * ttl
    {
      hide LastMark, Marks;
      InOrderLater(history, seen, now);
      hide InOrder;
      seen := now;
      if now < nextSweep { return; }
      var todo := entries.Keys;
      while todo != {}
        invariant todo <= entries.Keys && seen == now
        invariant Follows(entries, Marks(history), ttl, now)
        invariant forall k :: k in entries && k !in todo ==> now <= entries[k]
        invariant entries.Keys <= old(entries).Keys && forall k :: k in entries ==> entries[k] == old(entries)[k]
        decreases |todo|
      {
        var key :| key in todo;
        todo := todo - {key};
        if now > entries[key] {
          DroppingExpired(entries, Marks(history), ttl, now, key);
          entries := entries - {key};
        }
      }
      nextSweep := now + ttl;
    }

    /** `now` is the sweep's clock reading, `later` the one the entry is checked against. Sweeping
        never changes the answer. */
    method IsDuplicate(scope: string, id: string, now: int, later: int) returns (duplicate: bool)
      requires Valid() && seen <= now <= later && IsScope(scope)
      modifies this`entries, this`nextSweep, this`seen
      ensures Valid() && seen <= later
      ensures duplicate <==> id != "" && MarkedWithin(history, scope, id, later, ttl)
      ensures duplicate
         <==> id != "" && exists m :: m in history && m.scope == scope && m.id == id && later - m.at < ttl
    {
      MarkedWithinIff(history, seen, scope, id, later, ttl);
      if id == "" { return false; }
      SweepLocked(now);
      seen := later;
      MarksHoldLastMarks(history, scope, id);
      var key := CacheKey(scope, id);
      return key in entries && later < entries[key];
    }

    method MarkProcessed(scope: string, id: string, now: int, later: int)
      requires Valid() && seen <= now <= later && IsScope(scope)
      modifies this
      ensures Valid() && seen <= later
      ensures history == if id == "" then old(history) else old(history) + [Mark(scope, id, later)]
    {
      if id == "" { return; }
      SweepLocked(now);
      entries := entries[CacheKey(scope, id) := later + ttl];
      ghost var h := history + [Mark(scope, id, later)];
      assert h[..|h| - 1] == history;
      assert Marks(h) == Marks(history)[CacheKey(scope, id) := later];
      history := h;
      seen := later;
    }
  }

  /** What the cache keeps of its marks: nothing else, everything that has not expired. */
  ghost predicate Follows(entries: map<string, int>, marks: map<string, int>, ttl: int, seen: int) {
    && (forall k :: k in entries ==> k in marks && entries[k] == marks[k] + ttl)
    && (forall k :: k in marks ==> marks[k] <= seen && (k in entries || marks[k] + ttl < seen))
  }

  lemma DroppingExpired(entries: map<string, int>, marks: map<string, int>, ttl: int, seen: int, key: string)
    requires Follows(entries, marks, ttl, seen) && key in entries && entries[key] < seen
    ensures Follows(entries - {key}, marks, ttl, seen)
  {
  }
}
