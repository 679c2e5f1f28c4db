/**
 Retries and redeliveries over time: copies of the same message come back any number of times,
 other messages interleave freely, and the duplicate cache decides. The main results: within the
 TTL nothing succeeds twice unless copies overlap, nothing is suppressed but a repeat of itself, and
 an event reaches all the subscriptions that match it and no others.
 */
module AtMostOnce {
  import opened Common
  import opened Dedup
  import opened Delivery

  /** What is processed: an outgoing job, one webhook destination of one message, an event. */
  datatype Item = Job(id: string) | Hook(messageId: string, url: string) | Event(messageId: string)

  function Scope(i: Item): string {
    match i case Job(_) => OUTGOING case Hook(_, _) => WEBHOOK case Event(_) => INCOMING
  }

  function Id(i: Item): string {
    match i case Job(id) => id case Hook(m, u) => WebhookDedupKey(m, u) case Event(m) => m
  }

  /** `overlap` allows copies of one message to be handled at once, `restarts` the process to start
      anew with an empty cache, and `lostReports` a send or delivery to arrive although it is reported
      failed, or is never marked. Nothing in the code prevents any of them. */
  datatype Config = Config(enabled: bool, ttl: int, overlap: bool, restarts: bool, lostReports: bool)

  /** One successful handling: the send, the delivery or the whole fan-out, at its mark's reading. */
  datatype Success = Success(item: Item, at: int)

  /** `active` are the items being handled, past the duplicate check; `fanned` the events whose
      fan-out is complete but not yet marked. `read` are the subscriptions an event was fanned out
      to, `published` the webhook jobs. `successes` is everything that arrived, `remembered` what the
      present process has marked. */
  datatype State = State(
    now: int,
    active: multiset<Item>,
    fanned: multiset<string>,
    successes: seq<Success>,
    remembered: seq<Success>,
    read: set<(string, seq<Subscription>)>,
    published: set<(string, string)>)

  /** `reached` jobs of a fan-out arrived; it is `complete` if none of its publishes was reported
      failed. */
  datatype Step =
    | Start(item: Item, at: int)
    | GiveUp(item: Item, landed: bool)
    | Restart
    | Succeed(item: Item, at: int)
    | FanOut(messageId: string, subs: seq<Subscription>, reached: nat, complete: bool)

  /** The marks the cache has been given; a success with an empty id leaves none. */
  ghost function MarksOf(ss: seq<Success>): seq<Mark> {
    if ss == [] then []
    else
      var s := ss[|ss| - 1];
      MarksOf(ss[..|ss| - 1]) + if Id(s.item) == "" then [] else [Mark(Scope(s.item), Id(s.item), s.at)]
  }

  ghost predicate Duplicate(c: Config, s: State, item: Item, at: int) {
    c.enabled && Id(item) != "" && MarkedWithin(MarksOf(s.remembered), Scope(item), Id(item), at, c.ttl)
  }

  function InFlight(s: State, item: Item): nat {
    s.active[item] + if item.Event? then s.fanned[item.messageId] else 0
  }

  function Recipients(subs: seq<Subscription>): seq<Subscription> { Matching(subs, MESSAGE_INCOMING) }

  /** Handling stops at the start if the item is a duplicate. A webhook job exists only once
      published, and an event is marked only after a complete fan-out. */
  ghost predicate Enabled(c: Config, s: State, step: Step) {
    match step
    case Start(item, at) =>
      && s.now <= at && (c.overlap || InFlight(s, item) == 0)
      && (item.Hook? ==> (item.messageId, item.url) in s.published)
    case GiveUp(item, landed) => item in s.active && (landed ==> c.lostReports && !item.Event?)
    case Restart => c.restarts
    case Succeed(item, at) => s.now <= at && if item.Event? then item.messageId in s.fanned else item in s.active
    case FanOut(m, subs, reached, complete) =>
      Event(m) in s.active && reached <= |Recipients(subs)| && (complete ==> reached == |Recipients(subs)|)
  }

  ghost function Do(c: Config, s: State, step: Step): State
    requires Enabled(c, s, step)
  {
    match step
    case Start(item, at) =>
      s.(now := at, active := if Duplicate(c, s, item, at) then s.active else s.active + multiset{item})
    case GiveUp(item, landed) =>
      var t := s.(active := s.active - multiset{item});
      if landed then t.(successes := s.successes + [Success(item, s.now)]) else t
    case Restart => s.(active := multiset{}, fanned := multiset{}, remembered := [])
    case Succeed(item, at) =>
      var t := s.(now := at, successes := s.successes + [Success(item, at)],
                  remembered := s.remembered + [Success(item, at)]);
      if item.Event? then t.(fanned := s.fanned - multiset{item.messageId}) else t.(active := s.active - multiset{item})
    case FanOut(m, subs, reached, complete) =>
      var t := s.(read := s.read + {(m, subs)}, published := s.published + JobsOf(m, Recipients(subs)[..reached]));
      if complete
      then t.(active := s.active - multiset{Event(m)}, fanned := s.fanned + multiset{m})
      else t
  }

  function JobsOf(messageId: string, subs: seq<Subscription>): set<(string, string)> {
    set u | u in Urls(subs) :: (messageId, u)
  }

  ghost predicate Init(s: State) {
    && s.active == multiset{} && s.fanned == multiset{}
    && s.successes == [] && s.remembered == [] && s.read == {} && s.published == {}
  }

  ghost predicate Run(c: Config, states: seq<State>, steps: seq<Step>) {
    && |states| == |steps| + 1 && Init(states[0])
    && forall i :: 0 <= i < |steps| ==> Enabled(c, states[i], steps[i]) && states[i + 1] == Do(c, states[i], steps[i])
  }

  /** Every new copy arrives within the TTL of the item's earlier successes. */
  ghost predicate InTime(c: Config, states: seq<State>, steps: seq<Step>, item: Item)
    requires |states| == |steps| + 1
  {
    forall i, k :: 0 <= i < |steps| && steps[i].Start? && steps[i].item == item
                   && 0 <= k < |states[i].successes| && states[i].successes[k].item == item
                   ==> steps[i].at - states[i].successes[k].at < c.ttl
  }

  function Count(ss: seq<Success>, item: Item): nat {
    if ss == [] then 0 else Count(ss[..|ss| - 1], item) + if ss[|ss| - 1].item == item then 1 else 0
  }

  ghost predicate Ordered(ss: seq<Success>, now: int) {
    forall i :: 0 <= i < |ss| ==> ss[i].at <= now && forall j :: i < j < |ss| ==> ss[i].at <= ss[j].at
  }

  // ---- marks and successes ----

  /** When an item was last marked. */
  ghost function Last(ss: seq<Success>, item: Item): Option<int> { LastMark(MarksOf(ss), Scope(item), Id(item)) }

  predicate SameId(i: Item, j: Item) { Scope(i) == Scope(j) && Id(i) == Id(j) }

  lemma LastUnfolds(ss: seq<Success>, item: Item)
    requires Id(item) != "" && ss != []
    ensures Last(ss, item)
         == if SameId(ss[|ss| - 1].item, item) then Some(ss[|ss| - 1].at) else Last(ss[..|ss| - 1], item)
  {
    var before, s := MarksOf(ss[..|ss| - 1]), ss[|ss| - 1];
    if Id(s.item) != "" {
      var h := before + [Mark(Scope(s.item), Id(s.item), s.at)];
      assert h[..|h| - 1] == before && MarksOf(ss) == h;
    } else {
      assert MarksOf(ss) == before;
    }
  }

  lemma NothingLast(item: Item)
    ensures Last([], item) == None
  {
  }

  /** The last mark of an id comes from a success under that id. */
  lemma {:induction false} LastIsASuccess(ss: seq<Success>, item: Item) returns (k: nat)
    requires Id(item) != "" && Last(ss, item).Some?
    ensures k < |ss| && SameId(ss[k].item, item) && Last(ss, item) == Some(ss[k].at)
  {
    NothingLast(item);
    hide Last, Scope, Id;
    LastUnfolds(ss, item);
    if SameId(ss[|ss| - 1].item, item) {
      k := |ss| - 1;
    } else {
      k := LastIsASuccess(ss[..|ss| - 1], item);
    }
  }

  /** And no success under that id is later. */
  lemma {:induction false} LastIsLatest(ss: seq<Success>, item: Item, now: int, k: nat)
    requires Ordered(ss, now) && Id(item) != "" && k < |ss| && SameId(ss[k].item, item)
    ensures Last(ss, item).Some? && ss[k].at <= Last(ss, item).value <= now
  {
    hide Last, Scope, Id;
    LastUnfolds(ss, item);
    if !SameId(ss[|ss| - 1].item, item) {
      assert forall i :: 0 <= i < |ss| - 1 ==> ss[..|ss| - 1][i] == ss[i];
      LastIsLatest(ss[..|ss| - 1], item, now, k);
    }
  }

  lemma {:induction false} CountedIsThere(ss: seq<Success>, item: Item)
    ensures Count(ss, item) >= 1 <==> exists k :: 0 <= k < |ss| && ss[k].item == item
  {
    if ss != [] {
      var init := ss[..|ss| - 1];
      CountedIsThere(init, item);
      assert forall k :: 0 <= k < |init| ==> init[k] == ss[k];
      if ss[|ss| - 1].item != item && Count(ss, item) >= 1 {
        var k :| 0 <= k < |init| && init[k].item == item;
        assert ss[k].item == item;
      }
    }
  }

  lemma OrderedLater(ss: seq<Success>, now: int, later: int)
    requires Ordered(ss, now) && now <= later
    ensures Ordered(ss, later)
  {
  }

  lemma OrderedAppend(ss: seq<Success>, now: int, s: Success)
    requires Ordered(ss, now) && now <= s.at
    ensures Ordered(ss + [s], s.at)
  {
  }

  ghost predicate InOrderSoFar(s: State) { Ordered(s.successes, s.now) && Ordered(s.remembered, s.now) }

  lemma StepKeepsOrdered(c: Config, s: State, step: Step)
    requires Enabled(c, s, step) && InOrderSoFar(s)
    ensures InOrderSoFar(Do(c, s, step))
  {
    hide Recipients, Duplicate, JobsOf, Ordered;
    NothingIsOrdered(s.now);
    match step
    case Start(_, at) =>
      OrderedLater(s.successes, s.now, at);
      OrderedLater(s.remembered, s.now, at);
    case GiveUp(item, _) =>
      OrderedAppend(s.successes, s.now, Success(item, s.now));
    case Succeed(item, at) =>
      OrderedAppend(s.successes, s.now, Success(item, at));
      OrderedAppend(s.remembered, s.now, Success(item, at));
    case _ =>
  }

  lemma {:induction false} SuccessesAreOrdered(c: Config, states: seq<State>, steps: seq<Step>)
    requires Run(c, states, steps)
    ensures InOrderSoFar(states[|steps|])
  {
    hide Enabled, Do, Ordered;
    if steps == [] {
      NothingIsOrdered(states[0].now);
    } else {
      var n := |steps| - 1;
      SuccessesAreOrdered(c, states[..n + 1], steps[..n]);
      StepKeepsOrdered(c, states[n], steps[n]);
    }
  }

  lemma NothingIsOrdered(now: int)
    ensures Ordered([], now)
  {
  }

  // ---- at most once ----

  ghost predicate AtMostOne(s: State, item: Item) {
    Count(s.successes, item) + InFlight(s, item) <= 1
  }

  lemma StepKeepsAtMostOne(c: Config, s: State, step: Step, item: Item)
    requires Enabled(c, s, step) && AtMostOne(s, item) && !c.overlap && !c.lostReports
    requires step.Start? && step.item == item && Count(s.successes, item) >= 1 ==> Duplicate(c, s, item, step.at)
    ensures AtMostOne(Do(c, s, step), item)
  {
    hide Duplicate, AtMostOne, Count, InFlight, Do, Enabled;
    match step
    case Start(other, at) => StartKeepsAtMostOne(c, s, other, at, item);
    case GiveUp(other, landed) => GiveUpKeepsAtMostOne(c, s, other, landed, item);
    case Restart => RestartKeepsAtMostOne(c, s, item);
    case Succeed(other, at) => SucceedKeepsAtMostOne(c, s, other, at, item);
    case FanOut(_, _, _, _) => FanOutKeepsAtMostOne(c, s, step, item);
  }

  lemma GiveUpKeepsAtMostOne(c: Config, s: State, other: Item, landed: bool, item: Item)
    requires Enabled(c, s, GiveUp(other, landed)) && AtMostOne(s, item)
    ensures AtMostOne(Do(c, s, GiveUp(other, landed)), item)
  {
    hide Count;
    CountAppend(s.successes, Success(other, s.now), item);
  }

  lemma RestartKeepsAtMostOne(c: Config, s: State, item: Item)
    requires Enabled(c, s, Restart) && AtMostOne(s, item)
    ensures AtMostOne(Do(c, s, Restart), item)
  {
    hide Count;
  }

  lemma SucceedKeepsAtMostOne(c: Config, s: State, other: Item, at: int, item: Item)
    requires Enabled(c, s, Succeed(other, at)) && AtMostOne(s, item)
    ensures AtMostOne(Do(c, s, Succeed(other, at)), item)
  {
    hide Count;
    CountAppend(s.successes, Success(other, at), item);
  }

  lemma StartKeepsAtMostOne(c: Config, s: State, other: Item, at: int, item: Item)
    requires Enabled(c, s, Start(other, at)) && AtMostOne(s, item) && !c.overlap
    requires other == item && Count(s.successes, item) >= 1 ==> Duplicate(c, s, item, at)
    ensures AtMostOne(Do(c, s, Start(other, at)), item)
  {
    hide Duplicate, Count;
  }

  lemma CountAppend(ss: seq<Success>, s: Success, item: Item)
    ensures Count(ss + [s], item) == Count(ss, item) + if s.item == item then 1 else 0
  {
    assert (ss + [s])[..|ss|] == ss;
  }

  lemma FanOutKeepsAtMostOne(c: Config, s: State, step: Step, item: Item)
    requires step.FanOut? && Enabled(c, s, step) && AtMostOne(s, item)
    ensures AtMostOne(Do(c, s, step), item)
  {
    hide Recipients, JobsOf, Count;
    assert InFlight(Do(c, s, step), item) == InFlight(s, item);
  }

  lemma SecondCopyIsDuplicate(c: Config, s: State, item: Item, at: int, k: nat)
    requires Ordered(s.remembered, s.now) && c.enabled && Id(item) != ""
    requires k < |s.remembered| && s.remembered[k].item == item && at - s.remembered[k].at < c.ttl
    ensures Duplicate(c, s, item, at)
  {
    LastIsLatest(s.remembered, item, s.now, k);
  }

  /** One process, and every arrival is reported: nothing is forgotten. */
  predicate Remembers(c: Config) { !c.restarts && !c.lostReports }

  lemma {:induction false} AllIsRemembered(c: Config, states: seq<State>, steps: seq<Step>)
    requires Run(c, states, steps) && Remembers(c)
    ensures states[|steps|].remembered == states[|steps|].successes
  {
    if steps != [] {
      var n := |steps| - 1;
      AllIsRemembered(c, states[..n + 1], steps[..n]);
      assert states[n + 1] == Do(c, states[n], steps[n]);
    }
  }

  /** With duplicate detection on, in one process life, an item with an id whose copies all come within
      the TTL, and not at once, arrives at most once if its arrivals are reported, however often it is
      retried or redelivered and whatever runs in between. */
  lemma {:induction false} SucceedsAtMostOnce(c: Config, states: seq<State>, steps: seq<Step>, item: Item)
    requires Run(c, states, steps) && InTime(c, states, steps, item)
    requires c.enabled && !c.overlap && Remembers(c) && Id(item) != ""
    ensures AtMostOne(states[|steps|], item) && Count(states[|steps|].successes, item) <= 1
  {
    if steps != [] {
      var n := |steps| - 1;
      var s, step := states[n], steps[n];
      assert forall i :: 0 <= i <= n ==> states[..n + 1][i] == states[i];
      assert forall i :: 0 <= i < n ==> steps[..n][i] == steps[i];
      SucceedsAtMostOnce(c, states[..n + 1], steps[..n], item);
      SuccessesAreOrdered(c, states[..n + 1], steps[..n]);
      AllIsRemembered(c, states[..n + 1], steps[..n]);
      if step.Start? && step.item == item && Count(s.successes, item) >= 1 {
        CountedIsThere(s.successes, item);
        var k :| 0 <= k < |s.successes| && s.successes[k].item == item;
        SecondCopyIsDuplicate(c, s, item, step.at, k);
      }
      StepKeepsAtMostOne(c, s, step, item);
    }
  }

  // ---- successes are a TTL apart ----

  /** Successes of one item are a TTL apart, and an item is being handled at most once, and not unless
      its earlier successes are a TTL old. */
  ghost predicate Spaced(c: Config, s: State) {
    && SpacedSuccesses(c, s.successes)
    && forall i :: InFlight(s, i) <= 1 && (InFlight(s, i) >= 1 && Id(i) != "" ==> Cold(c, s.successes, i, s.now))
  }

  ghost predicate SpacedSuccesses(c: Config, ss: seq<Success>) {
    forall j, k :: 0 <= j < k < |ss| && ss[j].item == ss[k].item && Id(ss[j].item) != "" ==>
      ss[k].at - ss[j].at >= c.ttl
  }

  ghost predicate Cold(c: Config, ss: seq<Success>, item: Item, now: int) {
    forall k :: 0 <= k < |ss| && ss[k].item == item ==> now - ss[k].at >= c.ttl
  }

  lemma NotDuplicateIsCold(c: Config, s: State, item: Item, at: int)
    requires Ordered(s.remembered, s.now) && c.enabled && Id(item) != "" && !Duplicate(c, s, item, at)
    ensures Cold(c, s.remembered, item, at)
  {
    forall k | 0 <= k < |s.remembered| && s.remembered[k].item == item ensures at - s.remembered[k].at >= c.ttl {
      if at - s.remembered[k].at < c.ttl { SecondCopyIsDuplicate(c, s, item, at, k); }
    }
  }

  lemma StartKeepsSpaced(c: Config, s: State, item: Item, at: int)
    requires Enabled(c, s, Start(item, at)) && Spaced(c, s) && InOrderSoFar(s) && s.remembered == s.successes
    requires c.enabled && !c.overlap
    ensures Spaced(c, Do(c, s, Start(item, at)))
  {
    if Id(item) != "" && !Duplicate(c, s, item, at) { NotDuplicateIsCold(c, s, item, at); }
    hide Duplicate, Id, SpacedSuccesses, Ordered;
    var t := Do(c, s, Start(item, at));
    forall i | InFlight(t, i) >= 1 && Id(i) != "" ensures Cold(c, s.successes, i, at) {
      if i != item {
        assert InFlight(t, i) == InFlight(s, i);
      } else if InFlight(s, i) >= 1 {
        assert Cold(c, s.successes, i, s.now);
      }
    }
  }

  lemma SucceedKeepsSpaced(c: Config, s: State, item: Item, at: int)
    requires Enabled(c, s, Succeed(item, at)) && Spaced(c, s)
    ensures Spaced(c, Do(c, s, Succeed(item, at)))
  {
    SucceedEndsFlight(c, s, item, at);
    hide Id, InFlight, Enabled;
  }

  lemma SucceedEndsFlight(c: Config, s: State, item: Item, at: int)
    requires Enabled(c, s, Succeed(item, at)) && InFlight(s, item) <= 1
    ensures var t := Do(c, s, Succeed(item, at));
      && InFlight(s, item) == 1 && InFlight(t, item) == 0
      && forall i :: i != item ==> InFlight(t, i) == InFlight(s, i)
  {
    var t := Do(c, s, Succeed(item, at));
    if item.Event? {
      assert t.fanned[item.messageId] == s.fanned[item.messageId] - 1 && t.active == s.active;
      assert forall m :: m != item.messageId ==> t.fanned[m] == s.fanned[m];
    } else {
      assert t.active[item] == s.active[item] - 1 && t.fanned == s.fanned;
    }
  }

  lemma GiveUpKeepsSpaced(c: Config, s: State, item: Item)
    requires Enabled(c, s, GiveUp(item, false)) && Spaced(c, s)
    ensures Spaced(c, Do(c, s, GiveUp(item, false)))
  {
    hide Id, SpacedSuccesses;
    var t := Do(c, s, GiveUp(item, false));
    assert forall i :: InFlight(t, i) <= InFlight(s, i);
  }

  lemma FanOutKeepsSpaced(c: Config, s: State, step: Step)
    requires step.FanOut? && Enabled(c, s, step) && Spaced(c, s)
    ensures Spaced(c, Do(c, s, step))
  {
    hide Recipients, JobsOf, Id, SpacedSuccesses;
    var t := Do(c, s, step);
    assert forall i :: InFlight(t, i) == InFlight(s, i);
  }

  lemma StepKeepsSpaced(c: Config, s: State, step: Step)
    requires Enabled(c, s, step) && Spaced(c, s) && InOrderSoFar(s) && s.remembered == s.successes
    requires c.enabled && !c.overlap && Remembers(c)
    ensures Spaced(c, Do(c, s, step))
  {
    hide Spaced, Do, Duplicate, InOrderSoFar;
    match step
    case Start(item, at) =>
      StartKeepsSpaced(c, s, item, at);
    case Succeed(item, at) => SucceedKeepsSpaced(c, s, item, at);
    case GiveUp(item, landed) => GiveUpKeepsSpaced(c, s, item);
    case FanOut(_, _, _, _) => FanOutKeepsSpaced(c, s, step);
    case _ =>
  }

  /** With duplicate detection on, in one process life, any two arrivals of an item with an id are at
      least a TTL apart, if its copies are not handled at once and its arrivals are reported. */
  lemma {:induction false} SuccessesAreSpaced(c: Config, states: seq<State>, steps: seq<Step>)
    requires Run(c, states, steps) && c.enabled && !c.overlap && Remembers(c)
    ensures Spaced(c, states[|steps|])
  {
    if steps != [] {
      var n := |steps| - 1;
      hide Spaced, Enabled, Do, Init, Ordered;
      SuccessesAreSpaced(c, states[..n + 1], steps[..n]);
      SuccessesAreOrdered(c, states[..n + 1], steps[..n]);
      AllIsRemembered(c, states[..n + 1], steps[..n]);
      StepKeepsSpaced(c, states[n], steps[n]);
    }
  }

  // ---- events and their subscriptions ----

  /** Some list of subscriptions read for the message has a matching one with this URL. */
  ghost predicate MatchedBy(s: State, m: string, u: string) {
    exists subs :: (m, subs) in s.read && u in Urls(Recipients(subs))
  }

  /** For some list of subscriptions read for the message, all the matching ones have their job. */
  ghost predicate FannedOut(s: State, m: string) {
    exists subs :: (m, subs) in s.read && forall u :: u in Urls(Recipients(subs)) ==> (m, u) in s.published
  }

  ghost predicate Faithful(s: State) {
    JobsMatch(s) && EventsAreFannedOut(s) && HooksArePublished(s)
  }

  ghost predicate JobsMatch(s: State) {
    forall m, u :: (m, u) in s.published ==> MatchedBy(s, m, u)
  }

  ghost predicate EventsAreFannedOut(s: State) {
    FannedAreFannedOut(s) && HandledAreFannedOut(s)
  }

  ghost predicate FannedAreFannedOut(s: State) {
    forall m :: m in s.fanned ==> FannedOut(s, m)
  }

  ghost predicate HandledAreFannedOut(s: State) {
    forall k :: 0 <= k < |s.successes| && s.successes[k].item.Event? ==> FannedOut(s, s.successes[k].item.messageId)
  }

  ghost predicate HooksArePublished(s: State) {
    ActiveArePublished(s) && DeliveredArePublished(s)
  }

  ghost predicate ActiveArePublished(s: State) {
    forall i :: i in s.active && i.Hook? ==> (i.messageId, i.url) in s.published
  }

  ghost predicate DeliveredArePublished(s: State) {
    forall k :: 0 <= k < |s.successes| && s.successes[k].item.Hook? ==>
      (s.successes[k].item.messageId, s.successes[k].item.url) in s.published
  }

  lemma MorePublished(s: State, t: State)
    requires s.read <= t.read && s.published <= t.published
    ensures forall m, u :: MatchedBy(s, m, u) ==> MatchedBy(t, m, u)
    ensures forall m :: FannedOut(s, m) ==> FannedOut(t, m)
  {
    forall m, u | MatchedBy(s, m, u) ensures MatchedBy(t, m, u) {
      var subs :| (m, subs) in s.read && u in Urls(Recipients(subs));
      assert (m, subs) in t.read;
    }
    forall m | FannedOut(s, m) ensures FannedOut(t, m) {
      var subs :| (m, subs) in s.read && forall u :: u in Urls(Recipients(subs)) ==> (m, u) in s.published;
      assert (m, subs) in t.read;
    }
  }

  lemma FanOutIsFaithful(c: Config, s: State, m: string, subs: seq<Subscription>, reached: nat,
      complete: bool)
    requires Enabled(c, s, FanOut(m, subs, reached, complete))
    ensures var t := Do(c, s, FanOut(m, subs, reached, complete));
      && (forall u :: (m, u) in t.published && (m, u) !in s.published ==> MatchedBy(t, m, u))
      && (complete ==> FannedOut(t, m))
  {
    var t, all := Do(c, s, FanOut(m, subs, reached, complete)), Recipients(subs);
    hide Recipients;
    assert (m, subs) in t.read;
    forall u | u in Urls(all[..reached]) ensures u in Urls(all) {
      var i :| 0 <= i < reached && u == all[i].url;
      assert Urls(all)[i] == u;
    }
    if complete {
      assert all[..reached] == all;
      forall u | u in Urls(all) ensures (m, u) in t.published { assert (m, u) in JobsOf(m, all); }
    }
  }

  lemma StepKeepsJobsMatch(c: Config, s: State, step: Step)
    requires Enabled(c, s, step) && JobsMatch(s)
    ensures JobsMatch(Do(c, s, step))
  {
    MorePublished(s, Do(c, s, step));
    if step.FanOut? { FanOutIsFaithful(c, s, step.messageId, step.subs, step.reached, step.complete); }
    hide MatchedBy, Recipients, Duplicate;
  }

  lemma StepKeepsFannedOut(c: Config, s: State, step: Step)
    requires Enabled(c, s, step) && FannedAreFannedOut(s)
    ensures FannedAreFannedOut(Do(c, s, step))
  {
    MorePublished(s, Do(c, s, step));
    if step.FanOut? { FanOutIsFaithful(c, s, step.messageId, step.subs, step.reached, step.complete); }
    hide FannedOut, Recipients, Duplicate, JobsOf;
  }

  lemma HandledStay(s: State, t: State)
    requires HandledAreFannedOut(s) && s.read <= t.read && s.published <= t.published
    requires t.successes == s.successes
    ensures HandledAreFannedOut(t)
  {
    MorePublished(s, t);
  }

  lemma OneMoreHandled(s: State, t: State, last: Success)
    requires HandledAreFannedOut(s) && s.read <= t.read && s.published <= t.published
    requires t.successes == s.successes + [last] && (last.item.Event? ==> FannedOut(s, last.item.messageId))
    ensures HandledAreFannedOut(t)
  {
    MorePublished(s, t);
    hide FannedOut;
  }

  lemma StepKeepsHandledFannedOut(c: Config, s: State, step: Step)
    requires Enabled(c, s, step) && EventsAreFannedOut(s)
    ensures HandledAreFannedOut(Do(c, s, step))
  {
    hide FannedOut, Recipients, Duplicate, JobsOf, HandledAreFannedOut;
    var t := Do(c, s, step);
    match step
    case Succeed(item, at) => OneMoreHandled(s, t, Success(item, at));
    case GiveUp(item, landed) =>
      if landed { OneMoreHandled(s, t, Success(item, s.now)); } else { HandledStay(s, t); }
    case _ => HandledStay(s, t);
  }

  lemma StepKeepsActivePublished(c: Config, s: State, step: Step)
    requires Enabled(c, s, step) && ActiveArePublished(s)
    ensures ActiveArePublished(Do(c, s, step))
  {
    hide Recipients, Duplicate, JobsOf;
    forall i | i in Do(c, s, step).active ensures i in s.active || (step.Start? && i == step.item) {}
  }

  lemma StepKeepsDeliveredPublished(c: Config, s: State, step: Step)
    requires Enabled(c, s, step) && HooksArePublished(s)
    ensures DeliveredArePublished(Do(c, s, step))
  {
    hide Recipients, Duplicate, JobsOf;
  }

  lemma StepKeepsFaithful(c: Config, s: State, step: Step)
    requires Enabled(c, s, step) && Faithful(s)
    ensures Faithful(Do(c, s, step))
  {
    hide JobsMatch, FannedAreFannedOut, HandledAreFannedOut, ActiveArePublished, DeliveredArePublished, Do, Enabled;
    StepKeepsJobsMatch(c, s, step);
    StepKeepsFannedOut(c, s, step);
    StepKeepsHandledFannedOut(c, s, step);
    StepKeepsActivePublished(c, s, step);
    StepKeepsDeliveredPublished(c, s, step);
  }

  lemma {:induction false} RunsAreFaithful(c: Config, states: seq<State>, steps: seq<Step>)
    requires Run(c, states, steps)
    ensures Faithful(states[|steps|])
  {
    if steps != [] {
      var n := |steps| - 1;
      RunsAreFaithful(c, states[..n + 1], steps[..n]);
      StepKeepsFaithful(c, states[n], steps[n]);
    }
  }

  /** An incoming event whose fan-out fails halfway and is retried: each destination is delivered at
      most once, and only if a subscription with that URL matched. Webhook keys are never empty. */
  lemma DeliveredAtMostOnce(c: Config, states: seq<State>, steps: seq<Step>, m: string, u: string)
    requires Run(c, states, steps) && InTime(c, states, steps, Hook(m, u))
    requires c.enabled && !c.overlap && Remembers(c)
    ensures Count(states[|steps|].successes, Hook(m, u)) <= 1
    ensures Count(states[|steps|].successes, Hook(m, u)) == 1 ==> MatchedBy(states[|steps|], m, u)
  {
    assert |Id(Hook(m, u))| >= 1;
    SucceedsAtMostOnce(c, states, steps, Hook(m, u));
    RunsAreFaithful(c, states, steps);
    CountedIsThere(states[|steps|].successes, Hook(m, u));
  }

  /** An event that was handled with success, after whatever partial attempts, has a job for every
      subscription that matched, and none for any other. */
  lemma HandledEventIsFannedOut(c: Config, states: seq<State>, steps: seq<Step>, m: string)
    requires Run(c, states, steps) && Count(states[|steps|].successes, Event(m)) >= 1
    ensures FannedOut(states[|steps|], m)
    ensures forall u :: (m, u) in states[|steps|].published ==> MatchedBy(states[|steps|], m, u)
  {
    RunsAreFaithful(c, states, steps);
    CountedIsThere(states[|steps|].successes, Event(m));
  }

  /** Message ids hold no '|'. */
  ghost predicate PlainIds(s: State) {
    forall k :: 0 <= k < |s.remembered| && s.remembered[k].item.Hook? ==> '|' !in s.remembered[k].item.messageId
  }

  lemma SameIdIsSameItem(i: Item, j: Item)
    requires SameId(i, j) && (i.Hook? ==> '|' !in i.messageId) && (j.Hook? ==> '|' !in j.messageId)
    ensures i == j
  {
    QueueNamesAreScopes();
    if i.Hook? && j.Hook? { WebhookKeysAreDistinct(i.messageId, i.url, j.messageId, j.url); }
  }

  /** Nothing is suppressed but a repeat: a copy is dropped exactly when the present process marked
      that very item, not a sibling destination or another message, less than one TTL ago. */
  lemma SuppressedIff(c: Config, states: seq<State>, steps: seq<Step>, item: Item, at: int)
    requires Run(c, states, steps) && c.enabled && Id(item) != ""
    requires PlainIds(states[|steps|]) && (item.Hook? ==> '|' !in item.messageId)
    ensures var marked := states[|steps|].remembered;
      Duplicate(c, states[|steps|], item, at)
      <==> exists k :: 0 <= k < |marked| && marked[k].item == item && at - marked[k].at < c.ttl
  {
    var s, marked := states[|steps|], states[|steps|].remembered;
    SuccessesAreOrdered(c, states, steps);
    if Duplicate(c, s, item, at) {
      var k := LastIsASuccess(marked, item);
      SameIdIsSameItem(marked[k].item, item);
      assert marked[k].item == item && at - marked[k].at < c.ttl;
    }
    if k :| 0 <= k < |marked| && marked[k].item == item && at - marked[k].at < c.ttl {
      LastIsLatest(marked, item, s.now, k);
    }
  }

  // ---- exactly when a job can be sent twice ----

  ghost predicate CanSendTwice(c: Config, id: string) {
    exists states: seq<State>, steps: seq<Step> ::
      Run(c, states, steps) && InTime(c, states, steps, Job(id)) && Count(states[|steps|].successes, Job(id)) >= 2
  }

  lemma UnguardedIsNoDuplicate(c: Config, s: State, id: string)
    requires !c.enabled || id == ""
    ensures !Duplicate(c, s, Job(id), 0)
  {
  }

  lemma UnmarkedIsNoDuplicate(c: Config, s: State, id: string)
    requires s.remembered == []
    ensures !Duplicate(c, s, Job(id), 0)
  {
    NothingLast(Job(id));
  }

  /** Everything happens at time zero. */
  ghost predicate InAnInstant(c: Config, states: seq<State>, steps: seq<Step>) {
    && Run(c, states, steps)
    && (forall i :: 0 <= i < |steps| && steps[i].Start? ==> steps[i].at == 0)
    && forall i :: 0 <= i < |states| ==> AtZero(states[i])
  }

  ghost predicate AtZero(s: State) {
    s.now == 0 && forall k :: 0 <= k < |s.successes| ==> s.successes[k].at == 0
  }

  function Fresh(): State { State(0, multiset{}, multiset{}, [], [], {}, {}) }

  lemma Begin(c: Config)
    ensures InAnInstant(c, [Fresh()], [])
  {
  }

  lemma Play(c: Config, states: seq<State>, steps: seq<Step>, step: Step)
    returns (states': seq<State>, steps': seq<Step>)
    requires InAnInstant(c, states, steps) && Enabled(c, states[|steps|], step)
    requires (step.Start? || step.Succeed? ==> step.at == 0)
    ensures InAnInstant(c, states', steps') && |states'| == |steps'| + 1
    ensures states'[|steps'|] == Do(c, states[|steps|], step)
  {
    assert |states| == |steps| + 1 && AtZero(states[|steps|]);
    StaysAtZero(c, states[|steps|], step);
    hide Enabled, Do, AtZero, Init, Run;
    states', steps' := states + [Do(c, states[|steps|], step)], steps + [step];
    RunExtends(c, states, steps, step);
  }

  lemma RunExtends(c: Config, states: seq<State>, steps: seq<Step>, step: Step)
    requires Run(c, states, steps) && Enabled(c, states[|steps|], step)
    ensures Run(c, states + [Do(c, states[|steps|], step)], steps + [step])
  {
    hide Enabled, Do, Init;
  }

  lemma StaysAtZero(c: Config, s: State, step: Step)
    requires AtZero(s) && Enabled(c, s, step) && (step.Start? || step.Succeed? ==> step.at == 0)
    ensures AtZero(Do(c, s, step))
  {
    hide Duplicate, Recipients, JobsOf, InFlight;
  }

  lemma TwiceInAnInstant(c: Config, id: string, states: seq<State>, steps: seq<Step>)
    requires InAnInstant(c, states, steps) && c.ttl > 0
    requires states[|steps|].successes == [Success(Job(id), 0)] + [Success(Job(id), 0)]
    ensures CanSendTwice(c, id)
  {
    var one := [Success(Job(id), 0)];
    assert one[..0] == [];
    assert Count(one, Job(id)) == 1;
    CountAppend(one, Success(Job(id), 0), Job(id));
    assert InTime(c, states, steps, Job(id));
  }

  /** One copy is handled with success. */
  lemma SendOnce(c: Config, states: seq<State>, steps: seq<Step>, id: string)
    returns (states': seq<State>, steps': seq<Step>)
    requires InAnInstant(c, states, steps)
    requires var s := states[|steps|];
      s.active == multiset{} && s.fanned == multiset{} && !Duplicate(c, s, Job(id), 0)
    ensures InAnInstant(c, states', steps') && |states'| == |steps'| + 1
    ensures var s, t := states[|steps|], states'[|steps'|];
      && t.active == multiset{} && t.fanned == multiset{} && t.now == 0
      && t.successes == s.successes + [Success(Job(id), 0)]
  {
    assert states[|steps|].now == 0;
    hide InAnInstant, Duplicate, Recipients, JobsOf;
    states', steps' := Play(c, states, steps, Start(Job(id), 0));
    assert states'[|steps'|].active == multiset{Job(id)};
    states', steps' := Play(c, states', steps', Succeed(Job(id), 0));
  }

  /** Two copies one after the other. */
  lemma UnguardedSendsTwice(c: Config, id: string)
    requires (!c.enabled || id == "") && c.ttl > 0
    ensures CanSendTwice(c, id)
  {
    hide InAnInstant, Duplicate, Run, CanSendTwice;
    Begin(c);
    UnguardedIsNoDuplicate(c, Fresh(), id);
    var states, steps := SendOnce(c, [Fresh()], [], id);
    UnguardedIsNoDuplicate(c, states[|steps|], id);
    states, steps := SendOnce(c, states, steps, id);
    TwiceInAnInstant(c, id, states, steps);
  }

  /** Two copies at once: both pass the check before either is marked. */
  lemma OverlapSendsTwice(c: Config, id: string)
    requires c.overlap && c.ttl > 0
    ensures CanSendTwice(c, id)
  {
    hide InAnInstant, Duplicate, Run, CanSendTwice, Recipients, JobsOf;
    Begin(c);
    UnmarkedIsNoDuplicate(c, Fresh(), id);
    var states, steps := Play(c, [Fresh()], [], Start(Job(id), 0));
    UnmarkedIsNoDuplicate(c, states[|steps|], id);
    states, steps := Play(c, states, steps, Start(Job(id), 0));
    assert states[|steps|].active == multiset{Job(id), Job(id)};
    states, steps := Play(c, states, steps, Succeed(Job(id), 0));
    assert states[|steps|].active == multiset{Job(id)};
    states, steps := Play(c, states, steps, Succeed(Job(id), 0));
    TwiceInAnInstant(c, id, states, steps);
  }

  /** A restart forgets that the job was sent. */
  lemma RestartSendsTwice(c: Config, id: string)
    requires c.restarts && c.ttl > 0
    ensures CanSendTwice(c, id)
  {
    hide InAnInstant, Duplicate, Run, CanSendTwice, Recipients, JobsOf;
    Begin(c);
    UnmarkedIsNoDuplicate(c, Fresh(), id);
    var states, steps := SendOnce(c, [Fresh()], [], id);
    states, steps := Play(c, states, steps, Restart);
    UnmarkedIsNoDuplicate(c, states[|steps|], id);
    states, steps := SendOnce(c, states, steps, id);
    TwiceInAnInstant(c, id, states, steps);
  }

  /** A send that arrived is reported failed, and the retry is sent too. */
  lemma LostReportSendsTwice(c: Config, id: string)
    requires c.lostReports && c.ttl > 0
    ensures CanSendTwice(c, id)
  {
    hide InAnInstant, Duplicate, Run, CanSendTwice, Recipients, JobsOf;
    Begin(c);
    UnmarkedIsNoDuplicate(c, Fresh(), id);
    var states, steps := Play(c, [Fresh()], [], Start(Job(id), 0));
    assert states[|steps|].active == multiset{Job(id)};
    states, steps := Play(c, states, steps, GiveUp(Job(id), true));
    UnmarkedIsNoDuplicate(c, states[|steps|], id);
    states, steps := SendOnce(c, states, steps, id);
    TwiceInAnInstant(c, id, states, steps);
  }

  /** Within the TTL a job can be sent twice exactly when duplicate detection is off, it has no id,
      copies can be handled at once, the process can restart, or a send can arrive unreported. */
  lemma CanSendTwiceIff(c: Config, id: string)
    requires c.ttl > 0
    ensures CanSendTwice(c, id) <==> !c.enabled || id == "" || c.overlap || c.restarts || c.lostReports
  {
    if !c.enabled || id == "" {
      UnguardedSendsTwice(c, id);
    } else if c.overlap {
      OverlapSendsTwice(c, id);
    } else if c.restarts {
      RestartSendsTwice(c, id);
    } else if c.lostReports {
      LostReportSendsTwice(c, id);
    } else if CanSendTwice(c, id) {
      var states: seq<State>, steps: seq<Step> :|
        Run(c, states, steps) && InTime(c, states, steps, Job(id)) && Count(states[|steps|].successes, Job(id)) >= 2;
      SucceedsAtMostOnce(c, states, steps, Job(id));
    }
  }
}
