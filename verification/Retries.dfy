/**
 The life of one message that keeps failing, and the time it spends in the retry queues
 (pkg/queue/worker_pool.go, pkg/queue/constants.go, pkg/queue/rabbitmq.go).
 */
module Retries {
  import opened Common
  import opened Topology
  import opened Worker

  /** Where a message ends and how often it was handled on the way. */
  datatype Fate = Fate(handled: nat, queue: Option<Name>, message: Message)

  /** Where the broker puts a message dead-lettered from a queue. */
  function DeadLetterTarget(from: Name): Option<Name> {
    match Declared(from)
    case Some(QueueArgs(Some((e, k)), _)) => Route(e, k)
    case _ => None
  }

  /** Follows a message whose handler fails every time, through the worker, the exchange, the
      retry queue and back, with no requeue, redelivery or panic in between. `outcomes(i)` is the
      failure of attempt i. None means the message never gets back to its queue. */
  function Follow(queue: Base, max: int, m: Message, outcomes: nat -> Outcome, attempt: nat): Option<Fate>
    requires forall i :: outcomes(i).Failed?
    decreases max - RetryCount(m.headers)
  {
    var actions := Actions(queue, max, m, outcomes(attempt), true);
    if actions[0].Nack? then
      Some(Fate(attempt + 1, DeadLetterTarget(Plain(queue)), DeadLettered(m, Plain(queue), Rejected)))
    else if actions[0].Publish? then
      match Route(Topic, actions[0].key)
      case None => None
      case Some(retry) =>
        if DeadLetterTarget(retry) != Some(Plain(queue)) then None
        else Follow(queue, max, DeadLettered(actions[0].message, retry, Expired), outcomes, attempt + 1)
    else None
  }

  /** Retry i of a plain failure waits exactly as long as tier i, and from the third on as long as
      the last tier: never in the long queue. */
  lemma BackoffFillsItsTier(k: Kind, retry: int)
    ensures var (name, perMessage) := RetryRoute(Main(k), Backoff(retry));
      && !perMessage && name == Tier(Main(k), RETRY_TIERS[if 0 <= retry <= 2 then retry else 2])
      && HoldMs(name, None) == Some(if retry == 0 then 1000 else if retry == 1 then 5000 else 25000)
      && Backoff(retry) == HoldMs(name, None).value * 1_000_000
  {
    RouteUnfolds(Main(k), Backoff(retry));
    assert RETRY_TIERS[0] == S1 && RETRY_TIERS[1] == S5 && RETRY_TIERS[2] == S25;
  }

  /** How long the broker keeps the retry that a worker publishes after an error: as long as a
      rate-limit error asks for, rounded up to a tier or down to a millisecond, and otherwise one,
      five and then twenty-five seconds. */
  lemma RetryWaits(k: Kind, max: int, m: Message, retryAfter: Option<int>, confirmed: bool, count: int)
    requires Carries(m.headers, count) && count < max
    ensures var asked := Actions(Main(k), max, m, Failed(retryAfter), confirmed);
      && |asked| == 2 && asked[0].Publish? && asked[0].key.To?
      && var hold := HoldMs(asked[0].key.name, asked[0].message.expirationMs);
         match retryAfter
         case Some(d) =>
           && hold == Some(if d <= 1_000_000_000 then 1000 else if d <= 5_000_000_000 then 5000
                           else if d <= 25_000_000_000 then 25000 else d / 1_000_000)
           && d - 1_000_000 < hold.value * 1_000_000
         case None => hold == Some(if count == 0 then 1000 else if count == 1 then 5000 else 25000)
  {
    ActionsAnswer(Main(k), max, m, Failed(retryAfter), confirmed);
  }

  /** The message as it comes back to its main queue after one failed attempt. */
  function NextTry(k: Kind, m: Message, o: Outcome): Message
    requires o.Failed?
  {
    var delay := Delay(m.headers, o);
    DeadLettered(RetryMessage(Main(k), m, delay), RetryRoute(Main(k), delay).0, Expired)
  }

  lemma OneRetry(k: Kind, m: Message, o: Outcome)
    requires o.Failed? && RejectedOnlyFrom(Deaths(m.headers), Plain(Main(k)))
    ensures var retry := RetryRoute(Main(k), Delay(m.headers, o)).0;
      Route(Topic, To(retry)) == Some(retry) && DeadLetterTarget(retry) == Some(Plain(Main(k)))
    ensures var next := NextTry(k, m, o);
      && RetryCount(next.headers) == RetryCount(m.headers) + 1 && next.body == m.body && next.expirationMs.None?
      && RejectedOnlyFrom(Deaths(next.headers), Plain(Main(k)))
  {
    var delay := Delay(m.headers, o);
    RouteIsSmallestCoveringTier(Main(k), delay);
    RetryIsRoutableIffMain(Main(k), delay);
    var sent := RetryMessage(Main(k), m, delay);
    assert RETRY_COUNT_KEY != DEATH_KEY by { assert RETRY_COUNT_KEY[2] == 'r' && DEATH_KEY[2] == 'd'; }
    assert Deaths(sent.headers) == Deaths(m.headers);
    DeadLetterKeepsHome(sent, RetryRoute(Main(k), delay).0, Expired, Plain(Main(k)));
  }

  /** A message that fails every time is handled once for each retry it has left and once more,
      whatever the errors and delays are, and then lands in its own dead-letter queue, whose
      consumer reads its source back from the headers. */
  lemma {:induction false} AlwaysFailing(k: Kind, max: int, m: Message, outcomes: nat -> Outcome, attempt: nat)
    requires forall i :: outcomes(i).Failed?
    requires RejectedOnlyFrom(Deaths(m.headers), Plain(Main(k)))
    ensures var fate := Follow(Main(k), max, m, outcomes, attempt);
      && fate.Some?
      && fate.value.handled == attempt + 1 + Max(0, max - RetryCount(m.headers))
      && fate.value.queue == Some(Plain(Dlq(k)))
      && SourceQueue(fate.value.message.headers) == Some(Plain(Main(k)))
      && fate.value.message.body == m.body
    decreases max - RetryCount(m.headers)
  {
    var home := Plain(Main(k));
    if RetryCount(m.headers) >= max {
      DeadLetterKeepsHome(m, home, Rejected, home);
      SourceIsHome(DeadLettered(m, home, Rejected).headers, home);
    } else {
      OneRetry(k, m, outcomes(attempt));
      AlwaysFailing(k, max, NextTry(k, m, outcomes(attempt)), outcomes, attempt + 1);
      assert Follow(Main(k), max, m, outcomes, attempt)
          == Follow(Main(k), max, NextTry(k, m, outcomes(attempt)), outcomes, attempt + 1);
    }
  }

  /** A message published with no count is handled exactly QUEUE_MAX_RETRIES + 1 times (once, if
      the setting is negative). */
  lemma HandledMaxRetriesPlusOne(k: Kind, max: int, body: nat, outcomes: nat -> Outcome)
    requires forall i :: outcomes(i).Failed?
    ensures var fate := Follow(Main(k), max, Message(body, map[], None), outcomes, 0);
      fate.Some? && fate.value.handled == Max(0, max) + 1 && fate.value.queue == Some(Plain(Dlq(k)))
  {
    AlwaysFailing(k, max, Message(body, map[], None), outcomes, 0);
  }

  // ---- the retry queues over time ----

  /** A message in a retry queue: when it was published and how long it may stay. */
  datatype Waiting = Waiting(id: nat, published: int, hold: int)

  function Deadline(w: Waiting): int { w.published + w.hold }

  /** What happens to a queue: a message is published to it, or the broker looks at its head. */
  datatype Event = Published(message: Waiting) | Released(now: int)

  /** What waits in a queue after these events. */
  function StillWaiting(events: seq<Event>): seq<Waiting> {
    if events == [] then []
    else
      var q := StillWaiting(events[..|events| - 1]);
      match events[|events| - 1]
      case Published(w) => q + [w]
      case Released(now) => AfterRelease(q, now)
  }

  /** Who has left by then, and when. */
  function Left(events: seq<Event>): seq<(Waiting, int)> {
    if events == [] then []
    else
      var before, q := Left(events[..|events| - 1]), StillWaiting(events[..|events| - 1]);
      match events[|events| - 1]
      case Published(_) => before
      case Released(now) => before + Stamp(q[..Out(q, now)], now)
  }

  /** A broker queue: expired messages leave only from the head. `released` logs who left when. */
  class RetryQueue {
    var waiting: seq<Waiting>
    var released: seq<(Waiting, int)>
    /** Everything that happened to the queue. */
    ghost var events: seq<Event>

    ghost predicate Valid()
      reads this
    {
      waiting == StillWaiting(events) && released == Left(events)
    }

    constructor ()
      ensures Valid() && events == []
    {
      waiting, released, events := [], [], [];
    }

    method Publish(w: Waiting)
      requires Valid()
      modifies this
      ensures Valid() && events == old(events) + [Published(w)]
    {
      waiting := waiting + [w];
      events := events + [Published(w)];
      assert events[..|events| - 1] == old(events);
    }

    method ReleaseExpired(now: int)
      requires Valid()
      modifies this
      ensures Valid() && events == old(events) + [Released(now)]
    {
      Release(now);
      events := events + [Released(now)];
      assert events[..|events| - 1] == old(events);
    }

    method Release(now: int)
      modifies this`waiting, this`released
      ensures waiting == AfterRelease(old(waiting), now)
      ensures released == old(released) + Stamp(old(waiting)[..Out(old(waiting), now)], now)
    {
      hide Stamp;
      ghost var n := 0;
      StampNothing(waiting, now);
      ghost var w0, r0 := waiting, released;
      while waiting != [] && Deadline(waiting[0]) <= now
        invariant 0 <= n <= |w0| && waiting == w0[n..]
        invariant AfterRelease(w0, now) == AfterRelease(waiting, now) && Out(w0, now) == n + Out(waiting, now)
        invariant released == r0 + Stamp(w0[..n], now)
        decreases |waiting|
      {
        released := released + [(waiting[0], now)];
        StampNext(w0, n, now);
        waiting := waiting[1..];
        n := n + 1;
      }
    }
  }

  function Stamp(q: seq<Waiting>, now: int): seq<(Waiting, int)> {
    seq(|q|, i requires 0 <= i < |q| => (q[i], now))
  }

  lemma StampNothing(q: seq<Waiting>, now: int)
    ensures Stamp(q[..0], now) == []
  {
  }

  lemma StampNext(q: seq<Waiting>, n: nat, now: int)
    requires n < |q|
    ensures Stamp(q[..n + 1], now) == Stamp(q[..n], now) + [(q[n], now)]
    ensures q[n..][0] == q[n] && q[n..][1..] == q[n + 1..]
  {
  }

  function AfterRelease(q: seq<Waiting>, now: int): seq<Waiting> {
    if q == [] || Deadline(q[0]) > now then q else AfterRelease(q[1..], now)
  }

  /** How many messages a release at `now` lets out. */
  function Out(q: seq<Waiting>, now: int): (n: nat)
    ensures n <= |q| && AfterRelease(q, now) == q[n..]
  {
    if q == [] || Deadline(q[0]) > now then 0 else 1 + Out(q[1..], now)
  }

  /** The queue lets a message out exactly when it and everything before it are due. */
  lemma {:induction false} ReleasedIff(q: seq<Waiting>, now: int, i: nat)
    requires i < |q|
    ensures i < Out(q, now) <==> forall j :: 0 <= j <= i ==> Deadline(q[j]) <= now
  {
    if Deadline(q[0]) <= now && i > 0 {
      ReleasedIff(q[1..], now, i - 1);
      assert forall j :: 0 <= j < |q| - 1 ==> q[1..][j] == q[j + 1];
      if forall j :: 0 <= j <= i - 1 ==> Deadline(q[1..][j]) <= now {
        forall j | 0 <= j <= i ensures Deadline(q[j]) <= now { if j > 0 { assert q[j] == q[1..][j - 1]; } }
      }
    }
  }

  /** Message i is free to leave the moment its own time is up, never early and never late. */
  ghost predicate OnTime(q: seq<Waiting>, i: nat)
    requires i < |q|
  {
    forall now :: i < Out(q, now) <==> Deadline(q[i]) <= now
  }

  lemma NeverEarly(q: seq<Waiting>, now: int, i: nat)
    requires i < Out(q, now)
    ensures Deadline(q[i]) <= now
  {
    ReleasedIff(q, now, i);
  }

  ghost predicate Blocked(q: seq<Waiting>, i: nat)
    requires i < |q|
  {
    exists j :: 0 <= j < i && Deadline(q[j]) > Deadline(q[i])
  }

  /** Message i is delayed by the queue exactly when some message ahead of it is due later:
      head-of-line blocking and nothing else. */
  lemma OnTimeIff(q: seq<Waiting>, i: nat)
    requires i < |q|
    ensures OnTime(q, i) <==> !Blocked(q, i)
  {
    ReleasedIff(q, Deadline(q[i]), i);
    if !Blocked(q, i) {
      forall now ensures i < Out(q, now) <==> Deadline(q[i]) <= now { ReleasedIff(q, now, i); }
    } else {
      assert !(i < Out(q, Deadline(q[i])));
    }
  }

  /** In a tier queue every message has the same hold, so nothing is ever blocked. */
  lemma TierQueueNeverBlocks(q: seq<Waiting>, ttl: int)
    requires forall j :: 0 <= j < |q| ==> q[j].hold == ttl
    requires forall i, j :: 0 <= i < j < |q| ==> q[i].published <= q[j].published
    ensures forall i :: 0 <= i < |q| ==> OnTime(q, i)
  {
    forall i | 0 <= i < |q| ensures OnTime(q, i) { OnTimeIff(q, i); }
  }

  // ---- tier queues over whole runs ----

  function When(e: Event): int { match e case Published(w) => w.published case Released(now) => now }

  /** The events of a tier queue in clock order: every message has the queue's TTL. */
  ghost predicate TierEvents(events: seq<Event>, ttl: int) {
    && (forall i :: 0 <= i < |events| && events[i].Published? ==> events[i].message.hold == ttl)
    && forall i, j :: 0 <= i < j < |events| ==> When(events[i]) <= When(events[j])
  }

  /** A message left at the first release at or after its deadline. */
  ghost predicate LeftOnTime(events: seq<Event>, w: Waiting, at: int) {
    && Deadline(w) <= at && Released(at) in events
    && forall now :: Released(now) in events && now < at ==> now < Deadline(w)
  }

  /** A message waits because no release has come at or after its deadline. */
  ghost predicate NotYetDue(events: seq<Event>, w: Waiting) {
    forall now :: Released(now) in events ==> now < Deadline(w)
  }

  ghost predicate OnSchedule(events: seq<Event>, ttl: int) {
    LeaversOnTime(events, Left(events)) && NoneDue(events, StillWaiting(events)) && InLine(StillWaiting(events), ttl)
  }

  ghost predicate LeaversOnTime(events: seq<Event>, left: seq<(Waiting, int)>) {
    forall x :: x in left ==> LeftOnTime(events, x.0, x.1)
  }

  /** Everything in the queue was published, and nothing has missed a release. */
  ghost predicate NoneDue(events: seq<Event>, q: seq<Waiting>) {
    forall w :: w in q ==> Published(w) in events && NotYetDue(events, w)
  }

  /** A queue in the order of publishing, with one hold. */
  ghost predicate InLine(q: seq<Waiting>, ttl: int) {
    && (forall w :: w in q ==> w.hold == ttl)
    && forall i, j :: 0 <= i < j < |q| ==> q[i].published <= q[j].published
  }

  lemma EventsBefore(events: seq<Event>, ttl: int)
    requires TierEvents(events, ttl) && events != []
    ensures TierEvents(events[..|events| - 1], ttl)
    ensures forall e :: e in events[..|events| - 1] ==> When(e) <= When(events[|events| - 1])
    ensures forall e :: e in events <==> e in events[..|events| - 1] || e == events[|events| - 1]
  {
    var init := events[..|events| - 1];
    assert events == init + [events[|events| - 1]];
    forall e | e in init ensures When(e) <= When(events[|events| - 1]) {
      var i :| 0 <= i < |init| && init[i] == e;
      assert events[i] == e;
    }
  }

  lemma PublishKeepsSchedule(events: seq<Event>, ttl: int)
    requires TierEvents(events, ttl) && ttl > 0 && events != [] && events[|events| - 1].Published?
    requires OnSchedule(events[..|events| - 1], ttl)
    ensures OnSchedule(events, ttl)
  {
    var init, w := events[..|events| - 1], events[|events| - 1].message;
    var q, left := StillWaiting(init), Left(init);
    assert StillWaiting(events) == q + [w] && Left(events) == left;
    EventsBefore(events, ttl);
    hide LeaversOnTime, NoneDue, InLine, StillWaiting, Left;
    LeaversStayOnTime(init, events, w, left);
    NoneDueWithNew(init, events, w, q);
    LastInLine(init, q, w, ttl);
  }

  ghost predicate OneMoreMessage(init: seq<Event>, events: seq<Event>, w: Waiting) {
    && (forall e :: e in events <==> e in init || e == Published(w))
    && forall e :: e in init ==> When(e) <= w.published
  }

  lemma LeaversStayOnTime(init: seq<Event>, events: seq<Event>, w: Waiting, left: seq<(Waiting, int)>)
    requires OneMoreMessage(init, events, w) && LeaversOnTime(init, left)
    ensures LeaversOnTime(events, left)
  {
    forall x | x in left ensures LeftOnTime(events, x.0, x.1) { assert LeftOnTime(init, x.0, x.1); }
  }

  lemma NoneDueWithNew(init: seq<Event>, events: seq<Event>, w: Waiting, q: seq<Waiting>)
    requires OneMoreMessage(init, events, w) && NoneDue(init, q) && w.hold > 0
    ensures NoneDue(events, q + [w])
  {
    forall v | v in q + [w] ensures Published(v) in events && NotYetDue(events, v) {
      if v in q {
        assert NotYetDue(init, v);
      } else {
        NewIsNotDue(init, events, w);
      }
    }
  }

  lemma LastInLine(init: seq<Event>, q: seq<Waiting>, w: Waiting, ttl: int)
    requires InLine(q, ttl) && w.hold == ttl && (forall e :: e in init ==> When(e) <= w.published) && NoneDue(init, q)
    ensures InLine(q + [w], ttl)
  {
    forall v | v in q ensures v.published <= w.published { assert When(Published(v)) <= w.published; }
  }

  lemma NewIsNotDue(init: seq<Event>, events: seq<Event>, w: Waiting)
    requires OneMoreMessage(init, events, w) && w.hold > 0
    ensures NotYetDue(events, w)
  {
    forall now | Released(now) in events ensures now < Deadline(w) { assert When(Released(now)) <= w.published; }
  }

  lemma ReleaseKeepsSchedule(events: seq<Event>, ttl: int)
    requires TierEvents(events, ttl) && ttl > 0 && events != [] && events[|events| - 1].Released?
    requires OnSchedule(events[..|events| - 1], ttl)
    ensures OnSchedule(events, ttl)
  {
    var init, now := events[..|events| - 1], events[|events| - 1].now;
    var q, left := StillWaiting(init), Left(init);
    assert StillWaiting(events) == AfterRelease(q, now) && Left(events) == left + Stamp(q[..Out(q, now)], now);
    EventsBefore(events, ttl);
    hide LeaversOnTime, NoneDue, InLine, StillWaiting, Left;
    MoreLeaveOnTime(init, events, now, q, left);
    RestIsNotDue(q, ttl, now);
    RestWaits(init, events, now, q, AfterRelease(q, now));
  }

  lemma MoreLeaveOnTime(init: seq<Event>, events: seq<Event>, now: int, q: seq<Waiting>, left: seq<(Waiting, int)>)
    requires OneMoreLook(init, events, now) && LeaversOnTime(init, left) && NoneDue(init, q)
    ensures LeaversOnTime(events, left + Stamp(q[..Out(q, now)], now))
  {
    hide LeftOnTime, NotYetDue;
    forall x | x in left + Stamp(q[..Out(q, now)], now) ensures LeftOnTime(events, x.0, x.1) {
      if x in left {
        EarlierStayOnTime(init, events, now, x.0, x.1);
      } else {
        LeaversAreDue(q, now, x);
        DueLeavesOnTime(init, events, now, x.0);
      }
    }
  }

  ghost predicate OneMoreLook(init: seq<Event>, events: seq<Event>, now: int) {
    && (forall e :: e in events <==> e in init || e == Released(now))
    && forall e :: e in init ==> When(e) <= now
  }

  lemma EarlierStayOnTime(init: seq<Event>, events: seq<Event>, now: int, w: Waiting, at: int)
    requires OneMoreLook(init, events, now) && LeftOnTime(init, w, at)
    ensures LeftOnTime(events, w, at)
  {
    assert When(Released(at)) <= now;
  }

  lemma DueLeavesOnTime(init: seq<Event>, events: seq<Event>, now: int, w: Waiting)
    requires OneMoreLook(init, events, now) && NotYetDue(init, w) && Deadline(w) <= now
    ensures LeftOnTime(events, w, now)
  {
  }

  lemma RestWaits(init: seq<Event>, events: seq<Event>, now: int, q: seq<Waiting>, rest: seq<Waiting>)
    requires OneMoreLook(init, events, now) && NoneDue(init, q)
    requires forall w :: w in rest ==> w in q && now < Deadline(w)
    ensures NoneDue(events, rest)
  {
  }

  lemma LeaversAreDue(q: seq<Waiting>, now: int, x: (Waiting, int))
    requires x in Stamp(q[..Out(q, now)], now)
    ensures x.0 in q && x.1 == now && Deadline(x.0) <= now
  {
    var i :| 0 <= i < Out(q, now) && x == (q[i], now);
    NeverEarly(q, now, i);
  }

  lemma RestIsNotDue(q: seq<Waiting>, ttl: int, now: int)
    requires InLine(q, ttl)
    ensures forall w :: w in AfterRelease(q, now) ==> w in q && now < Deadline(w)
    ensures InLine(AfterRelease(q, now), ttl)
  {
    var n := Out(q, now);
    forall w | w in q[n..] ensures w in q && now < Deadline(w) {
      var i :| n <= i < |q| && q[i] == w;
      assert q[n] in q && q[i] in q;
      FirstLeftIsNotDue(q, now);
    }
  }

  lemma {:induction false} FirstLeftIsNotDue(q: seq<Waiting>, now: int)
    requires Out(q, now) < |q|
    ensures Deadline(q[Out(q, now)]) > now
  {
    if Deadline(q[0]) <= now { FirstLeftIsNotDue(q[1..], now); }
  }

  /** No head-of-line blocking, over any run: whatever is published to a tier queue, and whenever the
      broker looks, each message leaves at the first look at or after its own deadline. */
  lemma {:induction false} TierQueueKeepsSchedule(events: seq<Event>, ttl: int)
    requires TierEvents(events, ttl) && ttl > 0
    ensures OnSchedule(events, ttl)
  {
    if events != [] {
      EventsBefore(events, ttl);
      TierQueueKeepsSchedule(events[..|events| - 1], ttl);
      if events[|events| - 1].Published? {
        PublishKeepsSchedule(events, ttl);
      } else {
        ReleaseKeepsSchedule(events, ttl);
      }
    }
  }

  // ---- any retry queue over whole runs ----

  /** Events in clock order; every message has some time to wait. */
  ghost predicate ClockOrdered(events: seq<Event>) {
    && (forall i :: 0 <= i < |events| && events[i].Published? ==> events[i].message.hold > 0)
    && forall i, j :: 0 <= i < j < |events| ==> When(events[i]) <= When(events[j])
  }

  /** The latest deadline among message i and those ahead of it. */
  function Due(q: seq<Waiting>, i: nat): int
    requires i < |q|
  {
    if i == 0 then Deadline(q[0]) else Max(Due(q, i - 1), Deadline(q[i]))
  }

  /** What waits, each message with the latest deadline among itself and those ahead of it when it was
      published. */
  function Lane(events: seq<Event>): seq<(Waiting, int)> {
    if events == [] then []
    else
      var lane := Lane(events[..|events| - 1]);
      match events[|events| - 1]
      case Published(w) => lane + [(w, if lane == [] then Deadline(w) else Max(lane[|lane| - 1].1, Deadline(w)))]
      case Released(now) => lane[Min(|lane|, Out(StillWaiting(events[..|events| - 1]), now))..]
  }

  /** Who has left, with that latest deadline, and when. */
  function LeftLane(events: seq<Event>): seq<(Waiting, int, int)> {
    if events == [] then []
    else
      var before, lane := LeftLane(events[..|events| - 1]), Lane(events[..|events| - 1]);
      match events[|events| - 1]
      case Published(_) => before
      case Released(now) => before + StampLane(lane[..Min(|lane|, Out(StillWaiting(events[..|events| - 1]), now))], now)
  }

  function StampLane(lane: seq<(Waiting, int)>, now: int): seq<(Waiting, int, int)> {
    seq(|lane|, i requires 0 <= i < |lane| => (lane[i].0, lane[i].1, now))
  }

  /** The lane is the queue, and what it notes is still the latest deadline now. */
  ghost predicate Annotates(lane: seq<(Waiting, int)>, q: seq<Waiting>) {
    |lane| == |q| && forall i :: 0 <= i < |q| ==> lane[i] == (q[i], Due(q, i))
  }

  /** It left at the first release at or after `due`. */
  ghost predicate LeftWhenDue(events: seq<Event>, due: int, at: int) {
    due <= at && Released(at) in events && forall now :: Released(now) in events && now < at ==> now < due
  }

  ghost predicate DuesAhead(events: seq<Event>, lane: seq<(Waiting, int)>) {
    forall x, now :: x in lane && Released(now) in events ==> now < x.1
  }

  ghost predicate DuesMet(events: seq<Event>, left: seq<(Waiting, int, int)>) {
    forall x :: x in left ==> LeftWhenDue(events, x.1, x.2)
  }

  lemma {:induction false} DueIsLatest(q: seq<Waiting>, i: nat, now: int)
    requires i < |q|
    ensures Due(q, i) <= now <==> forall j :: 0 <= j <= i ==> Deadline(q[j]) <= now
    ensures Deadline(q[i]) <= Due(q, i)
  {
    if i > 0 { DueIsLatest(q, i - 1, now); }
  }

  lemma {:induction false} DueInPrefix(q: seq<Waiting>, w: Waiting, i: nat)
    requires i < |q|
    ensures Due(q + [w], i) == Due(q, i)
  {
    if i > 0 { DueInPrefix(q, w, i - 1); }
  }

  /** Once the first n are out, the latest deadline of each of the others is what it was. */
  lemma {:induction false} DueOfRest(q: seq<Waiting>, n: nat, i: nat, now: int)
    requires n <= i < |q| && (forall j :: 0 <= j < n ==> Deadline(q[j]) <= now) && now < Deadline(q[n])
    ensures Due(q[n..], i - n) == Due(q, i) && now < Due(q, i)
  {
    DueIsLatest(q, i, now);
    if i > n {
      DueOfRest(q, n, i - 1, now);
    } else if n > 0 {
      DueIsLatest(q, n - 1, now);
    }
  }

  lemma PublishAnnotates(lane: seq<(Waiting, int)>, q: seq<Waiting>, w: Waiting)
    requires Annotates(lane, q)
    ensures Annotates(lane + [(w, if lane == [] then Deadline(w) else Max(lane[|lane| - 1].1, Deadline(w)))], q + [w])
  {
    forall i | 0 <= i < |q| ensures Due(q + [w], i) == Due(q, i) { DueInPrefix(q, w, i); }
  }

  lemma ReleasedWhenDue(lane: seq<(Waiting, int)>, q: seq<Waiting>, now: int)
    requires Annotates(lane, q)
    ensures forall i :: 0 <= i < |q| ==> (i < Out(q, now) <==> lane[i].1 <= now)
  {
    forall i | 0 <= i < |q| ensures i < Out(q, now) <==> lane[i].1 <= now {
      ReleasedIff(q, now, i);
      DueIsLatest(q, i, now);
    }
  }

  lemma ReleaseAnnotates(lane: seq<(Waiting, int)>, q: seq<Waiting>, now: int)
    requires Annotates(lane, q)
    ensures Annotates(lane[Out(q, now)..], q[Out(q, now)..])
  {
    hide Out, Due, AfterRelease;
    var n := Out(q, now);
    forall j | 0 <= j < n ensures Deadline(q[j]) <= now { NeverEarly(q, now, j); }
    if n < |q| {
      FirstLeftIsNotDue(q, now);
      forall i | n <= i < |q| ensures Due(q[n..], i - n) == Due(q, i) { DueOfRest(q, n, i, now); }
    }
  }

  lemma {:induction false} LaneAnnotates(events: seq<Event>)
    ensures Annotates(Lane(events), StillWaiting(events))
  {
    if events != [] {
      var init := events[..|events| - 1];
      LaneAnnotates(init);
      match events[|events| - 1]
      case Published(w) => PublishAnnotates(Lane(init), StillWaiting(init), w);
      case Released(now) => ReleaseAnnotates(Lane(init), StillWaiting(init), now);
    }
  }

  lemma BeforeLast(events: seq<Event>)
    requires ClockOrdered(events) && events != []
    ensures ClockOrdered(events[..|events| - 1])
    ensures forall e :: e in events[..|events| - 1] ==> When(e) <= When(events[|events| - 1])
    ensures forall e :: e in events <==> e in events[..|events| - 1] || e == events[|events| - 1]
  {
    var init := events[..|events| - 1];
    assert events == init + [events[|events| - 1]];
    forall e | e in init ensures When(e) <= When(events[|events| - 1]) {
      var i :| 0 <= i < |init| && init[i] == e;
      assert events[i] == e;
    }
  }

  lemma DuesAfterPublish(init: seq<Event>, events: seq<Event>, w: Waiting, lane: seq<(Waiting, int)>, x: (Waiting, int))
    requires OneMoreMessage(init, events, w) && DuesAhead(init, lane) && w.hold > 0 && Deadline(w) <= x.1
    ensures DuesAhead(events, lane + [x])
  {
    forall y, now | y in lane + [x] && Released(now) in events ensures now < y.1 {
      assert Released(now) in init && When(Released(now)) <= w.published;
    }
  }

  lemma MetAfterPublish(init: seq<Event>, events: seq<Event>, w: Waiting, left: seq<(Waiting, int, int)>)
    requires OneMoreMessage(init, events, w) && DuesMet(init, left)
    ensures DuesMet(events, left)
  {
    forall x | x in left ensures LeftWhenDue(events, x.1, x.2) { assert LeftWhenDue(init, x.1, x.2); }
  }

  lemma DuesAfterRelease(init: seq<Event>, events: seq<Event>, now: int, lane: seq<(Waiting, int)>, n: nat)
    requires OneMoreLook(init, events, now) && DuesAhead(init, lane) && n <= |lane|
    requires forall i :: n <= i < |lane| ==> now < lane[i].1
    ensures DuesAhead(events, lane[n..])
  {
    forall y, at | y in lane[n..] && Released(at) in events ensures at < y.1 {
      assert y in lane;
    }
  }

  lemma MetAfterRelease(init: seq<Event>, events: seq<Event>, now: int, lane: seq<(Waiting, int)>, n: nat,
                        left: seq<(Waiting, int, int)>)
    requires OneMoreLook(init, events, now) && DuesAhead(init, lane) && DuesMet(init, left) && n <= |lane|
    requires forall i :: 0 <= i < n ==> lane[i].1 <= now
    ensures DuesMet(events, left + StampLane(lane[..n], now))
  {
    forall x | x in left + StampLane(lane[..n], now) ensures LeftWhenDue(events, x.1, x.2) {
      if x in left {
        assert LeftWhenDue(init, x.1, x.2);
        assert When(Released(x.2)) <= now;
      } else {
        var i :| 0 <= i < n && x == (lane[i].0, lane[i].1, now);
        assert lane[i] in lane;
      }
    }
  }

  /** Over any run of any retry queue, whatever the holds: each message leaves at the first release at
      or after the latest deadline among itself and those ahead of it when it was published, and one
      that waits has seen no such release. That is all the blocking there is. */
  lemma {:induction false} QueueKeepsSchedule(events: seq<Event>)
    requires ClockOrdered(events)
    ensures DuesMet(events, LeftLane(events)) && DuesAhead(events, Lane(events))
    ensures Annotates(Lane(events), StillWaiting(events))
  {
    LaneAnnotates(events);
    if events != [] {
      var init := events[..|events| - 1];
      var lane, left := Lane(init), LeftLane(init);
      QueueKeepsSchedule(init);
      BeforeLast(events);
      match events[|events| - 1]
      case Published(w) =>
        var x := (w, if lane == [] then Deadline(w) else Max(lane[|lane| - 1].1, Deadline(w)));
        DuesAfterPublish(init, events, w, lane, x);
        MetAfterPublish(init, events, w, left);
      case Released(now) =>
        var n := Out(StillWaiting(init), now);
        ReleasedWhenDue(lane, StillWaiting(init), now);
        DuesAfterRelease(init, events, now, lane, n);
        MetAfterRelease(init, events, now, lane, n, left);
    }
  }

  /** In the long queue a short delay can wait behind a longer one. */
  lemma LongQueueCanBlock()
    ensures !OnTime([Waiting(0, 0, 60 * SECOND), Waiting(1, 1, 30 * SECOND)], 1)
  {
    var q := [Waiting(0, 0, 60 * SECOND), Waiting(1, 1, 30 * SECOND)];
    assert Deadline(q[0]) > Deadline(q[1]) && Blocked(q, 1);
    OnTimeIff(q, 1);
  }

  /** A retry that a worker publishes after a rate-limit error at `q[i].published`, whatever queue it
      was routed to and whatever else is in that queue, does not leave it a full millisecond before
      the delay asked for, and from a tier not early at all. */
  lemma RetryNeverEarly(k: Kind, max: int, m: Message, delay: int, confirmed: bool, count: int,
      q: seq<Waiting>, i: nat, now: int)
    requires Carries(m.headers, count) && count < max
    requires var a := Actions(Main(k), max, m, Failed(Some(delay)), confirmed)[0];
      a.Publish? && a.key.To? && HoldMs(a.key.name, a.message.expirationMs).Some?
      && i < |q| && q[i].hold == HoldMs(a.key.name, a.message.expirationMs).value * 1_000_000
    requires i < Out(q, now)
    ensures q[i].published + delay - 1_000_000 < now
    ensures delay <= 25_000_000_000 ==> q[i].published + delay <= now
  {
    RetryWaits(k, max, m, Some(delay), confirmed, count);
    NeverEarly(q, now, i);
  }
}
