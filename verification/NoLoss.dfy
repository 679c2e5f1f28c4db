/**
 The gateway and the broker as one state machine: publishing, delivery, the worker's requests
 one at a time, expiry in the retry queues, and lost connections. The main results say exactly
 when an accepted message can be lost, that no retry count passes the limit, and that a
 dead-letter handler always learns the right source queue.
 */
module NoLoss {
  import opened Common
  import opened Topology
  import opened Worker

  /** `max` is QUEUE_MAX_RETRIES, `confirms` is publisher confirms; `dlqMayFail` asks what would
      happen if the dead-letter handler could return an error (DLQHandler.Handle never does). */
  datatype Config = Config(max: int, confirms: bool, dlqMayFail: bool)

  /** A delivery in a worker's hands. `todo` is None until the handler has ended. */
  datatype Delivery = Delivery(queue: Base, message: Message, todo: Option<seq<Action>>)

  /** `ready` holds queued messages; `stale` the deliveries in the hands of
      workers whose channel is gone: they can no longer be answered, but their retries can be published.
      The last three record history: bodies a producer was told are accepted, bodies a main-queue
      handler finished with success, bodies a dead-letter consumer finished with. */
  datatype State = State(
    ready: map<Name, seq<Message>>,
    unacked: map<nat, Delivery>,
    stale: multiset<Delivery>,
    accepted: set<nat>,
    handled: set<nat>,
    deadSeen: set<nat>)

  datatype Step =
    | Produce(kind: Kind, body: nat, landed: bool, confirmed: bool)
    | Deliver(queue: Base, tag: nat)
    | Finish(tag: nat, outcome: Outcome, confirmed: bool)
    | Act(tag: nat, landed: bool)
    | PanicLate(tag: nat)
    | LoseConnection(tag: nat, position: nat)
    | FinishStale(delivery: Delivery, outcome: Outcome, confirmed: bool)
    | PublishStale(delivery: Delivery, landed: bool)
    | Expire(from: Name)

  function Enqueue(s: State, e: Exchange, k: Key, m: Message): State {
    var to := Route(e, k);
    if to.Some? && to.value in s.ready
    then s.(ready := s.ready[to.value := s.ready[to.value] + [m]])
    else s
  }

  /** Dead-lettering by the queue's declared arguments; without a target the message is gone. */
  function DeadLetter(s: State, from: Name, m: Message, reason: Reason): State {
    match Declared(from)
    case Some(QueueArgs(Some((e, k)), _)) => Enqueue(s, e, k, DeadLettered(m, from, reason))
    case _ => s
  }

  function Record(s: State, queue: Base, body: nat, o: Outcome): State {
    if queue.Main? && o.Done? then s.(handled := s.handled + {body})
    else if queue.Dlq? && !o.Failed? then s.(deadSeen := s.deadSeen + {body})
    else s
  }

  /** `landed` is whether the exchange received the publish; a confirmed publish did, if
      confirms are on. */
  predicate Enabled(c: Config, s: State, step: Step) {
    match step
    case Produce(_, _, landed, confirmed) => confirmed && c.confirms ==> landed
    case Deliver(queue, tag) => Plain(queue) in s.ready && s.ready[Plain(queue)] != [] && tag !in s.unacked
    case Finish(tag, outcome, confirmed) =>
      && tag in s.unacked && s.unacked[tag].todo.None?
      && (s.unacked[tag].queue.Dlq? && outcome.Failed? ==> c.dlqMayFail)
    case Act(tag, landed) =>
      && tag in s.unacked && s.unacked[tag].todo.Some? && s.unacked[tag].todo.value != []
      && (var a := s.unacked[tag].todo.value[0];
          a.Publish? && a.confirmed && c.confirms ==> landed)
    case PanicLate(tag) => tag in s.unacked && s.unacked[tag].todo.Some?
    case LoseConnection(tag, position) =>
      && tag in s.unacked && Plain(s.unacked[tag].queue) in s.ready
      && position <= |s.ready[Plain(s.unacked[tag].queue)]|
    case FinishStale(d, outcome, confirmed) =>
      d in s.stale && d.todo.None? && (d.queue.Dlq? && outcome.Failed? ==> c.dlqMayFail)
    case PublishStale(d, landed) =>
      && d in s.stale && d.todo.Some? && d.todo.value != []
      && d.todo.value[0].Publish? && (d.todo.value[0].confirmed && c.confirms ==> landed)
    case Expire(from) =>
      && from in s.ready && s.ready[from] != []
      && ((Declared(from).Some? && Declared(from).value.ttlMs.Some?) || s.ready[from][0].expirationMs.Some?)
  }

  function Do(c: Config, s: State, step: Step): State
    requires Enabled(c, s, step)
  {
    match step
    case Produce(kind, body, landed, confirmed) =>
      var t := if landed then Enqueue(s, Topic, Work(kind), Message(body, map[], None)) else s;
      if confirmed then t.(accepted := t.accepted + {body}) else t
    case Deliver(queue, tag) =>
      var q := s.ready[Plain(queue)];
      s.(ready := s.ready[Plain(queue) := q[1..]], unacked := s.unacked[tag := Delivery(queue, q[0], None)])
    case Finish(tag, outcome, confirmed) =>
      var d := s.unacked[tag];
      Record(s, d.queue, d.message.body, outcome)
        .(unacked := s.unacked[tag := d.(todo := Some(Actions(d.queue, c.max, d.message, outcome, confirmed)))])
    case Act(tag, landed) =>
      var d := s.unacked[tag];
      var rest := s.(unacked := s.unacked - {tag});
      (match d.todo.value[0]
       case Ack => rest
       case Nack(requeue) =>
         if requeue then Requeue(rest, d, 0) else DeadLetter(rest, Plain(d.queue), d.message, Rejected)
       case Publish(key, m, _) =>
         var next := s.(unacked := s.unacked[tag := d.(todo := Some(d.todo.value[1..]))]);
         if landed then Enqueue(next, Topic, key, m) else next)
    case PanicLate(tag) =>
      // the deferred recover: whatever was still to be asked is replaced by a rejection
      var d := s.unacked[tag];
      Record(s, d.queue, d.message.body, Panicked)
        .(unacked := s.unacked[tag := d.(todo := Some([Nack(false)]))])
    case LoseConnection(tag, position) =>
      var d := s.unacked[tag];
      Requeue(s.(unacked := s.unacked - {tag}), d, position).(stale := s.stale + multiset{d})
    case FinishStale(d, outcome, confirmed) =>
      var ended := d.(todo := Some(Actions(d.queue, c.max, d.message, outcome, confirmed)));
      Record(s, d.queue, d.message.body, outcome).(stale := s.stale - multiset{d} + multiset{ended})
    case PublishStale(d, landed) =>
      // the acknowledgement that would follow goes to a channel that is gone
      var t := s.(stale := s.stale - multiset{d});
      if landed then Enqueue(t, Topic, d.todo.value[0].key, d.todo.value[0].message) else t
    case Expire(from) =>
      var q := s.ready[from];
      DeadLetter(s.(ready := s.ready[from := q[1..]]), from, q[0], Expired)
  }

  function Requeue(s: State, d: Delivery, position: nat): State {
    if Plain(d.queue) in s.ready && position <= |s.ready[Plain(d.queue)]| then
      var q := s.ready[Plain(d.queue)];
      s.(ready := s.ready[Plain(d.queue) := q[..position] + [d.message] + q[position..]])
    else s
  }

  /** Every queue of the topology, all empty. */
  ghost predicate Init(s: State) {
    && (forall n :: n in s.ready <==> Declared(n).Some?)
    && (forall n :: n in s.ready ==> s.ready[n] == [])
    && s.unacked == map[] && s.stale == multiset{} && s.accepted == {} && s.handled == {} && s.deadSeen == {}
  }

  ghost predicate Run(c: Config, states: seq<State>, steps: seq<Step>) {
    && |states| == |steps| + 1 && Init(states[0])
    && forall i :: 0 <= i < |steps| ==> Enabled(c, states[i], steps[i]) && states[i + 1] == Do(c, states[i], steps[i])
  }

  // ---- what every step keeps: placement, retry counts, histories ----

  /** What is true of a message wherever it is queued. */
  ghost predicate Fits(c: Config, n: Name, m: Message) {
    && 0 <= RetryCount(m.headers) <= Max(0, c.max)
    && (n.Plain? ==> m.expirationMs.None?)
    && RejectedOnlyFrom(Deaths(m.headers), Plain(Main(n.base.kind)))
    && (n == Plain(Dlq(n.base.kind)) ==> Table(Some(Plain(Main(n.base.kind))), Some(Rejected)) in Deaths(m.headers))
  }

  ghost predicate TodoFits(c: Config, d: Delivery, t: seq<Action>) {
    || t == [Ack]
    || t == [Nack(false)]
    || (t == [Nack(true)] && (d.queue.Dlq? ==> c.dlqMayFail))
    || (|t| == 2 && t[0].Publish? && t[0].key.To? && t[0].message.body == d.message.body
        && t[1] == (if t[0].confirmed then Ack else Nack(true))
        && (d.queue.Dlq? ==> c.dlqMayFail)
        && (Route(Topic, t[0].key).Some? <==> d.queue.Main?)
        && (d.queue.Main? ==> t[0].key.name.base == d.queue && Fits(c, t[0].key.name, t[0].message)))
  }

  ghost predicate Placed(c: Config, s: State) {
    && (forall n :: n in s.ready <==> Declared(n).Some?)
    && (forall n, m :: n in s.ready && m in s.ready[n] ==> Fits(c, n, m))
    && (forall tag :: tag in s.unacked ==> DeliveryFits(c, s.unacked[tag]))
    && (forall d :: d in s.stale ==> DeliveryFits(c, d))
  }

  ghost predicate DeliveryFits(c: Config, d: Delivery) {
    Fits(c, Plain(d.queue), d.message) && (d.todo.Some? ==> TodoFits(c, d, d.todo.value))
  }

  lemma ActionsFit(c: Config, d: Delivery, o: Outcome, confirmed: bool)
    requires Fits(c, Plain(d.queue), d.message)
    requires d.queue.Dlq? && o.Failed? ==> c.dlqMayFail
    ensures TodoFits(c, d, Actions(d.queue, c.max, d.message, o, confirmed))
  {
    if o.Failed? && RetryCount(d.message.headers) < c.max {
      var delay := Delay(d.message.headers, o);
      RetryIsRoutableIffMain(d.queue, delay);
      RouteIsSmallestCoveringTier(d.queue, delay);
      assert RETRY_COUNT_KEY != DEATH_KEY by { assert RETRY_COUNT_KEY[2] == 'r' && DEATH_KEY[2] == 'd'; }
      assert Deaths(RetryMessage(d.queue, d.message, delay).headers) == Deaths(d.message.headers);
    }
  }

  lemma EnqueueKeeps(c: Config, s: State, e: Exchange, k: Key, m: Message)
    requires Placed(c, s)
    requires Route(e, k).Some? ==> Fits(c, Route(e, k).value, m)
    ensures Placed(c, Enqueue(s, e, k, m))
  {
  }

  lemma DeadLetterKeeps(c: Config, s: State, from: Name, m: Message, reason: Reason)
    requires Placed(c, s) && Fits(c, from, m)
    requires from.Plain? ==> reason == Rejected
    requires !from.Plain? ==> reason == Expired
    ensures Placed(c, DeadLetter(s, from, m, reason))
  {
    if Declared(from).Some? && Declared(from).value.deadLetter.Some? {
      var home := Plain(Main(from.base.kind));
      DeadLetterKeepsHome(m, from, reason, home);
      var (e, k) := Declared(from).value.deadLetter.value;
      EnqueueKeeps(c, s, e, k, DeadLettered(m, from, reason));
    }
  }

  lemma StepKeepsPlaced(c: Config, s: State, step: Step)
    requires Placed(c, s) && Enabled(c, s, step)
    ensures Placed(c, Do(c, s, step))
  {
    match step
    case Produce(kind, body, landed, confirmed) => ProduceKeepsPlaced(c, s, kind, body, landed, confirmed);
    case Deliver(queue, tag) => DeliverKeepsPlaced(c, s, queue, tag);
    case Finish(tag, outcome, confirmed) => FinishKeepsPlaced(c, s, tag, outcome, confirmed);
    case Act(tag, landed) => ActKeepsPlaced(c, s, tag, landed);
    case LoseConnection(tag, position) => LoseConnectionKeepsPlaced(c, s, tag, position);
    case Expire(from) => ExpireKeepsPlaced(c, s, from);
    case FinishStale(d, outcome, confirmed) => FinishStaleKeepsPlaced(c, s, d, outcome, confirmed);
    case PublishStale(d, landed) => PublishStaleKeepsPlaced(c, s, d, landed);
    case PanicLate(_) =>
      hide Fits, Declared;
  }

  lemma FinishStaleKeepsPlaced(c: Config, s: State, d: Delivery, o: Outcome, confirmed: bool)
    requires Placed(c, s) && Enabled(c, s, FinishStale(d, o, confirmed))
    ensures Placed(c, Do(c, s, FinishStale(d, o, confirmed)))
  {
    hide Fits, TodoFits, Actions, Declared;
    var ended := d.(todo := Some(Actions(d.queue, c.max, d.message, o, confirmed)));
    assert DeliveryFits(c, d);
    ActionsFit(c, ended, o, confirmed);
    StaleReplaced(c, s, Do(c, s, FinishStale(d, o, confirmed)), d, ended);
  }

  lemma StaleReplaced(c: Config, s: State, t: State, d: Delivery, e: Delivery)
    requires Placed(c, s) && DeliveryFits(c, e)
    requires t.ready == s.ready && t.unacked == s.unacked && t.stale == s.stale - multiset{d} + multiset{e}
    ensures Placed(c, t)
  {
    hide DeliveryFits, Fits, Declared;
    forall x | x in t.stale ensures x in s.stale || x == e {}
  }

  lemma PublishStaleKeepsPlaced(c: Config, s: State, d: Delivery, landed: bool)
    requires Placed(c, s) && Enabled(c, s, PublishStale(d, landed))
    ensures Placed(c, Do(c, s, PublishStale(d, landed)))
  {
    var t := s.(stale := s.stale - multiset{d});
    assert Placed(c, t) by { StaleGone(c, s, d); }
    if landed {
      assert DeliveryFits(c, d);
      EnqueueKeeps(c, t, Topic, d.todo.value[0].key, d.todo.value[0].message);
    }
  }

  lemma StaleGone(c: Config, s: State, d: Delivery)
    requires Placed(c, s)
    ensures Placed(c, s.(stale := s.stale - multiset{d}))
  {
    hide DeliveryFits, Fits, Declared;
    forall x | x in s.stale - multiset{d} ensures x in s.stale {}
  }

  lemma ProduceKeepsPlaced(c: Config, s: State, kind: Kind, body: nat, landed: bool, confirmed: bool)
    requires Placed(c, s)
    requires Enabled(c, s, Produce(kind, body, landed, confirmed))
    ensures Placed(c, Do(c, s, Produce(kind, body, landed, confirmed)))
  {
    EnqueueKeeps(c, s, Topic, Work(kind), Message(body, map[], None));
  }

  lemma FinishKeepsPlaced(c: Config, s: State, tag: nat, o: Outcome, confirmed: bool)
    requires Placed(c, s) && Enabled(c, s, Finish(tag, o, confirmed))
    ensures Placed(c, Do(c, s, Finish(tag, o, confirmed)))
  {
    hide Fits, TodoFits, Actions, Declared;
    ActionsFit(c, Do(c, s, Finish(tag, o, confirmed)).unacked[tag], o, confirmed);
  }

  lemma ExpireKeepsPlaced(c: Config, s: State, from: Name)
    requires Placed(c, s) && Enabled(c, s, Expire(from))
    ensures Placed(c, Do(c, s, Expire(from)))
  {
    var q := s.ready[from];
    assert q[0] in q;
    DeadLetterKeeps(c, s.(ready := s.ready[from := q[1..]]), from, q[0], Expired);
  }

  lemma DeliverKeepsPlaced(c: Config, s: State, queue: Base, tag: nat)
    requires Placed(c, s) && Enabled(c, s, Deliver(queue, tag))
    ensures Placed(c, Do(c, s, Deliver(queue, tag)))
  {
    hide Fits, Declared;
  }

  lemma LoseConnectionKeepsPlaced(c: Config, s: State, tag: nat, position: nat)
    requires Placed(c, s) && Enabled(c, s, LoseConnection(tag, position))
    ensures Placed(c, Do(c, s, LoseConnection(tag, position)))
  {
    hide Fits, Declared;
  }

  lemma ActKeepsPlaced(c: Config, s: State, tag: nat, landed: bool)
    requires Placed(c, s) && Enabled(c, s, Act(tag, landed))
    ensures Placed(c, Do(c, s, Act(tag, landed)))
  {
    var d := s.unacked[tag];
    var rest := s.(unacked := s.unacked - {tag});
    assert Placed(c, rest);
    match d.todo.value[0]
    case Ack =>
    case Nack(requeue) =>
      if !requeue { DeadLetterKeeps(c, rest, Plain(d.queue), d.message, Rejected); }
    case Publish(key, m, _) =>
      PublishKeepsPlaced(c, s, tag, landed);
  }

  lemma PublishKeepsPlaced(c: Config, s: State, tag: nat, landed: bool)
    requires Placed(c, s) && Enabled(c, s, Act(tag, landed)) && s.unacked[tag].todo.value[0].Publish?
    ensures Placed(c, Do(c, s, Act(tag, landed)))
  {
    var d := s.unacked[tag];
    var next := s.(unacked := s.unacked[tag := d.(todo := Some(d.todo.value[1..]))]);
    assert Placed(c, next);
    if landed { EnqueueKeeps(c, next, Topic, d.todo.value[0].key, d.todo.value[0].message); }
  }

  lemma {:induction false} RunKeepsPlaced(c: Config, states: seq<State>, steps: seq<Step>)
    requires Run(c, states, steps)
    ensures Placed(c, states[|steps|])
  {
    if steps != [] {
      var n := |steps| - 1;
      RunKeepsPlaced(c, states[..n + 1], steps[..n]);
      StepKeepsPlaced(c, states[n], steps[n]);
    }
  }

  /** In every reachable state, wherever a message is, its retry count is within the limit; and
      whatever waits in, or was delivered from, a dead-letter queue tells its own main queue. */
  lemma RetryCountBoundedAndSourceKnown(c: Config, states: seq<State>, steps: seq<Step>)
    requires Run(c, states, steps)
    ensures var s := states[|steps|];
      && (forall n, m :: n in s.ready && m in s.ready[n] ==> RetryCount(m.headers) <= Max(0, c.max))
      && (forall k, m :: Plain(Dlq(k)) in s.ready && m in s.ready[Plain(Dlq(k))] ==>
          SourceQueue(m.headers) == Some(Plain(Main(k))))
      && (forall tag :: tag in s.unacked && s.unacked[tag].queue.Dlq? ==>
            SourceQueue(s.unacked[tag].message.headers) == Some(Plain(Main(s.unacked[tag].queue.kind))))
  {
    RunKeepsPlaced(c, states, steps);
    var s := states[|steps|];
    forall k, m | Plain(Dlq(k)) in s.ready && m in s.ready[Plain(Dlq(k))]
      ensures SourceQueue(m.headers) == Some(Plain(Main(k)))
    {
      SourceIsHome(m.headers, Plain(Main(k)));
    }
    forall tag | tag in s.unacked && s.unacked[tag].queue.Dlq?
      ensures SourceQueue(s.unacked[tag].message.headers) == Some(Plain(Main(s.unacked[tag].queue.kind)))
    {
      SourceIsHome(s.unacked[tag].message.headers, Plain(Main(s.unacked[tag].queue.kind)));
    }
  }

  // ---- nothing accepted is lost ----

  ghost predicate Queued(q: seq<Message>, body: nat) {
    exists m :: m in q && m.body == body
  }

  predicate AboutToAck(d: Delivery) { d.todo == Some([Ack]) }

  /** A copy the broker still has to do something with: it is queued, or it is delivered and the
      worker's next request is not the acknowledgement that makes the broker forget it. */
  ghost predicate Live(s: State, body: nat) {
    || (exists n :: n in s.ready && Queued(s.ready[n], body))
    || (exists tag :: tag in s.unacked && s.unacked[tag].message.body == body && !AboutToAck(s.unacked[tag]))
  }

  ghost predicate Kept(s: State, body: nat) {
    body in s.handled || body in s.deadSeen || Live(s, body)
  }

  /** Each accepted message was handled, reached a dead-letter consumer, or still has a copy. */
  ghost predicate NothingLost(s: State) {
    forall body :: body in s.accepted ==> Kept(s, body)
  }

  /** A worker that has something left to ask on a dead-letter queue has already seen it. */
  ghost predicate DeadSeen(s: State) {
    forall tag :: tag in s.unacked && s.unacked[tag].queue.Dlq? && s.unacked[tag].todo.Some? ==>
        s.unacked[tag].message.body in s.deadSeen
  }

  lemma EnqueueKeepsLive(s: State, e: Exchange, k: Key, m: Message)
    requires forall n :: n in s.ready <==> Declared(n).Some?
    ensures forall body :: Live(s, body) ==> Live(Enqueue(s, e, k, m), body)
    ensures Route(e, k).Some? ==> Live(Enqueue(s, e, k, m), m.body)
  {
    var t := Enqueue(s, e, k, m);
    forall n, body | n in s.ready && Queued(s.ready[n], body) ensures Queued(t.ready[n], body) {
      var x :| x in s.ready[n] && x.body == body;
      assert x in t.ready[n];
    }
    if Route(e, k).Some? {
      var n := Route(e, k).value;
      RouteFollowsBindings(e, k, n);
      assert t.ready[n][|s.ready[n]|] == m;
      assert Queued(t.ready[n], m.body);
    }
  }

  /** Dead-lettering from any queue but a dead-letter queue keeps the message. */
  lemma DeadLetterKeepsLive(s: State, from: Name, m: Message, reason: Reason)
    requires (forall n :: n in s.ready <==> Declared(n).Some?) && Declared(from).Some?
    ensures forall body :: Live(s, body) ==> Live(DeadLetter(s, from, m, reason), body)
    ensures from.base.Main? ==> Live(DeadLetter(s, from, m, reason), m.body)
  {
    if Declared(from).value.deadLetter.Some? {
      var (e, k) := Declared(from).value.deadLetter.value;
      EnqueueKeepsLive(s, e, k, DeadLettered(m, from, reason));
    }
  }

  lemma RequeueKeepsLive(s: State, d: Delivery, position: nat)
    requires Plain(d.queue) in s.ready && position <= |s.ready[Plain(d.queue)]|
    ensures forall body :: Live(s, body) || body == d.message.body ==> Live(Requeue(s, d, position), body)
  {
    var t, n := Requeue(s, d, position), Plain(d.queue);
    var q := s.ready[n];
    assert t.ready[n][position] == d.message && Queued(t.ready[n], d.message.body);
    assert q == q[..position] + q[position..];
    forall p, body | p in s.ready && Queued(s.ready[p], body) ensures Queued(t.ready[p], body) {
      var x :| x in s.ready[p] && x.body == body;
      assert x in t.ready[p];
    }
  }

  /** Taking the head of a queue leaves every other copy. */
  lemma PopKeepsLive(s: State, n: Name, body: nat)
    requires n in s.ready && s.ready[n] != [] && Live(s, body) && body != s.ready[n][0].body
    ensures Live(s.(ready := s.ready[n := s.ready[n][1..]]), body)
  {
    var t := s.(ready := s.ready[n := s.ready[n][1..]]);
    if p :| p in s.ready && Queued(s.ready[p], body) {
      var x :| x in s.ready[p] && x.body == body;
      assert s.ready[n] == [s.ready[n][0]] + s.ready[n][1..];
      assert x in t.ready[p];
      assert Queued(t.ready[p], body);
    }
  }

  /** Forgetting one delivery leaves every other copy. */
  lemma DropKeepsLive(s: State, tag: nat, body: nat)
    requires tag in s.unacked && Live(s, body) && (body != s.unacked[tag].message.body || AboutToAck(s.unacked[tag]))
    ensures Live(s.(unacked := s.unacked - {tag}), body)
  {
    var t := s.(unacked := s.unacked - {tag});
    if other :| other in s.unacked && s.unacked[other].message.body == body && !AboutToAck(s.unacked[other]) {
      assert other in t.unacked;
    }
  }

  lemma ReplaceKeepsLive(s: State, tag: nat, d: Delivery)
    requires tag in s.unacked && d.message.body == s.unacked[tag].message.body && !AboutToAck(d)
    ensures forall body :: Live(s, body) ==> Live(s.(unacked := s.unacked[tag := d]), body)
    ensures Live(s.(unacked := s.unacked[tag := d]), d.message.body)
  {
    var t := s.(unacked := s.unacked[tag := d]);
    assert tag in t.unacked && t.unacked[tag] == d;
    forall body | Live(s, body) ensures Live(t, body) {
      if other :| other in s.unacked && s.unacked[other].message.body == body && !AboutToAck(s.unacked[other]) {
        assert other in t.unacked;
      }
    }
  }

  ghost predicate Good(c: Config, s: State) {
    Placed(c, s) && NothingLost(s) && DeadSeen(s)
  }

  lemma DeliverKeeps(c: Config, s: State, queue: Base, tag: nat)
    requires Good(c, s) && Enabled(c, s, Deliver(queue, tag))
    ensures NothingLost(Do(c, s, Deliver(queue, tag)))
  {
    var n, t := Plain(queue), Do(c, s, Deliver(queue, tag));
    assert tag in t.unacked;
    forall body | body in s.accepted && Live(s, body) ensures Live(t, body) {
      if body != s.ready[n][0].body {
        PopKeepsLive(s, n, body);
        var u := s.(ready := t.ready);
        if other :| other in u.unacked && u.unacked[other].message.body == body && !AboutToAck(u.unacked[other]) {
          assert other in t.unacked;
        }
      }
    }
  }

  lemma FinishKeeps(c: Config, s: State, tag: nat, o: Outcome, confirmed: bool)
    requires Good(c, s) && !c.dlqMayFail && Enabled(c, s, Finish(tag, o, confirmed))
    ensures NothingLost(Do(c, s, Finish(tag, o, confirmed))) && DeadSeen(Do(c, s, Finish(tag, o, confirmed)))
  {
    var d, t := s.unacked[tag], Do(c, s, Finish(tag, o, confirmed));
    if AboutToAck(t.unacked[tag]) {
      forall body | Live(s, body) && body != d.message.body ensures Live(t, body) {
        if other :| other in s.unacked && s.unacked[other].message.body == body && !AboutToAck(s.unacked[other]) {
          assert other in t.unacked;
        }
      }
      assert d.message.body in t.handled + t.deadSeen;
    } else {
      ReplaceKeepsLive(s, tag, t.unacked[tag]);
    }
  }

  lemma ActKeeps(c: Config, s: State, tag: nat, landed: bool)
    requires Good(c, s) && c.confirms && !c.dlqMayFail && Enabled(c, s, Act(tag, landed))
    ensures NothingLost(Do(c, s, Act(tag, landed)))
  {
    var d, t := s.unacked[tag], Do(c, s, Act(tag, landed));
    var rest := s.(unacked := s.unacked - {tag});
    assert t.handled == s.handled && t.deadSeen == s.deadSeen && t.accepted == s.accepted;
    forall body | body in s.accepted && Live(s, body) ensures Kept(t, body) {
      match d.todo.value[0]
      case Ack =>
        DropKeepsLive(s, tag, body);
      case Nack(requeue) =>
        if body != d.message.body { DropKeepsLive(s, tag, body); }
        if requeue {
          RequeueKeepsLive(rest, d, 0);
        } else {
          DeadLetterKeepsLive(rest, Plain(d.queue), d.message, Rejected);
        }
      case Publish(key, m, confirmed) =>
        var next := s.(unacked := s.unacked[tag := d.(todo := Some(d.todo.value[1..]))]);
        if confirmed {
          EnqueueKeepsLive(next, Topic, key, m);
          if body != d.message.body { OtherStaysLive(s, tag, next, body); }
        } else {
          ReplaceKeepsLive(s, tag, next.unacked[tag]);
          if landed { EnqueueKeepsLive(next, Topic, key, m); }
        }
    }
  }

  lemma OtherStaysLive(s: State, tag: nat, t: State, body: nat)
    requires tag in s.unacked && t.ready == s.ready && t.unacked.Keys == s.unacked.Keys
    requires forall other :: other in s.unacked && other != tag ==> t.unacked[other] == s.unacked[other]
    requires Live(s, body) && body != s.unacked[tag].message.body
    ensures Live(t, body)
  {
    if other :| other in s.unacked && s.unacked[other].message.body == body && !AboutToAck(s.unacked[other]) {
      assert other in t.unacked;
    }
  }

  lemma ExpireKeeps(c: Config, s: State, from: Name)
    requires Good(c, s) && Enabled(c, s, Expire(from))
    ensures NothingLost(Do(c, s, Expire(from)))
  {
    var q := s.ready[from];
    assert q[0] in q;
    var popped := s.(ready := s.ready[from := q[1..]]);
    DeadLetterKeepsLive(popped, from, q[0], Expired);
    forall body | body in s.accepted && Live(s, body) ensures Live(Do(c, s, Expire(from)), body) {
      if body != q[0].body { PopKeepsLive(s, from, body); }
    }
  }

  lemma PanicLateKeeps(c: Config, s: State, tag: nat)
    requires Good(c, s) && Enabled(c, s, PanicLate(tag))
    ensures NothingLost(Do(c, s, PanicLate(tag))) && DeadSeen(Do(c, s, PanicLate(tag)))
  {
    ReplaceKeepsLive(s, tag, s.unacked[tag].(todo := Some([Nack(false)])));
  }

  lemma LoseConnectionKeeps(c: Config, s: State, tag: nat, position: nat)
    requires Good(c, s) && Enabled(c, s, LoseConnection(tag, position))
    ensures NothingLost(Do(c, s, LoseConnection(tag, position)))
  {
    var rest := s.(unacked := s.unacked - {tag});
    RequeueKeepsLive(rest, s.unacked[tag], position);
    forall body | Live(s, body) ensures Live(Do(c, s, LoseConnection(tag, position)), body) {
      if body != s.unacked[tag].message.body { DropKeepsLive(s, tag, body); }
      SameCopiesSameLive(Requeue(rest, s.unacked[tag], position), Do(c, s, LoseConnection(tag, position)), body);
    }
  }

  lemma ProduceKeeps(c: Config, s: State, kind: Kind, body: nat, landed: bool, confirmed: bool)
    requires Good(c, s) && c.confirms && Enabled(c, s, Produce(kind, body, landed, confirmed))
    ensures NothingLost(Do(c, s, Produce(kind, body, landed, confirmed)))
  {
    EnqueueKeepsLive(s, Topic, Work(kind), Message(body, map[], None));
  }

  lemma SameCopiesSameLive(s: State, t: State, body: nat)
    requires t.ready == s.ready && t.unacked == s.unacked && Live(s, body)
    ensures Live(t, body)
  {
    if n :| n in s.ready && Queued(s.ready[n], body) {
      assert n in t.ready && Queued(t.ready[n], body);
    } else if tag :| tag in s.unacked && s.unacked[tag].message.body == body && !AboutToAck(s.unacked[tag]) {
      assert tag in t.unacked;
    }
  }

  lemma PublishStaleKeeps(c: Config, s: State, d: Delivery, landed: bool)
    requires Good(c, s) && Enabled(c, s, PublishStale(d, landed))
    ensures NothingLost(Do(c, s, PublishStale(d, landed)))
  {
    var t := s.(stale := s.stale - multiset{d});
    forall b | Live(s, b) ensures Live(t, b) { SameCopiesSameLive(s, t, b); }
    EnqueueKeepsLive(t, Topic, d.todo.value[0].key, d.todo.value[0].message);
  }

  lemma StepKeepsNothingLost(c: Config, s: State, step: Step)
    requires Good(c, s) && c.confirms && !c.dlqMayFail && Enabled(c, s, step)
    ensures NothingLost(Do(c, s, step))
  {
    match step
    case Produce(kind, body, landed, confirmed) => ProduceKeeps(c, s, kind, body, landed, confirmed);
    case Deliver(queue, tag) => DeliverKeeps(c, s, queue, tag);
    case Finish(tag, outcome, confirmed) => FinishKeeps(c, s, tag, outcome, confirmed);
    case Act(tag, landed) => ActKeeps(c, s, tag, landed);
    case PanicLate(tag) => PanicLateKeeps(c, s, tag);
    case LoseConnection(tag, position) => LoseConnectionKeeps(c, s, tag, position);
    case PublishStale(d, landed) => PublishStaleKeeps(c, s, d, landed);
    case FinishStale(_, _, _) =>
      forall b | Live(s, b) ensures Live(Do(c, s, step), b) { SameCopiesSameLive(s, Do(c, s, step), b); }
    case Expire(from) => ExpireKeeps(c, s, from);
  }

  /** No delivery passes its handler, and what was seen stays seen. */
  ghost predicate NoneEnds(s: State, t: State) {
    && s.deadSeen <= t.deadSeen
    && forall tag :: tag in t.unacked && t.unacked[tag].todo.Some? ==>
         && tag in s.unacked && s.unacked[tag].todo.Some? && s.unacked[tag].queue == t.unacked[tag].queue
         && s.unacked[tag].message == t.unacked[tag].message
  }

  lemma DeadStaySeen(s: State, t: State)
    requires DeadSeen(s) && NoneEnds(s, t)
    ensures DeadSeen(t)
  {
  }

  lemma ActEndsNone(c: Config, s: State, tag: nat, landed: bool)
    requires Enabled(c, s, Act(tag, landed))
    ensures NoneEnds(s, Do(c, s, Act(tag, landed)))
  {
    hide DeadLettered, Route, Declared;
  }

  lemma QueueStepsEndNone(c: Config, s: State, step: Step)
    requires Enabled(c, s, step) && (step.Produce? || step.Deliver? || step.LoseConnection? || step.Expire?)
    ensures NoneEnds(s, Do(c, s, step))
  {
    hide DeadLettered, Route, Declared;
  }

  lemma StaleStepsEndNone(c: Config, s: State, step: Step)
    requires Enabled(c, s, step) && (step.FinishStale? || step.PublishStale?)
    ensures NoneEnds(s, Do(c, s, step))
  {
    hide Actions, Route;
  }

  lemma StepKeepsDeadSeen(c: Config, s: State, step: Step)
    requires Good(c, s) && !c.dlqMayFail && Enabled(c, s, step)
    ensures DeadSeen(Do(c, s, step))
  {
    hide DeadSeen, NoneEnds, Do, Enabled, Placed;
    match step
    case Finish(tag, outcome, confirmed) => FinishKeeps(c, s, tag, outcome, confirmed);
    case PanicLate(tag) => PanicLateKeeps(c, s, tag);
    case Act(tag, landed) =>
      ActEndsNone(c, s, tag, landed);
      DeadStaySeen(s, Do(c, s, step));
    case FinishStale(_, _, _) =>
      StaleStepsEndNone(c, s, step);
      DeadStaySeen(s, Do(c, s, step));
    case PublishStale(_, _) =>
      StaleStepsEndNone(c, s, step);
      DeadStaySeen(s, Do(c, s, step));
    case _ =>
      QueueStepsEndNone(c, s, step);
      DeadStaySeen(s, Do(c, s, step));
  }

  lemma StepKeepsGood(c: Config, s: State, step: Step)
    requires Good(c, s) && c.confirms && !c.dlqMayFail && Enabled(c, s, step)
    ensures Good(c, Do(c, s, step))
  {
    StepKeepsPlaced(c, s, step);
    StepKeepsNothingLost(c, s, step);
    StepKeepsDeadSeen(c, s, step);
  }

  /** Safety over whole runs: with confirms on and a dead-letter handler that never fails, no
      interleaving of deliveries, failures, panics, lost publishes, lost connections and expiries
      loses an accepted message. */
  lemma {:induction false} NoLoss(c: Config, states: seq<State>, steps: seq<Step>)
    requires Run(c, states, steps) && c.confirms && !c.dlqMayFail
    ensures Good(c, states[|steps|])
  {
    if steps != [] {
      var n := |steps| - 1;
      NoLoss(c, states[..n + 1], steps[..n]);
      StepKeepsGood(c, states[n], steps[n]);
    }
  }

  // ---- and exactly when something is lost ----

  function NamesOf(k: Kind): (r: set<Name>)
    ensures forall n :: n in r <==> n.base.kind == k && Declared(n).Some?
  {
    {Plain(Main(k)), Plain(Dlq(k)), Tier(Main(k), S1), Tier(Main(k), S5), Tier(Main(k), S25), Long(Main(k))}
  }

  function Fresh(): (s: State)
    ensures Init(s)
  {
    var names := NamesOf(Incoming) + NamesOf(Webhook) + NamesOf(Outgoing);
    assert forall n :: Declared(n).Some? ==> n in NamesOf(n.base.kind);
    State(map n | n in names :: [], map[], multiset{}, {}, {}, {})
  }

  ghost predicate CanLose(c: Config) {
    exists states, steps :: Run(c, states, steps) && !NothingLost(states[|steps|])
  }

  lemma UnconfirmedPublishIsLost(c: Config)
    requires !c.confirms
    ensures CanLose(c)
  {
    var s, step := Fresh(), Produce(Outgoing, 0, false, true);
    var t := Do(c, s, step);
    assert Run(c, [s, t], [step]);
    assert t.accepted == {0} && t.ready == s.ready;
    assert !Kept(t, 0);
    assert !NothingLost([s, t][|[step]|]);
  }

  lemma Play(c: Config, states: seq<State>, steps: seq<Step>, step: Step)
      returns (states': seq<State>, steps': seq<Step>)
    requires Run(c, states, steps) && Enabled(c, states[|steps|], step)
    ensures Run(c, states', steps') && states'[|steps'|] == Do(c, states[|steps|], step)
  {
    hide Do, Enabled, Init;
    states', steps' := states + [Do(c, states[|steps|], step)], steps + [step];
  }

  /** A state with one accepted message, queued and nothing else. */
  function Waiting(queue: Base, m: Message): State
    requires Declared(Plain(queue)).Some?
  {
    Fresh().(accepted := {m.body}, ready := Fresh().ready[Plain(queue) := [m]])
  }

  /** A state with one accepted message, delivered and nothing else. */
  function Held(queue: Base, m: Message, todo: Option<seq<Action>>): State {
    Fresh().(accepted := {m.body}, unacked := map[0 := Delivery(queue, m, todo)])
  }

  lemma WaitingIsDelivered(c: Config, queue: Base, m: Message)
    requires Declared(Plain(queue)).Some?
    ensures Enabled(c, Waiting(queue, m), Deliver(queue, 0))
    ensures Do(c, Waiting(queue, m), Deliver(queue, 0)) == Held(queue, m, None)
  {
    hide Fresh, Declared;
    var s, t := Waiting(queue, m), Do(c, Waiting(queue, m), Deliver(queue, 0));
    var ready := Fresh().ready;
    assert s.ready[Plain(queue)] == [m] && [m][1..] == [];
    assert t.ready == ready[Plain(queue) := [m]][Plain(queue) := []];
    assert t.ready == ready;
    assert t.unacked == map[0 := Delivery(queue, m, None)];
    assert t.stale == multiset{} && t.accepted == {m.body} && t.handled == {} && t.deadSeen == {};
  }

  lemma ProducedWaits(c: Config, k: Kind, body: nat)
    ensures Do(c, Fresh(), Produce(k, body, true, true)) == Waiting(Main(k), Message(body, map[], None))
  {
    hide Fresh;
    assert Fresh().ready[Plain(Main(k))] + [Message(body, map[], None)] == [Message(body, map[], None)];
  }

  lemma RejectedWaits(c: Config, k: Kind, m: Message)
    ensures Do(c, Held(Main(k), m, Some([Nack(false)])), Act(0, true)) ==
        Waiting(Dlq(k), DeadLettered(m, Plain(Main(k)), Rejected))
  {
    hide Fresh;
    var dead := DeadLettered(m, Plain(Main(k)), Rejected);
    assert Fresh().ready[Plain(Dlq(k))] + [dead] == [dead];
    assert Held(Main(k), m, Some([Nack(false)])).unacked - {0} == map[];
  }

  /** A message whose handler panics goes to the dead-letter queue and is delivered there. */
  lemma DeadLetterReached(c: Config) returns (states: seq<State>, steps: seq<Step>, dead: Message)
    ensures Run(c, states, steps) && states[|steps|] == Held(Dlq(Outgoing), dead, None)
  {
    hide Fresh, Actions, DeadLettered;
    var main, m := Main(Outgoing), Message(0, map[], None);
    dead := DeadLettered(m, Plain(main), Rejected);
    ProducedWaits(c, Outgoing, 0);
    states, steps := Play(c, [Fresh()], [], Produce(Outgoing, 0, true, true));
    WaitingIsDelivered(c, main, m);
    states, steps := Play(c, states, steps, Deliver(main, 0));
    PanicIsRejected(c, m);
    states, steps := Play(c, states, steps, Finish(0, Panicked, true));
    RejectedWaits(c, Outgoing, m);
    states, steps := Play(c, states, steps, Act(0, true));
    WaitingIsDelivered(c, Dlq(Outgoing), dead);
    states, steps := Play(c, states, steps, Deliver(Dlq(Outgoing), 0));
  }

  lemma PanicIsRejected(c: Config, m: Message)
    ensures Do(c, Held(Main(Outgoing), m, None), Finish(0, Panicked, true)) ==
        Held(Main(Outgoing), m, Some([Nack(false)]))
  {
    hide Fresh;
  }

  /** If the dead-letter handler could fail, its retry would be published to a key nothing is
      bound to, confirmed all the same, and the original acknowledged. */
  lemma FailingDeadLetterHandlerLoses(c: Config)
    requires c.dlqMayFail
    ensures CanLose(c)
  {
    hide Fresh, Actions;
    var states, steps, dead := DeadLetterReached(c);
    var todo := Actions(Dlq(Outgoing), c.max, dead, Failed(None), true);
    FailureIsHeld(c, dead);
    states, steps := Play(c, states, steps, Finish(0, Failed(None), true));
    if todo != [Nack(false)] {
      RetryGoesNowhere(c, dead);
      states, steps := Play(c, states, steps, Act(0, true));
      LostAtTheEnd(c, states, steps, dead, Ack);
    } else {
      LostAtTheEnd(c, states, steps, dead, Nack(false));
    }
  }

  lemma FailureIsHeld(c: Config, dead: Message)
    requires c.dlqMayFail
    ensures Enabled(c, Held(Dlq(Outgoing), dead, None), Finish(0, Failed(None), true))
    ensures Do(c, Held(Dlq(Outgoing), dead, None), Finish(0, Failed(None), true))
         == Held(Dlq(Outgoing), dead, Some(Actions(Dlq(Outgoing), c.max, dead, Failed(None), true)))
  {
    hide Fresh, Actions;
  }

  /** The retry of a dead-lettered message is confirmed and lands nowhere. */
  lemma RetryGoesNowhere(c: Config, dead: Message)
    requires Actions(Dlq(Outgoing), c.max, dead, Failed(None), true) != [Nack(false)]
    ensures var s := Held(Dlq(Outgoing), dead, Some(Actions(Dlq(Outgoing), c.max, dead, Failed(None), true)));
      Enabled(c, s, Act(0, true)) && Do(c, s, Act(0, true)) == Held(Dlq(Outgoing), dead, Some([Ack]))
  {
    hide Fresh;
    RetryIsRoutableIffMain(Dlq(Outgoing), Delay(dead.headers, Failed(None)));
    assert Actions(Dlq(Outgoing), c.max, dead, Failed(None), true)[1..] == [Ack];
  }

  lemma LostAtTheEnd(c: Config, states: seq<State>, steps: seq<Step>, dead: Message, last: Action)
    requires Run(c, states, steps) && (last == Ack || last == Nack(false))
    requires states[|steps|] == Held(Dlq(Outgoing), dead, Some([last]))
    ensures CanLose(c)
  {
    hide Fresh;
    var end := Fresh().(accepted := {dead.body});
    assert Held(Dlq(Outgoing), dead, Some([last])).unacked - {0} == map[];
    var states', steps' := Play(c, states, steps, Act(0, true));
    assert states'[|steps'|] == end && !Kept(end, dead.body);
  }

  /** An accepted message can be lost exactly when publisher confirms are off or a dead-letter
      handler may fail. */
  lemma CanLoseIff(c: Config)
    ensures CanLose(c) <==> !c.confirms || c.dlqMayFail
  {
    if !c.confirms { UnconfirmedPublishIsLost(c); }
    if c.dlqMayFail { FailingDeadLetterHandlerLoses(c); }
    if CanLose(c) && c.confirms && !c.dlqMayFail {
      var states, steps :| Run(c, states, steps) && !NothingLost(states[|steps|]);
      NoLoss(c, states, steps);
    }
  }
}
