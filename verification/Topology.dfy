/**
 The queue names, routing keys and retry routing of pkg/queue/constants.go, and the broker
 objects declared by setupTopology in pkg/queue/rabbitmq.go.

 Names are kept symbolic (`Name`, `Key`); `RenderName` and `RenderKey` give the strings the
 gateway sends, and the injectivity lemmas show that nothing is confused by reasoning on
 the symbolic form.
 */
module Topology {
  import opened Common

  /** The three job families; each has one main queue and one dead-letter queue. */
  datatype Kind = Incoming | Webhook | Outgoing

  datatype Base = Main(kind: Kind) | Dlq(kind: Kind)

  /** A retry queue name can be formed for any queue, whether or not it is ever declared. */
  datatype Name = Plain(base: Base) | Tier(base: Base, tier: Seconds) | Long(base: Base)

  datatype Seconds = S1 | S5 | S25

  datatype Exchange = Topic | DeadLetter

  datatype ExchangeType = TopicType | DirectType | OtherType

  datatype Key = Work(kind: Kind) | To(name: Name)

  datatype QueueArgs = QueueArgs(deadLetter: Option<(Exchange, Key)>, ttlMs: Option<int>)

  datatype Binding = Binding(exchange: Exchange, key: Key, queue: Name)

  const RETRY_TIERS: seq<Seconds> := [S1, S5, S25]

  const KINDS: seq<Kind> := [Incoming, Webhook, Outgoing]

  function Nanos(s: Seconds): int {
    match s case S1 => SECOND case S5 => 5 * SECOND case S25 => 25 * SECOND
  }

  // ---- strings on the wire ----

  function RenderBase(b: Base): string {
    match b
    case Main(Incoming) => "whatsapp.events.incoming"
    case Main(Webhook) => "whatsapp.webhooks.delivery"
    case Main(Outgoing) => "whatsapp.messages.outgoing"
    case Dlq(Incoming) => "whatsapp.dlq.events.incoming"
    case Dlq(Webhook) => "whatsapp.dlq.webhooks.delivery"
    case Dlq(Outgoing) => "whatsapp.dlq.messages.outgoing"
  }

  function Suffix(n: Name): string {
    match n
    case Plain(_) => ""
    case Tier(_, S1) => ".retry.1s"
    case Tier(_, S5) => ".retry.5s"
    case Tier(_, S25) => ".retry.25s"
    case Long(_) => ".retry.long"
  }

  function RenderName(n: Name): string { RenderBase(n.base) + Suffix(n) }

  function RenderKey(k: Key): string {
    match k
    case Work(Incoming) => "event.incoming"
    case Work(Webhook) => "webhook.delivery"
    case Work(Outgoing) => "message.outgoing"
    case To(n) => RenderName(n)
  }

  /** Two letters tell the queues' names apart. */
  lemma BaseLetters(b: Base)
    ensures |RenderBase(b)| > 17 && RenderBase(b)[4] == 's'
    ensures (RenderBase(b)[9], RenderBase(b)[13]) ==
            match b
            case Main(Incoming) => ('e', 't')
            case Main(Webhook) => ('w', 'o')
            case Main(Outgoing) => ('m', 'a')
            case Dlq(Incoming) => ('d', 'e')
            case Dlq(Webhook) => ('d', 'w')
            case Dlq(Outgoing) => ('d', 'm')
  {
  }

  lemma BaseIsPrefixCode(m: Name, n: Name)
    requires RenderName(m) == RenderName(n)
    ensures m.base == n.base
  {
    hide RenderBase, Suffix;
    BaseLetters(m.base);
    BaseLetters(n.base);
    assert RenderName(m)[9] == RenderBase(m.base)[9] && RenderName(n)[9] == RenderBase(n.base)[9];
    assert RenderName(m)[13] == RenderBase(m.base)[13] && RenderName(n)[13] == RenderBase(n.base)[13];
  }

  /** Two queues never share a name, so the symbolic names lose nothing. */
  lemma NamesAreDistinct(m: Name, n: Name)
    requires RenderName(m) == RenderName(n)
    ensures m == n
  {
    BaseIsPrefixCode(m, n);
    var k := |RenderBase(m.base)|;
    assert RenderName(m)[k..] == Suffix(m) && RenderName(n)[k..] == Suffix(n);
    assert Suffix(m) == Suffix(n);
    if |Suffix(m)| == 9 { assert Suffix(m)[7] == Suffix(n)[7]; }
  }

  lemma KeyLetter(k: Key)
    ensures |RenderKey(k)| > 4
    ensures RenderKey(k)[4] ==
            match k
            case Work(Incoming) => 't'
            case Work(Webhook) => 'o'
            case Work(Outgoing) => 'a'
            case To(_) => 's'
  {
    if k.To? { BaseLetters(k.name.base); }
  }

  /** Likewise for routing keys: a retry queue's key is never mistaken for a work key. */
  lemma KeysAreDistinct(j: Key, k: Key)
    requires RenderKey(j) == RenderKey(k)
    ensures j == k
  {
    KeyLetter(j);
    KeyLetter(k);
    hide RenderBase, Suffix;
    assert RenderKey(j)[4] == RenderKey(k)[4];
    if j.To? && k.To? { NamesAreDistinct(j.name, k.name); }
  }

  /** Some of the names on the wire. */
  lemma NamesOnTheWire()
    ensures RenderName(Plain(Main(Outgoing))) == "whatsapp.messages.outgoing"
    ensures RenderName(Tier(Main(Outgoing), S5)) == "whatsapp.messages.outgoing.retry.5s"
    ensures RenderName(Long(Main(Webhook))) == "whatsapp.webhooks.delivery.retry.long"
    ensures RenderName(Plain(Dlq(Incoming))) == "whatsapp.dlq.events.incoming"
    ensures RenderKey(Work(Webhook)) == "webhook.delivery"
  {
  }

  // ---- choosing a retry queue ----

  /** retryRoute: the first tier that is at least the delay, else the long queue. */
  function RetryRoute(queue: Base, delay: int): (Name, bool) {
    RouteOver(RETRY_TIERS, queue, delay)
  }

  function RouteOver(tiers: seq<Seconds>, queue: Base, delay: int): (Name, bool) {
    if tiers == [] then (Long(queue), true)
    else if delay <= Nanos(tiers[0]) then (Tier(queue, tiers[0]), false)
    else RouteOver(tiers[1..], queue, delay)
  }

  /** The route is the smallest tier that covers the delay, and the long queue exactly when
      no tier does. */
  lemma RouteIsSmallestCoveringTier(queue: Base, delay: int)
    ensures var (name, perMessage) := RetryRoute(queue, delay);
      && name.base == queue
      && (perMessage <==> name.Long?) && !name.Plain?
      && (name.Long? <==> forall s: Seconds :: Nanos(s) < delay)
      && (name.Tier? ==> delay <= Nanos(name.tier)
                         && forall s: Seconds :: delay <= Nanos(s) ==> Nanos(name.tier) <= Nanos(s))
  {
    RouteUnfolds(queue, delay);
    assert Nanos(S1) < Nanos(S5) < Nanos(S25);
    if delay <= Nanos(S25) { assert !(forall s: Seconds :: Nanos(s) < delay); }
  }

  lemma RouteUnfolds(queue: Base, delay: int)
    ensures RetryRoute(queue, delay) ==
            if delay <= Nanos(S1) then (Tier(queue, S1), false)
            else if delay <= Nanos(S5) then (Tier(queue, S5), false)
            else if delay <= Nanos(S25) then (Tier(queue, S25), false)
            else (Long(queue), true)
  {
    assert RETRY_TIERS[1..] == [S5, S25] && [S5, S25][1..] == [S25] && [S25][1..] == [];
    assert RouteOver([S25], queue, delay) == if delay <= Nanos(S25) then (Tier(queue, S25), false)
        else RouteOver([], queue, delay);
    assert RouteOver([S5, S25], queue, delay) == if delay <= Nanos(S5) then (Tier(queue, S5), false)
        else RouteOver([S25], queue, delay);
  }

  // ---- what setupTopology declares ----

  function TierArgs(k: Kind, t: Seconds): QueueArgs {
    QueueArgs(Some((Topic, Work(k))), Some(Nanos(t) / MILLISECOND))
  }

  /** The arguments setupTopology gives a queue, or None for a queue it never declares. */
  function Declared(n: Name): Option<QueueArgs> {
    match n
    case Plain(Dlq(_)) => Some(QueueArgs(None, None))
    case Plain(Main(k)) => Some(QueueArgs(Some((DeadLetter, To(Plain(Dlq(k))))), None))
    case Tier(Main(k), t) => Some(TierArgs(k, t))
    case Long(Main(k)) => Some(QueueArgs(Some((Topic, Work(k))), None))
    case _ => None
  }

  /** The bindings setupTopology makes. */
  predicate Bound(b: Binding) {
    match b
    case Binding(Topic, Work(k), q) => q == Plain(Main(k))
    case Binding(Topic, To(n), q) => q == n && n.base.Main? && !n.Plain?
    case Binding(DeadLetter, To(n), q) => q == n && n.base.Dlq? && n.Plain?
    case _ => false
  }

  /** Where a publish lands. None is the unroutable case, which the broker still confirms. */
  function Route(e: Exchange, k: Key): Option<Name> {
    match (e, k)
    case (Topic, Work(j)) => Some(Plain(Main(j)))
    case (Topic, To(n)) => if n.base.Main? && !n.Plain? then Some(n) else None
    case (DeadLetter, To(n)) => if n.base.Dlq? && n.Plain? then Some(n) else None
    case (DeadLetter, Work(_)) => None
  }

  lemma RouteFollowsBindings(e: Exchange, k: Key, q: Name)
    ensures Route(e, k) == Some(q) <==> Bound(Binding(e, k, q))
    ensures Route(e, k) == Some(q) ==> Declared(q).Some?
  {
  }

  /** The milliseconds the broker keeps a message in a queue: the queue's own TTL or the message's
      expiration, whichever is shorter. None is for ever. */
  function HoldMs(name: Name, expirationMs: Option<int>): Option<int> {
    var ttl := if Declared(name).Some? then Declared(name).value.ttlMs else None;
    if ttl.None? then expirationMs
    else if expirationMs.None? then ttl
    else Some(Min(ttl.value, expirationMs.value))
  }

  /** The message expiration that goes with a route. */
  function Expiration(perMessage: bool, delay: int): Option<int> {
    if perMessage then Some(delay / MILLISECOND) else None
  }

  /** How long a retry routed by its delay is kept: one, five or twenty-five seconds, or beyond that
      the delay itself in whole milliseconds. So never a millisecond less than requested, and in a
      tier not less at all. */
  lemma HoldCoversDelay(k: Kind, delay: int)
    ensures var (name, perMessage) := RetryRoute(Main(k), delay);
      var hold := HoldMs(name, Expiration(perMessage, delay));
      && hold == Some(if delay <= 1_000_000_000 then 1000 else if delay <= 5_000_000_000 then 5000
                      else if delay <= 25_000_000_000 then 25000 else delay / 1_000_000)
      && delay - 1_000_000 < hold.value * 1_000_000
      && (name.Tier? ==> delay <= hold.value * 1_000_000)
  {
    RouteUnfolds(Main(k), delay);
  }

  /** A retry published for a queue is routable exactly when that queue is a main queue. */
  lemma RetryIsRoutableIffMain(queue: Base, delay: int)
    ensures Route(Topic, To(RetryRoute(queue, delay).0)).Some? <==> queue.Main?
    ensures queue.Main? ==> Route(Topic, To(RetryRoute(queue, delay).0)) == Some(RetryRoute(queue, delay).0)
  {
    RouteIsSmallestCoveringTier(queue, delay);
  }

  // ---- setupTopology ----

  /** What setupTopology can ask of the broker. */
  datatype Request =
    | Declare(exchange: Exchange, kind: ExchangeType)
    | Queue(name: Name, args: QueueArgs)
    | Bind(binding: Binding)

  function TypeOf(e: Exchange): ExchangeType { if e == Topic then TopicType else DirectType }

  const EXCHANGES: seq<Request> := [Declare(Topic, TopicType), Declare(DeadLetter, DirectType)]

  function RetryRequests(n: Name, args: QueueArgs): seq<Request> {
    [Queue(n, args), Bind(Binding(Topic, To(n), n))]
  }

  function TierRequests(k: Kind, tiers: seq<Seconds>): seq<Request> {
    if tiers == [] then []
    else TierRequests(k, tiers[..|tiers| - 1])
         + RetryRequests(Tier(Main(k), tiers[|tiers| - 1]), TierArgs(k, tiers[|tiers| - 1]))
  }

  function KindRequests(k: Kind): seq<Request> {
    [Queue(Plain(Dlq(k)), QueueArgs(None, None)), Bind(Binding(DeadLetter, To(Plain(Dlq(k))), Plain(Dlq(k)))),
     Queue(Plain(Main(k)), QueueArgs(Some((DeadLetter, To(Plain(Dlq(k))))), None))]
    + TierRequests(k, RETRY_TIERS)
    + RetryRequests(Long(Main(k)), QueueArgs(Some((Topic, Work(k))), None))
    + [Bind(Binding(Topic, Work(k), Plain(Main(k))))]
  }

  function AllRequests(kinds: seq<Kind>): seq<Request> {
    if kinds == [] then [] else AllRequests(kinds[..|kinds| - 1]) + KindRequests(kinds[|kinds| - 1])
  }

  /** Everything setupTopology asks for, in its order. */
  function SetupRequests(): seq<Request> { EXCHANGES + AllRequests(KINDS) }

  datatype Declarations = Declarations(exchanges: map<Exchange, ExchangeType>, queues: map<Name, QueueArgs>,
      bindings: set<Binding>)

  /** The broker's answer to one request: an existing exchange or queue may only be declared again
      with the same type or arguments, and only an existing queue may be bound, to an existing
      exchange. */
  function Answer(d: Declarations, r: Request): Option<Declarations> {
    match r
    case Declare(x, t) =>
      if x in d.exchanges && d.exchanges[x] != t then None else Some(d.(exchanges := d.exchanges[x := t]))
    case Queue(n, args) =>
      if n in d.queues && d.queues[n] != args then None else Some(d.(queues := d.queues[n := args]))
    case Bind(b) =>
      if b.queue in d.queues && b.exchange in d.exchanges then Some(d.(bindings := d.bindings + {b})) else None
  }

  function AnswerAll(d: Declarations, rs: seq<Request>): Option<Declarations> {
    if rs == [] then Some(d)
    else match AnswerAll(d, rs[..|rs| - 1])
      case None => None
      case Some(e) => Answer(e, rs[|rs| - 1])
  }

  /** Whatever was granted, in order, is there; nothing else was added, nothing was changed. */
  lemma {:induction false} AnsweredAll(d: Declarations, rs: seq<Request>)
    ensures AnswerAll(d, rs).Some? ==>
      var e := AnswerAll(d, rs).value;
      && (forall n :: n in d.queues ==> n in e.queues && e.queues[n] == d.queues[n])
      && (forall n, a :: Queue(n, a) in rs ==> n in e.queues && e.queues[n] == a)
      && (forall n :: n in e.queues && n !in d.queues ==> Queue(n, e.queues[n]) in rs)
      && (forall b :: b in e.bindings <==> b in d.bindings || Bind(b) in rs)
      && (forall x :: x in d.exchanges ==> x in e.exchanges && e.exchanges[x] == d.exchanges[x])
      && (forall x, t :: Declare(x, t) in rs ==> x in e.exchanges && e.exchanges[x] == t)
  {
    if rs != [] {
      AnsweredAll(d, rs[..|rs| - 1]);
      assert rs == rs[..|rs| - 1] + [rs[|rs| - 1]];
    }
  }

  /** Every binding names a queue declared before it. */
  ghost predicate BindsFollow(rs: seq<Request>) {
    forall i :: 0 <= i < |rs| && rs[i].Bind? ==> exists a :: Queue(rs[i].binding.queue, a) in rs[..i]
  }

  /** Requests that agree with each other and with what exists are all granted. */
  lemma {:induction false} AgreeingRequestsAreGranted(d: Declarations, rs: seq<Request>)
    requires forall n, a :: Queue(n, a) in rs && n in d.queues ==> d.queues[n] == a
    requires forall n, a, a' :: Queue(n, a) in rs && Queue(n, a') in rs ==> a == a'
    requires BindsFollow(rs) && (forall x: Exchange :: x in d.exchanges) && forall x, t :: Declare(x, t) !in rs
    ensures AnswerAll(d, rs).Some?
  {
    if rs != [] {
      var init, r := rs[..|rs| - 1], rs[|rs| - 1];
      assert forall i :: 0 <= i < |init| ==> init[i] == rs[i] && init[..i] == rs[..i];
      AgreeingRequestsAreGranted(d, init);
      AnsweredAll(d, init);
      assert r in rs;
      if r.Bind? {
        var a :| Queue(r.binding.queue, a) in init;
      }
    }
  }

  lemma {:induction false} TierRequestsAre(k: Kind, tiers: seq<Seconds>)
    ensures forall n, a :: Queue(n, a) in TierRequests(k, tiers) <==>
              n.Tier? && n.base == Main(k) && n.tier in tiers && a == TierArgs(k, n.tier)
    ensures forall b :: Bind(b) in TierRequests(k, tiers) <==>
              && b.queue.Tier? && b.queue.base == Main(k) && b.queue.tier in tiers
              && b == Binding(Topic, To(b.queue), b.queue)
  {
    if tiers != [] {
      TierRequestsAre(k, tiers[..|tiers| - 1]);
      assert tiers == tiers[..|tiers| - 1] + [tiers[|tiers| - 1]];
    }
  }

  lemma InKindRequests(k: Kind, r: Request)
    ensures r in KindRequests(k) <==>
            || r == Queue(Plain(Dlq(k)), QueueArgs(None, None))
            || r == Bind(Binding(DeadLetter, To(Plain(Dlq(k))), Plain(Dlq(k))))
            || r == Queue(Plain(Main(k)), QueueArgs(Some((DeadLetter, To(Plain(Dlq(k))))), None))
            || r in TierRequests(k, RETRY_TIERS)
            || r == Queue(Long(Main(k)), QueueArgs(Some((Topic, Work(k))), None))
            || r == Bind(Binding(Topic, To(Long(Main(k))), Long(Main(k))))
            || r == Bind(Binding(Topic, Work(k), Plain(Main(k))))
  {
  }

  lemma KindAsksForQueue(k: Kind, n: Name, a: QueueArgs)
    ensures Queue(n, a) in KindRequests(k) <==> n.base.kind == k && Declared(n) == Some(a)
  {
    InKindRequests(k, Queue(n, a));
    TierRequestsAre(k, RETRY_TIERS);
    if n.Tier? { EveryTier(n.tier); }
  }

  lemma KindAsksForBinding(k: Kind, b: Binding)
    ensures Bind(b) in KindRequests(k) <==> b.queue.base.kind == k && Bound(b)
  {
    InKindRequests(k, Bind(b));
    TierRequestsAre(k, RETRY_TIERS);
    if b.queue.Tier? { EveryTier(b.queue.tier); }
  }

  lemma KindRequestsAre(k: Kind)
    ensures forall n, a :: Queue(n, a) in KindRequests(k) <==> n.base.kind == k && Declared(n) == Some(a)
    ensures forall b :: Bind(b) in KindRequests(k) <==> b.queue.base.kind == k && Bound(b)
  {
    forall n, a ensures Queue(n, a) in KindRequests(k) <==> n.base.kind == k && Declared(n) == Some(a) {
      KindAsksForQueue(k, n, a);
    }
    forall b ensures Bind(b) in KindRequests(k) <==> b.queue.base.kind == k && Bound(b) {
      KindAsksForBinding(k, b);
    }
  }

  lemma EveryTier(t: Seconds)
    ensures t in RETRY_TIERS
  {
    assert RETRY_TIERS[0] == S1 && RETRY_TIERS[1] == S5 && RETRY_TIERS[2] == S25;
    match t case S1 => case S5 => case S25 =>
  }

  lemma {:induction false} AllRequestsAre(kinds: seq<Kind>)
    ensures forall n, a :: Queue(n, a) in AllRequests(kinds) <==> n.base.kind in kinds && Declared(n) == Some(a)
    ensures forall b :: Bind(b) in AllRequests(kinds) <==> b.queue.base.kind in kinds && Bound(b)
  {
    hide KindRequests, Declared, Bound;
    if kinds != [] {
      AllRequestsAre(kinds[..|kinds| - 1]);
      KindRequestsAre(kinds[|kinds| - 1]);
      assert kinds == kinds[..|kinds| - 1] + [kinds[|kinds| - 1]];
    }
  }

  lemma EveryKind(k: Kind)
    ensures k in KINDS
  {
    assert KINDS[0] == Incoming && KINDS[1] == Webhook && KINDS[2] == Outgoing;
    match k case Incoming => case Webhook => case Outgoing =>
  }

  lemma SetupAsks()
    ensures forall n, a :: Queue(n, a) in AllRequests(KINDS) <==> Declared(n) == Some(a)
    ensures forall b :: Bind(b) in AllRequests(KINDS) <==> Bound(b)
    ensures forall r: Request ::
              r in SetupRequests() <==> r in AllRequests(KINDS) || (r.Declare? && r.kind == TypeOf(r.exchange))
  {
    hide AllRequests, Declared, Bound, TypeOf;
    AllRequestsAre(KINDS);
    forall k: Kind ensures k in KINDS { EveryKind(k); }
    ExchangesAsk();
  }

  lemma ExchangesAsk()
    ensures forall r: Request :: r in EXCHANGES <==> r.Declare? && r.kind == TypeOf(r.exchange)
  {
    assert EXCHANGES[0] == Declare(Topic, TopicType) && EXCHANGES[1] == Declare(DeadLetter, DirectType);
    forall r: Request | r.Declare? && r.kind == TypeOf(r.exchange) ensures r in EXCHANGES {
      match r.exchange case Topic => case DeadLetter =>
    }
  }

  lemma {:induction false} NoExchangesAsked(kinds: seq<Kind>)
    ensures forall x, t :: Declare(x, t) !in AllRequests(kinds)
  {
    if kinds != [] {
      NoExchangesAsked(kinds[..|kinds| - 1]);
      forall x, t ensures Declare(x, t) !in KindRequests(kinds[|kinds| - 1]) {
        InKindRequests(kinds[|kinds| - 1], Declare(x, t));
        NoExchangesInTiers(kinds[|kinds| - 1], RETRY_TIERS);
      }
    }
  }

  lemma {:induction false} NoExchangesInTiers(k: Kind, tiers: seq<Seconds>)
    ensures forall x, t :: Declare(x, t) !in TierRequests(k, tiers)
  {
    if tiers != [] { NoExchangesInTiers(k, tiers[..|tiers| - 1]); }
  }

  lemma {:induction false} AnswersOfConcat(d: Declarations, rs: seq<Request>, ss: seq<Request>)
    requires AnswerAll(d, rs).Some?
    ensures AnswerAll(d, rs + ss) == AnswerAll(AnswerAll(d, rs).value, ss)
  {
    if ss == [] {
      assert rs + ss == rs;
    } else {
      AnswersOfConcat(d, rs, ss[..|ss| - 1]);
      assert (rs + ss)[..|rs + ss| - 1] == rs + ss[..|ss| - 1];
    }
  }

  lemma ExchangesAreGranted(d: Declarations)
    requires forall x :: x in d.exchanges ==> d.exchanges[x] == TypeOf(x)
    ensures var e := AnswerAll(d, EXCHANGES);
      e.Some? && e.value.queues == d.queues && forall x: Exchange :: x in e.value.exchanges
  {
    var first, second := Declare(Topic, TopicType), Declare(DeadLetter, DirectType);
    assert EXCHANGES[..1] == [first] && EXCHANGES[1] == second && [first][..0] == [];
    assert AnswerAll(d, []) == Some(d);
    assert AnswerAll(d, [first]) == Answer(d, first);
    assert AnswerAll(d, EXCHANGES) == Answer(Answer(d, first).value, second);
    var e := AnswerAll(d, EXCHANGES).value;
    forall x: Exchange ensures x in e.exchanges { match x case Topic => case DeadLetter => }
  }

  /** What a successful setup leaves behind: the whole topology with its arguments and bindings,
      and nothing else new. In particular a second setup, after a reconnect, changes nothing. */
  lemma SetupLeavesTopology(d: Declarations, e: Declarations)
    requires AnswerAll(d, SetupRequests()) == Some(e)
    ensures forall x :: x in e.exchanges && e.exchanges[x] == TypeOf(x)
    ensures forall x :: x in d.exchanges ==> d.exchanges[x] == TypeOf(x)
    ensures forall n :: n in d.queues ==> n in e.queues && e.queues[n] == d.queues[n]
    ensures forall n :: n in e.queues && n !in d.queues ==> Declared(n) == Some(e.queues[n])
    ensures forall n :: Declared(n).Some? ==> n in e.queues && Declared(n) == Some(e.queues[n])
    ensures forall b :: b in e.bindings <==> b in d.bindings || Bound(b)
  {
    hide AnswerAll, SetupRequests, AllRequests, Declared, Bound, TypeOf;
    AnsweredAll(d, SetupRequests());
    SetupAsks();
    forall x: Exchange ensures x in e.exchanges && e.exchanges[x] == TypeOf(x) {
      assert Declare(x, TypeOf(x)) in SetupRequests();
    }
    forall n | Declared(n).Some? ensures n in e.queues && Declared(n) == Some(e.queues[n]) {
      assert Queue(n, Declared(n).value) in SetupRequests();
    }
  }

  /** The arguments of every queue and the bindings, spelled out. */
  ghost predicate HasQueues(e: Declarations, k: Kind) {
    && (forall b: Base :: b.kind == k ==> Plain(b) in e.queues)
    && Long(Main(k)) in e.queues
    && (forall t: Seconds :: Tier(Main(k), t) in e.queues && Lasts(e.queues[Tier(Main(k), t)], t))
    && e.queues[Plain(Dlq(k))] == QueueArgs(None, None)
    && e.queues[Plain(Main(k))] == QueueArgs(Some((DeadLetter, To(Plain(Dlq(k))))), None)
    && e.queues[Tier(Main(k), S1)] == QueueArgs(Some((Topic, Work(k))), Some(1000))
    && e.queues[Tier(Main(k), S5)] == QueueArgs(Some((Topic, Work(k))), Some(5000))
    && e.queues[Tier(Main(k), S25)] == QueueArgs(Some((Topic, Work(k))), Some(25000))
    && e.queues[Long(Main(k))] == QueueArgs(Some((Topic, Work(k))), None)
  }

  /** The queue's TTL is the tier's duration. */
  predicate Lasts(a: QueueArgs, t: Seconds) { a.ttlMs.Some? && a.ttlMs.value * MILLISECOND == Nanos(t) }

  ghost predicate HasBindings(e: Declarations, k: Kind) {
    && Binding(Topic, Work(k), Plain(Main(k))) in e.bindings
    && Binding(DeadLetter, To(Plain(Dlq(k))), Plain(Dlq(k))) in e.bindings
    && (forall t: Seconds :: Binding(Topic, To(Tier(Main(k), t)), Tier(Main(k), t)) in e.bindings)
    && Binding(Topic, To(Long(Main(k))), Long(Main(k))) in e.bindings
  }

  predicate IsBinding(b: Binding) {
    match b.exchange
    case Topic =>
      && b.queue.base.Main?
      && (if b.queue.Plain? then b.key == Work(b.queue.base.kind) else b.key == To(b.queue))
    case DeadLetter => b.queue.base.Dlq? && b.queue.Plain? && b.key == To(b.queue)
  }

  /** What a setup leaves, spelled out: these queues with these arguments and these bindings. Each tier's TTL
      is its duration in milliseconds. */
  lemma TopologyIs(d: Declarations, e: Declarations)
    requires AnswerAll(d, SetupRequests()) == Some(e)
    ensures forall k :: HasQueues(e, k) && HasBindings(e, k)
    ensures forall b :: b in e.bindings && b !in d.bindings ==> IsBinding(b)
    ensures forall n :: n in e.queues && n !in d.queues ==> n.Plain? || n.base.Main?
  {
    SetupLeavesTopology(d, e);
    forall k ensures HasQueues(e, k) && HasBindings(e, k) {
      QueuesAreThere(d, e, k);
      BindingsAreThere(d, e, k);
    }
  }

  lemma DeclaredIs(k: Kind)
    ensures Declared(Plain(Dlq(k))) == Some(QueueArgs(None, None))
    ensures Declared(Plain(Main(k))) == Some(QueueArgs(Some((DeadLetter, To(Plain(Dlq(k))))), None))
    ensures Declared(Tier(Main(k), S1)) == Some(QueueArgs(Some((Topic, Work(k))), Some(1000)))
    ensures Declared(Tier(Main(k), S5)) == Some(QueueArgs(Some((Topic, Work(k))), Some(5000)))
    ensures Declared(Tier(Main(k), S25)) == Some(QueueArgs(Some((Topic, Work(k))), Some(25000)))
    ensures Declared(Long(Main(k))) == Some(QueueArgs(Some((Topic, Work(k))), None))
  {
  }

  lemma QueuesAreThere(d: Declarations, e: Declarations, k: Kind)
    requires AnswerAll(d, SetupRequests()) == Some(e)
    ensures HasQueues(e, k)
  {
    hide AnswerAll, SetupRequests, Declared, Bound, AllRequests;
    SetupLeavesTopology(d, e);
    DeclaredIs(k);
    forall b: Base | b.kind == k ensures Plain(b) in e.queues { match b case Main(_) => case Dlq(_) => }
    forall t: Seconds ensures Tier(Main(k), t) in e.queues && Lasts(e.queues[Tier(Main(k), t)], t) {
      match t case S1 => case S5 => case S25 =>
    }
  }

  lemma BindingsAreThere(d: Declarations, e: Declarations, k: Kind)
    requires AnswerAll(d, SetupRequests()) == Some(e)
    ensures HasBindings(e, k)
  {
    SetupLeavesTopology(d, e);
    hide AnswerAll;
    assert Bound(Binding(Topic, Work(k), Plain(Main(k))));
    assert Bound(Binding(DeadLetter, To(Plain(Dlq(k))), Plain(Dlq(k))));
    forall t: Seconds ensures Binding(Topic, To(Tier(Main(k), t)), Tier(Main(k), t)) in e.bindings {
      assert Bound(Binding(Topic, To(Tier(Main(k), t)), Tier(Main(k), t)));
    }
    assert Bound(Binding(Topic, To(Long(Main(k))), Long(Main(k))));
  }

  /** No exchange exists with another type, and no queue of the topology with other arguments. */
  ghost predicate Agrees(d: Declarations) {
    && (forall x :: x in d.exchanges ==> d.exchanges[x] == TypeOf(x))
    && forall n :: n in d.queues && Declared(n).Some? ==> Declared(n) == Some(d.queues[n])
  }

  /** Setup is refused exactly when an exchange exists with another type, or a queue of the topology
      with other arguments. */
  lemma SetupSucceedsIff(d: Declarations)
    ensures AnswerAll(d, SetupRequests()).Some? <==> Agrees(d)
  {
    if AnswerAll(d, SetupRequests()).Some? {
      SetupLeavesTopology(d, AnswerAll(d, SetupRequests()).value);
    }
    if Agrees(d) { AgreeingSetupSucceeds(d); }
  }

  lemma AgreeingSetupSucceeds(d: Declarations)
    requires Agrees(d)
    ensures AnswerAll(d, SetupRequests()).Some?
  {
    ExchangesAreGranted(d);
    var e, rs := AnswerAll(d, EXCHANGES).value, AllRequests(KINDS);
    hide AnswerAll, AllRequests, EXCHANGES;
    SetupAsks();
    BindsFollowQueues(KINDS);
    NoExchangesAsked(KINDS);
    AgreeingRequestsAreGranted(e, rs);
    AnswersOfConcat(d, EXCHANGES, rs);
  }

  /** The broker, as setupTopology changes it. */
  class Broker {
    var declarations: Declarations

    constructor ()
      ensures declarations == Declarations(map[], map[], {})
    {
      declarations := Declarations(map[], map[], {});
    }

    method Send(r: Request) returns (ok: bool)
      modifies this
      ensures ok <==> Answer(old(declarations), r).Some?
      ensures declarations == if ok then Answer(old(declarations), r).value else old(declarations)
    {
      var answer := Answer(declarations, r);
      ok := answer.Some?;
      if ok { declarations := answer.value; }
    }

    /** Some prefix of the requests has been granted, starting from `before`. */
    ghost predicate Granted(before: Declarations, rs: seq<Request>)
      reads this
    {
      AnswerAll(before, rs) == Some(declarations)
    }

    /** Some of the requests have been granted, in order, and the next one was refused. */
    ghost predicate Stopped(before: Declarations, rs: seq<Request>)
      reads this
    {
      exists n :: 0 <= n < |rs| && Granted(before, rs[..n]) && AnswerAll(before, rs[..n + 1]).None?
    }

    lemma StillStopped(before: Declarations, rs: seq<Request>, all: seq<Request>)
      requires Stopped(before, rs) && rs <= all
      ensures Stopped(before, all) && AnswerAll(before, all).None?
    {
      var n :| 0 <= n < |rs| && Granted(before, rs[..n]) && AnswerAll(before, rs[..n + 1]).None?;
      assert all[..n] == rs[..n] && all[..n + 1] == rs[..n + 1];
      RefusedPrefix(before, all[..n + 1], all);
    }

    method SendAfter(r: Request, ghost before: Declarations, ghost sent: seq<Request>) returns (ok: bool)
      requires Granted(before, sent)
      modifies this
      ensures ok <==> AnswerAll(before, sent + [r]).Some?
      ensures if ok then Granted(before, sent + [r]) else Stopped(before, sent + [r])
    {
      assert (sent + [r])[..|sent| + 1] == sent + [r];
      assert (sent + [r])[..|sent|] == sent;
      ok := Send(r);
    }

    method DeclareRetry(n: Name, args: QueueArgs, ghost before: Declarations, ghost sent: seq<Request>)
        returns (ok: bool)
      requires Granted(before, sent)
      modifies this
      ensures ok <==> AnswerAll(before, sent + RetryRequests(n, args)).Some?
      ensures var rs := sent + RetryRequests(n, args); if ok then Granted(before, rs) else Stopped(before, rs)
    {
      assert sent + RetryRequests(n, args) == sent + [Queue(n, args)] + [Bind(Binding(Topic, To(n), n))];
      ok := SendAfter(Queue(n, args), before, sent);
      if !ok {
        StillStopped(before, sent + [Queue(n, args)], sent + RetryRequests(n, args));
        return;
      }
      ok := SendAfter(Bind(Binding(Topic, To(n), n)), before, sent + [Queue(n, args)]);
    }

    method DeclareTiers(k: Kind, ghost before: Declarations, ghost sent: seq<Request>) returns (ok: bool)
      requires Granted(before, sent)
      modifies this
      ensures ok <==> AnswerAll(before, sent + TierRequests(k, RETRY_TIERS)).Some?
      ensures var rs := sent + TierRequests(k, RETRY_TIERS); if ok then Granted(before, rs) else Stopped(before, rs)
    {
      ok := true;
      assert sent + [] == sent;
      var i := 0;
      while i < |RETRY_TIERS|
        invariant 0 <= i <= |RETRY_TIERS| && ok
        invariant Granted(before, sent + TierRequests(k, RETRY_TIERS[..i]))
      {
        var t := RETRY_TIERS[i];
        ghost var now := TierRequests(k, RETRY_TIERS[..i]);
        assert RETRY_TIERS[..i + 1][..i] == RETRY_TIERS[..i];
        assert TierRequests(k, RETRY_TIERS[..i + 1]) == now + RetryRequests(Tier(Main(k), t), TierArgs(k, t));
        assert sent + TierRequests(k, RETRY_TIERS[..i + 1]) ==
            sent + now + RetryRequests(Tier(Main(k), t), TierArgs(k, t));
        ok := DeclareRetry(Tier(Main(k), t), TierArgs(k, t), before, sent + now);
        if !ok {
          TierPrefix(k, RETRY_TIERS, i + 1);
          StillStopped(before, sent + TierRequests(k, RETRY_TIERS[..i + 1]), sent + TierRequests(k, RETRY_TIERS));
          return;
        }
        i := i + 1;
      }
      assert RETRY_TIERS[..i] == RETRY_TIERS;
    }

    method DeclareKind(k: Kind, ghost before: Declarations, ghost sent: seq<Request>) returns (ok: bool)
      requires Granted(before, sent)
      modifies this
      ensures ok <==> AnswerAll(before, sent + KindRequests(k)).Some?
      ensures if ok then Granted(before, sent + KindRequests(k)) else Stopped(before, sent + KindRequests(k))
    {
      hide AnswerAll, TierRequests, RetryRequests, TierArgs, Stopped;
      var dlq, main, long := Plain(Dlq(k)), Plain(Main(k)), Long(Main(k));
      var longArgs := QueueArgs(Some((Topic, Work(k))), None);
      ghost var s1 := sent + [Queue(dlq, QueueArgs(None, None))];
      ghost var s2 := s1 + [Bind(Binding(DeadLetter, To(dlq), dlq))];
      ghost var s3 := s2 + [Queue(main, QueueArgs(Some((DeadLetter, To(dlq))), None))];
      ghost var s4 := s3 + TierRequests(k, RETRY_TIERS);
      ghost var s5 := s4 + RetryRequests(long, longArgs);
      ghost var s6 := s5 + [Bind(Binding(Topic, Work(k), main))];
      assert sent + KindRequests(k) == s6;
      ok := SendAfter(Queue(dlq, QueueArgs(None, None)), before, sent);
      if !ok { StillStopped(before, s1, s6); return; }
      ok := SendAfter(Bind(Binding(DeadLetter, To(dlq), dlq)), before, s1);
      if !ok { StillStopped(before, s2, s6); return; }
      ok := SendAfter(Queue(main, QueueArgs(Some((DeadLetter, To(dlq))), None)), before, s2);
      if !ok { StillStopped(before, s3, s6); return; }
      ok := DeclareTiers(k, before, s3);
      if !ok { StillStopped(before, s4, s6); return; }
      ok := DeclareRetry(long, longArgs, before, s4);
      if !ok { StillStopped(before, s5, s6); return; }
      ok := SendAfter(Bind(Binding(Topic, Work(k), main)), before, s5);
    }

    /** Stops at the first refused request, leaving what was granted before; succeeds exactly when
        none is refused. */
    method SetupTopology() returns (ok: bool)
      modifies this
      ensures ok <==> AnswerAll(old(declarations), SetupRequests()).Some?
      ensures ok ==> Some(declarations) == AnswerAll(old(declarations), SetupRequests())
      ensures !ok ==> Stopped(old(declarations), SetupRequests())
    {
      hide KindRequests, Answer;
      ghost var before := declarations;
      ok := DeclareExchanges();
      if !ok {
        StillStopped(before, EXCHANGES, SetupRequests());
        return;
      }
      assert EXCHANGES + AllRequests(KINDS[..0]) == EXCHANGES;
      var i := 0;
      while i < |KINDS|
        invariant 0 <= i <= |KINDS| && ok
        invariant Granted(before, EXCHANGES + AllRequests(KINDS[..i]))
      {
        ghost var sent := EXCHANGES + AllRequests(KINDS[..i]);
        OneMoreKind(KINDS, i);
        ok := DeclareKind(KINDS[i], before, sent);
        if !ok {
          AllPrefix(KINDS, i + 1);
          StillStopped(before, EXCHANGES + AllRequests(KINDS[..i + 1]), SetupRequests());
          return;
        }
        i := i + 1;
      }
      assert KINDS[..i] == KINDS;
    }

    method DeclareExchanges() returns (ok: bool)
      modifies this
      ensures ok <==> AnswerAll(old(declarations), EXCHANGES).Some?
      ensures if ok then Granted(old(declarations), EXCHANGES) else Stopped(old(declarations), EXCHANGES)
    {
      ghost var before := declarations;
      assert EXCHANGES == [] + [Declare(Topic, TopicType)] + [Declare(DeadLetter, DirectType)];
      ok := SendAfter(Declare(Topic, TopicType), before, []);
      if !ok {
        StillStopped(before, [] + [Declare(Topic, TopicType)], EXCHANGES);
        return;
      }
      ok := SendAfter(Declare(DeadLetter, DirectType), before, [] + [Declare(Topic, TopicType)]);
    }
  }

  lemma {:induction false} RefusedStays(d: Declarations, rs: seq<Request>, more: seq<Request>)
    requires AnswerAll(d, rs) == None
    ensures AnswerAll(d, rs + more) == None
  {
    if more == [] {
      assert rs + more == rs;
    } else {
      RefusedStays(d, rs, more[..|more| - 1]);
      assert (rs + more)[..|rs + more| - 1] == rs + more[..|more| - 1];
    }
  }

  lemma RefusedPrefix(d: Declarations, rs: seq<Request>, all: seq<Request>)
    requires AnswerAll(d, rs) == None && rs <= all
    ensures AnswerAll(d, all) == None
  {
    RefusedStays(d, rs, all[|rs|..]);
    assert rs + all[|rs|..] == all;
  }

  lemma {:induction false} TierPrefix(k: Kind, tiers: seq<Seconds>, i: nat)
    requires i <= |tiers|
    ensures TierRequests(k, tiers[..i]) <= TierRequests(k, tiers)
  {
    if i == |tiers| {
      assert tiers[..i] == tiers;
    } else {
      TierPrefix(k, tiers[..|tiers| - 1], i);
      assert tiers[..|tiers| - 1][..i] == tiers[..i];
    }
  }

  lemma OneMoreKind(kinds: seq<Kind>, i: nat)
    requires i < |kinds|
    ensures EXCHANGES + AllRequests(kinds[..i + 1]) == EXCHANGES + AllRequests(kinds[..i]) + KindRequests(kinds[i])
  {
    hide KindRequests;
    assert kinds[..i + 1][..i] == kinds[..i];
  }

  lemma {:induction false} AllPrefix(kinds: seq<Kind>, i: nat)
    requires i <= |kinds|
    ensures AllRequests(kinds[..i]) <= AllRequests(kinds)
  {
    if i == |kinds| {
      assert kinds[..i] == kinds;
    } else {
      AllPrefix(kinds[..|kinds| - 1], i);
      assert kinds[..|kinds| - 1][..i] == kinds[..i];
    }
  }

  lemma BindsFollowConcat(rs: seq<Request>, ss: seq<Request>)
    requires BindsFollow(rs)
    requires forall i :: 0 <= i < |ss| && ss[i].Bind? ==>
               exists a :: Queue(ss[i].binding.queue, a) in rs || Queue(ss[i].binding.queue, a) in ss[..i]
    ensures BindsFollow(rs + ss)
  {
    var all := rs + ss;
    forall i | 0 <= i < |all| && all[i].Bind? ensures exists a :: Queue(all[i].binding.queue, a) in all[..i] {
      if i < |rs| {
        assert all[..i] == rs[..i];
      } else {
        var a :| Queue(ss[i - |rs|].binding.queue, a) in rs || Queue(ss[i - |rs|].binding.queue, a) in ss[..i - |rs|];
        assert all[..i] == rs + ss[..i - |rs|];
      }
    }
  }

  lemma {:induction false} TierBindsFollow(k: Kind, tiers: seq<Seconds>)
    ensures BindsFollow(TierRequests(k, tiers))
  {
    if tiers != [] {
      TierBindsFollow(k, tiers[..|tiers| - 1]);
      var t := tiers[|tiers| - 1];
      RetryBindsFollow(TierRequests(k, tiers[..|tiers| - 1]), Tier(Main(k), t), TierArgs(k, t));
    }
  }

  lemma RetryBindsFollow(rs: seq<Request>, n: Name, args: QueueArgs)
    requires BindsFollow(rs)
    ensures BindsFollow(rs + RetryRequests(n, args))
  {
    assert RetryRequests(n, args)[..1] == [Queue(n, args)];
    BindsFollowConcat(rs, RetryRequests(n, args));
  }

  lemma {:induction false} BindsFollowQueues(kinds: seq<Kind>)
    ensures BindsFollow(AllRequests(kinds))
  {
    if kinds != [] {
      var k := kinds[|kinds| - 1];
      BindsFollowQueues(kinds[..|kinds| - 1]);
      KindBindsFollow(k);
      assert forall i :: 0 <= i < |KindRequests(k)| && KindRequests(k)[i].Bind? ==>
          exists a :: Queue(KindRequests(k)[i].binding.queue, a) in KindRequests(k)[..i];
      BindsFollowConcat(AllRequests(kinds[..|kinds| - 1]), KindRequests(k));
    }
  }

  lemma KindBindsFollow(k: Kind)
    ensures BindsFollow(KindRequests(k))
  {
    var dlq, main := Plain(Dlq(k)), Plain(Main(k));
    var plain := [Queue(dlq, QueueArgs(None, None)), Bind(Binding(DeadLetter, To(dlq), dlq)),
                  Queue(main, QueueArgs(Some((DeadLetter, To(dlq))), None))];
    assert plain[..1][0] == Queue(dlq, QueueArgs(None, None));
    var tiers := TierRequests(k, RETRY_TIERS);
    TierBindsFollow(k, RETRY_TIERS);
    BindsFollowConcat(plain, tiers);
    RetryBindsFollow(plain + tiers, Long(Main(k)), QueueArgs(Some((Topic, Work(k))), None));
    assert plain[2] == Queue(main, QueueArgs(Some((DeadLetter, To(dlq))), None));
    BindsFollowConcat(plain + tiers + RetryRequests(Long(Main(k)), QueueArgs(Some((Topic, Work(k))), None)),
                      [Bind(Binding(Topic, Work(k), main))]);
  }
}
