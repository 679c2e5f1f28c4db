/**
 One delivery as a worker handles it (pkg/queue/worker_pool.go), and the dead-letter history
 that the broker keeps in the headers and dlqSourceQueue reads back
 (internal/queue/handlers/dlq_handler.go).
 */
module Worker {
  import opened Common
  import opened Topology

  datatype Reason = Rejected | Expired | OtherReason

  /** An entry of the x-death array; fields that are absent or of another type are None. */
  datatype Death = NotATable | Table(queue: Option<Name>, reason: Option<Reason>)

  datatype HeaderValue =
    | HInt(value: int)
    | HInt32(value: int)
    | HInt64(value: int)
    | HText(text: string)
    | HDeaths(deaths: seq<Death>)
    | HOther

  type Headers = map<string, HeaderValue>

  const RETRY_COUNT_KEY := "x-retry-count"
  const DEATH_KEY := "x-death"

  /** `body` stands for the message contents; `expirationMs` is the per-message expiration. */
  datatype Message = Message(body: nat, headers: Headers, expirationMs: Option<int>)

  /** How a handler call ends. A rate-limit error carries the delay to wait. */
  datatype Outcome = Done | Failed(retryAfter: Option<int>) | Panicked

  /** What a worker asks of the broker. `confirmed` says whether publishRetry returned nil. */
  datatype Action =
    | Publish(key: Key, message: Message, confirmed: bool)
    | Ack
    | Nack(requeue: bool)

  function RetryCount(h: Headers): int {
    if RETRY_COUNT_KEY in h && (h[RETRY_COUNT_KEY].HInt? || h[RETRY_COUNT_KEY].HInt32? || h[RETRY_COUNT_KEY].HInt64?)
    then h[RETRY_COUNT_KEY].value
    else 0
  }

  function Backoff(retry: int): int {
    match retry
    case 0 => 1 * SECOND
    case 1 => 5 * SECOND
    case 2 => 25 * SECOND
    case _ => 25 * SECOND
  }

  function Delay(h: Headers, o: Outcome): int
    requires o.Failed?
  {
    if o.retryAfter.Some? then o.retryAfter.value else Backoff(RetryCount(h))
  }

  /** The message publishRetry sends. */
  function RetryMessage(queue: Base, m: Message, delay: int): Message {
    Message(m.body,
            m.headers[RETRY_COUNT_KEY := HInt(RetryCount(m.headers) + 1)],
            Expiration(RetryRoute(queue, delay).1, delay))
  }

  /** The broker requests one delivery leads to, in order. */
  function Actions(queue: Base, max: int, m: Message, o: Outcome, confirmed: bool): seq<Action> {
    match o
    case Done => [Ack]
    case Panicked => [Nack(false)]
    case Failed(_) =>
      if RetryCount(m.headers) >= max then [Nack(false)]
      else
        var delay := Delay(m.headers, o);
        [Publish(To(RetryRoute(queue, delay).0), RetryMessage(queue, m, delay), confirmed),
         if confirmed then Ack else Nack(true)]
  }

  // ---- the answers, spelled out ----

  /** The count a message carries, whichever of the three integer types it has. */
  ghost predicate Carries(h: Headers, count: int) {
    if "x-retry-count" !in h then count == 0
    else match h["x-retry-count"]
      case HInt(v) => count == v
      case HInt32(v) => count == v
      case HInt64(v) => count == v
      case _ => count == 0
  }

  /** Where a failed message goes, and with what expiration. A rate-limit error names its delay: the
      smallest of one, five and twenty-five seconds that covers it, or the long queue with the delay in
      milliseconds. Any other error takes the tiers in turn. */
  ghost predicate GoesTo(queue: Base, count: int, retryAfter: Option<int>, name: Name, expirationMs: Option<int>) {
    match retryAfter
    case Some(d) =>
      if d <= 1_000_000_000 then name == Tier(queue, S1) && expirationMs == None
      else if d <= 5_000_000_000 then name == Tier(queue, S5) && expirationMs == None
      else if d <= 25_000_000_000 then name == Tier(queue, S25) && expirationMs == None
      else name == Long(queue) && expirationMs == Some(d / 1_000_000)
    case None =>
      && name == Tier(queue, if count == 0 then S1 else if count == 1 then S5 else S25)
      && expirationMs == None
  }

  /** What a worker answers the broker for one delivery. */
  ghost predicate Answers(queue: Base, max: int, m: Message, o: Outcome, confirmed: bool, asked: seq<Action>) {
    forall count :: Carries(m.headers, count) ==>
      match o
      case Done => asked == [Ack]
      case Panicked => asked == [Nack(false)]
      case Failed(retryAfter) =>
        if count >= max then asked == [Nack(false)]
        else
          && |asked| == 2 && asked[0].Publish? && asked[0].key.To? && asked[0].confirmed == confirmed
          && GoesTo(queue, count, retryAfter, asked[0].key.name, asked[0].message.expirationMs)
          && asked[0].message.body == m.body
          && asked[0].message.headers == m.headers["x-retry-count" := HInt(count + 1)]
          && asked[1] == if confirmed then Ack else Nack(true)
  }

  lemma RetryCountIsCarried(h: Headers)
    ensures Carries(h, RetryCount(h)) && forall count :: Carries(h, count) ==> count == RetryCount(h)
  {
  }

  lemma ActionsAnswer(queue: Base, max: int, m: Message, o: Outcome, confirmed: bool)
    ensures Answers(queue, max, m, o, confirmed, Actions(queue, max, m, o, confirmed))
  {
    RetryCountIsCarried(m.headers);
    if o.Failed? && RetryCount(m.headers) < max { RouteUnfolds(queue, Delay(m.headers, o)); }
  }

  /** A worker group; `actions` records what its workers asked of the broker. */
  class WorkerGroup {
    const queue: Base
    const maxRetries: int
    var actions: seq<Action>

    constructor (queue: Base, maxRetries: int)
      ensures this.queue == queue && this.maxRetries == maxRetries && actions == []
    {
      this.queue, this.maxRetries, actions := queue, maxRetries, [];
    }

    method PublishRetry(body: nat, headers: Headers, delay: int, confirmed: bool) returns (ok: bool)
      modifies this`actions
      ensures ok == confirmed
      ensures var (name, perMessageTTL) := RetryRoute(queue, delay);
        var m := Message(body, headers, Expiration(perMessageTTL, delay));
        actions == old(actions) + [Publish(To(name), m, confirmed)]
    {
      var (name, perMessageTTL) := RetryRoute(queue, delay);
      var expiration := None;
      if perMessageTTL {
        expiration := Some(delay / MILLISECOND);
      }
      actions := actions + [Publish(To(name), Message(body, headers, expiration), confirmed)];
      ok := confirmed;
    }

    /** `o` is how the handler ends, `confirmed` whether a retry publish is confirmed. */
    method ProcessMessage(m: Message, o: Outcome, confirmed: bool)
      modifies this`actions
      ensures actions == old(actions) + Actions(queue, maxRetries, m, o, confirmed)
      ensures old(actions) <= actions && Answers(queue, maxRetries, m, o, confirmed, actions[|old(actions)|..])
    {
      ActionsAnswer(queue, maxRetries, m, o, confirmed);
      var retryCount := RetryCount(m.headers);
      var headers := m.headers;
      if o.Panicked? {
        actions := actions + [Nack(false)];
        return;
      }
      if o.Failed? {
        if retryCount >= maxRetries {
          actions := actions + [Nack(false)];
          return;
        }
        headers := headers[RETRY_COUNT_KEY := HInt(retryCount + 1)];
        var delay: int;
        if o.retryAfter.Some? {
          delay := o.retryAfter.value;
        } else {
          delay := Backoff(retryCount);
        }
        var ok := PublishRetry(m.body, headers, delay, confirmed);
        if !ok {
          actions := actions + [Nack(true)];
          return;
        }
        actions := actions + [Ack];
        return;
      }
      actions := actions + [Ack];
    }
  }

  // ---- dead-letter history ----

  function Deaths(h: Headers): seq<Death> {
    if DEATH_KEY in h && h[DEATH_KEY].HDeaths? then h[DEATH_KEY].deaths else []
  }

  function Without(ds: seq<Death>, d: Death): seq<Death> {
    if ds == [] then []
    else if ds[0] == d then Without(ds[1..], d)
    else [ds[0]] + Without(ds[1..], d)
  }

  /** The broker's bookkeeping when it dead-letters a message: the (queue, reason) entry moves to
      the front, and an expired message loses its per-message expiration. */
  function DeadLettered(m: Message, from: Name, reason: Reason): Message {
    var death := Table(Some(from), Some(reason));
    var ds := [death] + Without(Deaths(m.headers), death);
    m.(headers := m.headers[DEATH_KEY := HDeaths(ds)],
       expirationMs := if reason == Expired then None else m.expirationMs)
  }

  function FirstRejected(ds: seq<Death>): Option<Name> {
    if ds == [] then None
    else if ds[0].Table? && ds[0].reason == Some(Rejected) && ds[0].queue.Some? then ds[0].queue
    else FirstRejected(ds[1..])
  }

  /** dlqSourceQueue; None is the empty string of the source. */
  function SourceQueue(h: Headers): Option<Name> {
    var ds := Deaths(h);
    var rejected := FirstRejected(ds);
    if rejected.Some? then rejected
    else if ds != [] && ds[0].Table? then ds[0].queue
    else None
  }

  ghost predicate IsRejection(d: Death) { d.Table? && d.reason == Some(Rejected) && d.queue.Some? }

  /** The queue of the first rejection, or with none the queue of the first entry, if there is one. */
  ghost predicate NamesSource(ds: seq<Death>, source: Option<Name>) {
    || (exists i :: 0 <= i < |ds| && IsRejection(ds[i]) && source == ds[i].queue
          && forall j :: 0 <= j < i ==> !IsRejection(ds[j]))
    || ((forall i :: 0 <= i < |ds| ==> !IsRejection(ds[i]))
        && source == if |ds| > 0 && ds[0].Table? then ds[0].queue else None)
  }

  lemma {:induction false} FirstRejectedIsFirst(ds: seq<Death>)
    ensures FirstRejected(ds).None? ==> forall i :: 0 <= i < |ds| ==> !IsRejection(ds[i])
    ensures FirstRejected(ds).Some? ==>
              exists i :: 0 <= i < |ds| && IsRejection(ds[i]) && FirstRejected(ds) == ds[i].queue
                          && forall j :: 0 <= j < i ==> !IsRejection(ds[j])
  {
    if ds != [] && !IsRejection(ds[0]) {
      var rest := ds[1..];
      FirstRejectedIsFirst(rest);
      assert forall i :: 0 <= i < |rest| ==> rest[i] == ds[i + 1];
      if FirstRejected(rest).Some? {
        var i :| 0 <= i < |rest| && IsRejection(rest[i]) && FirstRejected(rest) == rest[i].queue
                 && forall j :: 0 <= j < i ==> !IsRejection(rest[j]);
        forall j | 0 <= j < i + 1 ensures !IsRejection(ds[j]) { if j > 0 { assert ds[j] == rest[j - 1]; } }
        assert IsRejection(ds[i + 1]);
      } else {
        forall i | 0 <= i < |ds| ensures !IsRejection(ds[i]) { if i > 0 { assert ds[i] == rest[i - 1]; } }
      }
    }
  }

  lemma SourceIsNamed(h: Headers)
    ensures NamesSource(Deaths(h), SourceQueue(h))
  {
    FirstRejectedIsFirst(Deaths(h));
  }

  /** dlqSourceQueue as written: a scan for the first rejected entry, then the fallback. */
  method DlqSourceQueue(h: Headers) returns (source: Option<Name>)
    ensures source == SourceQueue(h)
    ensures if "x-death" in h && h["x-death"].HDeaths? then NamesSource(h["x-death"].deaths, source) else source == None
  {
    SourceIsNamed(h);
    if !(DEATH_KEY in h && h[DEATH_KEY].HDeaths?) { return None; }
    var ds := h[DEATH_KEY].deaths;
    var i := 0;
    while i < |ds|
      invariant 0 <= i <= |ds|
      invariant FirstRejected(ds) == FirstRejected(ds[i..])
    {
      if ds[i].Table? && ds[i].reason == Some(Rejected) && ds[i].queue.Some? {
        return ds[i].queue;
      }
      assert ds[i..][1..] == ds[i + 1..];
      i := i + 1;
    }
    if |ds| > 0 && ds[0].Table? && ds[0].queue.Some? { return ds[0].queue; }
    return None;
  }

  /** Every rejection in the history happened in the queue `home`. */
  ghost predicate RejectedOnlyFrom(ds: seq<Death>, home: Name) {
    forall d :: d in ds && d.Table? && d.reason == Some(Rejected) && d.queue.Some? ==> d.queue == Some(home)
  }

  lemma {:induction false} WithoutKeepsOthers(ds: seq<Death>, d: Death)
    ensures forall e :: e in Without(ds, d) <==> e in ds && e != d
  {
    if ds != [] {
      WithoutKeepsOthers(ds[1..], d);
      assert ds == [ds[0]] + ds[1..];
    }
  }

  lemma {:induction false} FirstRejectedIs(ds: seq<Death>, home: Name)
    requires RejectedOnlyFrom(ds, home)
    ensures FirstRejected(ds) == if Table(Some(home), Some(Rejected)) in ds then Some(home) else None
  {
    if ds != [] {
      assert ds == [ds[0]] + ds[1..];
      FirstRejectedIs(ds[1..], home);
    }
  }

  /** Once a message was rejected from its main queue, and from nowhere else, dlqSourceQueue
      finds that queue however often the message expired in between. */
  lemma SourceIsHome(h: Headers, home: Name)
    requires RejectedOnlyFrom(Deaths(h), home) && Table(Some(home), Some(Rejected)) in Deaths(h)
    ensures SourceQueue(h) == Some(home)
  {
    FirstRejectedIs(Deaths(h), home);
  }

  lemma DeadLetterKeepsHome(m: Message, from: Name, reason: Reason, home: Name)
    requires RejectedOnlyFrom(Deaths(m.headers), home)
    requires reason == Rejected ==> from == home
    ensures var d := DeadLettered(m, from, reason);
      && RejectedOnlyFrom(Deaths(d.headers), home)
      && Table(Some(from), Some(reason)) in Deaths(d.headers)
      && RetryCount(d.headers) == RetryCount(m.headers)
  {
    WithoutKeepsOthers(Deaths(m.headers), Table(Some(from), Some(reason)));
  }
}
