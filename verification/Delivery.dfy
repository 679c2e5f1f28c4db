/**
 The queue handlers that act on the outside world (internal/queue/handlers) and what duplicate
 suppression gives them across retries and redeliveries.
 */
module Delivery {
  import opened Common
  import Topology
  import opened Worker
  import opened Dedup
  import opened EventFilter

  const OUTGOING := Topology.RenderBase(Topology.Main(Topology.Outgoing))
  const WEBHOOK := Topology.RenderBase(Topology.Main(Topology.Webhook))
  const INCOMING := Topology.RenderBase(Topology.Main(Topology.Incoming))

  const MESSAGE_INCOMING := "message.incoming"
  const MESSAGE_FAILED := "message.failed"

  lemma QueueNamesAreScopes()
    ensures IsScope(OUTGOING) && IsScope(WEBHOOK) && IsScope(INCOMING)
    ensures OUTGOING != WEBHOOK && OUTGOING != INCOMING && WEBHOOK != INCOMING
  {
    assert OUTGOING[9] == 'm' && WEBHOOK[9] == 'w' && INCOMING[9] == 'e';
  }

  /** The scopes are the names of the queues. */
  lemma ScopesOnTheWire()
    ensures OUTGOING == "whatsapp.messages.outgoing"
    ensures WEBHOOK == "whatsapp.webhooks.delivery"
    ensures INCOMING == "whatsapp.events.incoming"
  {
  }

  function WebhookDedupKey(messageId: string, url: string): string { messageId + "|" + url }

  /** One destination of one message: the key is not shared when message ids hold no '|'. */
  lemma WebhookKeysAreDistinct(m: string, u: string, m': string, u': string)
    requires '|' !in m && '|' !in m' && WebhookDedupKey(m, u) == WebhookDedupKey(m', u')
    ensures m == m' && u == u'
  {
    var k := WebhookDedupKey(m, u);
    assert k[|m|] == '|' && k[|m'|] == '|';
    assert |m| == |m'|;
    assert m == k[..|m|] && m' == k[..|m'|];
    assert u == k[|m| + 1..] && u' == k[|m'| + 1..];
  }

  // ---- the handlers ----

  datatype Pace = Clear | Paced(retryAfter: int) | PaceError

  /** Clock readings of the duplicate check and of the mark, two each. */
  datatype Times = Times(check: int, checked: int, mark: int, marked: int)

  predicate Sequential(t: Times) { t.check <= t.checked <= t.mark <= t.marked }

  datatype Subscription = Subscription(url: string, secret: string, events: string)

  datatype WebhookJob = WebhookJob(url: string, secret: string, messageId: string)

  /** The subscriptions whose filter lets the event through, in order. */
  function Matching(subs: seq<Subscription>, event: string): seq<Subscription> {
    if subs == [] then []
    else
      Matching(subs[..|subs| - 1], event)
      + if EventMatches(subs[|subs| - 1].events, event) then [subs[|subs| - 1]] else []
  }

  function Jobs(messageId: string, subs: seq<Subscription>): seq<WebhookJob> {
    seq(|subs|, i requires 0 <= i < |subs| => WebhookJob(subs[i].url, subs[i].secret, messageId))
  }

  function Urls(subs: seq<Subscription>): seq<string> {
    seq(|subs|, i requires 0 <= i < |subs| => subs[i].url)
  }

  /** The positions, in order, of the subscriptions whose filter lets the event through. */
  ghost predicate Picks(chosen: seq<nat>, subs: seq<Subscription>, event: string) {
    && (forall j, k :: 0 <= j < k < |chosen| ==> chosen[j] < chosen[k])
    && (forall k :: 0 <= k < |chosen| ==> chosen[k] < |subs|)
    && (forall i :: 0 <= i < |subs| ==> (i in chosen <==> EventMatches(subs[i].events, event)))
  }

  /** The positions of the matching subscriptions. */
  ghost predicate Chosen(chosen: seq<nat>, subs: seq<Subscription>, event: string) {
    && |chosen| == |Matching(subs, event)|
    && forall k :: 0 <= k < |chosen| ==> chosen[k] < |subs| && Matching(subs, event)[k] == subs[chosen[k]]
  }

  lemma {:induction false} MatchingPicks(subs: seq<Subscription>, event: string) returns (chosen: seq<nat>)
    ensures Picks(chosen, subs, event) && Chosen(chosen, subs, event) && |chosen| == |Matching(subs, event)|
  {
    hide Picks, EventMatches;
    if subs == [] {
      NothingPicked(event);
      chosen := [];
    } else {
      var n := |subs| - 1;
      chosen := MatchingPicks(subs[..n], event);
      PicksOneMore(chosen, subs, event);
      if EventMatches(subs[n].events, event) { chosen := chosen + [n]; }
    }
  }

  lemma NothingPicked(event: string)
    ensures Picks([], [], event)
  {
  }

  lemma PicksOneMore(chosen: seq<nat>, subs: seq<Subscription>, event: string)
    requires subs != [] && Picks(chosen, subs[..|subs| - 1], event)
    ensures var n := |subs| - 1;
      Picks(if EventMatches(subs[n].events, event) then chosen + [n] else chosen, subs, event)
    ensures forall k :: 0 <= k < |chosen| ==> chosen[k] < |subs| - 1
  {
    var n := |subs| - 1;
    assert forall i :: 0 <= i < n ==> subs[..n][i] == subs[i];
    assert forall k :: 0 <= k < |chosen| ==> chosen[k] < n;
    hide EventMatches;
  }

  /** `after` is `before` and a job for each of the first `count` of the chosen subscriptions. */
  ghost predicate Queues(before: seq<WebhookJob>, after: seq<WebhookJob>, messageId: string, subs: seq<Subscription>,
      chosen: seq<nat>, count: nat)
  {
    && before <= after && |after| == |before| + count && count <= |chosen|
    && forall k :: 0 <= k < count && chosen[k] < |subs| ==>
         var job, sub := after[|before| + k], subs[chosen[k]];
         job.url == sub.url && job.secret == sub.secret && job.messageId == messageId
  }

  /** The handlers share one cache, which is null when duplicate detection is off. */
  class Handlers {
    const dedup: DedupCache?
    /** What reached the outside: jobs sent, webhooks delivered, webhook jobs published. */
    var sent: seq<string>
    var delivered: seq<(string, string)>
    var published: seq<WebhookJob>

    ghost predicate Valid()
      reads this, dedup
    {
      dedup != null ==> dedup.Valid()
    }

    /** The cache holds a mark of (scope, id) that is less than the TTL old. */
    ghost predicate Suppresses(scope: string, id: string, now: int)
      reads this, dedup
    {
      && dedup != null && id != ""
      && exists m :: m in dedup.history && m.scope == scope && m.id == id && now - m.at < dedup.ttl
    }

    ghost predicate SeenBy(now: int)
      reads this, dedup
    {
      dedup != null ==> dedup.seen <= now
    }

    constructor (dedup: DedupCache?)
      requires dedup != null ==> dedup.Valid()
      ensures Valid() && this.dedup == dedup && sent == [] && delivered == [] && published == []
    {
      this.dedup, sent, delivered, published := dedup, [], [], [];
    }

    method IsDuplicate(scope: string, id: string, t: Times) returns (duplicate: bool)
      requires Valid() && IsScope(scope) && Sequential(t) && SeenBy(t.check)
      modifies dedup
      ensures Valid() && SeenBy(t.mark) && (dedup != null ==> dedup.history == old(dedup.history))
      ensures duplicate <==> old(Suppresses(scope, id, t.checked))
    {
      if dedup == null { return false; }
      duplicate := dedup.IsDuplicate(scope, id, t.check, t.checked);
    }

    method MarkProcessed(scope: string, id: string, t: Times)
      requires Valid() && IsScope(scope) && Sequential(t) && SeenBy(t.mark)
      modifies dedup
      ensures Valid() && SeenBy(t.marked)
      ensures dedup != null ==>
        dedup.history == old(dedup.history) + if id == "" then [] else [Mark(scope, id, t.marked)]
    {
      if dedup == null { return; }
      dedup.MarkProcessed(scope, id, t.mark, t.marked);
    }

    /** An outgoing job; `sendOk` stands for whatever the job's type sends. */
    method HandleOutgoing(jobId: string, parsed: bool, pace: Pace, sendOk: bool, t: Times) returns (o: Outcome)
      requires Valid() && Sequential(t) && SeenBy(t.check)
      modifies this`sent, dedup
      ensures Valid() && SeenBy(t.marked)
      ensures var tried := parsed && !old(Suppresses(OUTGOING, jobId, t.checked));
        && o == (if !parsed then Failed(None) else if !tried then Done
                 else match pace
                   case Paced(d) => Failed(Some(d))
                   case PaceError => Failed(None)
                   case Clear => if sendOk then Done else Failed(None))
        && sent == (if tried && pace.Clear? && sendOk then old(sent) + [jobId] else old(sent))
        && (dedup != null ==>
              dedup.history == old(dedup.history)
                + if tried && pace.Clear? && sendOk && jobId != "" then [Mark(OUTGOING, jobId, t.marked)] else [])
    {
      QueueNamesAreScopes();
      if !parsed { return Failed(None); }
      var duplicate := IsDuplicate(OUTGOING, jobId, t);
      if duplicate { return Done; }
      if pace.Paced? { return Failed(Some(pace.retryAfter)); }
      if pace.PaceError? { return Failed(None); }
      if !sendOk { return Failed(None); }
      sent := sent + [jobId];
      MarkProcessed(OUTGOING, jobId, t);
      return Done;
    }

    method HandleWebhook(messageId: string, url: string, parsed: bool, sendOk: bool, t: Times) returns (o: Outcome)
      requires Valid() && Sequential(t) && SeenBy(t.check)
      modifies this`delivered, dedup
      ensures Valid() && SeenBy(t.marked)
      ensures var key := WebhookDedupKey(messageId, url);
        var tried := parsed && !old(Suppresses(WEBHOOK, key, t.checked));
        && o == (if parsed && (!tried || sendOk) then Done else Failed(None))
        && delivered == (if tried && sendOk then old(delivered) + [(messageId, url)] else old(delivered))
        && (dedup != null ==>
              dedup.history == old(dedup.history)
                + if tried && sendOk then [Mark(WEBHOOK, messageId + "|" + url, t.marked)] else [])
    {
      QueueNamesAreScopes();
      if !parsed { return Failed(None); }
      var key := WebhookDedupKey(messageId, url);
      var duplicate := IsDuplicate(WEBHOOK, key, t);
      if duplicate { return Done; }
      if !sendOk { return Failed(None); }
      delivered := delivered + [(messageId, url)];
      MarkProcessed(WEBHOOK, key, t);
      return Done;
    }

    /** An incoming event: one webhook job per matching subscription, in order. The publish of
        matching subscription number `failAt` is the first to fail, if any does; it may have
        `landed` all the same. `subs` is None when the subscriptions cannot be read. */
    method HandleIncoming(messageId: string, parsed: bool, subs: Option<seq<Subscription>>, failAt: Option<nat>,
        landed: bool, t: Times)
      returns (o: Outcome, ghost chosen: seq<nat>)
      requires Valid() && Sequential(t) && SeenBy(t.check)
      modifies this`published, dedup
      ensures Valid() && SeenBy(t.marked)
      ensures var tried := parsed && !old(Suppresses(INCOMING, messageId, t.checked)) && subs.Some?;
        var all := if tried then Matching(subs.value, MESSAGE_INCOMING) else [];
        var fails := tried && failAt.Some? && failAt.value < |all|;
        && o == (if parsed && (old(Suppresses(INCOMING, messageId, t.checked)) || (tried && !fails)) then Done
            else Failed(None))
        && published ==
            old(published) + Jobs(messageId, if fails then all[..failAt.value + if landed then 1 else 0] else all)
        && (dedup != null ==>
              dedup.history == old(dedup.history)
                + if tried && !fails && messageId != "" then [Mark(INCOMING, messageId, t.marked)] else [])
      ensures subs.Some? ==> Picks(chosen, subs.value, "message.incoming")
      ensures var tried := parsed && !old(Suppresses(INCOMING, messageId, t.checked)) && subs.Some?;
        var fails := failAt.Some? && failAt.value < |chosen|;
        if !tried then published == old(published)
        else Queues(old(published), published, messageId, subs.value, chosen,
                    if fails then failAt.value + (if landed then 1 else 0) else |chosen|)
    {
      QueueNamesAreScopes();
      chosen := [];
      if subs.Some? { chosen := MatchingPicks(subs.value, MESSAGE_INCOMING); }
      assert Jobs(messageId, []) == [];
      hide Picks, Chosen, Queues, Matching, Jobs, EventMatches, INCOMING;
      if !parsed { return Failed(None), chosen; }
      var duplicate := IsDuplicate(INCOMING, messageId, t);
      if duplicate { return Done, chosen; }
      if subs.None? { return Failed(None), chosen; }
      var ok := FanOut(messageId, subs.value, MESSAGE_INCOMING, failAt, landed);
      JobsAreQueued(old(published), published, messageId, subs.value, MESSAGE_INCOMING, chosen,
                    if ok then |chosen| else failAt.value + if landed then 1 else 0);
      if !ok { return Failed(None), chosen; }
      MarkProcessed(INCOMING, messageId, t);
      return Done, chosen;
    }

    method FanOut(messageId: string, subs: seq<Subscription>, event: string, failAt: Option<nat>, landed: bool)
      returns (ok: bool)
      modifies this`published
      ensures ok <==> !(failAt.Some? && failAt.value < |Matching(subs, event)|)
      ensures var all := Matching(subs, event);
        published == old(published)
          + Jobs(messageId, if ok then all else all[..failAt.value + if landed then 1 else 0])
    {
      ghost var all := Matching(subs, event);
      hide *;
      NothingYet(messageId, subs, event);
      var i := 0;
      var done: nat := 0;
      while i < |subs|
        invariant 0 <= i <= |subs| && done == |Matching(subs[..i], event)| <= |all|
        invariant published == old(published) + Jobs(messageId, all[..done])
        invariant failAt.Some? ==> done <= failAt.value
      {
        MatchingStep(subs, event, i);
        if EventMatches(subs[i].events, event) {
          var job := WebhookJob(subs[i].url, subs[i].secret, messageId);
          JobsStep(messageId, all, done);
          if failAt.Some? && failAt.value == done {
            if landed {
              published := published + [job];
            }
            return false;
          }
          published := published + [job];
          done := done + 1;
        }
        i := i + 1;
      }
      assert subs[..i] == subs && all[..done] == all;
      return true;
    }

    /** A dead-lettered message is only reported: whatever goes wrong the handler succeeds, and a
        destination that fails does not keep the others from being tried. `subs` is None when the
        account or its subscriptions cannot be found. */
    method HandleDeadLetter(source: Option<Topology.Name>, parsed: bool, statusEvents: bool,
                            subs: Option<seq<Subscription>>, sendOk: seq<bool>)
      returns (o: Outcome, tried: seq<string>, ghost chosen: seq<nat>)
      requires subs.Some? ==> |sendOk| == |subs.value|
      ensures o == Done
      ensures tried == if parsed && statusEvents && subs.Some?
                          && (source == Some(Topology.Plain(Topology.Main(Topology.Outgoing)))
                              || source == Some(Topology.Plain(Topology.Main(Topology.Incoming))))
                       then Urls(Matching(subs.value, MESSAGE_FAILED)) else []
      ensures subs.Some? ==> Picks(chosen, subs.value, "message.failed")
      ensures tried != [] ==> |tried| == |chosen|
      ensures subs.Some? ==>
        forall k :: 0 <= k < |tried| && k < |chosen| && chosen[k] < |subs.value| ==>
          tried[k] == subs.value[chosen[k]].url
    {
      tried := [];
      o := Done;
      chosen := [];
      if subs.Some? { chosen := MatchingPicks(subs.value, MESSAGE_FAILED); }
      hide Picks, Chosen, Matching;
      if source == Some(Topology.Plain(Topology.Main(Topology.Outgoing)))
         || source == Some(Topology.Plain(Topology.Main(Topology.Incoming))) {
        if !parsed || !statusEvents || subs.None? { return; }
        tried := NotifyDeadLettered(subs.value, sendOk);
      }
    }

    method NotifyDeadLettered(subs: seq<Subscription>, sendOk: seq<bool>) returns (tried: seq<string>)
      requires |sendOk| == |subs|
      ensures tried == Urls(Matching(subs, MESSAGE_FAILED))
    {
      tried := [];
      assert Urls(Matching(subs[..0], MESSAGE_FAILED)) == [];
      hide *;
      var i := 0;
      while i < |subs|
        invariant 0 <= i <= |subs|
        invariant tried == Urls(Matching(subs[..i], MESSAGE_FAILED))
      {
        UrlsStep(subs, MESSAGE_FAILED, i);
        if EventMatches(subs[i].events, MESSAGE_FAILED) {
          tried := tried + [subs[i].url];
          if !sendOk[i] {
            i := i + 1;
            continue;
          }
        }
        i := i + 1;
      }
      assert subs[..i] == subs;
    }
  }

  lemma UrlsStep(subs: seq<Subscription>, event: string, i: nat)
    requires i < |subs|
    ensures Urls(Matching(subs[..i + 1], event))
         == if EventMatches(subs[i].events, event) then Urls(Matching(subs[..i], event)) + [subs[i].url]
            else Urls(Matching(subs[..i], event))
  {
    assert subs[..i + 1][..i] == subs[..i];
    hide EventMatches;
  }

  lemma JobsAreQueued(before: seq<WebhookJob>, after: seq<WebhookJob>, messageId: string, subs: seq<Subscription>,
      event: string, chosen: seq<nat>, count: nat)
    requires Chosen(chosen, subs, event) && count <= |chosen|
    requires after == before + Jobs(messageId, Matching(subs, event)[..count])
    ensures Queues(before, after, messageId, subs, chosen, count)
  {
    hide Matching, EventMatches;
  }

  lemma NothingYet(messageId: string, subs: seq<Subscription>, event: string)
    ensures Jobs(messageId, Matching(subs, event)[..0]) == [] && Matching(subs[..0], event) == []
  {
  }

  lemma JobsStep(messageId: string, subs: seq<Subscription>, k: nat)
    requires k < |subs|
    ensures Jobs(messageId, subs[..k + 1])
         == Jobs(messageId, subs[..k]) + [WebhookJob(subs[k].url, subs[k].secret, messageId)]
  {
    assert subs[..k + 1] == subs[..k] + [subs[k]];
  }

  /** One subscription further: it is the next matching one, or is skipped. */
  lemma MatchingStep(subs: seq<Subscription>, event: string, i: nat)
    requires i < |subs|
    ensures var m := EventMatches(subs[i].events, event);
      && |Matching(subs[..i + 1], event)| == |Matching(subs[..i], event)| + (if m then 1 else 0)
      && |Matching(subs[..i + 1], event)| <= |Matching(subs, event)|
      && (m ==> Matching(subs, event)[|Matching(subs[..i], event)|] == subs[i])
  {
    assert subs[..i + 1][..i] == subs[..i];
    MatchingPrefix(subs, event, i + 1);
  }

  lemma {:induction false} MatchingPrefix(subs: seq<Subscription>, event: string, i: nat)
    requires i <= |subs|
    ensures Matching(subs[..i], event) <= Matching(subs, event)
  {
    if i == |subs| {
      assert subs[..i] == subs;
    } else {
      MatchingPrefix(subs[..|subs| - 1], event, i);
      assert subs[..|subs| - 1][..i] == subs[..i];
    }
  }
}
