/**
 The handlers of internal/queue/handlers over whole runs: called one after another on one cache they
 do what the machine of AtMostOnce does, so its results hold of what they send, deliver and publish.
 */
module HandlerRuns {
  import opened Common
  import opened Worker
  import opened Dedup
  import opened Delivery
  import opened AtMostOnce

  // ---- the same item twice ----

  ghost predicate Unmarked(history: seq<Mark>, scope: string, id: string, now: int, ttl: int) {
    forall m :: m in history && m.scope == scope && m.id == id ==> now - m.at >= ttl
  }

  /** Two calls for one job, the second less than a TTL after the first was marked. */
  method JobTwice(h: Handlers, jobId: string, pace: Pace, sendOk: bool, t: Times,
      pace': Pace, sendOk': bool, t': Times)
    returns (first: Outcome, again: Outcome, ghost middle: seq<string>)
    requires h.Valid() && h.SeenBy(t.check) && Sequential(t) && Sequential(t') && t.marked <= t'.check
    requires h.dedup != null && jobId != "" && t'.checked - t.marked < h.dedup.ttl
    modifies h`sent, h.dedup
    ensures middle == old(h.sent) || middle == old(h.sent) + [jobId]
    ensures pace.Clear? && sendOk && Unmarked(old(h.dedup.history), OUTGOING, jobId, t.checked, h.dedup.ttl)
      ==> middle == old(h.sent) + [jobId]
    ensures middle == old(h.sent) + [jobId] ==> first == Done && again == Done && h.sent == middle
  {
    first := h.HandleOutgoing(jobId, true, pace, sendOk, t);
    middle := h.sent;
    ghost var marks := h.dedup.history;
    again := h.HandleOutgoing(jobId, true, pace', sendOk', t');
    if middle != old(h.sent) { assert marks[|marks| - 1] == Mark(OUTGOING, jobId, t.marked); }
  }

  /** Two deliveries of one message to one destination. */
  method WebhookTwice(h: Handlers, messageId: string, url: string, sendOk: bool, t: Times, sendOk': bool, t': Times)
    returns (first: Outcome, again: Outcome, ghost middle: seq<(string, string)>)
    requires h.Valid() && h.SeenBy(t.check) && Sequential(t) && Sequential(t') && t.marked <= t'.check
    requires h.dedup != null && t'.checked - t.marked < h.dedup.ttl
    modifies h`delivered, h.dedup
    ensures middle == old(h.delivered) || middle == old(h.delivered) + [(messageId, url)]
    ensures sendOk && Unmarked(old(h.dedup.history), WEBHOOK, messageId + "|" + url, t.checked, h.dedup.ttl)
      ==> middle == old(h.delivered) + [(messageId, url)]
    ensures middle == old(h.delivered) + [(messageId, url)] ==>
      first == Done && again == Done && h.delivered == middle
  {
    first := h.HandleWebhook(messageId, url, true, sendOk, t);
    middle := h.delivered;
    ghost var marks := h.dedup.history;
    again := h.HandleWebhook(messageId, url, true, sendOk', t');
    if middle != old(h.delivered) { assert marks[|marks| - 1] == Mark(WEBHOOK, messageId + "|" + url, t.marked); }
  }

  /** Two calls for one event, the first of which marked it. */
  method EventTwice(h: Handlers, messageId: string, subs: seq<Subscription>, failAt: Option<nat>, landed: bool,
      t: Times, subs': Option<seq<Subscription>>, failAt': Option<nat>, landed': bool, t': Times)
    returns (first: Outcome, again: Outcome, ghost middle: seq<WebhookJob>)
    requires h.Valid() && h.SeenBy(t.check) && Sequential(t) && Sequential(t') && t.marked <= t'.check
    requires h.dedup != null && messageId != "" && t'.checked - t.marked < h.dedup.ttl
    modifies h`published, h.dedup
    ensures Unmarked(old(h.dedup.history), INCOMING, messageId, t.checked, h.dedup.ttl) ==>
      && (failAt.None? ==> first == Done)
      && (first == Done ==> again == Done && h.published == middle)
  {
    hide Picks, Queues, Matching, Jobs;
    ghost var chosen, chosen';
    first, chosen := h.HandleIncoming(messageId, true, Some(subs), failAt, landed, t);
    middle := h.published;
    ghost var marks := h.dedup.history;
    again, chosen' := h.HandleIncoming(messageId, true, subs', failAt', landed', t');
    if marks != old(h.dedup.history) { assert marks[|marks| - 1] == Mark(INCOMING, messageId, t.marked); }
  }

  // ---- handlers and machine ----

  /** A message given to its handler. A webhook delivery is of a job published before. */
  datatype Call =
    | Send(jobId: string, parsed: bool, pace: Pace, sendOk: bool, t: Times)
    | Deliver(job: nat, parsed: bool, sendOk: bool, t: Times)
    | Receive(messageId: string, parsed: bool, subs: Option<seq<Subscription>>, failAt: Option<nat>, landed: bool,
              t: Times)

  function Sent(ss: seq<Success>): seq<string> {
    if ss == [] then []
    else
      var i := ss[|ss| - 1].item;
      Sent(ss[..|ss| - 1]) + if i.Job? then [i.id] else []
  }

  function Delivered(ss: seq<Success>): seq<(string, string)> {
    if ss == [] then []
    else
      var i := ss[|ss| - 1].item;
      Delivered(ss[..|ss| - 1]) + if i.Hook? then [(i.messageId, i.url)] else []
  }

  function Destinations(jobs: seq<WebhookJob>): set<(string, string)> {
    set j | j in jobs :: (j.messageId, j.url)
  }

  /** One process life, one message at a time, and a send that is reported failed did not arrive. */
  function ConfigOf(h: Handlers): Config {
    Config(h.dedup != null, if h.dedup != null then h.dedup.ttl else 0, false, false, false)
  }

  ghost predicate Idle(s: State, now: int) {
    s.active == multiset{} && s.fanned == multiset{} && s.remembered == s.successes && s.now <= now
  }

  /** What the handlers have done so far; there are no marks without a cache. */
  datatype View = View(marks: Option<seq<Mark>>, sent: seq<string>, delivered: seq<(string, string)>,
                       published: seq<WebhookJob>)

  ghost function ViewOf(h: Handlers): View
    reads h, h.dedup
  {
    View(if h.dedup == null then None else Some(h.dedup.history), h.sent, h.delivered, h.published)
  }

  /** The machine has marked, sent, delivered and published the same. */
  ghost predicate Agrees(v: View, s: State) {
    && (v.marks.Some? ==> v.marks.value == MarksOf(s.successes))
    && v.sent == Sent(s.successes) && v.delivered == Delivered(s.successes)
    && Destinations(v.published) == s.published
  }

  ghost predicate Follows(c: Config, v: View, states: seq<State>, steps: seq<Step>, now: int) {
    && Run(c, states, steps) && Idle(states[|steps|], now) && Agrees(v, states[|steps|])
    && c.enabled == v.marks.Some?
  }

  ghost predicate Tracks(h: Handlers, states: seq<State>, steps: seq<Step>, now: int)
    reads h, h.dedup
  {
    h.Valid() && h.SeenBy(now) && Follows(ConfigOf(h), ViewOf(h), states, steps, now)
  }

  /** The cache and the machine suppress the same. */
  lemma SameAnswer(h: Handlers, states: seq<State>, steps: seq<Step>, now: int, item: Item, at: int)
    requires Tracks(h, states, steps, now)
    ensures Duplicate(ConfigOf(h), states[|steps|], item, at) <==> h.Suppresses(Scope(item), Id(item), at)
  {
    if h.dedup != null {
      MarkedWithinIff(h.dedup.history, h.dedup.seen, Scope(item), Id(item), at, h.dedup.ttl);
    }
  }

  lemma OneMoreSuccess(ss: seq<Success>, s: Success)
    ensures MarksOf(ss + [s])
         == MarksOf(ss) + if Id(s.item) == "" then [] else [Mark(Scope(s.item), Id(s.item), s.at)]
    ensures Sent(ss + [s]) == if s.item.Job? then Sent(ss) + [s.item.id] else Sent(ss)
    ensures Delivered(ss + [s])
         == if s.item.Hook? then Delivered(ss) + [(s.item.messageId, s.item.url)] else Delivered(ss)
  {
    assert (ss + [s])[..|ss|] == ss;
  }

  lemma Extend(c: Config, states: seq<State>, steps: seq<Step>, step: Step)
    returns (states': seq<State>, steps': seq<Step>)
    requires Run(c, states, steps) && Enabled(c, states[|steps|], step)
    ensures Run(c, states', steps') && states <= states' && steps <= steps'
    ensures |states'| == |steps'| + 1 && states'[|steps'|] == Do(c, states[|steps|], step)
  {
    RunExtends(c, states, steps, step);
    states', steps' := states + [Do(c, states[|steps|], step)], steps + [step];
  }

  /** A job or a webhook delivery is handled: it is a duplicate, arrives, or is given up. */
  lemma RunItem(c: Config, states: seq<State>, steps: seq<Step>, item: Item, arrives: bool, t: Times)
    returns (states': seq<State>, steps': seq<Step>)
    requires Run(c, states, steps) && Idle(states[|steps|], t.check) && Sequential(t) && !item.Event?
    requires item.Hook? ==> (item.messageId, item.url) in states[|steps|].published
    ensures Run(c, states', steps') && Idle(states'[|steps'|], t.marked) && states <= states' && steps <= steps'
    ensures var s, s' := states[|steps|], states'[|steps'|];
      && s'.published == s.published
      && s'.successes == if arrives && !Duplicate(c, s, item, t.checked) then s.successes + [Success(item, t.marked)]
           else s.successes
  {
    var s := states[|steps|];
    hide Duplicate, Run, Recipients, JobsOf;
    states', steps' := Extend(c, states, steps, Start(item, t.checked));
    if !Duplicate(c, s, item, t.checked) {
      assert states'[|steps'|].active == multiset{item};
      states', steps' := Extend(c, states', steps', if arrives then Succeed(item, t.marked) else GiveUp(item, false));
    }
  }

  /** An event is handled: it is a duplicate, its subscriptions cannot be read, or it is fanned out. */
  lemma RunEvent(c: Config, states: seq<State>, steps: seq<Step>, m: string, subs: Option<seq<Subscription>>,
      reached: nat, complete: bool, t: Times)
    returns (states': seq<State>, steps': seq<Step>)
    requires Run(c, states, steps) && Idle(states[|steps|], t.check) && Sequential(t)
    requires subs.Some? ==> reached <= |Recipients(subs.value)| && (complete ==> reached == |Recipients(subs.value)|)
    ensures Run(c, states', steps') && Idle(states'[|steps'|], t.marked) && states <= states' && steps <= steps'
    ensures var s, s' := states[|steps|], states'[|steps'|];
      var tried := subs.Some? && !Duplicate(c, s, Event(m), t.checked);
      && s'.published ==
           (if tried then s.published + JobsOf(m, Recipients(subs.value)[..reached]) else s.published)
      && s'.successes == if tried && complete then s.successes + [Success(Event(m), t.marked)] else s.successes
  {
    var s := states[|steps|];
    hide Duplicate, Run, Recipients, JobsOf;
    states', steps' := Extend(c, states, steps, Start(Event(m), t.checked));
    if !Duplicate(c, s, Event(m), t.checked) {
      assert states'[|steps'|].active == multiset{Event(m)};
      if subs.Some? { states', steps' := Extend(c, states', steps', FanOut(m, subs.value, reached, complete)); }
      states', steps' := Extend(c, states', steps',
        if subs.Some? && complete then Succeed(Event(m), t.marked) else GiveUp(Event(m), false));
    }
  }

  lemma MoreDestinations(before: seq<WebhookJob>, m: string, subs: seq<Subscription>)
    ensures Destinations(before + Jobs(m, subs)) == Destinations(before) + JobsOf(m, subs)
  {
    var jobs := Jobs(m, subs);
    forall d | d in JobsOf(m, subs) ensures d in Destinations(before + jobs) {
      var i :| 0 <= i < |subs| && Urls(subs)[i] == d.1;
      assert jobs[i] in before + jobs;
    }
    forall d | d in Destinations(before + jobs) ensures d in Destinations(before) + JobsOf(m, subs) {
      var j :| j in before + jobs && (j.messageId, j.url) == d;
      if j !in before {
        var i :| 0 <= i < |jobs| && jobs[i] == j;
        assert Urls(subs)[i] == j.url;
      }
    }
    assert forall d :: d in Destinations(before) ==> d in Destinations(before + jobs);
  }

  /** The marks after a mark under this id, if there is a cache and the id is not empty. */
  function AndMark(marks: Option<seq<Mark>>, scope: string, id: string, at: int): Option<seq<Mark>> {
    if marks.Some? && id != "" then Some(marks.value + [Mark(scope, id, at)]) else marks
  }

  lemma FollowJob(c: Config, v: View, states: seq<State>, steps: seq<Step>, id: string, arrives: bool, t: Times)
    returns (states': seq<State>, steps': seq<Step>)
    requires Follows(c, v, states, steps, t.check) && Sequential(t)
    ensures states <= states' && steps <= steps'
    ensures var sends := arrives && !Duplicate(c, states[|steps|], Job(id), t.checked);
      Follows(c, if sends then v.(sent := v.sent + [id], marks := AndMark(v.marks, OUTGOING, id, t.marked)) else v,
              states', steps', t.marked)
  {
    OneMoreSuccess(states[|steps|].successes, Success(Job(id), t.marked));
    states', steps' := RunItem(c, states, steps, Job(id), arrives, t);
    hide Run, Duplicate, MarksOf, Sent, Delivered, Destinations;
  }

  lemma FollowWebhook(c: Config, v: View, states: seq<State>, steps: seq<Step>, job: WebhookJob,
      arrives: bool, t: Times)
    returns (states': seq<State>, steps': seq<Step>)
    requires Follows(c, v, states, steps, t.check) && Sequential(t) && job in v.published
    ensures states <= states' && steps <= steps'
    ensures var item := Hook(job.messageId, job.url);
      var delivers := arrives && !Duplicate(c, states[|steps|], item, t.checked);
      Follows(c, if delivers then v.(delivered := v.delivered + [(job.messageId, job.url)],
                                     marks := AndMark(v.marks, WEBHOOK, Id(item), t.marked)) else v,
              states', steps', t.marked)
  {
    var item := Hook(job.messageId, job.url);
    assert Id(item) != "" && Scope(item) == WEBHOOK && (job.messageId, job.url) in Destinations(v.published);
    hide Run, Duplicate, MarksOf, Sent, Delivered, Destinations, WebhookDedupKey, WEBHOOK, Id, Scope;
    OneMoreSuccess(states[|steps|].successes, Success(item, t.marked));
    states', steps' := RunItem(c, states, steps, item, arrives, t);
  }

  lemma FollowEvent(c: Config, v: View, states: seq<State>, steps: seq<Step>, m: string,
      subs: Option<seq<Subscription>>, reached: nat, complete: bool, t: Times)
    returns (states': seq<State>, steps': seq<Step>)
    requires Follows(c, v, states, steps, t.check) && Sequential(t)
    requires subs.Some? ==> reached <= |Recipients(subs.value)| && (complete ==> reached == |Recipients(subs.value)|)
    ensures states <= states' && steps <= steps'
    ensures var tries := subs.Some? && !Duplicate(c, states[|steps|], Event(m), t.checked);
      Follows(c, if tries then v.(published := v.published + Jobs(m, Recipients(subs.value)[..reached]),
                                  marks := if complete then AndMark(v.marks, INCOMING, m, t.marked) else v.marks)
                 else v,
              states', steps', t.marked)
  {
    OneMoreSuccess(states[|steps|].successes, Success(Event(m), t.marked));
    if subs.Some? { MoreDestinations(v.published, m, Recipients(subs.value)[..reached]); }
    states', steps' := RunEvent(c, states, steps, m, subs, reached, complete, t);
    hide Run, Duplicate, MarksOf, Sent, Delivered, Destinations, Recipients, Jobs, JobsOf;
  }

  method SendJob(h: Handlers, jobId: string, parsed: bool, pace: Pace, sendOk: bool, t: Times,
      ghost states: seq<State>, ghost steps: seq<Step>)
    returns (o: Outcome, ghost states': seq<State>, ghost steps': seq<Step>)
    requires Tracks(h, states, steps, t.check) && Sequential(t)
    modifies h`sent, h.dedup
    ensures Tracks(h, states', steps', t.marked) && states <= states' && steps <= steps'
  {
    states', steps' := states, steps;
    SameAnswer(h, states, steps, t.check, Job(jobId), t.checked);
    hide Duplicate;
    if parsed {
      states', steps' := FollowJob(ConfigOf(h), ViewOf(h), states, steps, jobId, pace.Clear? && sendOk, t);
    } else {
      Waiting(ConfigOf(h), ViewOf(h), states, steps, t);
    }
    hide Follows, Handlers.Suppresses, OUTGOING, DedupCache.Valid;
    o := h.HandleOutgoing(jobId, parsed, pace, sendOk, t);
  }

  method DeliverJob(h: Handlers, job: WebhookJob, parsed: bool, sendOk: bool, t: Times,
      ghost states: seq<State>, ghost steps: seq<Step>)
    returns (o: Outcome, ghost states': seq<State>, ghost steps': seq<Step>)
    requires Tracks(h, states, steps, t.check) && Sequential(t) && job in h.published
    modifies h`delivered, h.dedup
    ensures Tracks(h, states', steps', t.marked) && states <= states' && steps <= steps'
  {
    states', steps' := states, steps;
    SameAnswer(h, states, steps, t.check, Hook(job.messageId, job.url), t.checked);
    hide Duplicate;
    if parsed {
      states', steps' := FollowWebhook(ConfigOf(h), ViewOf(h), states, steps, job, sendOk, t);
    } else {
      Waiting(ConfigOf(h), ViewOf(h), states, steps, t);
    }
    hide Follows, Handlers.Suppresses, WEBHOOK, DedupCache.Valid;
    o := h.HandleWebhook(job.messageId, job.url, parsed, sendOk, t);
  }

  method ReceiveEvent(h: Handlers, messageId: string, parsed: bool, subs: Option<seq<Subscription>>,
      failAt: Option<nat>, landed: bool, t: Times, ghost states: seq<State>, ghost steps: seq<Step>)
    returns (o: Outcome, ghost states': seq<State>, ghost steps': seq<Step>)
    requires Tracks(h, states, steps, t.check) && Sequential(t)
    modifies h`published, h.dedup
    ensures Tracks(h, states', steps', t.marked) && states <= states' && steps <= steps'
  {
    hide Picks, Queues;
    ghost var all := if subs.Some? then Matching(subs.value, MESSAGE_INCOMING) else [];
    ghost var fails := failAt.Some? && failAt.value < |all|;
    ghost var reached := if fails then failAt.value + (if landed then 1 else 0) else |all|;
    assert Jobs(messageId, []) == [] && h.published + [] == h.published && all[..|all|] == all;
    states', steps' := states, steps;
    SameAnswer(h, states, steps, t.check, Event(messageId), t.checked);
    hide Duplicate, Matching, Jobs, INCOMING, Handlers.Suppresses;
    if parsed {
      states', steps' := FollowEvent(ConfigOf(h), ViewOf(h), states, steps, messageId, subs, reached, !fails, t);
    } else {
      Waiting(ConfigOf(h), ViewOf(h), states, steps, t);
    }
    hide Follows, DedupCache.Valid;
    ghost var chosen;
    o, chosen := h.HandleIncoming(messageId, parsed, subs, failAt, landed, t);
  }

  lemma Waiting(c: Config, v: View, states: seq<State>, steps: seq<Step>, t: Times)
    requires Follows(c, v, states, steps, t.check) && Sequential(t)
    ensures Follows(c, v, states, steps, t.marked)
  {
    hide Run, Agrees;
  }

  // ---- whole runs ----

  /** The clock readings of the calls come one after another. */
  ghost predicate InTurn(calls: seq<Call>, now: int) {
    && (forall i :: 0 <= i < |calls| ==> Sequential(calls[i].t) && now <= calls[i].t.check)
    && forall i, j :: 0 <= i < j < |calls| ==> calls[i].t.marked <= calls[j].t.check
  }

  lemma TracksLater(h: Handlers, states: seq<State>, steps: seq<Step>, now: int, later: int)
    requires Tracks(h, states, steps, now) && now <= later
    ensures Tracks(h, states, steps, later)
  {
    hide Run, Agrees, Handlers.Valid;
  }

  /** One message, given to its handler. A delivery of a job that was not published cannot happen. */
  method HandleOne(h: Handlers, call: Call, ghost states: seq<State>, ghost steps: seq<Step>, ghost now: int)
    returns (o: Option<Outcome>, ghost states': seq<State>, ghost steps': seq<Step>)
    requires Tracks(h, states, steps, now) && Sequential(call.t) && now <= call.t.check
    modifies h, h.dedup
    ensures Tracks(h, states', steps', call.t.marked) && states <= states' && steps <= steps'
  {
    TracksLater(h, states, steps, now, call.t.check);
    var r;
    match call
    case Send(jobId, parsed, pace, sendOk, t) =>
      r, states', steps' := SendJob(h, jobId, parsed, pace, sendOk, t, states, steps);
      o := Some(r);
    case Deliver(job, parsed, sendOk, t) =>
      if job >= |h.published| {
        TracksLater(h, states, steps, now, t.marked);
        return None, states, steps;
      }
      r, states', steps' := DeliverJob(h, h.published[job], parsed, sendOk, t, states, steps);
      o := Some(r);
    case Receive(messageId, parsed, subs, failAt, landed, t) =>
      r, states', steps' := ReceiveEvent(h, messageId, parsed, subs, failAt, landed, t, states, steps);
      o := Some(r);
  }

  ghost predicate Untouched(v: View) {
    v.sent == [] && v.delivered == [] && v.published == [] && (v.marks.Some? ==> v.marks.value == [])
  }

  lemma Outset(h: Handlers, start: int) returns (states: seq<State>, steps: seq<Step>)
    requires h.Valid() && h.SeenBy(start) && Untouched(ViewOf(h))
    ensures Tracks(h, states, steps, start) && steps == []
  {
    states, steps := [State(start, multiset{}, multiset{}, [], [], {}, {})], [];
    assert MarksOf([]) == [] && Sent([]) == [] && Delivered([]) == [] && Destinations([]) == {};
  }

  /** Any two arrivals of a job, of a webhook, or of an event are a TTL apart, if they have an id. */
  ghost predicate Apart(log: seq<Success>, ttl: int) {
    forall j, k :: 0 <= j < k < |log| && log[j].item == log[k].item ==>
      log[k].at - log[j].at >= ttl || log[j].item == Job("") || log[j].item == Event("")
  }

  /** Any messages, in any order and any number of times. What was sent, delivered and published is
      what a run of the machine has; and with a cache any two arrivals of one item are a TTL apart. */
  method HandleAll(h: Handlers, calls: seq<Call>, ghost start: int)
    returns (outcomes: seq<Option<Outcome>>, ghost log: seq<Success>, ghost states: seq<State>, ghost steps: seq<Step>)
    requires h.Valid() && h.SeenBy(start) && Untouched(ViewOf(h)) && InTurn(calls, start)
    modifies h, h.dedup
    ensures |outcomes| == |calls|
    ensures Run(ConfigOf(h), states, steps) && Agrees(ViewOf(h), states[|steps|]) && log == states[|steps|].successes
    ensures forall id :: multiset(h.sent)[id] == Count(log, Job(id))
    ensures forall m, u :: multiset(h.delivered)[(m, u)] == Count(log, Hook(m, u))
    ensures h.dedup != null ==> Apart(log, h.dedup.ttl)
  {
    states, steps := Outset(h, start);
    outcomes := [];
    hide Tracks, Untouched, Run, Agrees, Apart, Count;
    ghost var now := start;
    var i := 0;
    while i < |calls|
      invariant 0 <= i == |outcomes| <= |calls| && now == if i == 0 then start else calls[i - 1].t.marked
      invariant Tracks(h, states, steps, now)
      decreases |calls| - i
    {
      var o;
      o, states, steps := HandleOne(h, calls[i], states, steps, now);
      now := calls[i].t.marked;
      outcomes := outcomes + [o];
      i := i + 1;
    }
    log := states[|steps|].successes;
    AllTracked(h, states, steps, now);
  }

  lemma AllTracked(h: Handlers, states: seq<State>, steps: seq<Step>, now: int)
    requires Tracks(h, states, steps, now)
    ensures |states| == |steps| + 1
    ensures Run(ConfigOf(h), states, steps) && Agrees(ViewOf(h), states[|steps|])
    ensures var log := states[|steps|].successes;
      && (forall id :: multiset(h.sent)[id] == Count(log, Job(id)))
      && (forall m, u :: multiset(h.delivered)[(m, u)] == Count(log, Hook(m, u)))
      && (h.dedup != null ==> Apart(log, h.dedup.ttl))
  {
    AllArrivals(ConfigOf(h), ViewOf(h), states, steps, now);
    hide Follows, Apart, Count;
  }

  lemma AllArrivals(c: Config, v: View, states: seq<State>, steps: seq<Step>, now: int)
    requires Follows(c, v, states, steps, now) && !c.overlap && Remembers(c)
    ensures Run(c, states, steps) && Agrees(v, states[|steps|])
    ensures var log := states[|steps|].successes;
      && (forall id :: multiset(v.sent)[id] == Count(log, Job(id)))
      && (forall m, u :: multiset(v.delivered)[(m, u)] == Count(log, Hook(m, u)))
      && (c.enabled ==> Apart(log, c.ttl))
  {
    var log := states[|steps|].successes;
    hide Apart, Run, Sent, Delivered, Count;
    forall id ensures multiset(v.sent)[id] == Count(log, Job(id)) { SentIsCounted(log, id); }
    forall m, u ensures multiset(v.delivered)[(m, u)] == Count(log, Hook(m, u)) { DeliveredIsCounted(log, m, u); }
    if c.enabled { ArrivalsAreApart(c, states, steps); }
  }

  lemma ArrivalsAreApart(c: Config, states: seq<State>, steps: seq<Step>)
    requires Run(c, states, steps) && c.enabled && !c.overlap && Remembers(c)
    ensures Apart(states[|steps|].successes, c.ttl)
  {
    SuccessesAreSpaced(c, states, steps);
    hide Run;
    var log := states[|steps|].successes;
    forall j, k | 0 <= j < k < |log| && log[j].item == log[k].item
      ensures log[k].at - log[j].at >= c.ttl || log[j].item == Job("") || log[j].item == Event("")
    {
      assert Id(log[j].item) == "" ==> !log[j].item.Hook?;
    }
  }

  lemma {:induction false} SentIsCounted(ss: seq<Success>, id: string)
    ensures multiset(Sent(ss))[id] == Count(ss, Job(id))
  {
    if ss != [] { SentIsCounted(ss[..|ss| - 1], id); }
  }

  lemma {:induction false} DeliveredIsCounted(ss: seq<Success>, m: string, u: string)
    ensures multiset(Delivered(ss))[(m, u)] == Count(ss, Hook(m, u))
  {
    if ss != [] { DeliveredIsCounted(ss[..|ss| - 1], m, u); }
  }
}
