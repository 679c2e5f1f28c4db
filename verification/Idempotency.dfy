/**
 The idempotency table of internal/middleware/idempotency.go and every interleaving of the
 requests that share it.
 */
module Idempotency {
  import opened Common

  datatype Key = Key(phone: string, key: string)

  datatype Response = Response(status: int, body: string)

  datatype Row =
    | Pending(hash: string, createdAt: int)
    | Completed(hash: string, createdAt: int, response: Response)

  type Table = map<Key, Row>

  /** How a handler ends: with an error, or with a response of any status. */
  datatype Ending = Erred | Responded(response: Response)

  datatype Verdict = Proceed | Mismatch | InProgress | Replay(response: Response)

  // ---- the statements, as functions of the table ----

  function Inserted(t: Table, k: Key, hash: string, now: int): Table {
    if k in t then t else t[k := Pending(hash, now)]
  }

  /** Only 2xx responses are remembered. */
  predicate Succeeded(e: Ending) { e.Responded? && 200 <= e.response.status < 300 }

  function Recorded(t: Table, k: Key, e: Ending): Table {
    if !Succeeded(e) then t - {k}
    else if k in t then t[k := Completed(t[k].hash, t[k].createdAt, e.response)]
    else t
  }

  predicate Older(r: Row, now: int, age: int) { now - r.createdAt > age }

  function Judge(t: Table, k: Key, hash: string, now: int, ttl: int, pendingTimeout: int): Verdict {
    if k !in t || Older(t[k], now, ttl) then Proceed
    else if t[k].hash != hash then Mismatch
    else if t[k].Pending? then (if Older(t[k], now, pendingTimeout) then Proceed else InProgress)
    else Replay(t[k].response)
  }

  /** The three ways past a row that was found: it is gone, it has expired, or its owner took too
      long. */
  datatype Branch = Gone | Expired | Abandoned

  /** The branch by which a request that found a row goes ahead, if it does. */
  function Guard(t: Table, k: Key, hash: string, now: int, ttl: int, pendingTimeout: int): (b: Option<Branch>)
    ensures b.Some? <==> Judge(t, k, hash, now, ttl, pendingTimeout).Proceed?
  {
    if k !in t then Some(Gone)
    else if Older(t[k], now, ttl) then Some(Expired)
    else if t[k].hash == hash && t[k].Pending? && Older(t[k], now, pendingTimeout) then Some(Abandoned)
    else None
  }

  function Swept(t: Table, now: int, ttl: int): Table {
    map k | k in t && !(t[k].createdAt < now - ttl) :: t[k]
  }

  // ---- the same, spelled out ----

  /** What the end of a run does to the table: any status from 200 to 299 is remembered with the
      request's hash and time, if the row is still there; anything else removes the row; no other key
      is touched. */
  ghost predicate Recording(before: Table, after: Table, k: Key, e: Ending) {
    && (forall other :: other != k ==> (other in after <==> other in before))
    && (forall other :: other != k && other in after ==> after[other] == before[other])
    && match e
       case Erred => k !in after
       case Responded(r) =>
         if 200 <= r.status <= 299 then
           && (k in after <==> k in before)
           && (k in before ==> after[k] == Completed(before[k].hash, before[k].createdAt, r))
         else k !in after
  }

  lemma RecordedIsRecording(t: Table, k: Key, e: Ending)
    ensures Recording(t, Recorded(t, k, e), k, e)
    ensures Succeeded(e) <==> e.Responded? && 200 <= e.response.status <= 299
  {
  }

  /** How a request that found a row is judged, by the row's age. */
  ghost predicate Judging(t: Table, k: Key, hash: string, now: int, ttl: int, pendingTimeout: int, v: Verdict) {
    if k !in t || now - t[k].createdAt > ttl then v == Proceed
    else if t[k].hash != hash then v == Mismatch
    else match t[k]
      case Completed(_, _, r) => v == Replay(r)
      case Pending(_, at) => v == if now - at > pendingTimeout then Proceed else InProgress
  }

  lemma JudgeIsJudging(t: Table, k: Key, hash: string, now: int, ttl: int, pendingTimeout: int)
    ensures Judging(t, k, hash, now, ttl, pendingTimeout, Judge(t, k, hash, now, ttl, pendingTimeout))
    ensures var b := Guard(t, k, hash, now, ttl, pendingTimeout);
      && (b == Some(Gone) <==> k !in t)
      && (b == Some(Expired) <==> k in t && now - t[k].createdAt > ttl)
      && (b == Some(Abandoned) <==>
            k in t && pendingTimeout < now - t[k].createdAt <= ttl && t[k] == Pending(hash, t[k].createdAt))
  {
  }

  class IdempotencyMiddleware {
    const ttl: int
    const pendingTimeout: int
    var rows: Table

    /** Settings are in seconds here as in the configuration; non-positive ones get defaults. */
    constructor (ttlSeconds: int, pendingSeconds: int)
      ensures rows == map[]
      ensures ttl == if ttlSeconds <= 0 then 24 * 3600 else ttlSeconds
      ensures pendingTimeout == if pendingSeconds <= 0 then 30 else pendingSeconds
    {
      ttl := if ttlSeconds <= 0 then 24 * 3600 else ttlSeconds;
      pendingTimeout := if pendingSeconds <= 0 then 30 else pendingSeconds;
      rows := map[];
    }

    method TryInsertPending(k: Key, hash: string, now: int) returns (inserted: bool)
      modifies this`rows
      ensures inserted <==> k !in old(rows)
      ensures rows == if inserted then old(rows)[k := Pending(hash, now)] else old(rows)
      ensures rows == Inserted(old(rows), k, hash, now)
    {
      inserted := k !in rows;
      if inserted { rows := rows[k := Pending(hash, now)]; }
    }

    method Delete(k: Key)
      modifies this`rows
      ensures rows == old(rows) - {k}
    {
      rows := rows - {k};
    }

    method Complete(k: Key, r: Response)
      modifies this`rows
      ensures rows.Keys == old(rows).Keys
      ensures forall other :: other in rows && other != k ==> rows[other] == old(rows)[other]
      ensures k in rows ==> rows[k] == Completed(old(rows)[k].hash, old(rows)[k].createdAt, r)
    {
      if k in rows { rows := rows[k := Completed(rows[k].hash, rows[k].createdAt, r)]; }
    }

    method RunAndRecord(k: Key, e: Ending)
      modifies this`rows
      ensures rows == Recorded(old(rows), k, e) && Recording(old(rows), rows, k, e)
    {
      RecordedIsRecording(rows, k, e);
      if e.Erred? {
        Delete(k);
        return;
      }
      var status := e.response.status;
      if 200 <= status < 300 {
        Complete(k, e.response);
      } else {
        Delete(k);
      }
    }

    method ReplayOrReject(k: Key, hash: string, now: int) returns (v: Verdict)
      modifies this`rows
      ensures v == Judge(old(rows), k, hash, now, ttl, pendingTimeout)
      ensures Judging(old(rows), k, hash, now, ttl, pendingTimeout, v)
      ensures rows == if v.Proceed? then old(rows) - {k} else old(rows)
    {
      if k !in rows {
        assert rows == rows - {k};
        return Proceed;
      }
      var rec := rows[k];
      if now - rec.createdAt > ttl {
        Delete(k);
        return Proceed;
      }
      if rec.hash != hash { return Mismatch; }
      if rec.Pending? {
        if now - rec.createdAt > pendingTimeout {
          Delete(k);
          return Proceed;
        }
        return InProgress;
      }
      return Replay(rec.response);
    }

    method Sweep(now: int)
      modifies this`rows
      ensures forall k :: k in rows <==> k in old(rows) && !Older(old(rows)[k], now, ttl)
      ensures forall k :: k in rows ==> rows[k] == old(rows)[k]
    {
      rows := map k | k in rows && !(rows[k].createdAt < now - ttl) :: rows[k];
    }
  }

  /** The machine's sweep below is the method's. */
  lemma SweptBySweep(before: Table, after: Table, now: int, ttl: int)
    requires forall k :: k in after <==> k in before && !Older(before[k], now, ttl)
    requires forall k :: k in after ==> after[k] == before[k]
    ensures after == Swept(before, now, ttl)
  {
  }

  // ---- all interleavings ----

  /** `slowWinners` allows a live winner to run past the pending timeout, and `splitLosers` other
      statements between a loser's read of the row and its delete. Nothing in the code prevents
      either. */
  datatype Config = Config(ttl: int, pendingTimeout: int, slowWinners: bool, splitLosers: bool)

  /** No live winner outlasts its row. */
  predicate PunctualWinners(c: Config) {
    !c.slowWinners && 0 <= c.pendingTimeout <= c.ttl
  }

  predicate Timely(c: Config) {
    PunctualWinners(c) && !c.splitLosers
  }

  /** A request whose handler has been running since the given time. */
  datatype Running = Running(key: Key, hash: string, since: int)

  /** `winners` inserted their row. `losers` found one and have not yet read it; `takers` have read
      it and are about to delete it; `strays` went ahead without a row of their own. The last four
      record history: the answers of successful recorded runs, the replays sent, and the start times
      of all handler runs and of those that sent: they succeeded, recorded or not, or crashed after the
      send. */
  datatype State = State(
    now: int,
    rows: Table,
    winners: map<nat, Running>,
    losers: map<nat, (Key, string)>,
    takers: map<nat, (Key, string)>,
    strays: map<nat, Running>,
    successes: set<(Key, string, Response)>,
    replays: set<(Key, string, Response)>,
    begun: multiset<(Key, int)>,
    sent: multiset<(Key, int)>)

  datatype Step =
    | Tick(elapsed: nat)
    | Arrive(id: nat, key: Key, hash: string)
    | End(id: nat, ending: Ending)
    | EndUnrecorded(id: nat, ending: Ending)
    | Crash(id: nat, sent: bool)
    | Decide(id: nat)
    | Read(id: nat)
    | Take(id: nat)
    | Sweep

  predicate Enabled(c: Config, s: State, step: Step) {
    match step
    case Tick(d) => c.slowWinners || forall id :: id in s.winners ==>
        s.now + d - s.winners[id].since <= c.pendingTimeout
    case Arrive(id, _, _) => id !in s.winners && id !in s.losers && id !in s.takers && id !in s.strays
    case End(id, _) => id in s.winners
    case EndUnrecorded(id, _) => id in s.strays
    case Crash(id, _) => id in s.winners || id in s.strays
    case Decide(id) => id in s.losers
    case Read(id) =>
      && c.splitLosers && id in s.losers && s.losers[id].0 in s.rows
      && Judge(s.rows, s.losers[id].0, s.losers[id].1, s.now, c.ttl, c.pendingTimeout).Proceed?
    case Take(id) => id in s.takers
    case Sweep => true
  }

  function RunUnrecorded(s: State, id: nat, k: Key, hash: string): State {
    s.(strays := s.strays[id := Running(k, hash, s.now)], begun := s.begun + multiset{(k, s.now)})
  }

  function Do(c: Config, s: State, step: Step): State
    requires Enabled(c, s, step)
  {
    match step
    case Tick(d) => s.(now := s.now + d)
    case Arrive(id, k, hash) =>
      if k in s.rows then s.(losers := s.losers[id := (k, hash)])
      else s.(rows := Inserted(s.rows, k, hash, s.now), winners := s.winners[id := Running(k, hash, s.now)],
              begun := s.begun + multiset{(k, s.now)})
    case End(id, e) =>
      var w := s.winners[id];
      s.(rows := Recorded(s.rows, w.key, e), winners := s.winners - {id},
         successes := if Succeeded(e) then s.successes + {(w.key, w.hash, e.response)} else s.successes,
         sent := if Succeeded(e) then s.sent + multiset{(w.key, w.since)} else s.sent)
    case EndUnrecorded(id, e) =>
      var w := s.strays[id];
      s.(strays := s.strays - {id}, sent := if Succeeded(e) then s.sent + multiset{(w.key, w.since)} else s.sent)
    case Crash(id, sent) =>
      // it may have sent before it died
      var w := if id in s.winners then s.winners[id] else s.strays[id];
      s.(winners := s.winners - {id}, strays := s.strays - {id},
         sent := if sent then s.sent + multiset{(w.key, w.since)} else s.sent)
    case Decide(id) =>
      var (k, hash) := s.losers[id];
      var v := Judge(s.rows, k, hash, s.now, c.ttl, c.pendingTimeout);
      var t := s.(losers := s.losers - {id});
      (match v
       case Proceed => RunUnrecorded(t.(rows := s.rows - {k}), id, k, hash)
       case Replay(r) => t.(replays := s.replays + {(k, hash, r)})
       case _ => t)
    case Read(id) => s.(losers := s.losers - {id}, takers := s.takers[id := s.losers[id]])
    case Take(id) =>
      var (k, hash) := s.takers[id];
      RunUnrecorded(s.(takers := s.takers - {id}, rows := s.rows - {k}), id, k, hash)
    case Sweep => s.(rows := Swept(s.rows, s.now, c.ttl))
  }

  ghost predicate Init(s: State) {
    s.rows == map[] && s.winners == map[] && s.losers == map[] && s.takers == map[] && s.strays == map[]
    && s.successes == {} && s.replays == {} && s.begun == multiset{} && s.sent == multiset{}
  }

  ghost predicate Run(c: Config, states: seq<State>, steps: seq<Step>) {
    && |states| == |steps| + 1 && Init(states[0])
    && forall i :: 0 <= i < |steps| ==> Enabled(c, states[i], steps[i]) && states[i + 1] == Do(c, states[i], steps[i])
  }

  /** Each running winner owns its key's pending row. */
  ghost predicate WinnersOwnRows(s: State) {
    && (forall id :: id in s.winners ==>
          s.winners[id].key in s.rows && s.rows[s.winners[id].key] == Pending(s.winners[id].hash, s.winners[id].since))
    && (forall i, j :: i in s.winners && j in s.winners && s.winners[i].key == s.winners[j].key ==> i == j)
  }

  /** A completed row holds the response of a successful run made with that row's hash, and every
      replay was exactly such a response for the same key and request. */
  ghost predicate AnswersAreTrue(s: State) {
    && (forall k :: k in s.rows && s.rows[k].Completed? ==> (k, s.rows[k].hash, s.rows[k].response) in s.successes)
    && s.replays <= s.successes
  }

  ghost predicate WinnersInTime(c: Config, s: State) {
    forall id :: id in s.winners ==> s.winners[id].since <= s.now <= s.winners[id].since + c.pendingTimeout
  }

  /** What holds in every reachable state when winners are timely. */
  ghost predicate Consistent(c: Config, s: State) {
    WinnersOwnRows(s) && AnswersAreTrue(s) && WinnersInTime(c, s) && s.takers == map[]
  }

  lemma StepKeepsConsistent(c: Config, s: State, step: Step)
    requires PunctualWinners(c) && Consistent(c, s) && Enabled(c, s, step) && !step.Read?
    ensures Consistent(c, Do(c, s, step))
  {
    match step
    case Arrive(id, k, hash) => ArriveKeepsConsistent(c, s, id, k, hash);
    case End(id, e) => EndKeepsConsistent(c, s, id, e);
    case Decide(id) => DecideKeepsConsistent(c, s, id);
    case _ =>
  }

  lemma ArriveKeepsConsistent(c: Config, s: State, id: nat, k: Key, hash: string)
    requires 0 <= c.pendingTimeout && Consistent(c, s) && Enabled(c, s, Arrive(id, k, hash))
    ensures Consistent(c, Do(c, s, Arrive(id, k, hash)))
  {
    if k !in s.rows { WinKeepsConsistent(c, s, id, k, hash); }
  }

  lemma WinKeepsConsistent(c: Config, s: State, id: nat, k: Key, hash: string)
    requires 0 <= c.pendingTimeout && Consistent(c, s) && Enabled(c, s, Arrive(id, k, hash)) && k !in s.rows
    ensures Consistent(c, Do(c, s, Arrive(id, k, hash)))
  {
  }

  lemma EndKeepsConsistent(c: Config, s: State, id: nat, e: Ending)
    requires Consistent(c, s) && Enabled(c, s, End(id, e))
    ensures Consistent(c, Do(c, s, End(id, e)))
  {
  }

  lemma DecideKeepsConsistent(c: Config, s: State, id: nat)
    requires c.pendingTimeout <= c.ttl && Consistent(c, s) && Enabled(c, s, Decide(id))
    ensures Consistent(c, Do(c, s, Decide(id)))
  {
  }

  lemma {:induction false} RunsAreConsistent(c: Config, states: seq<State>, steps: seq<Step>)
    requires PunctualWinners(c) && Run(c, states, steps)
    requires forall i :: 0 <= i < |steps| ==> !steps[i].Read?
    ensures Consistent(c, states[|steps|])
  {
    if steps != [] {
      var n := |steps| - 1;
      RunsAreConsistent(c, states[..n + 1], steps[..n]);
      StepKeepsConsistent(c, states[n], steps[n]);
    }
  }

  lemma StepKeepsCompletedRow(c: Config, s: State, step: Step, k: Key)
    requires Consistent(c, s) && Enabled(c, s, step)
    requires k in s.rows && s.rows[k].Completed? && !Older(s.rows[k], Do(c, s, step).now, c.ttl)
        && !Older(s.rows[k], s.now, c.ttl)
    ensures var t := Do(c, s, step);
      k in t.rows && t.rows[k] == s.rows[k] && forall at :: t.begun[(k, at)] == s.begun[(k, at)]
  {
    if step.End? { assert s.rows[s.winners[step.id].key].Pending?; }
  }

  /** Once a key has a completed row, that row answers for it until it expires: nothing changes it
      and no request starts the handler, whatever else happens. */
  lemma {:induction false} CompletedRowHolds(c: Config, states: seq<State>, steps: seq<Step>, i: nat, k: Key)
    requires Timely(c) && Run(c, states, steps) && i <= |steps|
    requires k in states[i].rows && states[i].rows[k].Completed?
        && !Older(states[i].rows[k], states[|steps|].now, c.ttl)
    ensures var s, t := states[i], states[|steps|];
      k in t.rows && t.rows[k] == s.rows[k] && forall at :: t.begun[(k, at)] == s.begun[(k, at)]
  {
    if i < |steps| {
      var n := |steps| - 1;
      assert states[n + 1] == Do(c, states[n], steps[n]) && states[n].now <= states[n + 1].now;
      CompletedRowHolds(c, states[..n + 1], steps[..n], i, k);
      RunsAreConsistent(c, states[..n + 1], steps[..n]);
      StepKeepsCompletedRow(c, states[n], steps[n], k);
    }
  }

  /** A later request that reads an unexpired completed row gets the recorded response of a
      successful run of the same request, or is refused because its body differs. */
  lemma LateRequestIsAnswered(c: Config, states: seq<State>, steps: seq<Step>, id: nat)
    requires Timely(c) && Run(c, states, steps)
    requires var s := states[|steps|];
      && id in s.losers && s.losers[id].0 in s.rows
      && s.rows[s.losers[id].0].Completed? && !Older(s.rows[s.losers[id].0], s.now, c.ttl)
    ensures var s := states[|steps|]; var (k, hash) := s.losers[id];
      match Judge(s.rows, k, hash, s.now, c.ttl, c.pendingTimeout)
      case Replay(r) => (k, hash, r) in s.successes
      case Mismatch => s.rows[k].hash != hash
      case _ => false
  {
    RunsAreConsistent(c, states, steps);
  }

  /** Once a run has ended with any status from 200 to 299, every copy of its request within the TTL is
      replayed its response, and a request with another body is refused. */
  lemma SuccessIsReplayed(c: Config, states: seq<State>, steps: seq<Step>, i: nat, hash: string, replayed: Verdict)
    requires Timely(c) && Run(c, states, steps) && i < |steps| && steps[i].End? && steps[i].ending.Responded?
    requires 200 <= steps[i].ending.response.status <= 299
    requires var w, last := states[i].winners[steps[i].id], states[|steps|];
      last.now - w.since <= c.ttl && Judging(last.rows, w.key, hash, last.now, c.ttl, c.pendingTimeout, replayed)
    ensures replayed ==
      if hash == states[i].winners[steps[i].id].hash then Replay(steps[i].ending.response) else Mismatch
  {
    var w, r := states[i].winners[steps[i].id], steps[i].ending.response;
    assert Enabled(c, states[i], steps[i]) && states[i + 1] == Do(c, states[i], steps[i]);
    assert Run(c, states[..i + 1], steps[..i]);
    RunsAreConsistent(c, states[..i + 1], steps[..i]);
    assert states[i].rows[w.key] == Pending(w.hash, w.since);
    RecordedIsRecording(states[i].rows, w.key, steps[i].ending);
    assert states[i + 1].rows[w.key] == Completed(w.hash, w.since, r);
    CompletedRowHolds(c, states, steps, i + 1, w.key);
  }

  ghost predicate CanAnswerWrongly(c: Config) {
    exists states, steps :: Run(c, states, steps) && !AnswersAreTrue(states[|steps|])
  }

  // ---- runs that answer wrongly ----

  /** The state every run starts from, at time zero. */
  function Start(): (s: State)
    ensures Init(s) && s.now == 0
  {
    State(0, map[], map[], map[], map[], map[], {}, {}, multiset{}, multiset{})
  }

  lemma Play(c: Config, states: seq<State>, steps: seq<Step>, step: Step)
    returns (states': seq<State>, steps': seq<Step>)
    requires Run(c, states, steps) && Enabled(c, states[|steps|], step)
    ensures states' == states + [Do(c, states[|steps|], step)] && steps' == steps + [step]
    ensures Run(c, states', steps')
  {
    hide Do, Enabled, Init;
    states', steps' := states + [Do(c, states[|steps|], step)], steps + [step];
  }

  /** A winner that outlives its row completes the row of the next request, under that request's
      hash: its response is then replayed for a body it does not belong to. */
  lemma SlowWinnerAnswersForAnother(c: Config)
    requires 0 <= c.ttl && (c.slowWinners || c.pendingTimeout > c.ttl)
    ensures CanAnswerWrongly(c)
  {
    var k, r, late := Key("account", "key"), Response(200, "first"), c.ttl + 1;
    var states, steps := RowTakenOver(c, k, "b", late);
    hide Run;
    states, steps := Play(c, states, steps, End(0, Responded(r)));
    assert "a"[0] != "b"[0];
    assert states[|steps|].rows[k] == Completed("b", late, r);
    assert !AnswersAreTrue(states[|steps|]);
  }

  /** The first winner's row expires and is swept, and the next request takes the key. */
  lemma RowTakenOver(c: Config, k: Key, hash: string, late: nat) returns (states: seq<State>, steps: seq<Step>)
    requires 0 <= c.ttl < late && (c.slowWinners || c.pendingTimeout >= late)
    ensures Run(c, states, steps)
    ensures var s := states[|steps|];
      && s.now == late && s.rows == map[k := Pending(hash, late)]
      && s.winners == map[0 := Running(k, "a", 0), 1 := Running(k, hash, late)]
      && s.losers == map[] && s.takers == map[] && s.strays == map[] && s.successes == {} && s.sent == multiset{}
    ensures steps == [Arrive(0, k, "a"), Tick(late), Sweep, Arrive(1, k, hash)]
  {
    states, steps := Play(c, [Start()], [], Arrive(0, k, "a"));
    hide Run;
    assert states[|steps|].rows == map[k := Pending("a", 0)];
    assert states[|steps|].winners == map[0 := Running(k, "a", 0)];
    states, steps := Play(c, states, steps, Tick(late));
    states, steps := Play(c, states, steps, Sweep);
    assert states[|steps|].rows == map[];
    states, steps := Play(c, states, steps, Arrive(1, k, hash));
  }

  /** Two requests both read a crashed winner's row. One deletes it, a third request takes the key,
      and only then does the other delete what is now the third's row. A fourth request takes the
      key, and the third's response is recorded for it. */
  lemma SplitLoserMixesAnswers(c: Config)
    requires c.splitLosers && 0 <= c.pendingTimeout <= c.ttl
    ensures CanAnswerWrongly(c)
  {
    var k, r, now := Key("account", "key"), Response(200, "third"), c.pendingTimeout + 1;
    var states, steps := WrongRowTaken(c, k, now);
    hide Run;
    states, steps := Play(c, states, steps, Arrive(4, k, "b"));
    assert states[|steps|].winners[3] == Running(k, "a", now);
    states, steps := Play(c, states, steps, End(3, Responded(r)));
    assert "a"[0] != "b"[0];
    assert states[|steps|].rows[k] == Completed("b", now, r);
    assert !AnswersAreTrue(states[|steps|]);
  }

  lemma WrongRowTaken(c: Config, k: Key, now: nat) returns (states: seq<State>, steps: seq<Step>)
    requires c.splitLosers && 0 <= c.pendingTimeout < now
    ensures Run(c, states, steps)
    ensures var s := states[|steps|];
      && s.now == now && s.rows == map[] && s.winners == map[3 := Running(k, "a", now)] && s.losers == map[]
      && s.takers == map[] && s.strays.Keys == {1, 2} && s.successes == {}
  {
    states, steps := TwoReadCrashedRow(c, k, now);
    hide Run;
    states, steps := TakeBy(c, states, steps, k, 2);
    states, steps := Play(c, states, steps, Arrive(3, k, "a"));
    assert states[|steps|].rows == map[k := Pending("a", now)];
    assert states[|steps|].winners == map[3 := Running(k, "a", now)];
    states, steps := TakeBy(c, states, steps, k, 1);
  }

  /** One of the readers deletes the row that is there now. */
  lemma TakeBy(c: Config, states: seq<State>, steps: seq<Step>, k: Key, id: nat)
    returns (states': seq<State>, steps': seq<Step>)
    requires Run(c, states, steps) && id in states[|steps|].takers && states[|steps|].takers[id].0 == k
    requires states[|steps|].rows.Keys == {k}
    ensures Run(c, states', steps')
    ensures var s, t := states[|steps|], states'[|steps'|];
      && t.rows == map[] && t.takers == s.takers - {id} && t.strays.Keys == s.strays.Keys + {id}
      && t.now == s.now && t.winners == s.winners && t.losers == s.losers && t.successes == s.successes
  {
    states', steps' := Play(c, states, steps, Take(id));
  }

  lemma TwoReadCrashedRow(c: Config, k: Key, now: nat) returns (states: seq<State>, steps: seq<Step>)
    requires c.splitLosers && 0 <= c.pendingTimeout < now
    ensures Run(c, states, steps)
    ensures var s := states[|steps|];
      && s.now == now && s.rows == map[k := Pending("a", 0)] && s.winners == map[] && s.losers == map[]
      && s.takers == map[1 := (k, "a"), 2 := (k, "a")] && s.strays == map[] && s.successes == {}
  {
    states, steps := Play(c, [Start()], [], Arrive(0, k, "a"));
    hide Run;
    assert states[|steps|].rows == map[k := Pending("a", 0)];
    states, steps := Play(c, states, steps, Crash(0, false));
    assert states[|steps|].winners == map[];
    states, steps := Play(c, states, steps, Tick(now));
    states, steps := ReadBy(c, states, steps, k, 1);
    states, steps := ReadBy(c, states, steps, k, 2);
  }

  /** One more request finds the row and reads it. */
  lemma ReadBy(c: Config, states: seq<State>, steps: seq<Step>, k: Key, id: nat)
    returns (states': seq<State>, steps': seq<Step>)
    requires Run(c, states, steps) && c.splitLosers && id !in states[|steps|].takers && id !in states[|steps|].strays
    requires var s := states[|steps|];
      s.winners == map[] && s.losers == map[] && s.rows == map[k := Pending("a", 0)] && s.now > c.pendingTimeout
    ensures Run(c, states', steps')
    ensures states'[|steps'|] == states[|steps|].(takers := states[|steps|].takers[id := (k, "a")])
  {
    states', steps' := Play(c, states, steps, Arrive(id, k, "a"));
    hide Run;
    assert states'[|steps'|].losers == map[id := (k, "a")];
    states', steps' := Play(c, states', steps', Read(id));
    assert states'[|steps'|].losers == map[];
  }

  /** Answers are always true exactly when no live winner can outlast its row and losers are not
      interrupted between reading and deleting. */
  lemma CanAnswerWronglyIff(c: Config)
    requires 0 <= c.ttl && 0 <= c.pendingTimeout
    ensures CanAnswerWrongly(c) <==> c.slowWinners || c.pendingTimeout > c.ttl || c.splitLosers
  {
    if c.slowWinners || c.pendingTimeout > c.ttl {
      SlowWinnerAnswersForAnother(c);
    } else if c.splitLosers {
      SplitLoserMixesAnswers(c);
    } else if CanAnswerWrongly(c) {
      var states, steps :| Run(c, states, steps) && !AnswersAreTrue(states[|steps|]);
      RunsAreConsistent(c, states, steps);
    }
  }
}
