/**
 Concurrent reads under one budget: the lookup, the token, the server's answer and the store of
 queryWithBudget (internal/usecase/whatsapp/query.go) are separate steps, so requests for the same key
 can all miss and fetch, and each step of one request can fall between any two of another.
 */
module QueryMachine {
  import opened Common
  import opened QueryBudget
  import FixedWindow

  datatype Config = Config(ttl: int, budget: FixedWindow.Setting)

  datatype Request = Request(account: string, key: string, kind: nat)

  /** A request that missed, then got its token, then its value from the server. */
  datatype Phase = Missed | Paying | Returned(value: Value)

  /** An answer, from the cache or fresh, and when it was looked up or stored. */
  datatype Served = Served(request: Request, value: Value, at: int, cached: bool)

  /** The last four record history: server reads, what the server returned for which key, what was
      stored, and the answers. */
  datatype State = State(
    now: int,
    cache: map<string, CacheEntry>,
    asks: map<string, seq<FixedWindow.Ask>>,
    calls: map<nat, (Request, Phase)>,
    serverReads: seq<ServerRead>,
    returned: set<(string, Value)>,
    fetches: seq<Fetch>,
    answers: set<Served>)

  datatype Step =
    | Lookup(id: nat, request: Request, at: int)
    | Spend(id: nat, at: int)
    | Return(id: nat, result: Option<Value>)
    | Store(id: nat, at: int)
    | CheckFreshness(account: string, at: int)

  function Asked(s: State, account: string): seq<FixedWindow.Ask> {
    if account in s.asks then s.asks[account] else []
  }

  predicate HasToken(c: Config, s: State, account: string, at: int) {
    FixedWindow.Grants(c.budget, FixedWindow.WindowAfter(c.budget, Asked(s, account)), FixedWindow.Ask(at, 1))
  }

  predicate Hit(s: State, r: Request, at: int) {
    r.key in s.cache && at <= s.cache[r.key].expiresAt && s.cache[r.key].value.kind == r.kind
  }

  predicate Enabled(s: State, step: Step) {
    match step
    case Lookup(id, _, at) => id !in s.calls && s.now <= at
    case Spend(id, at) => id in s.calls && s.calls[id].1.Missed? && s.now <= at
    case Return(id, result) =>
      id in s.calls && s.calls[id].1.Paying? && (result.Some? ==> result.value.kind == s.calls[id].0.kind)
    case Store(id, at) => id in s.calls && s.calls[id].1.Returned? && s.now <= at
    case CheckFreshness(_, at) => s.now <= at
  }

  /** One question to the account's window. */
  function Ask(c: Config, s: State, account: string, at: int): State {
    s.(now := at, asks := s.asks[account := Asked(s, account) + [FixedWindow.Ask(at, 1)]],
       serverReads := if HasToken(c, s, account, at) then s.serverReads + [ServerRead(account, at)] else s.serverReads)
  }

  function Do(c: Config, s: State, step: Step): State
    requires Enabled(s, step)
  {
    match step
    case Lookup(id, r, at) =>
      if Hit(s, r, at) then s.(now := at, answers := s.answers + {Served(r, s.cache[r.key].value, at, true)})
      else s.(now := at, calls := s.calls[id := (r, Missed)])
    case Spend(id, at) =>
      var (r, _) := s.calls[id];
      Ask(c, s, r.account, at)
        .(calls := if HasToken(c, s, r.account, at) then s.calls[id := (r, Paying)] else s.calls - {id})
    case Return(id, result) =>
      var (r, _) := s.calls[id];
      (match result
       case None => s.(calls := s.calls - {id})
       case Some(v) => s.(calls := s.calls[id := (r, Returned(v))], returned := s.returned + {(r.key, v)}))
    case Store(id, at) =>
      var (r, phase) := s.calls[id];
      s.(now := at, calls := s.calls - {id}, cache := s.cache[r.key := CacheEntry(phase.value, at + c.ttl)],
         fetches := s.fetches + [Fetch(r.key, phase.value, at)],
         answers := s.answers + {Served(r, phase.value, at, false)})
    case CheckFreshness(account, at) => Ask(c, s, account, at)
  }

  ghost predicate Init(s: State) {
    && s.cache == map[] && s.asks == map[] && s.calls == map[]
    && s.serverReads == [] && s.returned == {} && s.fetches == [] && s.answers == {}
  }

  ghost predicate Run(c: Config, states: seq<State>, steps: seq<Step>) {
    && |states| == |steps| + 1 && Init(states[0])
    && forall i :: 0 <= i < |steps| ==> Enabled(states[i], steps[i]) && states[i + 1] == Do(c, states[i], steps[i])
  }

  // ---- provenance and age ----

  /** An answer is something the server returned for that key, of the kind asked for, and if it came
      from the cache it had been stored at most one TTL before. */
  ghost predicate TrueAnswer(c: Config, s: State, a: Served) {
    && (a.request.key, a.value) in s.returned && a.value.kind == a.request.kind
    && (a.cached ==> exists f ::
          f in s.fetches && f.key == a.request.key && f.value == a.value && a.at - f.storedAt <= c.ttl)
  }

  /** A lookup is answered exactly when a fresh entry of the right kind is there. */
  lemma FreshEntryAnswers(c: Config, s: State, id: nat, r: Request, at: int)
    requires Enabled(s, Lookup(id, r, at))
    ensures var t := Do(c, s, Lookup(id, r, at));
      if r.key in s.cache && at <= s.cache[r.key].expiresAt && s.cache[r.key].value.kind == r.kind
      then Served(r, s.cache[r.key].value, at, true) in t.answers && t.calls == s.calls
      else t.answers == s.answers && t.calls == s.calls[id := (r, Missed)]
  {
  }

  ghost predicate CallsAreTrue(s: State) {
    forall id :: id in s.calls && s.calls[id].1.Returned? ==>
      (s.calls[id].0.key, s.calls[id].1.value) in s.returned && s.calls[id].1.value.kind == s.calls[id].0.kind
  }

  ghost predicate FetchesAreTrue(s: State) {
    forall f :: f in s.fetches ==> (f.key, f.value) in s.returned
  }

  ghost predicate Provenance(c: Config, s: State) {
    && Backed(s.cache, s.fetches, c.ttl) && CallsAreTrue(s) && FetchesAreTrue(s)
    && forall a :: a in s.answers ==> TrueAnswer(c, s, a)
  }

  lemma StillTrue(c: Config, s: State, t: State, a: Served)
    requires TrueAnswer(c, s, a) && s.returned <= t.returned && (forall f :: f in s.fetches ==> f in t.fetches)
    ensures TrueAnswer(c, t, a)
  {
  }

  lemma LookupKeepsProvenance(c: Config, s: State, id: nat, r: Request, at: int)
    requires Provenance(c, s) && Enabled(s, Lookup(id, r, at))
    ensures Provenance(c, Do(c, s, Lookup(id, r, at)))
  {
    var t := Do(c, s, Lookup(id, r, at));
    forall a | a in t.answers ensures TrueAnswer(c, t, a) {
      if a in s.answers {
        StillTrue(c, s, t, a);
      } else {
        var e := s.cache[r.key];
        assert Fetch(r.key, e.value, e.expiresAt - c.ttl) in s.fetches;
      }
    }
  }

  lemma StoreKeepsProvenance(c: Config, s: State, id: nat, at: int)
    requires Provenance(c, s) && Enabled(s, Store(id, at))
    ensures Provenance(c, Do(c, s, Store(id, at)))
  {
    var t := Do(c, s, Store(id, at));
    assert t.fetches[|s.fetches|] in t.fetches;
    forall a | a in t.answers ensures TrueAnswer(c, t, a) {
      if a in s.answers { StillTrue(c, s, t, a); }
    }
  }

  lemma ReturnKeepsProvenance(c: Config, s: State, id: nat, result: Option<Value>)
    requires Provenance(c, s) && Enabled(s, Return(id, result))
    ensures Provenance(c, Do(c, s, Return(id, result)))
  {
    var t := Do(c, s, Return(id, result));
    forall a | a in t.answers ensures TrueAnswer(c, t, a) { StillTrue(c, s, t, a); }
  }

  lemma AskKeepsProvenance(c: Config, s: State, step: Step)
    requires Provenance(c, s) && Enabled(s, step) && (step.Spend? || step.CheckFreshness?)
    ensures Provenance(c, Do(c, s, step))
  {
    hide HasToken;
    var t := Do(c, s, step);
    forall a | a in t.answers ensures TrueAnswer(c, t, a) { StillTrue(c, s, t, a); }
  }

  // ---- the budget ----

  ghost predicate Budgeted(c: Config, s: State) {
    forall a :: Paid(s.serverReads, a, c.budget, Asked(s, a)) && UpTo(Asked(s, a), s.now)
  }

  lemma AskKeepsBudget(c: Config, s: State, account: string, at: int)
    requires Budgeted(c, s) && s.now <= at
    ensures Budgeted(c, Ask(c, s, account, at))
  {
    var t, granted := Ask(c, s, account, at), HasToken(c, s, account, at);
    assert Paid(s.serverReads, account, c.budget, Asked(s, account)) && UpTo(Asked(s, account), s.now);
    PayOne(s.serverReads, account, c.budget, Asked(s, account), at);
    UpToAppend(Asked(s, account), s.now, at);
    hide Paid, UpTo;
    forall a ensures Paid(t.serverReads, a, c.budget, Asked(t, a)) && UpTo(Asked(t, a), t.now) {
      if a != account {
        assert Paid(s.serverReads, a, c.budget, Asked(s, a)) && UpTo(Asked(s, a), s.now);
        StillUpTo(Asked(s, a), s.now, at);
        if granted { OthersStayPaid(s.serverReads, a, ServerRead(account, at), c.budget, Asked(s, a)); }
      }
    }
  }

  lemma IdleKeepsBudget(c: Config, s: State, t: State)
    requires Budgeted(c, s) && t.serverReads == s.serverReads && t.asks == s.asks && s.now <= t.now
    ensures Budgeted(c, t)
  {
    forall a ensures Paid(t.serverReads, a, c.budget, Asked(t, a)) && UpTo(Asked(t, a), t.now) {
      assert Paid(s.serverReads, a, c.budget, Asked(s, a)) && UpTo(Asked(s, a), s.now);
      StillUpTo(Asked(s, a), s.now, t.now);
    }
  }

  lemma StepKeepsSound(c: Config, s: State, step: Step)
    requires Provenance(c, s) && Budgeted(c, s) && Enabled(s, step)
    ensures Provenance(c, Do(c, s, step)) && Budgeted(c, Do(c, s, step))
  {
    hide Provenance, HasToken, Paid, UpTo;
    match step
    case Lookup(id, r, at) =>
      LookupKeepsProvenance(c, s, id, r, at);
      IdleKeepsBudget(c, s, Do(c, s, step));
    case Spend(id, at) =>
      AskKeepsProvenance(c, s, step);
      AskKeepsBudget(c, s, s.calls[id].0.account, at);
      IdleKeepsBudget(c, Ask(c, s, s.calls[id].0.account, at), Do(c, s, step));
    case Return(id, result) =>
      ReturnKeepsProvenance(c, s, id, result);
      IdleKeepsBudget(c, s, Do(c, s, step));
    case Store(id, at) =>
      StoreKeepsProvenance(c, s, id, at);
      IdleKeepsBudget(c, s, Do(c, s, step));
    case CheckFreshness(account, at) =>
      AskKeepsProvenance(c, s, step);
      AskKeepsBudget(c, s, account, at);
  }

  /** In every interleaving, every answer is something the server returned for that key and kind, the
      cached ones stored at most one TTL before they were looked up. */
  lemma {:induction false} AnswersAreTrue(c: Config, states: seq<State>, steps: seq<Step>)
    requires Run(c, states, steps)
    ensures Provenance(c, states[|steps|]) && Budgeted(c, states[|steps|])
    ensures forall a :: a in states[|steps|].answers ==> TrueAnswer(c, states[|steps|], a)
  {
    if steps == [] {
      NothingIsSound(c, states[0]);
    } else {
      var n := |steps| - 1;
      AnswersAreTrue(c, states[..n + 1], steps[..n]);
      StepKeepsSound(c, states[n], steps[n]);
    }
  }

  lemma NothingIsSound(c: Config, s: State)
    requires Init(s)
    ensures Provenance(c, s) && Budgeted(c, s)
  {
  }

  /** And however many requests miss at once, an account's server reads, freshness checks included,
      stay within k + 1 limits over any k windows. */
  lemma ReadsAreBounded(c: Config, states: seq<State>, steps: seq<Step>, account: string, from: int, k: nat)
    requires Run(c, states, steps) && c.budget.window >= 0 && k >= 1
    ensures ReadsWithin(states[|steps|].serverReads, account, from, from + k * c.budget.window)
            <= (k + 1) * Max(0, c.budget.limit)
  {
    AnswersAreTrue(c, states, steps);
    var asks := Asked(states[|steps|], account);
    assert Paid(states[|steps|].serverReads, account, c.budget, asks) && UpTo(asks, states[|steps|].now);
    FixedWindow.WindowBound(c.budget, asks, from, k);
  }
}
