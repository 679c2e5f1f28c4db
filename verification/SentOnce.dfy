/**
 How often requests that share an idempotency key are run and succeed: over whole runs of the
 machine in Idempotency, of any length, with expired rows, failures and crashes.
 */
module SentOnce {
  import opened Common
  import opened Idempotency

  /** The request that a step lets past the row it found, and by which branch. */
  function Ahead(c: Config, s: State, step: Step): Option<(Key, Branch)>
    requires Enabled(c, s, step)
  {
    if step.Decide? || step.Read? then
      var (k, hash) := s.losers[step.id];
      match Guard(s.rows, k, hash, s.now, c.ttl, c.pendingTimeout)
      case Some(b) => Some((k, b))
      case None => None
    else None
  }

  ghost predicate NobodyAhead(c: Config, states: seq<State>, steps: seq<Step>, k: Key)
    requires Run(c, states, steps)
  {
    forall i :: 0 <= i < |steps| ==> Ahead(c, states[i], steps[i]).None? || Ahead(c, states[i], steps[i]).value.0 != k
  }

  /** A recorded run of the key that ends without success; its row is deleted. */
  predicate Fails(s: State, step: Step, k: Key) {
    step.End? && step.id in s.winners && s.winners[step.id].key == k && !Succeeded(step.ending)
  }

  ghost predicate NoneFails(states: seq<State>, steps: seq<Step>, k: Key)
    requires |states| == |steps| + 1
  {
    forall i :: 0 <= i < |steps| ==> !Fails(states[i], steps[i], k)
  }

  /** Two times at which runs of the key began lie more than one TTL apart: no window as long as the
      TTL, wherever it lies, holds two of them. */
  ghost predicate Spaced(log: multiset<(Key, int)>, k: Key, ttl: int) {
    && (forall at :: log[(k, at)] <= 1)
    && forall a, b :: (k, a) in log && (k, b) in log && a < b ==> b - a > ttl
  }

  /** What the row of a key, if there is one, says about a log of that key's runs: each began when
      the row was created, which only a row that is `final` accounts for, or more than one TTL
      before the row, or the present, if there is none. */
  ghost predicate Accounts(log: multiset<(Key, int)>, k: Key, row: Option<Row>, final: bool, now: int, ttl: int) {
    && Spaced(log, k, ttl)
    && (row.Some? ==> row.value.createdAt <= now)
    && forall at :: (k, at) in log ==>
         if row.None? then now - at > ttl
         else (final && at == row.value.createdAt) || row.value.createdAt - at > ttl
  }

  ghost predicate SameFor(k: Key, log: multiset<(Key, int)>, log': multiset<(Key, int)>) {
    forall at :: log'[(k, at)] == log[(k, at)]
  }

  /** Time passes and the row stays, or goes once it is older than the TTL or accounts for nothing. */
  lemma StillAccounts(log: multiset<(Key, int)>, log': multiset<(Key, int)>, k: Key,
                      row: Option<Row>, row': Option<Row>, final: bool, final': bool, now: int, now': int, ttl: int)
    requires Accounts(log, k, row, final, now, ttl) && SameFor(k, log, log') && now <= now'
    requires row.None? ==> row'.None?
    requires row.Some? && row'.Some? ==> row'.value.createdAt == row.value.createdAt && (final ==> final')
    requires row.Some? && row'.None? && final ==> now' - row.value.createdAt > ttl
    ensures Accounts(log', k, row', final', now', ttl)
  {
    forall at | (k, at) in log' ensures (k, at) in log { assert log'[(k, at)] == log[(k, at)]; }
  }

  /** One more run, with a row that accounts for it. */
  lemma AccountsForOneMore(log: multiset<(Key, int)>, log': multiset<(Key, int)>, k: Key, at: int,
                           row: Option<Row>, row': Option<Row>, now: int, ttl: int)
    requires Accounts(log, k, row, false, now, ttl) && 0 <= ttl
    requires log' == log + multiset{(k, at)}
    requires row'.Some? && row'.value.createdAt == at <= now
    requires if row.None? then at == now else at == row.value.createdAt
    ensures Accounts(log', k, row', true, now, ttl)
  {
  }

  function RowOf(s: State, k: Key): Option<Row> { if k in s.rows then Some(s.rows[k]) else None }

  /** Nobody runs, or is about to run, the key's handler without a row. */
  ghost predicate NoneUnrecorded(s: State, k: Key) {
    (forall id :: id in s.takers ==> s.takers[id].0 != k) && forall id :: id in s.strays ==> s.strays[id].key != k
  }

  lemma StepKeepsNoneUnrecorded(c: Config, s: State, step: Step, k: Key)
    requires NoneUnrecorded(s, k) && Enabled(c, s, step)
    requires Ahead(c, s, step).None? || Ahead(c, s, step).value.0 != k
    ensures NoneUnrecorded(Do(c, s, step), k)
  {
  }

  // ---- runs begun ----

  ghost predicate BegunByRow(c: Config, s: State, k: Key) {
    Accounts(s.begun, k, RowOf(s, k), true, s.now, c.ttl) && NoneUnrecorded(s, k)
  }

  /** What a step does to a key's row and to the log of its runs begun. */
  ghost predicate BegunWithRow(c: Config, s: State, step: Step, t: State, k: Key) {
    var row, row' := RowOf(s, k), RowOf(t, k);
      if step.Arrive? && step.key == k && row.None? then
        row' == Some(Pending(step.hash, s.now)) && t.begun == s.begun + multiset{(k, s.now)} && t.now == s.now
      else
        && SameFor(k, s.begun, t.begun) && s.now <= t.now && (row.None? ==> row'.None?)
        && (row.Some? && row'.Some? ==> row'.value.createdAt == row.value.createdAt)
        && (row.Some? && row'.None? ==> t.now - row.value.createdAt > c.ttl)
  }

  lemma RowWhenBegun(c: Config, s: State, step: Step, k: Key)
    requires NoneUnrecorded(s, k) && Enabled(c, s, step) && !Fails(s, step, k)
    requires Ahead(c, s, step).None? || Ahead(c, s, step).value.0 != k
    ensures BegunWithRow(c, s, step, Do(c, s, step), k)
  {
    hide BegunWithRow, Do, NoneUnrecorded;
    match step
    case Arrive(id, key, hash) => ArriveWhenBegun(c, s, id, key, hash, k);
    case End(id, e) => EndWhenBegun(c, s, id, e, k);
    case Decide(id) => DecideWhenBegun(c, s, id, k);
    case Sweep => SweepWhenBegun(c, s, k);
    case _ => OtherWhenBegun(c, s, step, k);
  }

  lemma ArriveWhenBegun(c: Config, s: State, id: nat, key: Key, hash: string, k: Key)
    requires Enabled(c, s, Arrive(id, key, hash))
    ensures BegunWithRow(c, s, Arrive(id, key, hash), Do(c, s, Arrive(id, key, hash)), k)
  {
  }

  lemma EndWhenBegun(c: Config, s: State, id: nat, e: Ending, k: Key)
    requires Enabled(c, s, End(id, e)) && !Fails(s, End(id, e), k)
    ensures BegunWithRow(c, s, End(id, e), Do(c, s, End(id, e)), k)
  {
  }

  lemma SweepWhenBegun(c: Config, s: State, k: Key)
    ensures BegunWithRow(c, s, Sweep, Do(c, s, Sweep), k)
  {
  }

  lemma OtherWhenBegun(c: Config, s: State, step: Step, k: Key)
    requires NoneUnrecorded(s, k) && Enabled(c, s, step)
    requires step.Tick? || step.EndUnrecorded? || step.Crash? || step.Read? || step.Take?
    ensures BegunWithRow(c, s, step, Do(c, s, step), k)
  {
  }

  lemma DecideWhenBegun(c: Config, s: State, id: nat, k: Key)
    requires Enabled(c, s, Decide(id))
    requires Ahead(c, s, Decide(id)).None? || Ahead(c, s, Decide(id)).value.0 != k
    ensures BegunWithRow(c, s, Decide(id), Do(c, s, Decide(id)), k)
  {
  }

  lemma StepKeepsBegun(c: Config, s: State, step: Step, k: Key)
    requires 0 <= c.ttl && BegunByRow(c, s, k) && Enabled(c, s, step) && !Fails(s, step, k)
    requires Ahead(c, s, step).None? || Ahead(c, s, step).value.0 != k
    ensures BegunByRow(c, Do(c, s, step), k)
  {
    hide Accounts, NoneUnrecorded, Do, Enabled, Ahead, Fails;
    var t, row, row' := Do(c, s, step), RowOf(s, k), RowOf(Do(c, s, step), k);
    RowWhenBegun(c, s, step, k);
    StepKeepsNoneUnrecorded(c, s, step, k);
    if step.Arrive? && step.key == k && row.None? {
      NothingOpen(s.begun, k, s.now, c.ttl);
      AccountsForOneMore(s.begun, t.begun, k, s.now, row, row', s.now, c.ttl);
    } else {
      StillAccounts(s.begun, t.begun, k, row, row', true, true, s.now, t.now, c.ttl);
    }
  }

  lemma NothingOpen(log: multiset<(Key, int)>, k: Key, now: int, ttl: int)
    requires Accounts(log, k, None, true, now, ttl)
    ensures Accounts(log, k, None, false, now, ttl)
  {
  }

  /** Whatever the winners' pace: unless a request goes ahead past a row of this key, or a run of it
      fails, its handler is begun at most once in every window of one TTL. */
  lemma {:induction false} BegunOncePerWindow(c: Config, states: seq<State>, steps: seq<Step>, k: Key)
    requires 0 <= c.ttl && Run(c, states, steps) && NobodyAhead(c, states, steps, k) && NoneFails(states, steps, k)
    ensures BegunByRow(c, states[|steps|], k) && Spaced(states[|steps|].begun, k, c.ttl)
  {
    if steps != [] {
      var n := |steps| - 1;
      BegunOncePerWindow(c, states[..n + 1], steps[..n], k);
      StepKeepsBegun(c, states[n], steps[n], k);
    }
  }

  // ---- runs that succeed ----

  /** The run that the key's row belongs to is over. */
  ghost predicate RunOver(s: State, k: Key) {
    k in s.rows && forall id :: id in s.winners ==> s.winners[id].key != k
  }

  ghost predicate SentByRow(c: Config, s: State, k: Key) {
    Accounts(s.sent, k, RowOf(s, k), RunOver(s, k), s.now, c.ttl) && NoneUnrecorded(s, k)
  }

  /** A step in which the key's recorded run ends with success, or crashes after its send. */
  predicate Sends(s: State, step: Step, k: Key) {
    || (step.End? && step.id in s.winners && s.winners[step.id].key == k && Succeeded(step.ending))
    || (step.Crash? && step.id in s.winners && s.winners[step.id].key == k && step.sent)
  }

  /** What a step does to a key's row and to the log of its sends. */
  ghost predicate SentWithRow(c: Config, s: State, step: Step, t: State, k: Key) {
    var row, row' := RowOf(s, k), RowOf(t, k);
    if Sends(s, step, k) then
      && row.Some? && !RunOver(s, k) && row'.Some? && RunOver(t, k) && row'.value.createdAt == row.value.createdAt
      && t.sent == s.sent + multiset{(k, row.value.createdAt)} && t.now == s.now
    else
      && SameFor(k, s.sent, t.sent) && s.now <= t.now
      && (row.None? && row'.Some? ==> !RunOver(t, k) && row'.value.createdAt == t.now == s.now)
      && (row.Some? && row'.Some? ==> row'.value.createdAt == row.value.createdAt && (RunOver(s, k) ==> RunOver(t, k)))
      && (row.Some? && row'.None? && RunOver(s, k) ==> t.now - row.value.createdAt > c.ttl)
  }

  lemma RowWhenSent(c: Config, s: State, step: Step, k: Key)
    requires NoneUnrecorded(s, k) && WinnersOwnRows(s) && Enabled(c, s, step)
    requires Ahead(c, s, step).None? || Ahead(c, s, step).value.0 != k
    ensures SentWithRow(c, s, step, Do(c, s, step), k)
  {
    hide SentWithRow, Do, NoneUnrecorded, WinnersOwnRows;
    match step
    case Arrive(id, key, hash) => ArriveWhenSent(c, s, id, key, hash, k);
    case End(id, e) => EndWhenSent(c, s, id, e, k);
    case Crash(id, sent) => CrashWhenSent(c, s, id, sent, k);
    case Decide(id) => DecideWhenSent(c, s, id, k);
    case Sweep => SweepWhenSent(c, s, k);
    case _ => OtherWhenSent(c, s, step, k);
  }

  lemma ArriveWhenSent(c: Config, s: State, id: nat, key: Key, hash: string, k: Key)
    requires Enabled(c, s, Arrive(id, key, hash))
    ensures SentWithRow(c, s, Arrive(id, key, hash), Do(c, s, Arrive(id, key, hash)), k)
  {
    var t := Do(c, s, Arrive(id, key, hash));
    if key !in s.rows { assert id in t.winners && t.winners[id].key == key; }
    assert forall other :: other in t.winners ==> other in s.winners || (other == id && key !in s.rows);
  }

  lemma CrashWhenSent(c: Config, s: State, id: nat, sent: bool, k: Key)
    requires NoneUnrecorded(s, k) && WinnersOwnRows(s) && Enabled(c, s, Crash(id, sent))
    ensures SentWithRow(c, s, Crash(id, sent), Do(c, s, Crash(id, sent)), k)
  {
  }

  lemma OtherWhenSent(c: Config, s: State, step: Step, k: Key)
    requires NoneUnrecorded(s, k) && Enabled(c, s, step)
    requires step.Tick? || step.EndUnrecorded? || step.Read? || step.Take?
    ensures SentWithRow(c, s, step, Do(c, s, step), k)
  {
  }

  lemma SweepWhenSent(c: Config, s: State, k: Key)
    ensures SentWithRow(c, s, Sweep, Do(c, s, Sweep), k)
  {
  }

  lemma DecideWhenSent(c: Config, s: State, id: nat, k: Key)
    requires Enabled(c, s, Decide(id))
    requires Ahead(c, s, Decide(id)).None? || Ahead(c, s, Decide(id)).value.0 != k
    ensures SentWithRow(c, s, Decide(id), Do(c, s, Decide(id)), k)
  {
  }

  lemma EndWhenSent(c: Config, s: State, id: nat, e: Ending, k: Key)
    requires WinnersOwnRows(s) && Enabled(c, s, End(id, e))
    ensures SentWithRow(c, s, End(id, e), Do(c, s, End(id, e)), k)
  {
  }

  lemma NewRowAccounts(log: multiset<(Key, int)>, log': multiset<(Key, int)>, k: Key, row': Row, now: int, ttl: int)
    requires Accounts(log, k, None, false, now, ttl) && SameFor(k, log, log') && row'.createdAt == now
    ensures Accounts(log', k, Some(row'), false, now, ttl)
  {
    forall at | (k, at) in log' ensures (k, at) in log { assert log'[(k, at)] == log[(k, at)]; }
  }

  lemma StepKeepsSent(c: Config, s: State, step: Step, k: Key)
    requires 0 <= c.ttl && SentByRow(c, s, k) && WinnersOwnRows(s) && Enabled(c, s, step)
    requires Ahead(c, s, step).None? || Ahead(c, s, step).value.0 != k
    ensures SentByRow(c, Do(c, s, step), k)
  {
    assert k !in s.rows ==> !RunOver(s, k);
    hide Accounts, NoneUnrecorded, Do, Enabled, Ahead, WinnersOwnRows, RunOver, Sends;
    var t, row, row' := Do(c, s, step), RowOf(s, k), RowOf(Do(c, s, step), k);
    RowWhenSent(c, s, step, k);
    StepKeepsNoneUnrecorded(c, s, step, k);
    if Sends(s, step, k) {
      PendingIsOn(s.sent, k, row.value, s.now, c.ttl);
      AccountsForOneMore(s.sent, t.sent, k, row.value.createdAt, row, row', s.now, c.ttl);
    } else if row.None? && row'.Some? {
      NewRowAccounts(s.sent, t.sent, k, row'.value, s.now, c.ttl);
    } else {
      StillAccounts(s.sent, t.sent, k, row, row', RunOver(s, k), RunOver(t, k), s.now, t.now, c.ttl);
    }
  }

  lemma PendingIsOn(log: multiset<(Key, int)>, k: Key, row: Row, now: int, ttl: int)
    requires Accounts(log, k, Some(row), false, now, ttl)
    ensures row.createdAt <= now
  {
  }

  /** With punctual winners failures do no harm: unless a request goes ahead past a row of this key,
      at most one of the runs begun in any window of one TTL succeeds. */
  lemma {:induction false} SentOncePerWindow(c: Config, states: seq<State>, steps: seq<Step>, k: Key)
    requires PunctualWinners(c) && Run(c, states, steps) && NobodyAhead(c, states, steps, k)
    requires forall i :: 0 <= i < |steps| ==> !steps[i].Read?
    ensures SentByRow(c, states[|steps|], k) && Spaced(states[|steps|].sent, k, c.ttl)
  {
    if steps != [] {
      var n := |steps| - 1;
      SentOncePerWindow(c, states[..n + 1], steps[..n], k);
      RunsAreConsistent(c, states[..n + 1], steps[..n]);
      StepKeepsSent(c, states[n], steps[n], k);
    }
  }

  /** Each success is a run begun, and no run of the key is begun or ends twice. */
  ghost predicate SentWereBegun(s: State, k: Key) {
    SuccessesBegan(s, k) && WinnersUnsent(s, k) && forall i, j :: OneStart(s, k, i, j) ==> i == j
  }

  ghost predicate SuccessesBegan(s: State, k: Key) {
    forall at :: (k, at) in s.sent ==> (k, at) in s.begun && s.sent[(k, at)] == 1
  }

  ghost predicate WinnersUnsent(s: State, k: Key) {
    forall id :: id in s.winners && s.winners[id].key == k ==>
      (k, s.winners[id].since) in s.begun && (k, s.winners[id].since) !in s.sent
  }

  predicate OneStart(s: State, k: Key, i: nat, j: nat) {
    && i in s.winners && j in s.winners
    && s.winners[i].key == k == s.winners[j].key && s.winners[i].since == s.winners[j].since
  }

  lemma StepKeepsSuccessesBegan(c: Config, s: State, step: Step, k: Key)
    requires NoneUnrecorded(s, k) && SuccessesBegan(s, k) && WinnersUnsent(s, k) && Enabled(c, s, step)
    ensures SuccessesBegan(Do(c, s, step), k)
  {
    hide SuccessesBegan, WinnersUnsent, NoneUnrecorded, Do;
    match step
    case End(id, e) => EndKeepsSuccessesBegan(c, s, id, e, k);
    case Crash(id, sent) => CrashKeepsSuccessesBegan(c, s, id, sent, k);
    case _ => OtherKeepsSuccessesBegan(c, s, step, k);
  }

  lemma EndKeepsSuccessesBegan(c: Config, s: State, id: nat, e: Ending, k: Key)
    requires SuccessesBegan(s, k) && WinnersUnsent(s, k) && Enabled(c, s, End(id, e))
    ensures SuccessesBegan(Do(c, s, End(id, e)), k)
  {
  }

  lemma CrashKeepsSuccessesBegan(c: Config, s: State, id: nat, sent: bool, k: Key)
    requires NoneUnrecorded(s, k) && SuccessesBegan(s, k) && WinnersUnsent(s, k) && Enabled(c, s, Crash(id, sent))
    ensures SuccessesBegan(Do(c, s, Crash(id, sent)), k)
  {
  }

  lemma OtherKeepsSuccessesBegan(c: Config, s: State, step: Step, k: Key)
    requires NoneUnrecorded(s, k) && SuccessesBegan(s, k) && Enabled(c, s, step) && !step.End? && !step.Crash?
    ensures SuccessesBegan(Do(c, s, step), k)
  {
    var t := Do(c, s, step);
    forall at ensures t.sent[(k, at)] == s.sent[(k, at)] && t.begun[(k, at)] >= s.begun[(k, at)] {}
  }

  lemma StepKeepsWinnersUnsent(c: Config, s: State, step: Step, k: Key)
    requires NoneUnrecorded(s, k) && SentWereBegun(s, k) && Enabled(c, s, step)
    requires step.Arrive? && step.key == k && k !in s.rows ==> (k, s.now) !in s.begun
    ensures WinnersUnsent(Do(c, s, step), k)
  {
    hide WinnersUnsent, SuccessesBegan, OneStart, Do, NoneUnrecorded;
    match step
    case Arrive(id, key, hash) => ArriveKeepsWinnersUnsent(c, s, id, key, hash, k);
    case End(id, e) => EndKeepsWinnersUnsent(c, s, id, e, k);
    case Crash(id, sent) => CrashKeepsWinnersUnsent(c, s, id, sent, k);
    case _ => OtherKeepsWinnersUnsent(c, s, step, k);
  }

  lemma OtherKeepsWinnersUnsent(c: Config, s: State, step: Step, k: Key)
    requires NoneUnrecorded(s, k) && WinnersUnsent(s, k) && Enabled(c, s, step)
    requires !step.Arrive? && !step.End? && !step.Crash?
    ensures WinnersUnsent(Do(c, s, step), k)
  {
    var t := Do(c, s, step);
    assert forall id :: id in t.winners ==> id in s.winners && t.winners[id] == s.winners[id];
    assert step.EndUnrecorded? ==> s.strays[step.id].key != k;
    forall at ensures t.sent[(k, at)] == s.sent[(k, at)] && t.begun[(k, at)] >= s.begun[(k, at)] {}
  }

  lemma ArriveKeepsWinnersUnsent(c: Config, s: State, id: nat, key: Key, hash: string, k: Key)
    requires SentWereBegun(s, k) && Enabled(c, s, Arrive(id, key, hash))
    requires key == k && k !in s.rows ==> (k, s.now) !in s.begun
    ensures WinnersUnsent(Do(c, s, Arrive(id, key, hash)), k)
  {
  }

  lemma CrashKeepsWinnersUnsent(c: Config, s: State, id: nat, sent: bool, k: Key)
    requires NoneUnrecorded(s, k) && SentWereBegun(s, k) && Enabled(c, s, Crash(id, sent))
    ensures WinnersUnsent(Do(c, s, Crash(id, sent)), k)
  {
    var t := Do(c, s, Crash(id, sent));
    forall other | other in t.winners && t.winners[other].key == k ensures (k, t.winners[other].since) !in t.sent {
      assert !OneStart(s, k, other, id);
    }
  }

  lemma EndKeepsWinnersUnsent(c: Config, s: State, id: nat, e: Ending, k: Key)
    requires SentWereBegun(s, k) && Enabled(c, s, End(id, e))
    ensures WinnersUnsent(Do(c, s, End(id, e)), k)
  {
    var t := Do(c, s, End(id, e));
    forall other | other in t.winners && t.winners[other].key == k ensures (k, t.winners[other].since) !in t.sent {
      assert !OneStart(s, k, other, id);
    }
  }

  lemma StepKeepsStartsApart(c: Config, s: State, step: Step, k: Key)
    requires WinnersUnsent(s, k) && Enabled(c, s, step) && forall i, j :: OneStart(s, k, i, j) ==> i == j
    requires step.Arrive? && step.key == k && k !in s.rows ==> (k, s.now) !in s.begun
    ensures forall i, j :: OneStart(Do(c, s, step), k, i, j) ==> i == j
  {
    var t := Do(c, s, step);
    forall i, j | OneStart(t, k, i, j) ensures i == j {
      if i in s.winners && j in s.winners { assert OneStart(s, k, i, j); }
    }
  }

  lemma StepKeepsSentWereBegun(c: Config, s: State, step: Step, k: Key)
    requires NoneUnrecorded(s, k) && SentWereBegun(s, k) && Enabled(c, s, step)
    requires step.Arrive? && step.key == k && k !in s.rows ==> (k, s.now) !in s.begun
    ensures SentWereBegun(Do(c, s, step), k)
  {
    hide SuccessesBegan, WinnersUnsent, OneStart, Do, Enabled;
    StepKeepsSuccessesBegan(c, s, step, k);
    StepKeepsWinnersUnsent(c, s, step, k);
    StepKeepsStartsApart(c, s, step, k);
  }

  /** So without failures slow winners do no harm either. */
  lemma {:induction false} SentOnceWithoutFailure(c: Config, states: seq<State>, steps: seq<Step>, k: Key)
    requires 0 <= c.ttl && Run(c, states, steps) && NobodyAhead(c, states, steps, k) && NoneFails(states, steps, k)
    ensures SentWereBegun(states[|steps|], k) && Spaced(states[|steps|].sent, k, c.ttl)
  {
    BegunOncePerWindow(c, states, steps, k);
    if steps != [] {
      var n := |steps| - 1;
      SentOnceWithoutFailure(c, states[..n + 1], steps[..n], k);
      BegunOncePerWindow(c, states[..n + 1], steps[..n], k);
      StepKeepsSentWereBegun(c, states[n], steps[n], k);
    }
  }

  // ---- the exact conditions ----

  /** A step of a run in which recorded runs fail only if `mayFail`, and requests go ahead only by
      these branches. */
  predicate Permits(c: Config, s: State, step: Step, mayFail: bool, branches: set<Branch>)
    requires Enabled(c, s, step)
  {
    && (step.End? && !Succeeded(step.ending) ==> mayFail)
    && (Ahead(c, s, step).Some? ==> Ahead(c, s, step).value.1 in branches)
  }

  ghost predicate PermittedRun(c: Config, states: seq<State>, steps: seq<Step>, mayFail: bool, branches: set<Branch>) {
    Run(c, states, steps) && forall i :: 0 <= i < |steps| ==> Permits(c, states[i], steps[i], mayFail, branches)
  }

  ghost predicate CanBeginTwice(c: Config, k: Key, mayFail: bool, branches: set<Branch>) {
    exists states: seq<State>, steps: seq<Step> ::
      PermittedRun(c, states, steps, mayFail, branches) && !Spaced(states[|steps|].begun, k, c.ttl)
  }

  ghost predicate CanSendTwice(c: Config, k: Key, mayFail: bool, branches: set<Branch>) {
    exists states: seq<State>, steps: seq<Step> ::
      PermittedRun(c, states, steps, mayFail, branches) && !Spaced(states[|steps|].sent, k, c.ttl)
  }

  /** A branch that can be taken at all. An abandoned row must be caught before it expires. */
  predicate CanGoAhead(c: Config, branches: set<Branch>) {
    Gone in branches || Expired in branches || (Abandoned in branches && c.pendingTimeout < c.ttl)
  }

  lemma NobodyGoesAhead(c: Config, states: seq<State>, steps: seq<Step>, mayFail: bool, branches: set<Branch>, k: Key)
    requires PermittedRun(c, states, steps, mayFail, branches) && !CanGoAhead(c, branches)
    ensures NobodyAhead(c, states, steps, k) && forall i :: 0 <= i < |steps| ==> !steps[i].Read?
  {
    forall i | 0 <= i < |steps| ensures Ahead(c, states[i], steps[i]).None? && !steps[i].Read? {
      assert Permits(c, states[i], steps[i], mayFail, branches);
    }
  }

  lemma PlayPermitted(c: Config, states: seq<State>, steps: seq<Step>, mayFail: bool, branches: set<Branch>, step: Step)
    returns (states': seq<State>, steps': seq<Step>)
    requires PermittedRun(c, states, steps, mayFail, branches)
    requires Enabled(c, states[|steps|], step) && Permits(c, states[|steps|], step, mayFail, branches)
    ensures PermittedRun(c, states', steps', mayFail, branches)
    ensures steps' == steps + [step] && |states'| == |steps'| + 1 && states'[|steps'|] == Do(c, states[|steps|], step)
  {
    states', steps' := Play(c, states, steps, step);
  }

  // ---- runs in which a key is sent twice ----

  /** Two runs of the key begun at the same time have both succeeded. */
  ghost predicate SentTwiceAt(s: State, k: Key, at: int) {
    s.begun[(k, at)] >= 2 && s.sent[(k, at)] >= 2
  }

  const OK := Responded(Response(200, "sent"))

  /** A request that went ahead without a row runs next to the next request, which finds none. */
  lemma NextRunsToo(c: Config, states: seq<State>, steps: seq<Step>, mayFail: bool, branches: set<Branch>, k: Key)
    returns (states': seq<State>, steps': seq<Step>)
    requires PermittedRun(c, states, steps, mayFail, branches)
    requires var s := states[|steps|];
      && k !in s.rows && s.winners == map[] && s.losers == map[] && s.takers == map[]
      && s.strays == map[1 := Running(k, "", s.now)] && (k, s.now) in s.begun
    ensures PermittedRun(c, states', steps', mayFail, branches)
    ensures steps' == steps + [Arrive(2, k, ""), EndUnrecorded(1, OK), End(2, OK)]
    ensures SentTwiceAt(states'[|steps'|], k, states[|steps|].now)
  {
    hide PermittedRun;
    states', steps' := PlayPermitted(c, states, steps, mayFail, branches, Arrive(2, k, ""));
    states', steps' := PlayPermitted(c, states', steps', mayFail, branches, EndUnrecorded(1, OK));
    states', steps' := PlayPermitted(c, states', steps', mayFail, branches, End(2, OK));
  }

  /** No failure and no crash: the first run succeeded, its row expired, and two copies of the
      request come. The first goes ahead past the expired row, or past none once it is swept. */
  lemma ExpiryLetsTwoRun(c: Config, branches: set<Branch>, k: Key) returns (states: seq<State>, steps: seq<Step>)
    requires 0 <= c.ttl && (Gone in branches || Expired in branches)
    ensures PermittedRun(c, states, steps, false, branches) && SentTwiceAt(states[|steps|], k, c.ttl + 1)
    ensures steps == [Arrive(0, k, ""), End(0, OK), Tick(c.ttl + 1), Arrive(1, k, "")]
                     + (if Expired in branches then [] else [Sweep])
                     + [Decide(1), Arrive(2, k, ""), EndUnrecorded(1, OK), End(2, OK)]
  {
    states, steps := RowExpires(c, branches, k);
    hide PermittedRun;
    if Expired !in branches {
      states, steps := PlayPermitted(c, states, steps, false, branches, Sweep);
    }
    states, steps := GoesPastExpired(c, states, steps, branches, k);
    states, steps := NextRunsToo(c, states, steps, false, branches, k);
  }

  lemma GoesPastExpired(c: Config, states: seq<State>, steps: seq<Step>, branches: set<Branch>, k: Key)
    returns (states': seq<State>, steps': seq<Step>)
    requires PermittedRun(c, states, steps, false, branches) && 0 <= c.ttl
    requires var s := states[|steps|];
      && s.now == c.ttl + 1 && s.winners == map[] && s.losers == map[1 := (k, "")]
      && s.takers == map[] && s.strays == map[]
      && (if k in s.rows then s.rows[k].createdAt == 0 && Expired in branches else Gone in branches)
    ensures PermittedRun(c, states', steps', false, branches) && steps' == steps + [Decide(1)]
    ensures var s := states'[|steps'|];
      && s.now == c.ttl + 1 && k !in s.rows && s.winners == map[] && s.losers == map[] && s.takers == map[]
      && s.strays == map[1 := Running(k, "", s.now)] && (k, s.now) in s.begun
  {
    states', steps' := PlayPermitted(c, states, steps, false, branches, Decide(1));
    assert states'[|steps'|].begun == states[|steps|].begun + multiset{(k, c.ttl + 1)};
  }

  lemma RowExpires(c: Config, branches: set<Branch>, k: Key) returns (states: seq<State>, steps: seq<Step>)
    requires 0 <= c.ttl
    ensures PermittedRun(c, states, steps, false, branches)
    ensures steps == [Arrive(0, k, ""), End(0, OK), Tick(c.ttl + 1), Arrive(1, k, "")]
    ensures var s := states[|steps|];
      && s.now == c.ttl + 1 && s.rows == map[k := Completed("", 0, OK.response)]
      && s.winners == map[] && s.losers == map[1 := (k, "")] && s.takers == map[] && s.strays == map[]
  {
    states, steps := PlayPermitted(c, [Start()], [], false, branches, Arrive(0, k, ""));
    hide PermittedRun;
    states, steps := PlayPermitted(c, states, steps, false, branches, End(0, OK));
    assert states[|steps|].rows == map[k := Completed("", 0, OK.response)];
    states, steps := PlayPermitted(c, states, steps, false, branches, Tick(c.ttl + 1));
    states, steps := PlayPermitted(c, states, steps, false, branches, Arrive(1, k, ""));
  }

  /** The first run crashed, and a copy takes its row for abandoned before it expires. */
  lemma TakeoverLetsTwoRun(c: Config, branches: set<Branch>, k: Key) returns (states: seq<State>, steps: seq<Step>)
    requires 0 <= c.pendingTimeout < c.ttl && Abandoned in branches
    ensures PermittedRun(c, states, steps, false, branches) && SentTwiceAt(states[|steps|], k, c.pendingTimeout + 1)
    ensures steps == [Arrive(0, k, ""), Crash(0, false), Tick(c.pendingTimeout + 1), Arrive(1, k, ""),
                      Decide(1), Arrive(2, k, ""), EndUnrecorded(1, OK), End(2, OK)]
  {
    states, steps := RowAbandoned(c, branches, k);
    hide PermittedRun;
    states, steps := PlayPermitted(c, states, steps, false, branches, Decide(1));
    assert states[|steps|].losers == map[] && states[|steps|].strays == map[1 := Running(k, "", c.pendingTimeout + 1)];
    states, steps := NextRunsToo(c, states, steps, false, branches, k);
  }

  lemma RowAbandoned(c: Config, branches: set<Branch>, k: Key) returns (states: seq<State>, steps: seq<Step>)
    requires 0 <= c.pendingTimeout
    ensures PermittedRun(c, states, steps, false, branches)
    ensures steps == [Arrive(0, k, ""), Crash(0, false), Tick(c.pendingTimeout + 1), Arrive(1, k, "")]
    ensures var s := states[|steps|];
      && s.now == c.pendingTimeout + 1 && s.rows == map[k := Pending("", 0)]
      && s.winners == map[] && s.losers == map[1 := (k, "")] && s.takers == map[] && s.strays == map[]
  {
    states, steps := PlayPermitted(c, [Start()], [], false, branches, Arrive(0, k, ""));
    hide PermittedRun;
    states, steps := PlayPermitted(c, states, steps, false, branches, Crash(0, false));
    assert states[|steps|].rows == map[k := Pending("", 0)] && states[|steps|].winners == map[];
    states, steps := PlayPermitted(c, states, steps, false, branches, Tick(c.pendingTimeout + 1));
    states, steps := PlayPermitted(c, states, steps, false, branches, Arrive(1, k, ""));
  }

  /** The first run failed while a copy had found its row: the copy finds the row gone. */
  lemma FailedWinnerLetsTwoRun(c: Config, k: Key) returns (states: seq<State>, steps: seq<Step>)
    ensures PermittedRun(c, states, steps, true, {Gone}) && SentTwiceAt(states[|steps|], k, 0)
    ensures steps == [Arrive(0, k, ""), Arrive(1, k, ""), End(0, Erred), Decide(1), Arrive(2, k, ""),
                      EndUnrecorded(1, OK), End(2, OK)]
  {
    states, steps := RowGone(c, k);
    hide PermittedRun;
    states, steps := PlayPermitted(c, states, steps, true, {Gone}, Decide(1));
    assert states[|steps|].losers == map[] && states[|steps|].strays == map[1 := Running(k, "", 0)];
    states, steps := NextRunsToo(c, states, steps, true, {Gone}, k);
  }

  lemma RowGone(c: Config, k: Key) returns (states: seq<State>, steps: seq<Step>)
    ensures PermittedRun(c, states, steps, true, {Gone}) && steps == [Arrive(0, k, ""), Arrive(1, k, ""), End(0, Erred)]
    ensures var s := states[|steps|];
      && s.now == 0 && s.rows == map[] && s.winners == map[] && s.losers == map[1 := (k, "")]
      && s.takers == map[] && s.strays == map[] && (k, 0) in s.begun
  {
    states, steps := PlayPermitted(c, [Start()], [], true, {Gone}, Arrive(0, k, ""));
    hide PermittedRun;
    states, steps := PlayPermitted(c, states, steps, true, {Gone}, Arrive(1, k, ""));
    states, steps := PlayPermitted(c, states, steps, true, {Gone}, End(0, Erred));
  }

  /** A winner that outlasted its row fails and deletes the next winner's row. */
  lemma SlowFailureLetsTwoRun(c: Config, k: Key) returns (states: seq<State>, steps: seq<Step>)
    requires 0 <= c.ttl && (c.slowWinners || c.pendingTimeout > c.ttl)
    ensures PermittedRun(c, states, steps, true, {}) && SentTwiceAt(states[|steps|], k, c.ttl + 1)
  {
    states, steps := RowDeletedBySlowFailure(c, k);
    hide PermittedRun;
    states, steps := PlayPermitted(c, states, steps, true, {}, Arrive(2, k, ""));
    states, steps := PlayPermitted(c, states, steps, true, {}, End(1, OK));
    states, steps := PlayPermitted(c, states, steps, true, {}, End(2, OK));
  }

  lemma RowDeletedBySlowFailure(c: Config, k: Key) returns (states: seq<State>, steps: seq<Step>)
    requires 0 <= c.ttl && (c.slowWinners || c.pendingTimeout > c.ttl)
    ensures PermittedRun(c, states, steps, true, {})
    ensures var s := states[|steps|];
      && s.now == c.ttl + 1 && s.rows == map[] && s.winners == map[1 := Running(k, "", c.ttl + 1)]
      && s.losers == map[] && s.takers == map[] && s.strays == map[] && (k, s.now) in s.begun
  {
    states, steps := RowOutlasted(c, k);
    hide PermittedRun;
    states, steps := PlayPermitted(c, states, steps, true, {}, Arrive(1, k, ""));
    states, steps := PlayPermitted(c, states, steps, true, {}, End(0, Erred));
  }

  lemma RowOutlasted(c: Config, k: Key) returns (states: seq<State>, steps: seq<Step>)
    requires 0 <= c.ttl && (c.slowWinners || c.pendingTimeout > c.ttl)
    ensures PermittedRun(c, states, steps, true, {})
    ensures var s := states[|steps|];
      && s.now == c.ttl + 1 && s.rows == map[] && s.winners == map[0 := Running(k, "", 0)]
      && s.losers == map[] && s.takers == map[] && s.strays == map[]
  {
    states, steps := PlayPermitted(c, [Start()], [], true, {}, Arrive(0, k, ""));
    hide PermittedRun;
    states, steps := PlayPermitted(c, states, steps, true, {}, Tick(c.ttl + 1));
    states, steps := PlayPermitted(c, states, steps, true, {}, Sweep);
    assert states[|steps|].rows == map[];
  }

  lemma FailureLetsTwoBegin(c: Config, k: Key) returns (states: seq<State>, steps: seq<Step>)
    ensures PermittedRun(c, states, steps, true, {}) && states[|steps|].begun[(k, 0)] >= 2
  {
    states, steps := PlayPermitted(c, [Start()], [], true, {}, Arrive(0, k, ""));
    hide PermittedRun;
    states, steps := PlayPermitted(c, states, steps, true, {}, End(0, Erred));
    assert k !in states[|steps|].rows;
    states, steps := PlayPermitted(c, states, steps, true, {}, Arrive(1, k, ""));
  }

  lemma MorePermitted(c: Config, states: seq<State>, steps: seq<Step>, mayFail: bool, branches: set<Branch>,
                      mayFail': bool, branches': set<Branch>)
    requires PermittedRun(c, states, steps, mayFail, branches) && (mayFail ==> mayFail') && branches <= branches'
    ensures PermittedRun(c, states, steps, mayFail', branches')
  {
    forall i | 0 <= i < |steps| ensures Permits(c, states[i], steps[i], mayFail', branches') {
      assert Permits(c, states[i], steps[i], mayFail, branches);
    }
  }

  lemma GoingAheadLetsTwoRun(c: Config, k: Key, mayFail: bool, branches: set<Branch>)
    requires 0 <= c.ttl && 0 <= c.pendingTimeout && CanGoAhead(c, branches)
    ensures CanBeginTwice(c, k, mayFail, branches) && CanSendTwice(c, k, mayFail, branches)
  {
    var states: seq<State>, steps: seq<Step>;
    if Gone in branches || Expired in branches {
      states, steps := ExpiryLetsTwoRun(c, branches, k);
    } else {
      states, steps := TakeoverLetsTwoRun(c, branches, k);
    }
    MorePermitted(c, states, steps, false, branches, mayFail, branches);
  }

  /** Two runs of one key can begin within one TTL exactly when a recorded run may fail or a request
      may go ahead past a row that was there: as expired, as gone, or as abandoned before it expires. */
  lemma CanBeginTwiceIff(c: Config, k: Key, mayFail: bool, branches: set<Branch>)
    requires 0 <= c.ttl && 0 <= c.pendingTimeout
    ensures CanBeginTwice(c, k, mayFail, branches) <==> mayFail || CanGoAhead(c, branches)
  {
    if CanGoAhead(c, branches) {
      GoingAheadLetsTwoRun(c, k, mayFail, branches);
    } else if mayFail {
      var states, steps := FailureLetsTwoBegin(c, k);
      MorePermitted(c, states, steps, true, {}, mayFail, branches);
    } else if CanBeginTwice(c, k, mayFail, branches) {
      var states: seq<State>, steps: seq<Step> :|
        PermittedRun(c, states, steps, mayFail, branches) && !Spaced(states[|steps|].begun, k, c.ttl);
      NobodyGoesAhead(c, states, steps, mayFail, branches, k);
      BegunOncePerWindow(c, states, steps, k);
    }
  }

  /** Two runs of one key that begin within one TTL can both succeed exactly when a request may go
      ahead past a row that was there, or a recorded run may fail after it has outlasted its row.
      Failures alone do no harm, nor do slow winners alone. */
  lemma CanSendTwiceIff(c: Config, k: Key, mayFail: bool, branches: set<Branch>)
    requires 0 <= c.ttl && 0 <= c.pendingTimeout
    ensures CanSendTwice(c, k, mayFail, branches)
            <==> CanGoAhead(c, branches) || (mayFail && (c.slowWinners || c.pendingTimeout > c.ttl))
  {
    if CanGoAhead(c, branches) {
      GoingAheadLetsTwoRun(c, k, mayFail, branches);
    } else if mayFail && (c.slowWinners || c.pendingTimeout > c.ttl) {
      var states, steps := SlowFailureLetsTwoRun(c, k);
      MorePermitted(c, states, steps, true, {}, mayFail, branches);
    } else if CanSendTwice(c, k, mayFail, branches) {
      var states: seq<State>, steps: seq<Step> :|
        PermittedRun(c, states, steps, mayFail, branches) && !Spaced(states[|steps|].sent, k, c.ttl);
      NobodyGoesAhead(c, states, steps, mayFail, branches, k);
      if mayFail {
        SentOncePerWindow(c, states, steps, k);
      } else {
        SentOnceWithoutFailure(c, states, steps, k);
      }
    }
  }
}
