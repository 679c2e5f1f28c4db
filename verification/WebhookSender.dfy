/** Direct-mode webhook delivery with retries, internal/whatsapp/webhook_sender.go. */
module WebhookSender {
  import opened Common

  const MAX_RETRIES := 10
  const TWO_63 := 0x8000_0000_0000_0000
  const TWO_53 := 0x20_0000_0000_0000

  function Pow2(n: nat): nat { if n == 0 then 1 else 2 * Pow2(n - 1) }

  /** Two's-complement 64-bit wrap-around. */
  function Wrap(x: int): int { (x + TWO_63) % (2 * TWO_63) - TWO_63 }

  /** `backoff << n` on int64. */
  function Shift(backoff: int, n: nat): int { Wrap(backoff * Pow2(n)) }

  /** The budget in closed form: six seconds an attempt, and the backoffs 1, 2, 4, ... between. */
  function Budget(retries: nat, backoff: int): int {
    6 * SECOND * (retries + 1) + backoff * (Pow2(retries) - 1)
  }

  /** One delivery attempt: how long it takes and whether it succeeds. */
  datatype Attempt = Attempt(duration: nat, ok: bool)

  /** The wait before an attempt: none before the first, then the backoff, doubled each time. */
  function Pause(backoff: int, attempt: nat): nat {
    if attempt == 0 then 0 else Max(0, Shift(backoff, attempt - 1))
  }

  /** The time the first attempts take, with the waits between them. */
  function Took(attempts: seq<Attempt>, backoff: int, made: nat): nat
    requires made <= |attempts|
  {
    if made == 0 then 0
    else Took(attempts, backoff, made - 1) + Pause(backoff, made - 1) + attempts[made - 1].duration
  }

  lemma PauseIsShift(backoff: int, attempt: nat)
    requires 0 <= backoff < TWO_53 && 1 <= attempt <= MAX_RETRIES
    ensures Pause(backoff, attempt) == backoff * Pow2(attempt - 1)
  {
    NoOverflow(attempt, backoff);
    hide Pow2;
  }

  lemma Doubled(a: int, b: int)
    ensures a * (2 * b) == 2 * (a * b)
  {
  }

  /** No wait before the first attempt, the backoff before the second, and twice the last one before
      each further one. */
  lemma PauseDoubles(backoff: int, attempt: nat)
    requires 0 <= backoff < TWO_53 && attempt <= MAX_RETRIES
    ensures Pause(backoff, 0) == 0 && Pause(backoff, 1) == backoff
    ensures attempt >= 2 ==> Pause(backoff, attempt) == 2 * Pause(backoff, attempt - 1)
  {
    PauseIsShift(backoff, 1);
    assert Pow2(0) == 1;
    if attempt >= 2 {
      PauseIsShift(backoff, attempt);
      PauseIsShift(backoff, attempt - 1);
      assert Pow2(attempt - 1) == 2 * Pow2(attempt - 2);
      hide *;
      Doubled(backoff, Pow2(attempt - 2));
    }
  }

  /** The budget is what the slowest delivery takes: every attempt six seconds, and all of them made. */
  lemma {:induction false} SlowestTakesBudget(attempts: seq<Attempt>, backoff: int, made: nat)
    requires 1 <= made <= |attempts| && made <= MAX_RETRIES + 1 && 0 <= backoff < TWO_53
    requires forall i :: 0 <= i < made ==> attempts[i].duration == 6 * SECOND
    ensures Took(attempts, backoff, made) == Budget(made - 1, backoff)
  {
    if made > 1 {
      SlowestTakesBudget(attempts, backoff, made - 1);
      NoOverflow(made - 1, backoff);
      BudgetStep(made - 1, backoff);
    } else {
      assert Took(attempts, backoff, 0) == 0;
    }
  }

  lemma {:induction false} Pow2Grows(m: nat, n: nat)
    requires m <= n
    ensures 1 <= Pow2(m) <= Pow2(n)
  {
    if m < n { Pow2Grows(m, n - 1); }
    else if m > 0 { Pow2Grows(m - 1, n - 1); }
  }

  lemma Pow2Ten()
    ensures Pow2(10) == 1024
  {
    assert Pow2(2) == 4 && Pow2(4) == 16 && Pow2(6) == 64 && Pow2(8) == 256;
  }

  /** Within the configured cap and for any backoff under 2^53 ns, neither a shift nor the running
      sum leaves the 64-bit range. */
  lemma NoOverflow(n: nat, backoff: int)
    requires n <= MAX_RETRIES && 0 <= backoff < TWO_53
    ensures 0 <= Budget(n, backoff) < TWO_63 && Wrap(Budget(n, backoff)) == Budget(n, backoff)
    ensures n >= 1 ==> Shift(backoff, n - 1) == backoff * Pow2(n - 1) && 0 <= backoff * Pow2(n - 1) < TWO_63
  {
    Pow2Ten();
    Pow2Grows(n, 10);
    Scale(backoff, TWO_53 - 1, Pow2(n) - 1, 1023);
    if n >= 1 { Scale(backoff, TWO_53 - 1, Pow2(n - 1), 1024); }
  }

  lemma Scale(a: nat, a': nat, b: nat, b': nat)
    requires a <= a' && b <= b'
    ensures 0 <= a * b <= a' * b'
  {
    assert a * b <= a * b';
  }

  lemma BudgetStep(n: nat, backoff: int)
    requires n >= 1
    ensures Budget(n, backoff) == Budget(n - 1, backoff) + 6 * SECOND + backoff * Pow2(n - 1)
  {
    assert Pow2(n) - 1 == (Pow2(n - 1) - 1) + Pow2(n - 1);
  }

  class WebhookSender {
    const maxRetries: nat
    const backoff: int

    /** Retries are clamped to 0..10; a non-positive backoff becomes two seconds. */
    constructor (retries: int, backoffSeconds: int)
      ensures maxRetries == Max(0, Min(retries, MAX_RETRIES))
      ensures backoff == if Wrap(backoffSeconds * SECOND) <= 0 then 2 * SECOND else Wrap(backoffSeconds * SECOND)
    {
      maxRetries := if retries < 0 then 0 else if retries > MAX_RETRIES then MAX_RETRIES else retries;
      backoff := if Wrap(backoffSeconds * SECOND) <= 0 then 2 * SECOND else Wrap(backoffSeconds * SECOND);
    }

    /** The loop runs on wrapping 64-bit values; the result is the exact sum, wrapped. */
    method RetryBudget() returns (budget: int)
      ensures budget == Wrap(Budget(maxRetries, backoff))
    {
      budget := 0;
      var attempt := 0;
      while attempt <= maxRetries
        invariant 0 <= attempt <= maxRetries + 1
        invariant budget == Wrap(if attempt == 0 then 0 else Budget(attempt - 1, backoff))
      {
        ghost var before := if attempt == 0 then 0 else Budget(attempt - 1, backoff);
        WrapAdds(before, 6 * SECOND);
        budget := Wrap(budget + 6 * SECOND);
        if attempt > 0 {
          BudgetStep(attempt, backoff);
          WrapAdds(before + 6 * SECOND, backoff * Pow2(attempt - 1));
          budget := Wrap(budget + Shift(backoff, attempt - 1));
        }
        attempt := attempt + 1;
      }
    }

    /** `attempts` is what each delivery would do; the context ends at `deadline`. Times are from the
        start of the delivery and timers are exact. */
    method SendWithRetry(attempts: seq<Attempt>, deadline: int) returns (ok: bool, made: nat, elapsed: nat)
      requires |attempts| == maxRetries + 1
      ensures 0 <= made <= maxRetries + 1
      ensures forall i :: 0 <= i < made - 1 ==> !attempts[i].ok
      ensures ok <==> made >= 1 && attempts[made - 1].ok
      ensures elapsed == Took(attempts, backoff, made)
      ensures !ok && made <= maxRetries ==> elapsed + Pause(backoff, made) > deadline
      ensures Punctual(attempts) && deadline >= Budget(maxRetries, backoff) ==>
                elapsed <= Budget(maxRetries, backoff) && (!ok ==> made == maxRetries + 1)
    {
      ok, made, elapsed := false, 0, 0;
      var attempt := 0;
      while attempt <= maxRetries
        invariant 0 <= attempt <= maxRetries + 1 && made == attempt && !ok
        invariant elapsed == Took(attempts, backoff, made)
        invariant forall i :: 0 <= i < made ==> !attempts[i].ok
        invariant Punctual(attempts) ==> elapsed <= if attempt == 0 then 0 else Budget(attempt - 1, backoff)
      {
        if Punctual(attempts) { BudgetGrows(attempt, maxRetries, backoff); }
        if attempt > 0 {
          if Punctual(attempts) {
            NoOverflow(attempt, backoff);
            BudgetStep(attempt, backoff);
          }
          var pause := Pause(backoff, attempt);
          if elapsed + pause > deadline { return; }
          elapsed := elapsed + pause;
        }
        made := made + 1;
        elapsed := elapsed + attempts[attempt].duration;
        if attempts[attempt].ok {
          ok := true;
          return;
        }
        attempt := attempt + 1;
      }
    }

    /** Settings in range, and every delivery over within six seconds. */
    ghost predicate Punctual(attempts: seq<Attempt>) {
      && maxRetries <= MAX_RETRIES && 0 <= backoff < TWO_53
      && forall i :: 0 <= i < |attempts| ==> attempts[i].duration <= 6 * SECOND
    }
  }

  /** The budget the sender computes is the closed form whenever the settings are in range. */
  lemma BudgetIsExact(retries: nat, backoff: int)
    requires retries <= MAX_RETRIES && 0 <= backoff < TWO_53
    ensures Wrap(Budget(retries, backoff)) == 6 * SECOND * (retries + 1) + backoff * (Pow2(retries) - 1)
  {
    NoOverflow(retries, backoff);
  }

  /** Whole turns of the 64-bit range do not show. */
  lemma WrapIgnoresTurns(x: int, turns: int)
    ensures Wrap(x + 2 * TWO_63 * turns) == Wrap(x)
  {
    var q, r := (x + TWO_63) / (2 * TWO_63), (x + TWO_63) % (2 * TWO_63);
    var y := x + 2 * TWO_63 * turns + TWO_63;
    assert y == (q + turns) * (2 * TWO_63) + r;
    Remainder(y, q + turns, r);
  }

  lemma Remainder(y: int, q: int, r: int)
    requires y == q * (2 * TWO_63) + r && 0 <= r < 2 * TWO_63
    ensures y % (2 * TWO_63) == r
  {
  }

  lemma WrapAdds(a: int, b: int)
    ensures Wrap(Wrap(a) + b) == Wrap(a + b) && Wrap(Wrap(a) + Wrap(b)) == Wrap(a + b)
  {
    var p, q := (a + TWO_63) / (2 * TWO_63), (b + TWO_63) / (2 * TWO_63);
    assert Wrap(a) == a - 2 * TWO_63 * p && Wrap(b) == b - 2 * TWO_63 * q;
    hide Wrap;
    WrapIgnoresTurns(Wrap(a) + b, p);
    WrapIgnoresTurns(Wrap(a) + Wrap(b), p + q);
  }

  lemma {:induction false} BudgetGrows(m: nat, n: nat, backoff: int)
    requires m <= n && backoff >= 0
    ensures 6 * SECOND <= Budget(m, backoff) <= Budget(n, backoff)
  {
    Pow2Grows(m, n);
    Pow2Grows(0, m);
    Scale(backoff, backoff, Pow2(m) - 1, Pow2(n) - 1);
  }
}
