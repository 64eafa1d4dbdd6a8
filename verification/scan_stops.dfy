/**
 Where an execution of the scan stops, why, and what it has spent by then, read off the candidates and the weather
 without a loop.
 */
module ScanStops {
  import opened Common
  import opened Scan

  /** Every attempt to stat the candidate raises, the last retry included. */
  ghost predicate StatFails(budget: Budget, weather: Weather, k: nat) {
    forall a: nat :: a <= budget.maxRetries ==> weather.raises(k, a)
  }

  /** Candidate k interrupts the execution that gets there: it is cancelled or out of time there, or it still may take a file
      and cannot stat it. */
  ghost predicate Halts(candidates: seq<Entry>, budget: Budget, weather: Weather, k: nat)
    requires k < |candidates|
  {
    || weather.cancelled(k)
    || weather.clock(k) >= weather.started + budget.timeoutSeconds
    || (|Regulars(candidates[..k])| < budget.maxFiles && StatFails(budget, weather, k))
  }

  /** An execution from index n gets to candidate k. */
  ghost predicate Reaches(candidates: seq<Entry>, budget: Budget, weather: Weather, n: nat, k: nat) {
    && n <= k <= |candidates|
    && (forall j :: 0 <= j < k ==> !Exhausted(candidates, budget, j))
    && (forall j :: n <= j < k ==> !Halts(candidates, budget, weather, j))
  }

  /** Retries spent on a candidate: the attempts before the first that succeeds. */
  predicate Spends(budget: Budget, weather: Weather, k: nat, n: nat) {
    n <= budget.maxRetries && !weather.raises(k, n) && forall a: nat :: a < n ==> weather.raises(k, a)
  }

  lemma StatIs(budget: Budget, weather: Weather, k: nat)
    ensures var tried := StatWithRetry(weather.raises, k, 0, budget.maxRetries);
            && (tried.None? <==> StatFails(budget, weather, k))
            && (tried.Some? ==> Spends(budget, weather, k, tried.value))
  {
  }

  function Spent(budget: Budget, weather: Weather, n: nat, k: nat): nat {
    if k <= n then 0
    else
      var tried := StatWithRetry(weather.raises, k - 1, 0, budget.maxRetries);
      Spent(budget, weather, n, k - 1) + if tried.Some? then tried.value else 0
  }

  lemma {:induction false} SpentFrom(budget: Budget, weather: Weather, n: nat, k: nat)
    requires n < k
    ensures var tried := StatWithRetry(weather.raises, n, 0, budget.maxRetries);
            Spent(budget, weather, n, k) == (if tried.Some? then tried.value else 0) + Spent(budget, weather, n + 1, k)
  {
    hide StatWithRetry;
    if n + 1 < k { SpentFrom(budget, weather, n, k - 1); }
  }

  /** What is spent at the last candidate dealt with. */
  function SpentAt(candidates: seq<Entry>, budget: Budget, weather: Weather, k: nat): nat
    requires k <= |candidates|
  {
    if k == |candidates| || |Regulars(candidates[..k])| >= budget.maxFiles then 0 else Spent(budget, weather, k, k + 1)
  }

  /** The end of an execution that stops at candidate k, the first that it may not go past. */
  ghost predicate EndsAt(candidates: seq<Entry>, budget: Budget, weather: Weather, c: Cursor, k: nat) {
    && Reaches(candidates, budget, weather, c.next, k)
    && var o := ScanFrom(candidates, budget, weather, c);
       var spent := c.retries + Spent(budget, weather, c.next, k);
       if k < |candidates| && Halts(candidates, budget, weather, k) then
         && o.Interrupted? && o.at.next == k
         && o.at.manifest == Regulars(candidates[..k]) && o.at.bytes == TotalSize(o.at.manifest)
         && (o.why == Cancelled <==> weather.cancelled(k))
         && (o.why == TimedOut <==> !weather.cancelled(k) && weather.clock(k) >= weather.started + budget.timeoutSeconds)
         && o.at.retries == spent + if o.why == FailedRetryable then budget.maxRetries else 0
       else
         && Exhausted(candidates, budget, k)
         && o == Pass(Regulars(candidates[..k]), TotalSize(Regulars(candidates[..k])),
                      spent + SpentAt(candidates, budget, weather, k))
  }

  lemma StopsHere(candidates: seq<Entry>, budget: Budget, weather: Weather, c: Cursor)
    requires Faithful(candidates, budget, c)
    requires c.next < |candidates| ==> Halts(candidates, budget, weather, c.next) || Exhausted(candidates, budget, c.next)
    ensures EndsAt(candidates, budget, weather, c, c.next)
  {
    if c.next < |candidates| { StatIs(budget, weather, c.next); }
    hide StatWithRetry, StatFails, Spends;
  }

  lemma GoesPast(candidates: seq<Entry>, budget: Budget, weather: Weather, c: Cursor)
    requires Faithful(candidates, budget, c) && c.next < |candidates|
    requires !Halts(candidates, budget, weather, c.next) && !Exhausted(candidates, budget, c.next)
    ensures var tried := StatWithRetry(weather.raises, c.next, 0, budget.maxRetries);
            && tried.Some?
            && ScanFrom(candidates, budget, weather, c) == ScanFrom(candidates, budget, weather, Advance(candidates, c, tried.value))
  {
    ScanStep(candidates, budget, weather, c);
    StatIs(budget, weather, c.next);
    hide StatWithRetry, StatFails, Spends, Exhausted, Advance, ScanFrom;
  }

  lemma EndsFurther(candidates: seq<Entry>, budget: Budget, weather: Weather, c: Cursor, d: Cursor, k: nat)
    requires Faithful(candidates, budget, c) && c.next < |candidates| && d.next == c.next + 1
    requires !Halts(candidates, budget, weather, c.next) && !Exhausted(candidates, budget, c.next)
    requires d.retries == c.retries + Spent(budget, weather, c.next, c.next + 1)
    requires ScanFrom(candidates, budget, weather, c) == ScanFrom(candidates, budget, weather, d)
    requires EndsAt(candidates, budget, weather, d, k)
    ensures EndsAt(candidates, budget, weather, c, k)
  {
    hide StatWithRetry, ScanFrom, Halts, Exhausted, SpentAt, Faithful;
    SpentFrom(budget, weather, c.next, k);
  }

  /** Every execution stops at the first candidate that interrupts it or exhausts a budget: interrupted there if it is
      cancelled, out of time, or without a stat, in this order, and passed otherwise. The retries are counted exactly. */
  lemma {:induction false} ScanEnds(candidates: seq<Entry>, budget: Budget, weather: Weather, c: Cursor) returns (k: nat)
    requires Faithful(candidates, budget, c)
    ensures EndsAt(candidates, budget, weather, c, k)
    decreases |candidates| - c.next
  {
    hide StatWithRetry, ScanFrom, EndsAt, Halts, Exhausted;
    k := c.next;
    if k < |candidates| && !Halts(candidates, budget, weather, k) && !Exhausted(candidates, budget, k) {
      GoesPast(candidates, budget, weather, c);
      var tried := StatWithRetry(weather.raises, k, 0, budget.maxRetries).value;
      AdvanceIsFaithful(candidates, budget, c, tried);
      AdvanceMoves(candidates, c, tried);
      k := ScanEnds(candidates, budget, weather, Advance(candidates, c, tried));
      EndsFurther(candidates, budget, weather, c, Advance(candidates, c, tried), k);
    } else {
      StopsHere(candidates, budget, weather, c);
    }
  }

  /** So an execution is interrupted exactly if it reaches a candidate that interrupts it. */
  lemma InterruptedIff(candidates: seq<Entry>, budget: Budget, weather: Weather, c: Cursor)
    requires Faithful(candidates, budget, c)
    ensures ScanFrom(candidates, budget, weather, c).Interrupted? <==>
            exists k :: 0 <= k < |candidates| && Reaches(candidates, budget, weather, c.next, k) && Halts(candidates, budget, weather, k)
  {
    var k := ScanEnds(candidates, budget, weather, c);
    hide ScanFrom, Halts;
  }
}
