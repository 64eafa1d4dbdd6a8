/**
 The bounded read-only scan: one pass over the sorted candidates of a fixed tree, cut short
 by budgets, and interrupted at any index by cancellation, the clock or failing stat calls.
 */
module Scan {
  import opened Common

  /** A candidate path with what stat reports of it. */
  datatype Entry = Entry(path: string, regular: bool, size: nat)

  datatype Budget = Budget(timeoutSeconds: int, maxFiles: nat, maxBytes: nat, maxRetries: nat)

  /** What one execution meets: the cancel signal and the clock as read at each index, and
      whether the given attempt to stat the candidate at an index raises. */
  datatype Weather = Weather(cancelled: nat -> bool, started: int, clock: nat -> int, raises: (nat, nat) -> bool)

  /** The loop's variables. */
  datatype Cursor = Cursor(next: nat, manifest: seq<Entry>, bytes: nat, retries: nat)

  const START := Cursor(0, [], 0, 0)

  datatype Interruption = Cancelled | TimedOut | FailedRetryable

  datatype Outcome =
    | Pass(manifest: seq<Entry>, bytes: nat, retries: nat)
    | Interrupted(why: Interruption, at: Cursor)

  /** Stat attempts from the given one on: the retries spent when one succeeds within the budget. */
  function StatWithRetry(raises: (nat, nat) -> bool, index: nat, attempt: nat, maxRetries: nat): (r: Option<nat>)
    ensures r.Some? ==> attempt <= r.value && !raises(index, r.value) && forall a :: attempt <= a < r.value ==> raises(index, a)
    ensures r.Some? && attempt <= maxRetries ==> r.value <= maxRetries
    ensures r.None? ==> forall a :: attempt <= a <= maxRetries ==> raises(index, a)
    decreases if attempt <= maxRetries then maxRetries - attempt else 0
  {
    if !raises(index, attempt) then Some(attempt)
    else if attempt >= maxRetries then None
    else StatWithRetry(raises, index, attempt + 1, maxRetries)
  }

  /** The scan loop from a cursor on. */
  function ScanFrom(candidates: seq<Entry>, budget: Budget, weather: Weather, c: Cursor): Outcome
    requires c.next <= |candidates|
    decreases |candidates| - c.next
  {
    if c.next == |candidates| then Pass(c.manifest, c.bytes, c.retries)
    else if weather.cancelled(c.next) then Interrupted(Cancelled, c)
    else if weather.clock(c.next) - weather.started >= budget.timeoutSeconds then Interrupted(TimedOut, c)
    else if |c.manifest| >= budget.maxFiles then Pass(c.manifest, c.bytes, c.retries)
    else
      var tried := StatWithRetry(weather.raises, c.next, 0, budget.maxRetries);
      if tried.None? then Interrupted(FailedRetryable, c.(retries := c.retries + budget.maxRetries))
      else
        var e := candidates[c.next];
        var c' := c.(next := c.next + 1, retries := c.retries + tried.value);
        if !e.regular then ScanFrom(candidates, budget, weather, c')
        else if c.bytes + e.size > budget.maxBytes then Pass(c'.manifest, c'.bytes, c'.retries)
        else ScanFrom(candidates, budget, weather, c'.(manifest := c.manifest + [e], bytes := c.bytes + e.size))
  }

  /* ---------- What the scan is for, stated without a loop ---------- */

  function Regulars(entries: seq<Entry>): seq<Entry> {
    if entries == [] then []
    else
      var init, e := entries[..|entries| - 1], entries[|entries| - 1];
      Regulars(init) + if e.regular then [e] else []
  }

  function TotalSize(entries: seq<Entry>): nat {
    if entries == [] then 0 else TotalSize(entries[..|entries| - 1]) + entries[|entries| - 1].size
  }

  /** No file after the first k candidates may be taken. */
  predicate Exhausted(candidates: seq<Entry>, budget: Budget, k: nat)
    requires k <= |candidates|
  {
    || k == |candidates|
    || |Regulars(candidates[..k])| >= budget.maxFiles
    || (candidates[k].regular && TotalSize(Regulars(candidates[..k])) + candidates[k].size > budget.maxBytes)
  }

  /** The answer over a fixed tree: the regular files among the first k candidates, for the least exhausted k. */
  ghost predicate IsAnswer(candidates: seq<Entry>, budget: Budget, manifest: seq<Entry>, bytes: nat) {
    exists k :: 0 <= k <= |candidates|
      && Exhausted(candidates, budget, k)
      && (forall j :: 0 <= j < k ==> !Exhausted(candidates, budget, j))
      && manifest == Regulars(candidates[..k])
      && bytes == TotalSize(manifest)
  }

  /** There is only one answer. */
  lemma AnswerIsUnique(candidates: seq<Entry>, budget: Budget, m: seq<Entry>, b: nat, m': seq<Entry>, b': nat)
    requires IsAnswer(candidates, budget, m, b) && IsAnswer(candidates, budget, m', b')
    ensures m == m' && b == b'
  {
    var k :| 0 <= k <= |candidates| && Exhausted(candidates, budget, k)
      && (forall j :: 0 <= j < k ==> !Exhausted(candidates, budget, j))
      && m == Regulars(candidates[..k]) && b == TotalSize(m);
    var k' :| 0 <= k' <= |candidates| && Exhausted(candidates, budget, k')
      && (forall j :: 0 <= j < k' ==> !Exhausted(candidates, budget, j))
      && m' == Regulars(candidates[..k']) && b' == TotalSize(m');
    assert k == k';
  }

  /** A cursor some uninterrupted prefix of the scan would have reached. */
  ghost predicate Faithful(candidates: seq<Entry>, budget: Budget, c: Cursor) {
    && c.next <= |candidates|
    && (forall j :: 0 <= j < c.next ==> !Exhausted(candidates, budget, j))
    && c.manifest == Regulars(candidates[..c.next])
    && c.bytes == TotalSize(c.manifest)
  }

  /** The cursor after a candidate that was taken or passed over. */
  function Advance(candidates: seq<Entry>, c: Cursor, tried: nat): Cursor
    requires c.next < |candidates|
  {
    var e := candidates[c.next];
    var passed := c.(next := c.next + 1, retries := c.retries + tried);
    if e.regular then passed.(manifest := c.manifest + [e], bytes := c.bytes + e.size) else passed
  }

  lemma AdvanceIsFaithful(candidates: seq<Entry>, budget: Budget, c: Cursor, tried: nat)
    requires Faithful(candidates, budget, c) && c.next < |candidates| && !Exhausted(candidates, budget, c.next)
    ensures Faithful(candidates, budget, Advance(candidates, c, tried))
  {
    var e := candidates[c.next];
    assert candidates[..c.next + 1][..c.next] == candidates[..c.next];
    assert c.manifest + [] == c.manifest;
    assert (c.manifest + [e])[..|c.manifest|] == c.manifest;
  }

  /** The loop goes on after spending tried retries on the candidate at c. */
  ghost predicate GoesOn(candidates: seq<Entry>, budget: Budget, weather: Weather, c: Cursor, tried: nat) {
    && c.next < |candidates| && !Exhausted(candidates, budget, c.next) && tried <= budget.maxRetries
    && StatWithRetry(weather.raises, c.next, 0, budget.maxRetries) == Some(tried)
    && ScanFrom(candidates, budget, weather, c) == ScanFrom(candidates, budget, weather, Advance(candidates, c, tried))
  }

  /** Where the loop goes on, it goes on from the advanced cursor; where it does not, it stops as the budgets say. */
  lemma ScanStep(candidates: seq<Entry>, budget: Budget, weather: Weather, c: Cursor)
    requires Faithful(candidates, budget, c)
    ensures var o := ScanFrom(candidates, budget, weather, c);
            || (o.Pass? && Exhausted(candidates, budget, c.next) && o.manifest == c.manifest && o.bytes == c.bytes
                && c.retries <= o.retries <= c.retries + if c.next < |candidates| then budget.maxRetries else 0)
            || (o.Interrupted? && o.at == c.(retries := o.at.retries) && c.next < |candidates|
                && (o.why == Cancelled ==> weather.cancelled(c.next))
                && (o.why == TimedOut ==> weather.clock(c.next) - weather.started >= budget.timeoutSeconds)
                && (o.why == FailedRetryable ==>
                      |c.manifest| < budget.maxFiles && StatWithRetry(weather.raises, c.next, 0, budget.maxRetries).None?)
                && o.at.retries == c.retries + if o.why == FailedRetryable then budget.maxRetries else 0)
            || exists tried: nat :: GoesOn(candidates, budget, weather, c, tried)
  {
    if c.next < |candidates| && !weather.cancelled(c.next)
       && weather.clock(c.next) - weather.started < budget.timeoutSeconds && |c.manifest| < budget.maxFiles {
      var tried := StatWithRetry(weather.raises, c.next, 0, budget.maxRetries);
      if tried.Some? && !Exhausted(candidates, budget, c.next) {
        assert GoesOn(candidates, budget, weather, c, tried.value);
      }
    }
  }

  /** From a faithful cursor, a scan ends in the answer or at a faithful cursor no earlier. */
  lemma {:induction false} ScanIsFaithful(candidates: seq<Entry>, budget: Budget, weather: Weather, c: Cursor)
    requires Faithful(candidates, budget, c)
    ensures var o := ScanFrom(candidates, budget, weather, c);
            && (o.Pass? ==> IsAnswer(candidates, budget, o.manifest, o.bytes))
            && (o.Interrupted? ==> Faithful(candidates, budget, o.at) && c.next <= o.at.next)
    decreases |candidates| - c.next
  {
    hide StatWithRetry;
    ScanStep(candidates, budget, weather, c);
    if tried: nat :| GoesOn(candidates, budget, weather, c, tried) {
      AdvanceIsFaithful(candidates, budget, c, tried);
      AdvanceMoves(candidates, c, tried);
      ScanIsFaithful(candidates, budget, weather, Advance(candidates, c, tried));
    }
  }

  lemma AdvanceMoves(candidates: seq<Entry>, c: Cursor, tried: nat)
    requires c.next < |candidates|
    ensures Advance(candidates, c, tried).next == c.next + 1
    ensures Advance(candidates, c, tried).retries == c.retries + tried
  {
  }

  /** The retries n stat calls may cost. */
  function Allowance(maxRetries: nat, n: nat): nat {
    if n == 0 then 0 else maxRetries + Allowance(maxRetries, n - 1)
  }

  lemma {:induction false} AllowanceIsProduct(maxRetries: nat, n: nat)
    ensures Allowance(maxRetries, n) == maxRetries * n
  {
    if n > 0 {
      AllowanceIsProduct(maxRetries, n - 1);
    }
  }

  lemma {:induction false} AllowanceAdds(maxRetries: nat, a: nat, b: nat)
    ensures Allowance(maxRetries, a + b) == Allowance(maxRetries, a) + Allowance(maxRetries, b)
  {
    if a > 0 {
      AllowanceAdds(maxRetries, a - 1, b);
    }
  }

  /** The index an execution has dealt with, counting a stat failure as one more. */
  function Reached(candidates: seq<Entry>, o: Outcome): nat {
    match o
    case Pass(_, _, _) => |candidates|
    case Interrupted(why, at) => at.next + if why == FailedRetryable then 1 else 0
  }

  function Retries(o: Outcome): nat {
    match o
    case Pass(_, _, retries) => retries
    case Interrupted(_, at) => at.retries
  }

  /** One execution spends at most maxRetries on each candidate it deals with. */
  lemma {:induction false} ScanRetries(candidates: seq<Entry>, budget: Budget, weather: Weather, c: Cursor)
    requires Faithful(candidates, budget, c)
    ensures var o := ScanFrom(candidates, budget, weather, c);
            && c.next <= Reached(candidates, o)
            && c.retries <= Retries(o) <= c.retries + Allowance(budget.maxRetries, Reached(candidates, o) - c.next)
    decreases |candidates| - c.next
  {
    hide StatWithRetry, ScanFrom, Exhausted;
    ScanStep(candidates, budget, weather, c);
    var o := ScanFrom(candidates, budget, weather, c);
    if tried: nat :| GoesOn(candidates, budget, weather, c, tried) {
      AdvanceIsFaithful(candidates, budget, c, tried);
      AdvanceMoves(candidates, c, tried);
      ScanRetries(candidates, budget, weather, Advance(candidates, c, tried));
    } else if o.Pass? && c.next < |candidates| {
      AllowanceAdds(budget.maxRetries, 1, |candidates| - c.next - 1);
      assert Allowance(budget.maxRetries, 1) == budget.maxRetries;
    }
  }

  /** Weather that never interrupts within the budget. */
  ghost predicate Calm(candidates: seq<Entry>, budget: Budget, weather: Weather) {
    forall i: nat :: i < |candidates| ==>
      && !weather.cancelled(i)
      && weather.clock(i) - weather.started < budget.timeoutSeconds
      && StatWithRetry(weather.raises, i, 0, budget.maxRetries).Some?
  }

  lemma {:induction false} CalmScanPasses(candidates: seq<Entry>, budget: Budget, weather: Weather, c: Cursor)
    requires c.next <= |candidates| && Calm(candidates, budget, weather)
    ensures ScanFrom(candidates, budget, weather, c).Pass?
    decreases |candidates| - c.next
  {
    if c.next < |candidates| && |c.manifest| < budget.maxFiles {
      var tried := StatWithRetry(weather.raises, c.next, 0, budget.maxRetries);
      var e := candidates[c.next];
      var c' := c.(next := c.next + 1, retries := c.retries + tried.value);
      CalmScanPasses(candidates, budget, weather, c');
      CalmScanPasses(candidates, budget, weather, c'.(manifest := c.manifest + [e], bytes := c.bytes + e.size));
    }
  }

  /* ---------- What every answer satisfies ---------- */

  /** The manifest keeps the candidates' order and skips some. */
  ghost predicate Subsequence(a: seq<Entry>, b: seq<Entry>) {
    if a == [] then true
    else b != [] && if a[|a| - 1] == b[|b| - 1] then Subsequence(a[..|a| - 1], b[..|b| - 1])
                    else Subsequence(a, b[..|b| - 1])
  }

  lemma {:induction false} RegularsAreASubsequence(entries: seq<Entry>)
    ensures Subsequence(Regulars(entries), entries)
  {
    if entries != [] {
      var init, e := entries[..|entries| - 1], entries[|entries| - 1];
      RegularsAreASubsequence(init);
      if e.regular {
        assert Regulars(entries)[..|Regulars(init)|] == Regulars(init);
      } else {
        assert Regulars(entries) == Regulars(init);
        RegularsAreRegular(init);
      }
    }
  }

  lemma {:induction false} RegularsAreRegular(entries: seq<Entry>)
    ensures forall i :: 0 <= i < |Regulars(entries)| ==> Regulars(entries)[i].regular
  {
    if entries != [] {
      RegularsAreRegular(entries[..|entries| - 1]);
    }
  }

  lemma {:induction false} SubsequenceOfLonger(a: seq<Entry>, b: seq<Entry>, n: nat)
    requires n <= |b| && Subsequence(a, b[..n])
    ensures Subsequence(a, b)
    decreases |b|
  {
    if n == |b| {
      assert b[..n] == b;
    } else {
      var init := b[..|b| - 1];
      assert init[..n] == b[..n];
      SubsequenceOfLonger(a, init, n);
      if a != [] && a[|a| - 1] == b[|b| - 1] {
        SubsequenceDropLast(a, init);
      }
    }
  }

  lemma {:induction false} SubsequenceDropLast(a: seq<Entry>, b: seq<Entry>)
    requires a != [] && Subsequence(a, b)
    ensures Subsequence(a[..|a| - 1], b)
    decreases |b|
  {
    var shorter := a[..|a| - 1];
    if a[|a| - 1] == b[|b| - 1] {
      if shorter != [] {
        if shorter[|shorter| - 1] == b[|b| - 1] {
          SubsequenceDropLast(shorter, b[..|b| - 1]);
        }
      }
    } else {
      SubsequenceDropLast(a, b[..|b| - 1]);
      if shorter != [] && shorter[|shorter| - 1] == b[|b| - 1] {
        SubsequenceDropLast(shorter, b[..|b| - 1]);
      }
    }
  }

  /** Budgets hold of the regular files of every prefix reached before exhaustion. */
  lemma {:induction false} WithinBudgets(candidates: seq<Entry>, budget: Budget, k: nat)
    requires k <= |candidates| && forall j :: 0 <= j < k ==> !Exhausted(candidates, budget, j)
    ensures |Regulars(candidates[..k])| <= budget.maxFiles
    ensures TotalSize(Regulars(candidates[..k])) <= budget.maxBytes
  {
    if k > 0 {
      WithinBudgets(candidates, budget, k - 1);
      assert candidates[..k][..k - 1] == candidates[..k - 1];
      assert !Exhausted(candidates, budget, k - 1);
      var before := Regulars(candidates[..k - 1]);
      assert (before + [candidates[k - 1]])[..|before|] == before;
      assert before + [] == before;
    }
  }

  /** The files taken number and weigh no more than allowed, add up, and keep the candidates' order. */
  ghost predicate InBudget(candidates: seq<Entry>, budget: Budget, manifest: seq<Entry>, bytes: nat) {
    && |manifest| <= budget.maxFiles && bytes == TotalSize(manifest) <= budget.maxBytes
    && Subsequence(manifest, candidates)
  }

  lemma CursorWithinBudgets(candidates: seq<Entry>, budget: Budget, c: Cursor)
    requires Faithful(candidates, budget, c)
    ensures InBudget(candidates, budget, c.manifest, c.bytes)
  {
    WithinBudgets(candidates, budget, c.next);
    RegularsAreASubsequence(candidates[..c.next]);
    SubsequenceOfLonger(c.manifest, candidates, c.next);
  }

  /** An answer is the cursor at the first exhausted candidate. */
  lemma AnswerWithinBudgets(candidates: seq<Entry>, budget: Budget, manifest: seq<Entry>, bytes: nat)
    requires IsAnswer(candidates, budget, manifest, bytes)
    ensures InBudget(candidates, budget, manifest, bytes)
  {
    var k :| 0 <= k <= |candidates| && Exhausted(candidates, budget, k)
      && (forall j :: 0 <= j < k ==> !Exhausted(candidates, budget, j))
      && manifest == Regulars(candidates[..k]) && bytes == TotalSize(manifest);
    CursorWithinBudgets(candidates, budget, Cursor(k, manifest, bytes, 0));
  }

  /* ---------- Chains of interruptions and resumes ---------- */

  /** A chain resumes each interrupted execution from where it stopped; failures counts the
      executions that gave up on a stat. */
  datatype Chained = Chained(outcome: Outcome, failures: nat)

  function Chain(candidates: seq<Entry>, budget: Budget, weathers: seq<Weather>, c: Cursor): Chained
    requires c.next <= |candidates| && weathers != []
    decreases |weathers|
  {
    var o := ScanFrom(candidates, budget, weathers[0], c);
    match o
    case Pass(_, _, _) => Chained(o, 0)
    case Interrupted(why, at) =>
      var failure := if why == FailedRetryable then 1 else 0;
      InterruptedInRange(candidates, budget, weathers[0], c);
      if |weathers| == 1 then Chained(o, failure)
      else
        var rest := Chain(candidates, budget, weathers[1..], at);
        rest.(failures := rest.failures + failure)
  }

  lemma InterruptedInRange(candidates: seq<Entry>, budget: Budget, weather: Weather, c: Cursor)
    requires c.next <= |candidates|
    ensures var o := ScanFrom(candidates, budget, weather, c); o.Interrupted? ==> c.next <= o.at.next <= |candidates|
    decreases |candidates| - c.next
  {
  }

  /** Any chain ends in the answer or at a faithful cursor no earlier than its start. */
  lemma {:induction false} ChainRefinesOneShot(candidates: seq<Entry>, budget: Budget, weathers: seq<Weather>, c: Cursor)
    requires Faithful(candidates, budget, c) && weathers != []
    ensures var o := Chain(candidates, budget, weathers, c).outcome;
            && (o.Pass? ==> IsAnswer(candidates, budget, o.manifest, o.bytes))
            && (o.Interrupted? ==> Faithful(candidates, budget, o.at) && c.next <= o.at.next)
    decreases |weathers|
  {
    ScanIsFaithful(candidates, budget, weathers[0], c);
    var o := ScanFrom(candidates, budget, weathers[0], c);
    if o.Interrupted? && |weathers| > 1 {
      ChainRefinesOneShot(candidates, budget, weathers[1..], o.at);
    }
  }

  /** The files an execution leaves in its receipt or checkpoint. */
  function Taken(o: Outcome): (seq<Entry>, nat) {
    match o
    case Pass(manifest, bytes, _) => (manifest, bytes)
    case Interrupted(_, at) => (at.manifest, at.bytes)
  }

  /** However a chain ends, and wherever it is interrupted, what it has taken stays within the budgets. */
  lemma ChainWithinBudgets(candidates: seq<Entry>, budget: Budget, weathers: seq<Weather>, c: Cursor)
    requires Faithful(candidates, budget, c) && weathers != []
    ensures var (manifest, bytes) := Taken(Chain(candidates, budget, weathers, c).outcome);
            InBudget(candidates, budget, manifest, bytes)
  {
    hide Chain, IsAnswer, Exhausted, InBudget;
    ChainRefinesOneShot(candidates, budget, weathers, c);
    match Chain(candidates, budget, weathers, c).outcome
    case Pass(manifest, bytes, _) => AnswerWithinBudgets(candidates, budget, manifest, bytes);
    case Interrupted(_, at) => CursorWithinBudgets(candidates, budget, at);
  }

  /** Over a whole chain the retries are bounded by the candidates dealt with and the stat failures met. */
  lemma {:induction false} ChainRetries(candidates: seq<Entry>, budget: Budget, weathers: seq<Weather>, c: Cursor)
    requires Faithful(candidates, budget, c) && weathers != []
    ensures var r := Chain(candidates, budget, weathers, c);
            Retries(r.outcome) <= c.retries + budget.maxRetries * (|candidates| - c.next + r.failures)
    decreases |weathers|
  {
    hide ScanFrom, Exhausted;
    var o := ScanFrom(candidates, budget, weathers[0], c);
    ScanIsFaithful(candidates, budget, weathers[0], c);
    ScanRetries(candidates, budget, weathers[0], c);
    AllowanceIsProduct(budget.maxRetries, Reached(candidates, o) - c.next);
    var r := Chain(candidates, budget, weathers, c);
    if o.Interrupted? {
      var failure := if o.why == FailedRetryable then 1 else 0;
      if |weathers| > 1 {
        ChainRetries(candidates, budget, weathers[1..], o.at);
        var rest := Chain(candidates, budget, weathers[1..], o.at);
        Distribute(budget.maxRetries, o.at.next + failure - c.next, |candidates| - o.at.next + rest.failures);
      } else {
        Distribute(budget.maxRetries, o.at.next + failure - c.next, |candidates| - o.at.next);
      }
    }
  }

  lemma Distribute(x: nat, a: nat, b: nat)
    ensures x * a + x * b == x * (a + b) && x * b >= 0
  {
  }

  /** A chain whose last execution is calm passes with the manifest and bytes of the uninterrupted scan. */
  lemma {:induction false} ChainEndsLikeOneShot(
    candidates: seq<Entry>, budget: Budget, weathers: seq<Weather>, c: Cursor, oneShot: Weather)
    requires Faithful(candidates, budget, c) && weathers != []
    requires Calm(candidates, budget, weathers[|weathers| - 1]) && Calm(candidates, budget, oneShot)
    ensures var chained := Chain(candidates, budget, weathers, c).outcome;
            var direct := ScanFrom(candidates, budget, oneShot, START);
            chained.Pass? && direct.Pass? && chained.manifest == direct.manifest && chained.bytes == direct.bytes
    decreases |weathers|
  {
    CalmChainPasses(candidates, budget, weathers, c);
    ChainRefinesOneShot(candidates, budget, weathers, c);
    CalmScanPasses(candidates, budget, oneShot, START);
    ScanIsFaithful(candidates, budget, oneShot, START);
    var chained := Chain(candidates, budget, weathers, c).outcome;
    var direct := ScanFrom(candidates, budget, oneShot, START);
    AnswerIsUnique(candidates, budget, chained.manifest, chained.bytes, direct.manifest, direct.bytes);
  }

  lemma {:induction false} CalmChainPasses(candidates: seq<Entry>, budget: Budget, weathers: seq<Weather>, c: Cursor)
    requires c.next <= |candidates| && weathers != [] && Calm(candidates, budget, weathers[|weathers| - 1])
    ensures Chain(candidates, budget, weathers, c).outcome.Pass?
    decreases |weathers|
  {
    if |weathers| == 1 {
      CalmScanPasses(candidates, budget, weathers[0], c);
    } else {
      InterruptedInRange(candidates, budget, weathers[0], c);
      var o := ScanFrom(candidates, budget, weathers[0], c);
      if o.Interrupted? {
        CalmChainPasses(candidates, budget, weathers[1..], o.at);
      }
    }
  }
}
