/**
 What holds of the quality lab and the admission records after any sequence of calls.
 */
module ToolTrustClaims {
  import opened Common
  import opened ToolIds
  import opened ToolTrust
  import opened ToolTrustInvariant
  import TaskBoard

  /* ---------- The index agrees with the logs ---------- */

  /** A tool has a card exactly when it has a logged run; the card projects the last one and carries its latest review. */
  lemma IndexAgreesWithLogs(s: System, t: Id)
    requires Reachable(s)
    ensures var last := LastRun(s.runs, t);
            && (t in s.cards <==> last.Some?)
            && (last.Some? ==>
                  && s.cards[t] == CardOf(last.value, LatestReview(s.reviews, last.value.id))
                  && s.cards[t].quality == Classify(last.value.result.payload)
                  && s.cards[t].hash == Sha256(last.value.result))
  {
    ReachableInv(s);
    hide Reachable, Classify;
    assert CardAgrees(s, t);
    if LastRun(s.runs, t).Some? { LastRunIsLogged(s.runs, t); }
    hide LastRun, LatestReview;
  }

  /** Every baseline is of a logged run of its tool, and was approved at some moment of the review log. */
  lemma BaselinesWereApproved(s: System, t: Id)
    requires Reachable(s) && t in s.baselines
    ensures exists i: nat, k: nat :: AcceptedWhen(s, t, s.baselines[t], i, k)
  {
    ReachableInv(s);
    hide Reachable, AcceptedWhen;
    assert BaselineOk(s, t);
  }

  /** Acceptance needs the tool's last run to be good, approved by its latest review, and within the last 500 runs. */
  lemma AcceptSucceedsIff(s: System, t: Id, id: Id, limitations: seq<string>)
    requires Reachable(s)
    ensures var last := LastRun(s.runs, t);
            AcceptBaseline(s, t, id, limitations).error.None? <==>
              && last.Some? && Eligible(last.value.quality) && Approving(LatestReview(s.reviews, last.value.id))
              && exists i :: 0 <= i < |s.runs| && |s.runs| - 500 <= i && s.runs[i] == last.value
  {
    ReachableInv(s);
    hide Reachable, Classify, InCatalog, ReviewsOk, ToolsOk, BaselineOk, FindRun, LatestReview;
    assert CardAgrees(s, t);
    if LastRun(s.runs, t).Some? {
      var last := LastRun(s.runs, t).value;
      LastRunIsLogged(s.runs, t);
      hide LastRun;
      FindRunMeaning(s.runs, last.id, RUN_WINDOW);
    }
  }

  /* A tool benchmarked and approved once, and then n benchmarks of another. */

  function Name(n: nat): Id { seq(n, _ => 'x') }

  function RunOf(suite: nat, n: nat, good: Payload): Run
    requires suite < 8
  {
    var result := SuiteResult(CatalogTool(suite), good);
    Run(Name(n), result, QualityAccepted, Sha256(result))
  }

  function Benchmark(suite: nat, n: nat, good: Payload): Op { OpRun(suite, Name(n), Some(good), true) }

  function ApprovedThen(n: nat, good: Payload): seq<Op> {
    if n == 0 then [Benchmark(0, 0, good)] + [OpReview(Name(0), Approve)]
    else ApprovedThen(n - 1, good) + [Benchmark(4, n, good)]
  }

  /** What is left then: the first tool's run comes first in the log, and its card is approved. */
  ghost predicate Pushed(s: System, n: nat, good: Payload) {
    && |s.runs| == n + 1 && s.runs[0] == RunOf(0, 0, good)
    && (forall i :: 1 <= i <= n ==> s.runs[i] == RunOf(4, i, good))
    && s.reviews == [Review(Name(0), Approve)]
    && CatalogTool(0) in s.cards && s.cards[CatalogTool(0)] == CardOf(RunOf(0, 0, good), Some(Approve))
  }

  lemma BenchmarkPersists(s: System, suite: nat, n: nat, good: Payload)
    requires suite < 8 && Classify(good) == QualityAccepted
    ensures Step(s, Benchmark(suite, n, good)).after == PersistRun(s, RunOf(suite, n, good))
  {
    hide Classify, CatalogTool, Name;
  }

  lemma AfterOne(s: System, ops: seq<Op>, op: Op)
    requires Possible(After(s, ops), op)
    ensures After(s, ops + [op]) == Step(After(s, ops), op).after
  {
    hide Step, Possible;
    assert (ops + [op])[..|ops|] == ops;
  }

  lemma NamesDiffer(i: nat, j: nat)
    ensures Name(i) == Name(j) ==> i == j
  {
    assert |Name(i)| == i && |Name(j)| == j;
  }

  lemma CatalogToolsDiffer()
    ensures CatalogTool(0) != CatalogTool(4)
  {
    assert |CatalogTool(0)| != |CatalogTool(4)|;
  }

  lemma AfterNothing(s: System)
    ensures After(s, []) == s
  {
  }

  lemma FirstIsPossible(s: System, good: Payload)
    requires s.runs == []
    ensures Possible(s, Benchmark(0, 0, good)) && forall t :: Possible(t, OpReview(Name(0), Approve))
  {
    hide Name;
  }

  /** The first run, reviewed. */
  function Approved(s: System, good: Payload): System {
    s.(runs := [RunOf(0, 0, good)], reviews := [Review(Name(0), Approve)],
       cards := map[CatalogTool(0) := CardOf(RunOf(0, 0, good), Some(Approve))])
  }

  lemma ReviewedFirst(s: System, good: Payload)
    requires s.runs == [] && s.reviews == [] && s.cards == map[]
    ensures Step(PersistRun(s, RunOf(0, 0, good)), OpReview(Name(0), Approve)).after == Approved(s, good)
    ensures Pushed(Approved(s, good), 0, good)
  {
    hide CatalogTool, Name, RunSuite, AcceptBaseline, QuarantineTool, ApplyProbe, Suspend, StartScan, FinishScan;
    var ran := PersistRun(s, RunOf(0, 0, good));
    assert FindRun(ran.runs, Name(0), RUN_WINDOW) == Some(RunOf(0, 0, good));
  }

  lemma ApprovedFirst(s: System, good: Payload)
    requires s.runs == [] && s.reviews == [] && s.cards == map[] && Classify(good) == QualityAccepted
    ensures After(s, ApprovedThen(0, good)) == Approved(s, good) && Pushed(Approved(s, good), 0, good)
  {
    hide After, Step, Possible, Classify, PersistRun, Benchmark, RunOf, Name, Pushed, Approved;
    var run, review := Benchmark(0, 0, good), OpReview(Name(0), Approve);
    AfterNothing(s);
    FirstIsPossible(s, good);
    assert [] + [run] == [run];
    AfterOne(s, [], run);
    BenchmarkPersists(s, 0, 0, good);
    AfterOne(s, [run], review);
    ReviewedFirst(s, good);
  }

  lemma OneMoreIsPossible(s: System, n: nat, good: Payload)
    requires n > 0 && Pushed(s, n - 1, good)
    ensures Possible(s, Benchmark(4, n, good))
  {
    hide CatalogTool, Name, CardOf;
    forall i | 0 <= i < |s.runs| ensures s.runs[i].id != Name(n) {
      assert s.runs[i].id == Name(i);
      NamesDiffer(i, n);
    }
  }

  lemma OneMorePushes(s: System, n: nat, good: Payload)
    requires n > 0 && Pushed(s, n - 1, good)
    ensures Pushed(PersistRun(s, RunOf(4, n, good)), n, good)
  {
    CatalogToolsDiffer();
    hide CatalogTool, Name, CardOf;
  }

  lemma {:induction false} OthersPushItBack(s: System, n: nat, good: Payload)
    requires s.runs == [] && s.reviews == [] && s.cards == map[] && Classify(good) == QualityAccepted
    ensures Pushed(After(s, ApprovedThen(n, good)), n, good)
    decreases n
  {
    hide After, Step, Possible, Classify, PersistRun, Benchmark, RunOf, Name, Pushed;
    if n == 0 {
      ApprovedFirst(s, good);
    } else {
      OthersPushItBack(s, n - 1, good);
      var before := After(s, ApprovedThen(n - 1, good));
      OneMoreIsPossible(before, n, good);
      AfterOne(s, ApprovedThen(n - 1, good), Benchmark(4, n, good));
      BenchmarkPersists(before, 4, n, good);
      OneMorePushes(before, n, good);
    }
  }

  /** A run that is good and approved may be accepted for as long as fewer than 500 benchmarks, of whatever tool, came after
      it, and is then refused as not found. */
  lemma PushedOutOfTheWindow(registry: set<Id>, n: nat, good: Payload, id: Id, limitations: seq<string>)
    requires Classify(good) == QualityAccepted
    ensures var s := After(Initial(registry), ApprovedThen(n, good));
            && Reachable(s)
            && AcceptBaseline(s, CatalogTool(0), id, limitations).error == if n < 500 then None else Some(RunNotFound)
  {
    hide *;
    InitialIsEmpty(registry);
    OthersPushItBack(Initial(registry), n, good);
    AcceptWhenPushed(After(Initial(registry), ApprovedThen(n, good)), n, good, id, limitations);
    LedTo(registry, ApprovedThen(n, good));
  }

  lemma InitialIsEmpty(registry: set<Id>)
    ensures Initial(registry).runs == [] && Initial(registry).reviews == [] && Initial(registry).cards == map[]
  {
  }

  lemma LedTo(registry: set<Id>, ops: seq<Op>)
    ensures Reachable(After(Initial(registry), ops))
  {
    hide After, Initial;
  }

  lemma FoundWhilePushed(s: System, n: nat, good: Payload)
    requires Pushed(s, n, good)
    ensures FindRun(s.runs, Name(0), RUN_WINDOW).Some? <==> n < 500
  {
    hide FindRun, Name, CatalogTool, CardOf;
    FindRunMeaning(s.runs, Name(0), RUN_WINDOW);
    forall i | 0 <= i < |s.runs| ensures s.runs[i].id == Name(i) {}
    if n < 500 { assert s.runs[0].id == Name(0); }
    if FindRun(s.runs, Name(0), RUN_WINDOW).Some? {
      var i :| 0 <= i < |s.runs| && |s.runs| - RUN_WINDOW <= i && s.runs[i].id == Name(0);
      NamesDiffer(i, 0);
    }
  }

  lemma AcceptWhenPushed(s: System, n: nat, good: Payload, id: Id, limitations: seq<string>)
    requires Pushed(s, n, good)
    ensures AcceptBaseline(s, CatalogTool(0), id, limitations).error == if n < 500 then None else Some(RunNotFound)
  {
    hide FindRun, Name, CatalogTool;
    FoundWhilePushed(s, n, good);
    assert LatestReview(s.reviews, Name(0)) == Some(Approve);
  }

  /** Classification: a failed gate decides alone, and otherwise neither a better score nor the end of the limitations is ever
      worse. */
  lemma ClassifyIsMonotone(p: Payload, q: Payload)
    requires p.gates == q.gates && p.score.Some? && q.score.Some? && p.score.value <= q.score.value
    requires p.limitations == [] ==> q.limitations == []
    ensures Eligible(Classify(p)) ==> Eligible(Classify(q))
    ensures Classify(p) == QualityAccepted ==> Classify(q) == QualityAccepted
    ensures Eligible(Classify(p)) <==> (forall g :: g in p.gates ==> p.gates[g]) && p.score.value >= 80.0
    ensures Classify(p) == QualityAccepted <==>
              (forall g :: g in p.gates ==> p.gates[g]) && p.score.value >= 90.0 && p.limitations == []
  {
  }

  /* ---------- Quarantine and suspension are absorbing ---------- */

  predicate SuspendedTool(s: System, t: Id) { t in s.tools ==> s.tools[t].suspended }

  lemma RunSuiteKeepsBoth(s: System, suite: nat, id: Id, payload: Option<Payload>, reaches: bool, t: Id)
    ensures var s' := RunSuite(s, suite, id, payload, reaches).after;
            (t in s.quarantines ==> t in s'.quarantines) && (SuspendedTool(s, t) ==> SuspendedTool(s', t))
  {
    hide Classify, CatalogTool, Admissible, AutomaticReason;
  }

  lemma ReviewKeepsBoth(s: System, runId: Id, decision: ReviewDecision, t: Id)
    ensures var s' := ReviewRun(s, runId, decision).after;
            (t in s.quarantines ==> t in s'.quarantines) && (SuspendedTool(s, t) ==> SuspendedTool(s', t))
  {
    hide FindRun;
  }

  lemma AcceptKeepsBoth(s: System, tool: Id, id: Id, limitations: seq<string>, t: Id)
    ensures var s' := AcceptBaseline(s, tool, id, limitations).after;
            (t in s.quarantines ==> t in s'.quarantines) && (SuspendedTool(s, t) ==> SuspendedTool(s', t))
  {
    hide FindRun, LatestReview;
  }

  lemma AdmissionKeepsBoth(s: System, op: Op, t: Id)
    requires op.OpQuarantine? || op.OpProbe? || op.OpSuspend? || op.OpStartScan? || op.OpFinishScan?
    ensures var s' := Step(s, op).after;
            (t in s.quarantines ==> t in s'.quarantines) && (SuspendedTool(s, t) ==> SuspendedTool(s', t))
  {
    hide ScanRefusal, StateAfterProbe, Admissible, RunSuite, ReviewRun, AcceptBaseline;
  }

  /** No call lifts a quarantine or a suspension. */
  lemma StepKeepsBoth(s: System, op: Op, t: Id)
    ensures var s' := Step(s, op).after;
            (t in s.quarantines ==> t in s'.quarantines) && (SuspendedTool(s, t) ==> SuspendedTool(s', t))
  {
    hide RunSuite, ReviewRun, AcceptBaseline, QuarantineTool, ApplyProbe, Suspend, StartScan, FinishScan, SuspendedTool;
    match op
    case OpRun(suite, id, payload, reaches) => RunSuiteKeepsBoth(s, suite, id, payload, reaches, t);
    case OpReview(runId, decision) => ReviewKeepsBoth(s, runId, decision, t);
    case OpAccept(tool, id, limitations) => AcceptKeepsBoth(s, tool, id, limitations, t);
    case _ => AdmissionKeepsBoth(s, op, t);
  }

  lemma {:induction false} QuarantineIsForever(s: System, ops: seq<Op>, t: Id)
    requires t in s.quarantines
    ensures t in After(s, ops).quarantines
  {
    hide Step, Possible;
    if ops != [] {
      QuarantineIsForever(s, ops[..|ops| - 1], t);
      StepKeepsBoth(After(s, ops[..|ops| - 1]), ops[|ops| - 1], t);
    }
  }

  lemma {:induction false} SuspensionIsForever(s: System, ops: seq<Op>, t: Id)
    requires SuspendedTool(s, t)
    ensures SuspendedTool(After(s, ops), t)
  {
    hide Step, Possible, SuspendedTool;
    if ops != [] {
      SuspensionIsForever(s, ops[..|ops| - 1], t);
      StepKeepsBoth(After(s, ops[..|ops| - 1]), ops[|ops| - 1], t);
    }
  }

  /** No later call makes the scan of t run. */
  ghost predicate NeverScansAgain(s: System, t: Id) {
    forall ops, around :: ScanRefusal(After(s, ops), t, around).Some?
  }

  /** An admissible scanner that is not suspended scans after one good probe. */
  lemma UnsuspendedScansAfterProbe(s: System, t: Id, hash: string)
    requires Scanner(t) && t in s.tools && !s.tools[t].suspended
    ensures var probe := Probe(true, true, None, Some(hash)); var around := Surroundings(true, true, Some(hash));
            ScanRefusal(After(s, [OpProbe(t, probe)]), t, around).None?
  {
    var op := OpProbe(t, Probe(true, true, None, Some(hash)));
    assert [op][..|[op]| - 1] == [];
    assert After(s, [op]) == Step(s, op).after;
  }

  /** A registered scanner is closed for good exactly when its admission record says suspended. */
  lemma ClosedForGoodIffSuspended(s: System, t: Id)
    requires Scanner(t) && t in s.tools
    ensures NeverScansAgain(s, t) <==> s.tools[t].suspended
  {
    if s.tools[t].suspended {
      forall ops, around ensures ScanRefusal(After(s, ops), t, around).Some? {
        SuspensionIsForever(s, ops, t);
        hide After;
      }
    } else {
      UnsuspendedScansAfterProbe(s, t, "");
      hide After, ScanRefusal;
    }
  }

  /** Quarantining a scanner stops its direct scans for good exactly when the admission write lands, or had nothing left to do. */
  lemma QuarantineStopsScansIff(s: System, t: Id, reason: string, reaches: bool)
    requires Scanner(t) && t in s.tools
    ensures NeverScansAgain(QuarantineTool(s, t, reason, reaches).after, t) <==> reaches || s.tools[t].suspended
  {
    ClosedForGoodIffSuspended(QuarantineTool(s, t, reason, reaches).after, t);
    hide NeverScansAgain;
  }

  /** A scan that timed out closes its tool's scans for good as well. */
  lemma TimeoutStopsScans(s: System, invocation: Id)
    requires FinishScan(s, invocation, true).error.None?
    requires Scanner(s.scans[invocation])
    ensures NeverScansAgain(FinishScan(s, invocation, true).after, s.scans[invocation])
  {
    ClosedForGoodIffSuspended(FinishScan(s, invocation, true).after, s.scans[invocation]);
    hide NeverScansAgain;
  }

  /** A quarantined tool never passes a gate again, and no task resting on it is prepared or started, or created where creation is gated. */
  lemma QuarantineClosesTheGates(
      s: System, t: Id, reason: string, reaches: bool, ops: seq<Op>, cfg: TaskBoard.Config,
      b: TaskBoard.Board, task: Id, request: TaskBoard.Request, id: Id, scope: bool, rules: Option<string>)
    ensures var later := After(QuarantineTool(s, t, reason, reaches).after, ops);
            var gate := if cfg == TaskBoard.EXTERNAL_SCANNERS then ScannerGate(later, t) else NativeGate(later, t);
            var world := TaskBoard.World(PinsOf(gate), scope, rules);
            && gate.Err?
            && (cfg.gateOnCreate ==> TaskBoard.Create(cfg, b, id, request, world).error.Some?)
            && TaskBoard.Prepare(cfg, b, task, id, world).error.Some?
            && TaskBoard.Start(cfg, b, task, id, world).error.Some?
  {
    QuarantineIsForever(QuarantineTool(s, t, reason, reaches).after, ops, t);
    hide After, QuarantineTool, TaskBoard.Known, TaskBoard.Held, TaskBoard.NeedsRules, TaskBoard.GivesRules;
  }

  /** What a task's manifest pins of an open gate. */
  function PinsOf(gate: Result<Gate, Error>): Option<TaskBoard.Pins> {
    if gate.Err? then None
    else Some(TaskBoard.Pins(gate.value.baselineId, if gate.value.quality == QualityAccepted then "QUALITY_ACCEPTED"
                             else "PASS_WITH_LIMITATIONS", gate.value.version, gate.value.binarySha256))
  }

  /** A gate opens only on a baseline that was approved when it was accepted. */
  lemma OpenGateMeansApproved(s: System, t: Id)
    requires Reachable(s)
    requires ScannerGate(s, t).Ok? || NativeGate(s, t).Ok?
    ensures t in s.baselines && exists i: nat, k: nat :: AcceptedWhen(s, t, s.baselines[t], i, k)
  {
    hide Reachable;
    BaselinesWereApproved(s, t);
  }

  /** The project gate and the scan admission agree: a scanner that passes the project gate is refused a scan only for its surroundings or its hash. */
  lemma OpenGateMeansAdmitted(s: System, t: Id, around: Surroundings)
    requires Reachable(s) && ScannerGate(s, t).Ok?
    ensures
            && t in s.tools && !s.tools[t].suspended && t !in s.quarantines
            && (ScanRefusal(s, t, around).None? <==>
                  && around.scopeResolves && (t == "semgrep" ==> around.rulesResolve)
                  && around.executable.Some? && around.executable == s.tools[t].binarySha256)
  {
    hide *;
    ReachableInv(s);
    OpenGateHasTool(s, t);
    SuspensionShows(s, t);
    AdmittedUnlessSurroundings(s, t, around);
  }

  lemma OpenGateHasTool(s: System, t: Id)
    requires ScannerGate(s, t).Ok?
    ensures t in s.tools && t !in s.quarantines && s.tools[t].state == UserTriggeredScan && Scanner(t) && t != "trivy"
  {
    hide Scanner, Eligible;
  }

  lemma AdmittedUnlessSurroundings(s: System, t: Id, around: Surroundings)
    requires t in s.tools && !s.tools[t].suspended && s.tools[t].state == UserTriggeredScan && Scanner(t) && t != "trivy"
    ensures ScanRefusal(s, t, around).None? <==>
              && around.scopeResolves && (t == "semgrep" ==> around.rulesResolve)
              && around.executable.Some? && around.executable == s.tools[t].binarySha256
  {
    hide Scanner;
  }

  lemma SuspensionShows(s: System, t: Id)
    requires Inv(s) && t in s.tools
    ensures s.tools[t].suspended ==> s.tools[t].state != UserTriggeredScan
  {
    hide RunsOk, ReviewsOk, CardAgrees, BaselineOk;
  }
}
