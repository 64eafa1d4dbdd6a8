/**
 A history after which the gates and the planner disagree about a tool.
 */
module PlannerWitness {
  import opened Common
  import opened ToolIds
  import opened ToolTrust
  import opened ToolTrustInvariant
  import opened Planner
  import opened PlannerClaims
  import Claims = ToolTrustClaims

  /** The native code index is benchmarked, approved and accepted. */
  function UntilAccepted(good: Payload, id: Id, limitations: seq<string>): seq<Op> {
    Claims.ApprovedThen(0, good) + [OpAccept(CatalogTool(0), id, limitations)]
  }

  /** The lab then, over what there was before. */
  function WithBaseline(s: System, good: Payload, id: Id, limitations: seq<string>): System {
    var run := Claims.RunOf(0, 0, good);
    Claims.Approved(s, good).(baselines :=
      map[CatalogTool(0) := Baseline(id, run.id, run.quality, good.score, run.hash, limitations)])
  }

  /** And after another benchmark with the given result. */
  function Again(s: System, payload: Payload): System {
    var result := SuiteResult(CatalogTool(0), payload);
    PersistRun(s, Run(Claims.Name(1), result, Classify(payload), Sha256(result)))
  }

  lemma AcceptanceAddsTheBaseline(s: System, good: Payload, id: Id, limitations: seq<string>)
    requires s.baselines == map[] && Classify(good) == QualityAccepted
    ensures AcceptBaseline(Claims.Approved(s, good), CatalogTool(0), id, limitations).after == WithBaseline(s, good, id, limitations)
  {
    hide Classify, CatalogTool, Claims.Name;
    var lab := Claims.Approved(s, good);
    assert LatestReview(lab.reviews, Claims.Name(0)) == Some(Approve);
    assert FindRun(lab.runs, Claims.Name(0), RUN_WINDOW).Some?;
  }

  lemma BenchmarkAgain(s: System, payload: Payload)
    requires Classify(payload) != Quarantined
    ensures RunSuite(s, 0, Claims.Name(1), Some(payload), true).after == Again(s, payload)
  {
    hide Classify, CatalogTool, Claims.Name;
  }

  lemma NewIdIsPossible(s: System, good: Payload, id: Id, limitations: seq<string>, payload: Payload)
    ensures Possible(WithBaseline(s, good, id, limitations), OpRun(0, Claims.Name(1), Some(payload), true))
  {
    hide CatalogTool, Claims.Name;
    Claims.NamesDiffer(0, 1);
  }

  lemma HistoryLeadsThere(registry: set<Id>, good: Payload, worse: Payload, id: Id, limitations: seq<string>)
    requires Classify(good) == QualityAccepted && Classify(worse) != Quarantined
    ensures var s := WithBaseline(Initial(registry), good, id, limitations); Reachable(s) && Reachable(Again(s, worse))
  {
    hide *;
    var s, ops := Initial(registry), UntilAccepted(good, id, limitations);
    var accept, again := OpAccept(CatalogTool(0), id, limitations), OpRun(0, Claims.Name(1), Some(worse), true);
    NothingYet(registry);
    Claims.ApprovedFirst(s, good);
    AcceptanceAddsTheBaseline(s, good, id, limitations);
    CallsAre(Claims.Approved(s, good), WithBaseline(s, good, id, limitations), id, limitations, worse);
    Claims.AfterOne(s, Claims.ApprovedThen(0, good), accept);
    Claims.LedTo(registry, Claims.ApprovedThen(0, good) + [accept]);
    BenchmarkAgain(WithBaseline(s, good, id, limitations), worse);
    NewIdIsPossible(s, good, id, limitations, worse);
    Claims.AfterOne(s, Claims.ApprovedThen(0, good) + [accept], again);
    Claims.LedTo(registry, Claims.ApprovedThen(0, good) + [accept] + [again]);
  }

  lemma CallsAre(approved: System, accepted: System, id: Id, limitations: seq<string>, payload: Payload)
    ensures Possible(approved, OpAccept(CatalogTool(0), id, limitations))
    ensures Step(approved, OpAccept(CatalogTool(0), id, limitations)) == AcceptBaseline(approved, CatalogTool(0), id, limitations)
    ensures Step(accepted, OpRun(0, Claims.Name(1), Some(payload), true)) == RunSuite(accepted, 0, Claims.Name(1), Some(payload), true)
  {
    hide AcceptBaseline, RunSuite, CatalogTool, Claims.Name;
  }

  lemma NothingYet(registry: set<Id>)
    ensures var s := Initial(registry);
            s.runs == [] && s.reviews == [] && s.cards == map[] && s.baselines == map[] && s.quarantines == map[]
  {
    hide DeferredState;
  }

  function OneTool(): Order { Order([CatalogTool(0)], [CatalogTool(0)], []) }

  lemma BothStates(s: System, good: Payload, worse: Payload, id: Id, limitations: seq<string>)
    requires s.quarantines == map[] && good != worse
    ensures var a := WithBaseline(s, good, id, limitations); var b := Again(a, worse); var k := CatalogTool(0);
            && OrderOf(OneTool(), a) && OrderOf(OneTool(), b) && NativeGate(a, k).Ok? && NativeGate(b, k).Ok?
            && !QuarantinedAs(a, Normalize(k)) && !QuarantinedAs(b, Normalize(k))
            && HasEvidence(a, k, QualityAccepted)
            && !HasEvidence(b, k, QualityAccepted) && !HasEvidence(b, k, PassWithLimitations)
  {
    hide CatalogTool, Claims.Name, Normalize, Classify;
  }

  /** Reachable for any good result and any other that fails no safety gate: before the second benchmark the gate is open and
      the planner selects the tool; after it the gate is still open, and the planner does not. */
  lemma SecondBenchmarkDividesThem(registry: set<Id>, good: Payload, worse: Payload, id: Id, limitations: seq<string>)
    requires Classify(good) == QualityAccepted && Classify(worse) != Quarantined && good != worse
    ensures var a := WithBaseline(Initial(registry), good, id, limitations); var b := Again(a, worse); var k := CatalogTool(0);
            && Reachable(a) && Reachable(b) && OrderOf(OneTool(), a) && OrderOf(OneTool(), b)
            && NativeGate(a, k).Ok? && DecisionFor(EvidenceOf(a, OneTool()), Normalize(k)).state == Accepted
            && NativeGate(b, k).Ok? && !IsSelectable(DecisionFor(EvidenceOf(b, OneTool()), Normalize(k)).state)
  {
    hide *;
    var a, k := WithBaseline(Initial(registry), good, id, limitations), CatalogTool(0);
    var b := Again(a, worse);
    NothingYet(registry);
    HistoryLeadsThere(registry, good, worse, id, limitations);
    BothStates(Initial(registry), good, worse, id, limitations);
    FirstIsInCatalog();
    SelectableIff(a, OneTool(), k);
    SelectableIff(b, OneTool(), k);
    SelectableMeans(DecisionFor(EvidenceOf(b, OneTool()), Normalize(k)).state);
  }

  lemma FirstIsInCatalog()
    ensures InCatalog(CatalogTool(0))
  {
    hide CatalogTool;
  }

  lemma SelectableMeans(state: QualityState)
    ensures IsSelectable(state) <==> state == Accepted || state == Limited
  {
  }
}
