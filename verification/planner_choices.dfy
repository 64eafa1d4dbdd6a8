/**
 What the planner reads, decides and chooses, down to the records and names it starts from.
 */
module PlannerChoices {
  import opened Common
  import opened ToolIds
  import opened ToolTrust
  import opened ToolTrustInvariant
  import opened Planner
  import opened PlannerClaims
  import Calls = ToolTrustCalls

  /* ---------- The evidence ---------- */

  /** Row i is the last that names t. */
  ghost predicate IsLastOf<T>(rows: seq<Row<T>>, t: Id, i: nat) {
    i < |rows| && Normalize(rows[i].toolId) == t && forall j :: i < j < |rows| ==> Normalize(rows[j].toolId) != t
  }

  /** Of all rows that name a tool under any spelling the last counts, and only rows without a name do not. */
  lemma {:induction false} LatestIsLast<T>(rows: seq<Row<T>>, t: Id)
    ensures t in LatestByTool(rows) <==> t != "" && exists i: nat :: IsLastOf(rows, t, i)
    ensures forall i: nat :: t != "" && IsLastOf(rows, t, i) ==> t in LatestByTool(rows) && LatestByTool(rows)[t] == rows[i].entry
  {
    hide Normalize;
    if rows != [] {
      var n := |rows| - 1;
      var init := rows[..n];
      LatestIsLast(init, t);
      if Normalize(rows[n].toolId) == t {
        assert IsLastOf(rows, t, n);
      } else {
        forall i: nat ensures IsLastOf(rows, t, i) <==> IsLastOf(init, t, i) {}
      }
    }
  }

  /** What a selectable tool scored last: the very run, not only the quality it was given. Accepted are exactly the tools
      under no quarantine whose last logged run failed no gate, scored at least 90 without any limitation, and has the hash
      of the accepted baseline; limited exactly those with at least 80 that fell short of that. */
  lemma SelectableRunIff(s: System, o: Order, k: Id)
    requires Reachable(s) && OrderOf(o, s) && InCatalog(k)
    ensures var state := DecisionFor(EvidenceOf(s, o), Normalize(k)).state; var last := LastRun(s.runs, k);
            var backed := !QuarantinedAs(s, Normalize(k)) && last.Some? && k in s.baselines
                          && s.baselines[k].hash == Sha256(last.value.result)
                          && Calls.GatesHold(last.value.result.payload) && last.value.result.payload.score.Some?;
            && (state == Accepted <==>
                  && backed && last.value.result.payload.score.value >= 90.0 && |last.value.result.payload.limitations| == 0)
            && (state == Limited <==>
                  && backed && last.value.result.payload.score.value >= 80.0
                  && (last.value.result.payload.score.value < 90.0 || |last.value.result.payload.limitations| > 0))
  {
    hide Inv, Reachable, InCatalog, Normalize, QuarantinedAs, LastRun, Classify, DecisionFor, EvidenceOf, OrderOf, HasEvidence,
         Calls.GatesHold;
    SelectableIff(s, o, k);
    ReachableInv(s);
    EvidenceIs(s, k);
  }

  lemma EvidenceIs(s: System, k: Id)
    requires Inv(s)
    ensures var last := LastRun(s.runs, k);
            forall q :: HasEvidence(s, k, q) <==>
              && last.Some? && Classify(last.value.result.payload) == q
              && k in s.baselines && s.baselines[k].hash == Sha256(last.value.result)
    ensures LastRun(s.runs, k).Some? ==> Classified(LastRun(s.runs, k).value.result.payload)
  {
    hide InCatalog, BaselineOk, ToolsOk, ReviewsOk, Classify, Classified;
    assert CardAgrees(s, k);
    if LastRun(s.runs, k).Some? {
      LastRunIsLogged(s.runs, k);
      ClassifiedIs(LastRun(s.runs, k).value.result.payload);
    }
    hide LastRun, LatestReview;
  }

  /** The two selectable results, by what was reported. */
  predicate Classified(p: Payload) {
    && (Classify(p) == QualityAccepted <==>
          Calls.GatesHold(p) && p.score.Some? && p.score.value >= 90.0 && |p.limitations| == 0)
    && (Classify(p) == PassWithLimitations <==>
          Calls.GatesHold(p) && p.score.Some? && p.score.value >= 80.0 && (p.score.value < 90.0 || |p.limitations| > 0))
  }

  lemma ClassifiedIs(p: Payload)
    ensures Classified(p)
  {
    Calls.ClassificationIff(p);
    hide Classify;
  }

  /** A decision on any records: an active quarantine forbids, whatever else there is; a good result without a baseline of the
      same fingerprint is to be revalidated; every other result stands as it is. */
  lemma DecisionIs(t: Id, card: Option<ScoreRow>, baseline: Option<BaselineRow>, quarantine: Option<QuarantineRow>)
    ensures var d := Decide(t, card, baseline, quarantine);
            var quarantined := quarantine.Some? && quarantine.value.active;
            var good := !quarantined && card.Some? && IsSelectable(card.value.state);
            var matched := baseline.Some? && baseline.value.fingerprint.Some? && card.Some?
                           && card.value.fingerprint == baseline.value.fingerprint;
            && d.toolId == t && d.score == (if card.Some? then card.value.score else None)
            && d.baselinePresent == baseline.Some? && d.baselineId == (if baseline.Some? then Some(baseline.value.id) else None)
            && (quarantined ==> d.state == Forbidden)
            && (!quarantined && card.None? ==> d.state == Unassessed)
            && (good && matched ==> d.state == card.value.state)
            && (good && !matched ==> d.state == Planner.RevalidationRequired)
            && (!quarantined && card.Some? && !good ==> d.state == card.value.state)
            && (d.revalidation <==> good && !matched)
  {
  }

  lemma InFour(a: seq<Reason>, b: seq<Reason>, c: seq<Reason>, d: seq<Reason>, r: Reason)
    ensures r in a + b + c + d <==> r in a || r in b || r in c || r in d
  {
  }

  /** What may stand in the way. */
  predicate StandsInTheWay(r: Reason, card: Option<ScoreRow>, baseline: Option<BaselineRow>, quarantined: bool) {
    var good := !quarantined && card.Some? && IsSelectable(card.value.state);
    match r
    case ActiveQuarantineWins => quarantined
    case NoScorecard => card.None?
    case QualityNotAssessed => !quarantined && (card.None? || card.value.state == Unassessed)
    case BaselineMissing => good && baseline.None?
    case FingerprintMissing => good && baseline.Some? && (card.value.fingerprint.None? || baseline.value.fingerprint.None?)
    case FingerprintChanged =>
      && good && baseline.Some? && card.value.fingerprint.Some? && baseline.value.fingerprint.Some?
      && card.value.fingerprint != baseline.value.fingerprint
    case NotInSnapshot => false
  }

  /** And the reasons it gives say exactly what stood in the way. */
  lemma DecisionReasons(
      t: Id, card: Option<ScoreRow>, baseline: Option<BaselineRow>, quarantine: Option<QuarantineRow>, r: Reason)
    ensures r in Decide(t, card, baseline, quarantine).reasons <==>
            StandsInTheWay(r, card, baseline, quarantine.Some? && quarantine.value.active)
  {
    hide Revalidation, StandsInTheWay;
    var quarantined := quarantine.Some? && quarantine.value.active;
    var why := if !quarantined && card.Some? && IsSelectable(card.value.state) then Revalidation(card, baseline) else None;
    var unassessed := !quarantined && (card.None? || card.value.state == Unassessed);
    var a, b := OneIf(quarantined, ActiveQuarantineWins), if why.Some? then [why.value] else [];
    var c, e := OneIf(card.None?, NoScorecard), OneIf(unassessed, QualityNotAssessed);
    assert Decide(t, card, baseline, quarantine).reasons == a + b + c + e;
    hide Decide;
    InFour(a, b, c, e, r);
    WayIs(r, card, baseline, quarantined);
  }

  function OneIf(holds: bool, r: Reason): seq<Reason> { if holds then [r] else [] }

  lemma WayIs(r: Reason, card: Option<ScoreRow>, baseline: Option<BaselineRow>, quarantined: bool)
    ensures var why := if !quarantined && card.Some? && IsSelectable(card.value.state) then Revalidation(card, baseline) else None;
            StandsInTheWay(r, card, baseline, quarantined) <==>
              || (r == ActiveQuarantineWins && quarantined) || why == Some(r) || (r == NoScorecard && card.None?)
              || (r == QualityNotAssessed && !quarantined && (card.None? || card.value.state == Unassessed))
  {
  }

  /* ---------- The candidates of a step ---------- */

  lemma {:induction false} ExplicitMeaning(ids: seq<Id>, t: Id)
    ensures t in Explicit(ids) <==> t != "" && exists i :: 0 <= i < |ids| && Normalize(ids[i]) == t
  {
    hide Normalize;
    if ids != [] {
      var n := |ids| - 1;
      ExplicitMeaning(ids[..n], t);
      if i :| 0 <= i < |ids| && Normalize(ids[i]) == t { assert i < n ==> ids[..n][i] == ids[i]; }
    }
  }

  /** Where t is first named. */
  ghost predicate FirstNames(ids: seq<Id>, t: Id, i: nat) {
    i < |ids| && Normalize(ids[i]) == t && forall j :: 0 <= j < i ==> Normalize(ids[j]) != t
  }

  /** No candidate comes twice, and they come in the order in which they are first named. */
  lemma {:induction false} ExplicitOrder(ids: seq<Id>, a: nat, b: nat, i: nat, j: nat)
    requires a < b < |Explicit(ids)| && FirstNames(ids, Explicit(ids)[a], i) && FirstNames(ids, Explicit(ids)[b], j)
    ensures Explicit(ids)[a] != Explicit(ids)[b] && i < j
  {
    hide Normalize;
    var n := |ids| - 1;
    var init := ids[..n];
    var before := Explicit(init);
    ExplicitMeaning(init, Explicit(ids)[a]);
    ExplicitMeaning(init, Explicit(ids)[b]);
    assert Explicit(ids)[a] == before[a];
    var i' :| 0 <= i' < |init| && Normalize(init[i']) == before[a];
    assert ids[i'] == init[i'] && i < n;
    if b < |before| {
      var j' :| 0 <= j' < |init| && Normalize(init[j']) == before[b];
      assert ids[j'] == init[j'] && j < n;
      assert FirstNames(init, before[a], i) && FirstNames(init, before[b], j);
      ExplicitOrder(init, a, b, i, j);
    } else {
      assert before[a] in before;
      if j < n { assert init[j] == ids[j]; }
    }
  }

  lemma {:induction false} MatchingMeaning(tools: seq<Id>, required: set<string>, t: Id)
    ensures t in Matching(tools, required) <==> t in tools && forall c :: c in required ==> c in Capabilities(t)
  {
    hide Capabilities;
    if tools != [] {
      var n := |tools| - 1;
      MatchingMeaning(tools[..n], required, t);
      assert tools == tools[..n] + [tools[n]];
    }
  }

  lemma {:induction false} MatchingKeepsOrder(tools: seq<Id>, required: set<string>, a: nat, b: nat) returns (i: nat, j: nat)
    requires a < b < |Matching(tools, required)|
    ensures i < j < |tools| && Matching(tools, required)[a] == tools[i] && Matching(tools, required)[b] == tools[j]
  {
    hide Capabilities;
    var n := |tools| - 1;
    var before := Matching(tools[..n], required);
    if b < |before| {
      i, j := MatchingKeepsOrder(tools[..n], required, a, b);
    } else {
      MatchingMeaning(tools[..n], required, before[a]);
      assert before[a] in before;
      i :| 0 <= i < n && tools[..n][i] == before[a];
      j := n;
    }
  }

  predicate NamesSome(step: PlanStep) {
    exists i :: 0 <= i < |step.candidates| && Normalize(step.candidates[i]) != ""
  }

  /** The candidates of a step: the tools it names, if it names any; otherwise the canonical tools that have every required
      capability, and none at all if it requires nothing. */
  lemma CandidatesIff(step: PlanStep, t: Id)
    ensures t in Candidates(step) <==>
            if NamesSome(step) then t != "" && exists i :: 0 <= i < |step.candidates| && Normalize(step.candidates[i]) == t
            else step.required != {} && t in CanonicalTools() && forall c :: c in step.required ==> c in Capabilities(t)
  {
    hide Normalize, Capabilities, CanonicalTools, Explicit, Matching;
    var explicit := Explicit(step.candidates);
    ExplicitMeaning(step.candidates, t);
    MatchingMeaning(CanonicalTools(), step.required, t);
    if NamesSome(step) {
      var i :| 0 <= i < |step.candidates| && Normalize(step.candidates[i]) != "";
      ExplicitMeaning(step.candidates, Normalize(step.candidates[i]));
    } else if explicit != [] {
      ExplicitMeaning(step.candidates, explicit[0]);
      assert explicit[0] in explicit;
    }
  }

  /* ---------- The plan ---------- */

  /** A tool of the snapshot may serve a step. */
  predicate Serves(snapshot: Snapshot, step: PlanStep, t: Id, state: QualityState) {
    t in Candidates(step) && t in snapshot && snapshot[t].state == state
  }

  lemma HasCandidateServes(snapshot: Snapshot, step: PlanStep, state: QualityState)
    requires IsSelectable(state)
    ensures HasCandidate(snapshot, step, state) <==> exists t :: Serves(snapshot, step, t, state)
  {
    hide Candidates;
    if t :| t in Candidates(step) && RowFor(snapshot, t).state == state { assert Serves(snapshot, step, t, state); }
    if t :| Serves(snapshot, step, t, state) { assert RowFor(snapshot, t).state == state; }
  }

  /** Each step on its own: it gets a tool exactly if an accepted candidate is in the snapshot, or else a limited one and
      limited tools are allowed with a reference to a person's approval; the tool is the snapshot's decision about a candidate,
      on the basis that says which; and the plan is ready exactly if every step gets one. */
  lemma StepChoiceIff(snapshot: Snapshot, steps: seq<PlanStep>, allow: bool, reference: Option<string>, i: nat)
    requires i < |steps|
    requires forall t :: t in snapshot ==> snapshot[t].toolId == t
    ensures var plan := EvaluatePlan(snapshot, steps, allow, reference);
            var accepted := exists t :: Serves(snapshot, steps[i], t, Accepted);
            var limited := exists t :: Serves(snapshot, steps[i], t, Limited);
            var approved := allow && reference.Some? && |reference.value| > 0;
            && |plan.choices| == |steps|
            && (plan.choices[i].Chosen? <==> accepted || (limited && approved))
            && (plan.choices[i].Chosen? ==>
                  && plan.choices[i].basis == (if accepted then AcceptedHighestScore else LimitedWithApproval)
                  && var t := plan.choices[i].tool.toolId;
                     Serves(snapshot, steps[i], t, if accepted then Accepted else Limited) && plan.choices[i].tool == snapshot[t])
            && (plan.ready ==> plan.choices[i].Chosen?)
            && (!plan.ready ==> exists j :: 0 <= j < |steps| && !plan.choices[j].Chosen?)
  {
    var rows := RowsFor(snapshot, steps[i]);
    HasCandidateMeaning(snapshot, steps[i], Accepted);
    HasCandidateMeaning(snapshot, steps[i], Limited);
    HasCandidateServes(snapshot, steps[i], Accepted);
    HasCandidateServes(snapshot, steps[i], Limited);
    ChosenIsEligible(rows, LimitedApproval(allow, reference));
    hide HasCandidate, Candidates, Sorted, IsFirstBest;
    var choice := Choose(rows, LimitedApproval(allow, reference));
    if choice.Chosen? {
      hide WithState;
      var r :| 0 <= r < |rows| && rows[r] == choice.tool;
      assert choice.tool == RowFor(snapshot, Candidates(steps[i])[r]);
    }
  }
}
