/**
 What a plan's evaluation means, and what a selectable tool went through in the quality lab.
 */
module PlannerClaims {
  import opened Common
  import opened ToolIds
  import opened ToolTrust
  import opened ToolTrustInvariant
  import opened Planner
  import Claims = ToolTrustClaims

  /* ---------- The sort ---------- */

  /** Row i has the greatest sort key, and every earlier row a smaller one. */
  ghost predicate IsFirstBest(rows: seq<ToolDecision>, i: nat) {
    && i < |rows|
    && (forall j :: 0 <= j < |rows| ==> KeyAtLeast(rows[i], rows[j]))
    && (forall j :: 0 <= j < i ==> !KeyAtLeast(rows[j], rows[i]))
  }

  ghost predicate Descending(rows: seq<ToolDecision>) {
    forall i, j :: 0 <= i < j < |rows| ==> KeyAtLeast(rows[i], rows[j])
  }

  lemma {:induction false} PositionMeaning(rows: seq<ToolDecision>, x: ToolDecision)
    ensures Position(rows, x) > 0 ==> KeyAtLeast(rows[Position(rows, x) - 1], x)
    ensures forall j :: Position(rows, x) <= j < |rows| ==> !KeyAtLeast(rows[j], x)
  {
    if rows != [] && !KeyAtLeast(rows[|rows| - 1], x) {
      PositionMeaning(rows[..|rows| - 1], x);
    }
  }

  lemma {:induction false} SortedIsAPermutation(rows: seq<ToolDecision>)
    ensures multiset(Sorted(rows)) == multiset(rows)
  {
    if rows != [] {
      var init, x := rows[..|rows| - 1], rows[|rows| - 1];
      var before := Sorted(init);
      var p := Position(before, x);
      SortedIsAPermutation(init);
      assert before == before[..p] + before[p..];
      assert rows == init + [x];
    }
  }

  lemma {:induction false} SortedDescends(rows: seq<ToolDecision>)
    ensures Descending(Sorted(rows))
  {
    if rows != [] {
      var x := rows[|rows| - 1];
      var before := Sorted(rows[..|rows| - 1]);
      var p := Position(before, x);
      SortedDescends(rows[..|rows| - 1]);
      PositionMeaning(before, x);
      hide Sorted, Position;
      InsertDescends(before, x, p);
      assert Sorted(rows) == before[..p] + [x] + before[p..] by { SortedUnfolds(rows); }
    }
  }

  lemma SortedUnfolds(rows: seq<ToolDecision>)
    requires rows != []
    ensures var x := rows[|rows| - 1]; var before := Sorted(rows[..|rows| - 1]); var p := Position(before, x);
            Sorted(rows) == before[..p] + [x] + before[p..]
  {
  }

  lemma InsertDescends(rows: seq<ToolDecision>, x: ToolDecision, p: nat)
    requires Descending(rows) && p <= |rows|
    requires p > 0 ==> KeyAtLeast(rows[p - 1], x)
    requires forall j :: p <= j < |rows| ==> !KeyAtLeast(rows[j], x)
    ensures Descending(rows[..p] + [x] + rows[p..])
  {
    var out := rows[..p] + [x] + rows[p..];
    forall i, j | 0 <= i < j < |out| ensures KeyAtLeast(out[i], out[j]) {
      var a := if i < p then rows[i] else if i == p then x else rows[i - 1];
      var b := if j < p then rows[j] else if j == p then x else rows[j - 1];
      assert out[i] == a && out[j] == b;
      if j == p && i < p - 1 { assert KeyAtLeast(rows[i], rows[p - 1]); }
    }
  }

  lemma FirstBestOfAppended(rows: seq<ToolDecision>, k: nat, x: ToolDecision)
    requires IsFirstBest(rows, k)
    ensures IsFirstBest(rows + [x], if KeyAtLeast(rows[k], x) then k else |rows|)
  {
    var out := rows + [x];
    assert forall j :: 0 <= j < |rows| ==> out[j] == rows[j];
    if !KeyAtLeast(rows[k], x) {
      forall j | 0 <= j < |rows| ensures KeyAtLeast(x, out[j]) && !KeyAtLeast(out[j], x) {
        assert KeyAtLeast(rows[k], rows[j]);
      }
    }
  }

  /** The row sorted first is the first of the best rows. */
  lemma {:induction false} SortedHeadIsFirstBest(rows: seq<ToolDecision>) returns (i: nat)
    requires rows != []
    ensures IsFirstBest(rows, i) && Sorted(rows)[0] == rows[i]
  {
    var n := |rows| - 1;
    var init, x := rows[..n], rows[n];
    if init == [] {
      return 0;
    }
    var k := SortedHeadIsFirstBest(init);
    var before := Sorted(init);
    PositionMeaning(before, x);
    SortedDescends(init);
    SortedUnfolds(rows);
    hide Sorted, Position, KeyAtLeast;
    FirstBestOfAppended(init, k, x);
    assert rows == init + [x];
    var p := Position(before, x);
    BestBeatsAll(before, x, p);
    i := if KeyAtLeast(init[k], x) then k else n;
  }

  lemma BestBeatsAll(rows: seq<ToolDecision>, x: ToolDecision, p: nat)
    requires Descending(rows) && rows != [] && p <= |rows|
    requires p > 0 ==> KeyAtLeast(rows[p - 1], x)
    requires forall j :: p <= j < |rows| ==> !KeyAtLeast(rows[j], x)
    ensures KeyAtLeast(rows[0], x) <==> p > 0
  {
    if p > 1 { assert KeyAtLeast(rows[0], rows[p - 1]); }
  }

  /* ---------- First best against highest score ---------- */

  /** Row i has the highest score, and every earlier scored row a lower one. */
  ghost predicate IsFirstHighest(rows: seq<ToolDecision>, i: nat) {
    && i < |rows| && rows[i].score.Some?
    && (forall j :: 0 <= j < |rows| && rows[j].score.Some? ==> rows[j].score.value <= rows[i].score.value)
    && (forall j :: 0 <= j < i && rows[j].score.Some? ==> rows[j].score.value < rows[i].score.value)
  }

  /** The first zero score z is the highest, and row j beats or ties it under the sort key. */
  ghost predicate Outranks(rows: seq<ToolDecision>, z: nat, j: nat) {
    && IsFirstHighest(rows, z) && rows[z].score == Some(0.0)
    && j < |rows| && rows[j].score.Some?
    && (-1.0 < rows[j].score.value < 0.0 || (rows[j].score.value == -1.0 && j < z))
  }

  ghost predicate ZeroIsOutranked(rows: seq<ToolDecision>) {
    exists z: nat, j: nat :: Outranks(rows, z, j)
  }

  /** The row sorted first has the highest score unless a zero is outranked by a score of at least minus one. */
  lemma SortPicksHighestIff(rows: seq<ToolDecision>, i: nat)
    requires IsFirstBest(rows, i) && exists j :: 0 <= j < |rows| && rows[j].score.Some?
    ensures IsFirstHighest(rows, i) <==> !ZeroIsOutranked(rows)
  {
    var some :| 0 <= some < |rows| && rows[some].score.Some?;
    assert rows[i].score.Some? by { assert KeyAtLeast(rows[i], rows[some]); }
    if !IsFirstHighest(rows, i) {
      var z := FirstHighest(rows, some);
      assert KeyAtLeast(rows[i], rows[z]);
      assert z < i ==> !KeyAtLeast(rows[z], rows[i]);
      assert Outranks(rows, z, i);
    }
    forall z: nat, j: nat | Outranks(rows, z, j) ensures !IsFirstHighest(rows, i) {
      assert KeyAtLeast(rows[i], rows[j]);
      if j < i { assert !KeyAtLeast(rows[j], rows[i]); }
      if z < i { assert !KeyAtLeast(rows[z], rows[i]); }
    }
  }

  lemma {:induction false} FirstHighest(rows: seq<ToolDecision>, some: nat) returns (i: nat)
    requires some < |rows| && rows[some].score.Some?
    ensures IsFirstHighest(rows, i)
  {
    var n := |rows| - 1;
    var init := rows[..n];
    if some == n && (forall j :: 0 <= j < n ==> init[j].score.None?) {
      return n;
    }
    var other: nat :| other < n && init[other].score.Some?;
    var k := FirstHighest(init, other);
    assert forall j :: 0 <= j < n ==> init[j] == rows[j];
    i := if rows[n].score.Some? && rows[n].score.value > rows[k].score.value then n else k;
  }

  /** A tool with the greatest score is chosen among eligible tools whose scores are positive. */
  lemma PositiveScoresPickHighest(rows: seq<ToolDecision>) returns (i: nat)
    requires rows != [] && forall j :: 0 <= j < |rows| ==> rows[j].score.Some? && rows[j].score.value > 0.0
    ensures IsFirstHighest(rows, i) && Sorted(rows)[0] == rows[i]
  {
    i := SortedHeadIsFirstBest(rows);
    assert rows[0].score.Some?;
    SortPicksHighestIff(rows, i);
    hide Sorted;
  }

  /* ---------- Readiness ---------- */

  lemma {:induction false} WithStateMeaning(rows: seq<ToolDecision>, state: QualityState, d: ToolDecision)
    ensures d in WithState(rows, state) <==> d in rows && d.state == state
  {
    if rows != [] {
      WithStateMeaning(rows[..|rows| - 1], state, d);
      assert rows == rows[..|rows| - 1] + [rows[|rows| - 1]];
    }
  }

  /** One of the step's candidates is in the given state. */
  predicate HasCandidate(snapshot: Snapshot, step: PlanStep, state: QualityState) {
    exists t :: t in Candidates(step) && RowFor(snapshot, t).state == state
  }

  lemma HasCandidateMeaning(snapshot: Snapshot, step: PlanStep, state: QualityState)
    ensures WithState(RowsFor(snapshot, step), state) != [] <==> HasCandidate(snapshot, step, state)
  {
    var rows := RowsFor(snapshot, step);
    var candidates := Candidates(step);
    hide Candidates, RowFor;
    if WithState(rows, state) != [] {
      var d := WithState(rows, state)[0];
      WithStateMeaning(rows, state, d);
      var i :| 0 <= i < |rows| && rows[i] == d;
      assert candidates[i] in candidates;
    }
    if HasCandidate(snapshot, step, state) {
      var t :| t in candidates && RowFor(snapshot, t).state == state;
      var i :| 0 <= i < |candidates| && candidates[i] == t;
      assert rows[i] in rows;
      WithStateMeaning(rows, state, rows[i]);
    }
  }

  /** A plan is ready exactly when every step has an accepted candidate, or a limited one under an approval. */
  lemma ReadyIffEveryStepHasACandidate(snapshot: Snapshot, steps: seq<PlanStep>, allow: bool, reference: Option<string>)
    ensures EvaluatePlan(snapshot, steps, allow, reference).ready <==>
            forall i :: 0 <= i < |steps| ==>
              || HasCandidate(snapshot, steps[i], Accepted)
              || (LimitedApproval(allow, reference) && HasCandidate(snapshot, steps[i], Limited))
  {
    hide Sorted, RowsFor, HasCandidate, LimitedApproval;
    var choices := Choices(snapshot, steps, LimitedApproval(allow, reference));
    forall i | 0 <= i < |steps|
      ensures choices[i] != NoEligibleTool <==>
              || HasCandidate(snapshot, steps[i], Accepted)
              || (LimitedApproval(allow, reference) && HasCandidate(snapshot, steps[i], Limited))
    {
      HasCandidateMeaning(snapshot, steps[i], Accepted);
      HasCandidateMeaning(snapshot, steps[i], Limited);
    }
    hide WithState;
    assert NoEligibleTool in choices <==> exists i :: 0 <= i < |steps| && choices[i] == NoEligibleTool;
  }

  /** Approving limited tools never blocks a ready plan and never changes a step that had an accepted tool. */
  lemma LimitedApprovalOnlyAdds(snapshot: Snapshot, steps: seq<PlanStep>, allow: bool, reference: Option<string>)
    ensures var without := EvaluatePlan(snapshot, steps, false, None);
            var with := EvaluatePlan(snapshot, steps, allow, reference);
            && (without.ready ==> with.ready)
            && (forall i :: 0 <= i < |steps| && without.choices[i].Chosen? ==> with.choices[i] == without.choices[i])
            && (forall i :: 0 <= i < |steps| && with.choices[i].Chosen? && with.choices[i].basis == AcceptedHighestScore ==>
                  without.choices[i] == with.choices[i])
            && (forall i :: 0 <= i < |steps| && with.choices[i] != without.choices[i] ==>
                  with.choices[i].Chosen? && with.choices[i].tool.state == Limited)
  {
    var without := Choices(snapshot, steps, false);
    var with := Choices(snapshot, steps, LimitedApproval(allow, reference));
    forall i | 0 <= i < |steps| && with[i] != without[i] ensures with[i].Chosen? && with[i].tool.state == Limited {
      ChosenIsEligible(RowsFor(snapshot, steps[i]), LimitedApproval(allow, reference));
    }
    hide Sorted, RowsFor, WithState;
    assert forall i :: 0 <= i < |steps| && without[i].Chosen? ==> with[i] == without[i];
  }

  function StateOfBasis(basis: Basis): QualityState {
    match basis
    case AcceptedHighestScore => Accepted
    case LimitedWithApproval => Limited
  }

  /** A chosen tool is one of the rows, in the state its basis names, and first best among the rows of that state. */
  lemma ChosenIsEligible(rows: seq<ToolDecision>, limitedApproval: bool)
    ensures var choice := Choose(rows, limitedApproval);
            choice.Chosen? ==>
              var state := StateOfBasis(choice.basis);
              && choice.tool in rows && choice.tool.state == state
              && (choice.basis == LimitedWithApproval ==> limitedApproval && forall d :: d in rows ==> d.state != Accepted)
              && exists i: nat :: IsFirstBest(WithState(rows, state), i) && choice.tool == WithState(rows, state)[i]
  {
    var choice := Choose(rows, limitedApproval);
    if choice.Chosen? {
      var state := StateOfBasis(choice.basis);
      var eligible := WithState(rows, state);
      var i := SortedHeadIsFirstBest(eligible);
      assert choice.tool == eligible[i];
      WithStateMeaning(rows, state, eligible[i]);
      forall d | d in rows ensures choice.basis == LimitedWithApproval ==> d.state != Accepted {
        WithStateMeaning(rows, Accepted, d);
      }
      hide Sorted, WithState;
    }
  }

  /** The condition is needed: a tool scored zero loses to one scored below zero. */
  lemma ZeroLosesToANegativeScore(a: Id, b: Id)
    ensures var zero := ToolDecision(a, Accepted, Some(0.0), [], true, false, None);
            var worse := ToolDecision(b, Accepted, Some(-0.5), [], true, false, None);
            ZeroIsOutranked([zero, worse]) && Choose([zero, worse], false) == Chosen(worse, AcceptedHighestScore)
  {
    var zero := ToolDecision(a, Accepted, Some(0.0), [], true, false, None);
    var worse := ToolDecision(b, Accepted, Some(-0.5), [], true, false, None);
    var rows := [zero, worse];
    assert Outranks(rows, 0, 1);
    assert rows[..1] == [zero] && [zero][..0] == [];
    assert WithState([zero], Accepted) == [zero] && WithState(rows, Accepted) == rows;
    assert Sorted([zero]) == [zero];
    assert Position([zero], worse) == 0;
  }

  /* ---------- From the lab to the planner ---------- */

  function StateOf(q: Quality): QualityState {
    match q
    case QualityAccepted => Accepted
    case PassWithLimitations => Limited
    case HumanReviewRequired => AwaitsHumanReview
    case QualityFailed => Failed
    case Quarantined => Forbidden
    case NotAssessed => Unassessed
  }

  ghost predicate Lists(keys: seq<Id>, stored: set<Id>) {
    forall k :: k in keys <==> k in stored
  }

  /** The order in which each file lists its tools. */
  datatype Order = Order(cards: seq<Id>, baselines: seq<Id>, quarantines: seq<Id>)

  ghost predicate OrderOf(o: Order, s: System) {
    Lists(o.cards, s.cards.Keys) && Lists(o.baselines, s.baselines.Keys) && Lists(o.quarantines, s.quarantines.Keys)
  }

  function ScoreRows(s: System, keys: seq<Id>): (rows: seq<Row<ScoreRow>>)
    requires forall k :: k in keys ==> k in s.cards
    ensures |rows| == |keys|
  {
    seq(|keys|, i requires 0 <= i < |keys| =>
      var card := s.cards[keys[i]]; Row(keys[i], ScoreRow(StateOf(card.quality), card.score, Some(OfResult(card.hash)))))
  }

  function BaselineRows(s: System, keys: seq<Id>): (rows: seq<Row<BaselineRow>>)
    requires forall k :: k in keys ==> k in s.baselines
    ensures |rows| == |keys|
  {
    seq(|keys|, i requires 0 <= i < |keys| =>
      Row(keys[i], BaselineRow(s.baselines[keys[i]].id, Some(OfResult(s.baselines[keys[i]].hash)))))
  }

  /** A stored quarantine has no active field, and reads as active. */
  function QuarantineRows(keys: seq<Id>): (rows: seq<Row<QuarantineRow>>)
    ensures |rows| == |keys|
  {
    seq(|keys|, i requires 0 <= i < |keys| => Row(keys[i], QuarantineRow(true)))
  }

  function EvidenceOf(s: System, o: Order): Evidence
    requires OrderOf(o, s)
  {
    Evidence(ScoreRows(s, o.cards), BaselineRows(s, o.baselines), QuarantineRows(o.quarantines))
  }

  /** The entry kept for t comes from a row naming t. */
  lemma {:induction false} LatestByToolMeaning<T>(rows: seq<Row<T>>, t: Id)
    ensures t in LatestByTool(rows) ==>
              t != "" && exists i :: 0 <= i < |rows| && Normalize(rows[i].toolId) == t && rows[i].entry == LatestByTool(rows)[t]
  {
    hide Normalize;
    if rows != [] && t in LatestByTool(rows) {
      var n := |rows| - 1;
      var init := rows[..n];
      LatestByToolMeaning(init, t);
      if Normalize(rows[n].toolId) == t {
        assert rows[n].entry == LatestByTool(rows)[t];
      } else {
        var i :| 0 <= i < n && Normalize(init[i].toolId) == t && init[i].entry == LatestByTool(init)[t];
        assert rows[i] == init[i];
      }
    }
  }

  /** And every row with an id leaves an entry. */
  lemma {:induction false} LatestByToolCovers<T>(rows: seq<Row<T>>, i: nat)
    requires i < |rows| && Normalize(rows[i].toolId) != ""
    ensures Normalize(rows[i].toolId) in LatestByTool(rows)
  {
    hide Normalize;
    if i < |rows| - 1 { LatestByToolCovers(rows[..|rows| - 1], i); }
  }

  /** Only catalog tools have cards and baselines. */
  lemma StoredToolsAreInCatalog(s: System, t: Id)
    requires Inv(s)
    ensures t in s.cards || t in s.baselines ==> InCatalog(t)
  {
    hide InCatalog, Classify, ToolsOk, ReviewsOk, Approving;
    if t in s.cards {
      assert CardAgrees(s, t);
      LastRunIsLogged(s.runs, t);
    }
    if t in s.baselines {
      assert BaselineOk(s, t);
      var i: nat, k: nat :| AcceptedWhen(s, t, s.baselines[t], i, k);
    }
  }

  lemma CatalogToolsHaveNames(a: Id)
    requires InCatalog(a)
    ensures Normalize(a) != ""
  {
    hide Normalize, CatalogTool;
    var i: nat :| i < 8 && CatalogTool(i) == a;
    CatalogIdsNormalize(i);
  }

  lemma CatalogToolsStayApart(a: Id, b: Id)
    requires InCatalog(a) && InCatalog(b) && Normalize(a) == Normalize(b)
    ensures a == b
  {
    hide Normalize, CatalogTool;
    var i: nat :| i < 8 && CatalogTool(i) == a;
    var j: nat :| j < 8 && CatalogTool(j) == b;
    CatalogIdsStayApart(i, j);
  }

  /** The card and the baseline the planner finds for t are those stored under one and the same catalog id. */
  lemma FoundUnderOneId(s: System, o: Order, t: Id, k: Id)
    requires Inv(s) && OrderOf(o, s) && InCatalog(k) && Normalize(k) == t && t != ""
    ensures Find(LatestByTool(EvidenceOf(s, o).cards), t) ==
            if k in s.cards then Some(ScoreRow(StateOf(s.cards[k].quality), s.cards[k].score, Some(OfResult(s.cards[k].hash)))) else None
    ensures Find(LatestByTool(EvidenceOf(s, o).baselines), t) ==
            if k in s.baselines then Some(BaselineRow(s.baselines[k].id, Some(OfResult(s.baselines[k].hash)))) else None
  {
    hide Inv, Normalize, InCatalog, LatestByTool;
    var cards, baselines := ScoreRows(s, o.cards), BaselineRows(s, o.baselines);
    LatestByToolMeaning(cards, t);
    LatestByToolMeaning(baselines, t);
    if k in s.cards {
      var i :| 0 <= i < |o.cards| && o.cards[i] == k;
      LatestByToolCovers(cards, i);
    }
    if k in s.baselines {
      var i :| 0 <= i < |o.baselines| && o.baselines[i] == k;
      LatestByToolCovers(baselines, i);
    }
    if t in LatestByTool(cards) {
      var i :| 0 <= i < |cards| && Normalize(cards[i].toolId) == t && cards[i].entry == LatestByTool(cards)[t];
      StoredToolsAreInCatalog(s, o.cards[i]);
      CatalogToolsStayApart(o.cards[i], k);
    }
    if t in LatestByTool(baselines) {
      var i :| 0 <= i < |baselines| && Normalize(baselines[i].toolId) == t && baselines[i].entry == LatestByTool(baselines)[t];
      StoredToolsAreInCatalog(s, o.baselines[i]);
      CatalogToolsStayApart(o.baselines[i], k);
    }
  }

  /** Some stored quarantine names t, under any spelling. */
  predicate QuarantinedAs(s: System, t: Id) {
    exists q :: q in s.quarantines && Normalize(q) == t
  }

  lemma QuarantineFound(s: System, o: Order, t: Id)
    requires OrderOf(o, s) && t != ""
    ensures var found := Find(LatestByTool(EvidenceOf(s, o).quarantines), t);
            (found.Some? <==> QuarantinedAs(s, t)) && (found.Some? ==> found.value.active)
  {
    hide Normalize, LatestByTool;
    var rows := QuarantineRows(o.quarantines);
    LatestByToolMeaning(rows, t);
    if QuarantinedAs(s, t) {
      var q :| q in s.quarantines && Normalize(q) == t;
      var i :| 0 <= i < |o.quarantines| && o.quarantines[i] == q;
      LatestByToolCovers(rows, i);
    }
    if t in LatestByTool(rows) {
      var i :| 0 <= i < |rows| && Normalize(rows[i].toolId) == t && rows[i].entry == LatestByTool(rows)[t];
      assert o.quarantines[i] in s.quarantines;
    }
  }

  predicate IsSelectable(state: QualityState) { state == Accepted || state == Limited }

  /** The lab's evidence for selecting catalog tool k: a good card whose hash is that of the accepted baseline. */
  predicate HasEvidence(s: System, k: Id, q: Quality) {
    k in s.cards && s.cards[k].quality == q && k in s.baselines && s.baselines[k].hash == s.cards[k].hash
  }

  /** A tool keeps a good assessment only without an active quarantine and with a baseline of the same fingerprint. */
  lemma DecideMeaning(
      t: Id, card: Option<ScoreRow>, baseline: Option<BaselineRow>, quarantine: Option<QuarantineRow>, state: QualityState)
    requires IsSelectable(state)
    ensures Decide(t, card, baseline, quarantine).state == state <==>
              && (quarantine.None? || !quarantine.value.active)
              && card.Some? && card.value.state == state && card.value.fingerprint.Some?
              && baseline.Some? && baseline.value.fingerprint == card.value.fingerprint
  {
  }

  lemma DecisionMeaning(e: Evidence, t: Id, state: QualityState)
    requires IsSelectable(state)
    ensures var card := Find(LatestByTool(e.cards), t);
            var baseline := Find(LatestByTool(e.baselines), t);
            var quarantine := Find(LatestByTool(e.quarantines), t);
            DecisionFor(e, t).state == state <==>
              && (quarantine.None? || !quarantine.value.active)
              && card.Some? && card.value.state == state && card.value.fingerprint.Some?
              && baseline.Some? && baseline.value.fingerprint == card.value.fingerprint
  {
    hide Find, LatestByTool;
    DecideMeaning(t, Find(LatestByTool(e.cards), t), Find(LatestByTool(e.baselines), t), Find(LatestByTool(e.quarantines), t), state);
  }

  lemma SelectableInState(s: System, o: Order, k: Id)
    requires Inv(s) && OrderOf(o, s) && InCatalog(k)
    ensures var t := Normalize(k); var state := DecisionFor(EvidenceOf(s, o), t).state;
            && (state == Accepted <==> !QuarantinedAs(s, t) && HasEvidence(s, k, QualityAccepted))
            && (state == Limited <==> !QuarantinedAs(s, t) && HasEvidence(s, k, PassWithLimitations))
  {
    hide Inv, InCatalog, Normalize, LatestByTool, QuarantinedAs, EvidenceOf, OrderOf, Decide, DecisionFor, Find;
    var t, e := Normalize(k), EvidenceOf(s, o);
    CatalogToolsHaveNames(k);
    FoundUnderOneId(s, o, t, k);
    QuarantineFound(s, o, t);
    DecisionMeaning(e, t, Accepted);
    DecisionMeaning(e, t, Limited);
  }

  /** After any history, a tool is selectable exactly when it is under no quarantine and its latest result matches its baseline. */
  lemma SelectableIff(s: System, o: Order, k: Id)
    requires Reachable(s) && OrderOf(o, s) && InCatalog(k)
    ensures var t := Normalize(k);
            var state := DecisionFor(EvidenceOf(s, o), t).state;
            && (state == Accepted <==> !QuarantinedAs(s, t) && HasEvidence(s, k, QualityAccepted))
            && (state == Limited <==> !QuarantinedAs(s, t) && HasEvidence(s, k, PassWithLimitations))
  {
    hide *;
    ReachableInv(s);
    SelectableInState(s, o, k);
  }

  /** A canonical tool that is in no catalog spelling is never selectable. */
  lemma UncataloguedIsNeverSelectable(s: System, o: Order, t: Id)
    requires Reachable(s) && OrderOf(o, s) && t != ""
    requires forall k :: InCatalog(k) ==> Normalize(k) != t
    ensures !IsSelectable(DecisionFor(EvidenceOf(s, o), t).state)
  {
    ReachableInv(s);
    DecisionMeaning(EvidenceOf(s, o), t, Accepted);
    DecisionMeaning(EvidenceOf(s, o), t, Limited);
    hide Inv, Reachable, InCatalog, Normalize, LatestByTool, DecisionFor, Decide;
    var cards := ScoreRows(s, o.cards);
    LatestByToolMeaning(cards, t);
    if t in LatestByTool(cards) {
      var i :| 0 <= i < |cards| && Normalize(cards[i].toolId) == t && cards[i].entry == LatestByTool(cards)[t];
      StoredToolsAreInCatalog(s, o.cards[i]);
    }
  }

  /** What a selectable tool went through: its latest result is, by hash, one that was accepted while its review approved it. */
  lemma SelectableWasApproved(s: System, o: Order, k: Id)
    requires Reachable(s) && OrderOf(o, s) && InCatalog(k)
    requires IsSelectable(DecisionFor(EvidenceOf(s, o), Normalize(k)).state)
    ensures
            && !QuarantinedAs(s, Normalize(k)) && k in s.baselines
            && LastRun(s.runs, k).Some?
            && exists i: nat, m: nat ::
                 && AcceptedWhen(s, k, s.baselines[k], i, m)
                 && LastRun(s.runs, k).value.hash == s.runs[i].hash && LastRun(s.runs, k).value.quality == s.runs[i].quality
  {
    hide Inv, Reachable, InCatalog, Normalize, DecisionFor, EvidenceOf, OrderOf, QuarantinedAs, AcceptedWhen, LastRun;
    SelectableIff(s, o, k);
    ReachableInv(s);
    EvidenceWasApproved(s, k);
  }

  /** Behind matching evidence stands an approved acceptance. */
  lemma EvidenceWasApproved(s: System, k: Id)
    requires Inv(s) && k in s.cards && k in s.baselines && s.baselines[k].hash == s.cards[k].hash
    ensures LastRun(s.runs, k).Some?
    ensures exists i: nat, m: nat ::
              && AcceptedWhen(s, k, s.baselines[k], i, m)
              && LastRun(s.runs, k).value.hash == s.runs[i].hash && LastRun(s.runs, k).value.quality == s.runs[i].quality
  {
    hide InCatalog, Classify, Approving, ReviewsOk, ToolsOk;
    assert CardAgrees(s, k) && BaselineOk(s, k);
    LastRunIsLogged(s.runs, k);
    var i: nat, m: nat :| AcceptedWhen(s, k, s.baselines[k], i, m);
  }

  /** A quarantine of any spelling of t forbids t to every later plan, whether or not its admission write landed. */
  lemma QuarantineForbidsForGood(s: System, spelling: Id, reason: string, reaches: bool, ops: seq<Op>, o: Order)
    requires OrderOf(o, After(QuarantineTool(s, spelling, reason, reaches).after, ops)) && Normalize(spelling) != ""
    ensures var later := After(QuarantineTool(s, spelling, reason, reaches).after, ops);
            DecisionFor(EvidenceOf(later, o), Normalize(spelling)).state == Forbidden
  {
    Claims.QuarantineIsForever(QuarantineTool(s, spelling, reason, reaches).after, ops, spelling);
    hide After, Normalize, LatestByTool, QuarantineTool, EvidenceOf;
    var later := After(QuarantineTool(s, spelling, reason, reaches).after, ops);
    assert spelling in later.quarantines;
    QuarantineFound(later, o, Normalize(spelling));
  }

  lemma BenchmarkKeepsTheGate(s: System, suite: nat, id: Id, payload: Payload, reaches: bool)
    requires suite < 8 && Classify(payload) != Quarantined
    ensures var k := CatalogTool(suite); var s' := RunSuite(s, suite, id, Some(payload), reaches).after;
            && ScannerGate(s', k) == ScannerGate(s, k) && NativeGate(s', k) == NativeGate(s, k)
            && s'.baselines == s.baselines && k in s'.cards && s'.cards[k].hash == Sha256(SuiteResult(k, payload))
  {
    hide Classify, CatalogTool, Scanner, Eligible;
  }

  /** The gates and the planner part ways: after a benchmark with a new result, however bad, short of a quarantine, the gates
      answer as before, while the planner no longer selects the tool. */
  lemma GatesOutliveTheBenchmark(s: System, suite: nat, id: Id, payload: Payload, reaches: bool, o: Order)
    requires Reachable(s) && Possible(s, OpRun(suite, id, Some(payload), reaches))
    requires suite < 8 && Classify(payload) != Quarantined
    requires OrderOf(o, RunSuite(s, suite, id, Some(payload), reaches).after)
    requires CatalogTool(suite) in s.baselines
    requires s.baselines[CatalogTool(suite)].hash != Sha256(SuiteResult(CatalogTool(suite), payload))
    ensures var k := CatalogTool(suite); var s' := RunSuite(s, suite, id, Some(payload), reaches).after;
            && ScannerGate(s', k) == ScannerGate(s, k) && NativeGate(s', k) == NativeGate(s, k)
            && !IsSelectable(DecisionFor(EvidenceOf(s', o), Normalize(k)).state)
  {
    var k, s' := CatalogTool(suite), RunSuite(s, suite, id, Some(payload), reaches).after;
    ReachableInv(s);
    StepKeeps(s, OpRun(suite, id, Some(payload), reaches));
    BenchmarkKeepsTheGate(s, suite, id, payload, reaches);
    assert InCatalog(k);
    hide Reachable, Inv, InCatalog, Normalize, DecisionFor, EvidenceOf, OrderOf, QuarantinedAs, RunSuite, Classify, CatalogTool,
         ScannerGate, NativeGate, Possible;
    SelectableInState(s', o, k);
  }

  /** Over any history of the lab, an accepted tool scored at least 90 and a limited one at least 80. */
  lemma SelectableScores(s: System, o: Order, k: Id)
    requires Reachable(s) && OrderOf(o, s) && InCatalog(k)
    ensures var d := DecisionFor(EvidenceOf(s, o), Normalize(k));
            && (d.state == Accepted ==> d.score.Some? && d.score.value >= 90.0)
            && (d.state == Limited ==> d.score.Some? && d.score.value >= 80.0)
  {
    SelectableIff(s, o, k);
    ReachableInv(s);
    CatalogToolsHaveNames(k);
    hide Reachable, InCatalog, Normalize, LatestByTool, EvidenceOf, OrderOf, QuarantinedAs, Inv, Find, StateOf;
    FoundUnderOneId(s, o, Normalize(k), k);
    if k in s.cards { CardScores(s, k); }
  }

  /** A card's score is one for which its quality was awarded. */
  lemma CardScores(s: System, k: Id)
    requires Inv(s) && k in s.cards
    ensures s.cards[k].quality == QualityAccepted ==> s.cards[k].score.Some? && s.cards[k].score.value >= 90.0
    ensures s.cards[k].quality == PassWithLimitations ==> s.cards[k].score.Some? && s.cards[k].score.value >= 80.0
  {
    hide InCatalog, BaselineOk, ToolsOk, ReviewsOk;
    assert CardAgrees(s, k);
    LastRunIsLogged(s.runs, k);
    hide LastRun, LatestReview;
  }

  /* ---------- Whole plans over whole histories ---------- */

  /** A selectable row of a snapshot is the decision about a canonical tool that has a catalog id. */
  lemma SelectableRowHasCatalogId(s: System, o: Order, step: PlanStep, d: ToolDecision) returns (k: Id)
    requires Reachable(s) && OrderOf(o, s)
    requires var e := EvidenceOf(s, o); d in RowsFor(SnapshotOf(e), step) && IsSelectable(d.state)
    ensures InCatalog(k) && Normalize(k) == d.toolId && d.toolId in CanonicalTools()
    ensures d == DecisionFor(EvidenceOf(s, o), d.toolId)
  {
    var e := EvidenceOf(s, o);
    hide Reachable, EvidenceOf, OrderOf, InCatalog, Normalize, Candidates, CanonicalTools;
    var i :| 0 <= i < |RowsFor(SnapshotOf(e), step)| && RowsFor(SnapshotOf(e), step)[i] == d;
    var t := Candidates(step)[i];
    assert d == RowFor(SnapshotOf(e), t) && t in SnapshotOf(e);
    assert d == DecisionFor(e, t) && d.toolId == t;
    CanonicalToolsHaveNames(t);
    hide RowsFor, SnapshotOf, DecisionFor;
    if forall c :: InCatalog(c) ==> Normalize(c) != t {
      UncataloguedIsNeverSelectable(s, o, t);
      assert false;
    }
    k :| InCatalog(k) && Normalize(k) == t;
  }

  lemma CanonicalToolsHaveNames(t: Id)
    requires t in CanonicalTools()
    ensures t != ""
  {
  }

  /** Every tool a plan chooses, after any history, was approved and is under no quarantine. */
  lemma ChosenToolsWereApproved(
      s: System, o: Order, steps: seq<PlanStep>, allow: bool, reference: Option<string>, i: nat)
    requires Reachable(s) && OrderOf(o, s) && i < |steps|
    requires EvaluatePlan(SnapshotOf(EvidenceOf(s, o)), steps, allow, reference).choices[i].Chosen?
    ensures var tool := EvaluatePlan(SnapshotOf(EvidenceOf(s, o)), steps, allow, reference).choices[i].tool;
            && !QuarantinedAs(s, tool.toolId)
            && exists k, r: nat, m: nat ::
                 && Normalize(k) == tool.toolId && k in s.baselines && AcceptedWhen(s, k, s.baselines[k], r, m)
                 && LastRun(s.runs, k).Some? && LastRun(s.runs, k).value.hash == s.runs[r].hash
  {
    var rows := RowsFor(SnapshotOf(EvidenceOf(s, o)), steps[i]);
    var tool := EvaluatePlan(SnapshotOf(EvidenceOf(s, o)), steps, allow, reference).choices[i].tool;
    assert tool == Choose(rows, LimitedApproval(allow, reference)).tool;
    ChosenIsEligible(rows, LimitedApproval(allow, reference));
    hide EvaluatePlan, Choose, RowsFor, SnapshotOf, LimitedApproval, IsFirstBest, WithState, LastRun, LatestReview;
    hide Reachable, EvidenceOf, OrderOf, InCatalog, Normalize, DecisionFor, QuarantinedAs, AcceptedWhen;
    var k := SelectableRowHasCatalogId(s, o, steps[i], tool);
    SelectableWasApproved(s, o, k);
  }

  lemma EligibleScoreIsPositive(s: System, o: Order, step: PlanStep, d: ToolDecision)
    requires Reachable(s) && OrderOf(o, s)
    requires var e := EvidenceOf(s, o); d in RowsFor(SnapshotOf(e), step) && IsSelectable(d.state)
    ensures d.score.Some? && d.score.value > 0.0
  {
    hide Reachable, EvidenceOf, OrderOf, InCatalog, Normalize, DecisionFor, SnapshotOf, RowsFor;
    var k := SelectableRowHasCatalogId(s, o, step, d);
    SelectableScores(s, o, k);
  }

  /** The chosen row is the first with the highest score among the eligible ones. */
  ghost predicate ChoosesHighest(rows: seq<ToolDecision>, choice: Choice) {
    choice.Chosen? ==>
      var eligible := WithState(rows, StateOfBasis(choice.basis));
      exists i: nat :: IsFirstHighest(eligible, i) && choice.tool == eligible[i]
  }

  lemma PositiveRowsChooseHighest(rows: seq<ToolDecision>, limitedApproval: bool)
    requires forall d :: d in rows && IsSelectable(d.state) ==> d.score.Some? && d.score.value > 0.0
    ensures ChoosesHighest(rows, Choose(rows, limitedApproval))
  {
    var choice := Choose(rows, limitedApproval);
    if choice.Chosen? {
      var state := StateOfBasis(choice.basis);
      var eligible := WithState(rows, state);
      assert eligible != [] && choice.tool == Sorted(eligible)[0];
      forall d | d in eligible ensures d.score.Some? && d.score.value > 0.0 {
        WithStateMeaning(rows, state, d);
      }
      var i := PositiveScoresPickHighest(eligible);
      assert IsFirstHighest(eligible, i) && choice.tool == eligible[i];
    }
  }

  /** And it has the highest score of the tools eligible on the same basis: lab scores are never where the sort key goes wrong. */
  lemma PlansPickTheHighestScore(s: System, o: Order, step: PlanStep, limitedApproval: bool)
    requires Reachable(s) && OrderOf(o, s)
    ensures var rows := RowsFor(SnapshotOf(EvidenceOf(s, o)), step);
            ChoosesHighest(rows, Choose(rows, limitedApproval))
  {
    var rows := RowsFor(SnapshotOf(EvidenceOf(s, o)), step);
    hide Reachable, EvidenceOf, OrderOf, SnapshotOf, RowsFor, Choose, ChoosesHighest;
    forall d | d in rows && IsSelectable(d.state) ensures d.score.Some? && d.score.value > 0.0 {
      EligibleScoreIsPositive(s, o, step, d);
    }
    PositiveRowsChooseHighest(rows, limitedApproval);
  }
}
