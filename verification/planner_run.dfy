/**
 The planner as it computes: loops over stored rows, candidates and steps, and a sort in place.
 Every method is tied to the function of the same meaning in Planner.
 */
module PlannerRun {
  import opened Common
  import Ids = ToolIds
  import Spec = Planner

  method LatestByTool<T>(rows: seq<Spec.Row<T>>) returns (latest: map<Id, T>)
    ensures latest == Spec.LatestByTool(rows)
  {
    latest := map[];
    for i := 0 to |rows|
      invariant latest == Spec.LatestByTool(rows[..i])
    {
      assert rows[..i + 1][..i] == rows[..i];
      var t := Ids.Normalize(rows[i].toolId);
      if t != "" { latest := latest[t := rows[i].entry]; }
    }
    assert rows[..|rows|] == rows;
  }

  method LoadSnapshot(e: Spec.Evidence) returns (snapshot: Spec.Snapshot)
    ensures snapshot == Spec.SnapshotOf(e)
  {
    hide Spec.CanonicalTools, Spec.Decide, Spec.LatestByTool;
    var cards := LatestByTool(e.cards);
    var baselines := LatestByTool(e.baselines);
    var quarantines := LatestByTool(e.quarantines);
    snapshot := map[];
    var canonical := Spec.CanonicalTools();
    for i := 0 to |canonical|
      invariant forall t :: t in snapshot <==> t in canonical[..i]
      invariant forall t :: t in snapshot ==> snapshot[t] == Spec.DecisionFor(e, t)
    {
      var t := canonical[i];
      snapshot := snapshot[t := Spec.Decide(t, Spec.Find(cards, t), Spec.Find(baselines, t), Spec.Find(quarantines, t))];
      assert canonical[..i + 1] == canonical[..i] + [t];
    }
    assert canonical[..|canonical|] == canonical;
  }

  method ExplicitIds(ids: seq<Id>) returns (explicit: seq<Id>)
    ensures explicit == Spec.Explicit(ids)
  {
    explicit := [];
    for i := 0 to |ids|
      invariant explicit == Spec.Explicit(ids[..i])
    {
      assert ids[..i + 1][..i] == ids[..i];
      var t := Ids.Normalize(ids[i]);
      if t != "" && t !in explicit { explicit := explicit + [t]; }
    }
    assert ids[..|ids|] == ids;
  }

  method CandidateIds(step: Spec.PlanStep) returns (candidates: seq<Id>)
    ensures candidates == Spec.Candidates(step)
  {
    candidates := ExplicitIds(step.candidates);
    if candidates != [] || step.required == {} { return; }
    var tools := Spec.CanonicalTools();
    for i := 0 to |tools|
      invariant candidates == Spec.Matching(tools[..i], step.required)
    {
      assert tools[..i + 1][..i] == tools[..i];
      if step.required <= Spec.Capabilities(tools[i]) { candidates := candidates + [tools[i]]; }
    }
    assert tools[..|tools|] == tools;
  }

  /** Stable descending sort in place, by insertion from the right. */
  method SortInPlace(a: array<Spec.ToolDecision>)
    modifies a
    ensures a[..] == Spec.Sorted(old(a[..]))
  {
    ghost var was := a[..];
    for n := 0 to a.Length
      invariant a[..n] == Spec.Sorted(was[..n])
      invariant a[n..] == was[n..]
    {
      assert was[..n + 1][..n] == was[..n];
      assert a[n] == a[n..][0] == was[n];
      Insert(a, n);
      assert a[n + 1..] == was[n + 1..];
    }
    assert a[..a.Length] == a[..] && was[..a.Length] == was;
  }

  /** Moves element n left past every smaller one of the n before it. */
  method Insert(a: array<Spec.ToolDecision>, n: nat)
    requires n < a.Length
    modifies a
    ensures var before := old(a[..n]); var p := Spec.Position(before, old(a[n]));
            a[..n + 1] == before[..p] + [old(a[n])] + before[p..]
    ensures a[n + 1..] == old(a[n + 1..])
  {
    hide Spec.KeyAtLeast;
    var x := a[n];
    ghost var before := a[..n];
    var p := n;
    while p > 0 && !Spec.KeyAtLeast(a[p - 1], x)
      invariant 0 <= p <= n
      invariant a[..p] == before[..p]
      invariant forall j :: p < j <= n ==> a[j] == before[j - 1]
      invariant Spec.Position(before, x) == Spec.Position(before[..p], x)
      invariant a[n + 1..] == old(a[n + 1..])
    {
      assert a[p - 1] == a[..p][p - 1] == before[p - 1];
      assert before[..p][..p - 1] == before[..p - 1];
      a[p] := a[p - 1];
      p := p - 1;
      assert a[..p] == before[..p];
    }
    assert p > 0 ==> a[p - 1] == a[..p][p - 1];
    assert p > 0 ==> before[..p][|before[..p]| - 1] == before[p - 1];
    a[p] := x;
    assert a[..n + 1] == before[..p] + [x] + before[p..];
  }

  /** The first row of the sorted copy. */
  method BestOf(rows: seq<Spec.ToolDecision>) returns (best: Spec.ToolDecision)
    requires rows != []
    ensures best == Spec.Sorted(rows)[0]
  {
    var a := new Spec.ToolDecision[|rows|](i requires 0 <= i < |rows| => rows[i]);
    assert a[..] == rows;
    SortInPlace(a);
    best := a[0];
  }

  method Rows(snapshot: Spec.Snapshot, step: Spec.PlanStep) returns (rows: seq<Spec.ToolDecision>)
    ensures rows == Spec.RowsFor(snapshot, step)
  {
    var candidates := CandidateIds(step);
    rows := [];
    for i := 0 to |candidates|
      invariant |rows| == i && forall j :: 0 <= j < i ==> rows[j] == Spec.RowFor(snapshot, candidates[j])
    {
      rows := rows + [Spec.RowFor(snapshot, candidates[i])];
    }
  }

  method ChooseTool(rows: seq<Spec.ToolDecision>, limitedApproval: bool) returns (choice: Spec.Choice)
    ensures choice == Spec.Choose(rows, limitedApproval)
  {
    var selectable := Spec.WithState(rows, Spec.Accepted);
    var limited := Spec.WithState(rows, Spec.Limited);
    if selectable != [] {
      var best := BestOf(selectable);
      return Spec.Chosen(best, Spec.AcceptedHighestScore);
    } else if limited != [] && limitedApproval {
      var best := BestOf(limited);
      return Spec.Chosen(best, Spec.LimitedWithApproval);
    }
    return Spec.NoEligibleTool;
  }

  method EvaluatePlan(e: Spec.Evidence, steps: seq<Spec.PlanStep>, allowLimited: bool, reference: Option<string>)
    returns (plan: Spec.Plan)
    ensures plan == Spec.EvaluatePlan(Spec.SnapshotOf(e), steps, allowLimited, reference)
  {
    hide Spec.SnapshotOf, Spec.RowsFor, Spec.Choose, Spec.LimitedApproval;
    var snapshot := LoadSnapshot(e);
    var limitedApproval := Spec.LimitedApproval(allowLimited, reference);
    ghost var expected := Spec.Choices(snapshot, steps, limitedApproval);
    var choices: seq<Spec.Choice> := [];
    var blocked := false;
    for i := 0 to |steps|
      invariant choices == expected[..i]
      invariant blocked <==> Spec.NoEligibleTool in choices
    {
      var rows := Rows(snapshot, steps[i]);
      var choice := ChooseTool(rows, limitedApproval);
      if choice == Spec.NoEligibleTool { blocked := true; }
      choices := choices + [choice];
    }
    assert choices == expected;
    plan := Spec.Plan(!blocked, choices);
  }
}
