/** The goal store of utils/data_storage.py: one user document holding a list
    of goals and the id of the current goal. Every goal owns append-only
    lists of motivations, plans and solutions. The JSON file the source
    re-reads and re-writes around every operation is modelled as the fields of
    one in-memory `GoalStore` object; timestamps are not modelled. */
module DataStorage {
  import opened Wrappers
  import StageClassifier

  datatype Motivation = Motivation(id: int, content: string, stage: string)

  datatype Plan = Plan(id: int, action: string, timeline: string, difficulty: string, status: string)

  datatype Solution = Solution(id: int, name: string, description: string, effectiveness: string)

  datatype Goal = Goal(
    id: int,
    name: string,
    stage: string,
    previousStage: Option<string>,
    motivations: seq<Motivation>,
    solutions: seq<Solution>,
    plans: seq<Plan>)

  /** The status a new plan gets and the one the "active plans" getter keeps. */
  const ActiveStatus: string := "active"

  function GoalIds(gs: seq<Goal>): (ids: seq<int>)
    ensures |ids| == |gs| && forall i | 0 <= i < |gs| :: ids[i] == gs[i].id
  {
    seq(|gs|, i requires 0 <= i < |gs| => gs[i].id)
  }

  function MotivationIds(ms: seq<Motivation>): (ids: seq<int>)
    ensures |ids| == |ms| && forall i | 0 <= i < |ms| :: ids[i] == ms[i].id
  {
    seq(|ms|, i requires 0 <= i < |ms| => ms[i].id)
  }

  function PlanIds(ps: seq<Plan>): (ids: seq<int>)
    ensures |ids| == |ps| && forall i | 0 <= i < |ps| :: ids[i] == ps[i].id
  {
    seq(|ps|, i requires 0 <= i < |ps| => ps[i].id)
  }

  function SolutionIds(ss: seq<Solution>): (ids: seq<int>)
    ensures |ids| == |ss| && forall i | 0 <= i < |ss| :: ids[i] == ss[i].id
  {
    seq(|ss|, i requires 0 <= i < |ss| => ss[i].id)
  }

  predicate Distinct(ids: seq<int>) {
    forall i, j | 0 <= i < j < |ids| :: ids[i] != ids[j]
  }

  /** `r` is the id the store hands out next for a list holding `ids`:
      `max(ids) + 1`, or 1 when the list is empty. */
  predicate IsNextId(ids: seq<int>, r: int) {
    (ids == [] && r == 1)
    || (ids != [] && r - 1 in ids && forall i | 0 <= i < |ids| :: ids[i] < r)
  }

  /** A next id is new, so appending it keeps the ids distinct. */
  lemma NextIdIsFresh(ids: seq<int>, r: int)
    requires IsNextId(ids, r) && Distinct(ids)
    ensures r !in ids
    ensures Distinct(ids + [r])
  {
    var ext := ids + [r];
    forall i, j | 0 <= i < j < |ext| ensures ext[i] != ext[j] {
      if j == |ids| {
        assert ext[i] == ids[i];
      }
    }
  }

  /** `max(ids) + 1` computed by a scan, as `max(...)` does; like `max`,
      it needs a non-empty list. */
  method MaxIdPlusOne(ids: seq<int>) returns (r: int)
    requires ids != []
    ensures r - 1 in ids
    ensures forall i | 0 <= i < |ids| :: ids[i] < r
  {
    var m := ids[0];
    var i := 1;
    while i < |ids|
      invariant 1 <= i <= |ids|
      invariant m in ids[..i]
      invariant forall j | 0 <= j < i :: ids[j] <= m
    {
      if ids[i] > m {
        m := ids[i];
      }
      i := i + 1;
    }
    assert ids[..i] == ids;
    r := m + 1;
  }

  /** Position of the first goal with id `id`. */
  function FindGoal(gs: seq<Goal>, id: int): (r: Option<nat>)
    ensures r.Some? ==> r.value < |gs| && gs[r.value].id == id
    ensures r.Some? ==> forall j | 0 <= j < r.value :: gs[j].id != id
    ensures r.None? ==> forall j | 0 <= j < |gs| :: gs[j].id != id
  {
    if gs == [] then None
    else if gs[0].id == id then Some(0)
    else match FindGoal(gs[1..], id)
      case None => None
      case Some(k) => Some(k + 1)
  }

  /** Position of the first plan with id `id`. */
  function FindPlan(ps: seq<Plan>, id: int): (r: Option<nat>)
    ensures r.Some? ==> r.value < |ps| && ps[r.value].id == id
    ensures r.Some? ==> forall j | 0 <= j < r.value :: ps[j].id != id
    ensures r.None? ==> forall j | 0 <= j < |ps| :: ps[j].id != id
  {
    if ps == [] then None
    else if ps[0].id == id then Some(0)
    else match FindPlan(ps[1..], id)
      case None => None
      case Some(k) => Some(k + 1)
  }

  /** Position of the first goal with id `goalId` that holds a plan with id
      `planId`: the nested search of `update_plan_status`. */
  function FindGoalWithPlan(gs: seq<Goal>, goalId: int, planId: int): (r: Option<nat>)
    ensures r.Some? ==> r.value < |gs| && gs[r.value].id == goalId
                        && FindPlan(gs[r.value].plans, planId).Some?
    ensures r.Some? ==> forall j | 0 <= j < r.value ::
                          !(gs[j].id == goalId && FindPlan(gs[j].plans, planId).Some?)
    ensures r.None? ==> forall j | 0 <= j < |gs| ::
                          !(gs[j].id == goalId && FindPlan(gs[j].plans, planId).Some?)
  {
    if gs == [] then None
    else if gs[0].id == goalId && FindPlan(gs[0].plans, planId).Some? then Some(0)
    else match FindGoalWithPlan(gs[1..], goalId, planId)
      case None => None
      case Some(k) => Some(k + 1)
  }

  /** The search only looks at ids, so it finds the same position in two
      goal lists with the same ids. */
  lemma {:induction false} FindGoalSameIds(gs: seq<Goal>, hs: seq<Goal>, id: int)
    requires GoalIds(gs) == GoalIds(hs)
    ensures FindGoal(gs, id) == FindGoal(hs, id)
  {
    if gs != [] {
      assert gs[0].id == GoalIds(gs)[0] == GoalIds(hs)[0] == hs[0].id;
      assert GoalIds(gs[1..]) == GoalIds(gs)[1..];
      assert GoalIds(hs[1..]) == GoalIds(hs)[1..];
      FindGoalSameIds(gs[1..], hs[1..], id);
    }
  }

  /** With distinct goal ids, the goal `update_plan_status` changes is the
      current goal, and only when that goal holds the plan. */
  lemma PlanTargetIsCurrentGoal(gs: seq<Goal>, goalId: int, planId: int)
    requires Distinct(GoalIds(gs))
    ensures FindGoalWithPlan(gs, goalId, planId)
            == match FindGoal(gs, goalId)
               case None => None
               case Some(k) => if FindPlan(gs[k].plans, planId).Some? then Some(k) else None
  {
  }

  /** The plans of `ps` whose status is "active", in stored order. */
  function ActivePlans(ps: seq<Plan>): (r: seq<Plan>)
    ensures |r| <= |ps|
    ensures forall p | p in r :: p in ps && p.status == ActiveStatus
    ensures forall p | p in ps && p.status == ActiveStatus :: p in r
  {
    if ps == [] then []
    else (if ps[0].status == ActiveStatus then [ps[0]] else []) + ActivePlans(ps[1..])
  }

  /** Filtering commutes with appending: a plan added later comes later. */
  lemma {:induction false} ActivePlansAppend(ps: seq<Plan>, qs: seq<Plan>)
    ensures ActivePlans(ps + qs) == ActivePlans(ps) + ActivePlans(qs)
  {
    if ps == [] {
      assert ps + qs == qs;
    } else {
      assert (ps + qs)[0] == ps[0];
      assert (ps + qs)[1..] == ps[1..] + qs;
      ActivePlansAppend(ps[1..], qs);
    }
  }

  /** The last `min(k, |xs|)` elements of `xs`: Python's `xs[-k:]` for `k > 0`. */
  function LastN<T>(xs: seq<T>, k: nat): (r: seq<T>)
    ensures |r| == if k < |xs| then k else |xs|
    ensures r == xs[|xs| - |r|..]
  {
    if k < |xs| then xs[|xs| - k..] else xs
  }

  predicate GoalWellFormed(g: Goal) {
    Distinct(MotivationIds(g.motivations))
    && Distinct(PlanIds(g.plans))
    && Distinct(SolutionIds(g.solutions))
  }

  /** The document invariant: goal ids are distinct, ids inside each goal's
      lists are distinct, and the current-goal id is unset or names a stored goal. */
  predicate ValidDocument(gs: seq<Goal>, current: Option<int>) {
    Distinct(GoalIds(gs))
    && (forall i | 0 <= i < |gs| :: GoalWellFormed(gs[i]))
    && (current.Some? ==> FindGoal(gs, current.value).Some?)
  }

  /** Replacing a goal by a well-formed goal with the same id keeps the
      document valid. */
  lemma ReplaceGoalKeepsValid(gs: seq<Goal>, current: Option<int>, k: nat, g: Goal)
    requires ValidDocument(gs, current)
    requires k < |gs| && g.id == gs[k].id && GoalWellFormed(g)
    ensures ValidDocument(gs[k := g], current)
  {
    var hs := gs[k := g];
    assert GoalIds(hs) == GoalIds(gs);
    if current.Some? {
      FindGoalSameIds(gs, hs, current.value);
    }
  }

  /** The goal `add_new_goal` creates. */
  function NewGoal(id: int, name: string): Goal {
    Goal(id, name, StageClassifier.Contemplation, None, [], [], [])
  }

  class GoalStore {
    var goals: seq<Goal>
    var currentGoalId: Option<int>

    ghost predicate Valid()
      reads this
    {
      ValidDocument(goals, currentGoalId)
    }

    /** The default document: no goals and no current goal. */
    constructor ()
      ensures goals == [] && currentGoalId == None
      ensures Valid()
    {
      goals := [];
      currentGoalId := None;
    }

    /** Position of the goal the current-goal id names, if it names one. */
    ghost function CurrentIndex(): (k: Option<nat>)
      reads this
      ensures k.Some? ==> k.value < |goals| && Some(goals[k.value].id) == currentGoalId
    {
      if currentGoalId.None? then None else FindGoal(goals, currentGoalId.value)
    }

    /** `get_current_goal`: None when the current-goal id is unset or names no goal. */
    method GetCurrentGoal() returns (g: Option<Goal>)
      ensures g.None? <==> currentGoalId.None? || forall j | 0 <= j < |goals| :: goals[j].id != currentGoalId.value
      ensures g.Some? ==> CurrentIndex().Some? && g.value == goals[CurrentIndex().value]
    {
      if currentGoalId.None? {
        return None;
      }
      var id := currentGoalId.value;
      var i := 0;
      while i < |goals|
        invariant 0 <= i <= |goals|
        invariant forall j | 0 <= j < i :: goals[j].id != id
      {
        if goals[i].id == id {
          return Some(goals[i]);
        }
        i := i + 1;
      }
      return None;
    }

    /** `get_goal_by_id`: the first goal with that id. */
    method GetGoalById(goalId: int) returns (g: Option<Goal>)
      ensures g.None? <==> forall j | 0 <= j < |goals| :: goals[j].id != goalId
      ensures g.Some? ==> FindGoal(goals, goalId).Some? && g.value == goals[FindGoal(goals, goalId).value]
    {
      var i := 0;
      while i < |goals|
        invariant 0 <= i <= |goals|
        invariant forall j | 0 <= j < i :: goals[j].id != goalId
      {
        if goals[i].id == goalId {
          return Some(goals[i]);
        }
        i := i + 1;
      }
      return None;
    }

    /** `add_new_goal`: appends a fresh goal with id `max + 1` (or 1) and
        makes it current. */
    method AddNewGoal(name: string) returns (g: Goal)
      modifies this
      ensures IsNextId(GoalIds(old(goals)), g.id)
      ensures g == NewGoal(g.id, name)
      ensures goals == old(goals) + [g]
      ensures currentGoalId == Some(g.id)
      ensures old(Valid()) ==> Valid()
    {
      var goalId := 1;
      if goals != [] {
        goalId := MaxIdPlusOne(GoalIds(goals));
      }
      ghost var wasValid := Valid();
      ghost var before := goals;
      g := NewGoal(goalId, name);
      goals := goals + [g];
      currentGoalId := Some(goalId);
      if wasValid {
        NextIdIsFresh(GoalIds(before), goalId);
        assert GoalIds(goals) == GoalIds(before) + [goalId];
        assert goals[|goals| - 1].id == goalId;
      }
    }

    /** `set_current_goal`: moves the current-goal id only to a goal that exists. */
    method SetCurrentGoal(goalId: int) returns (ok: bool)
      modifies this
      ensures ok <==> exists j | 0 <= j < |goals| :: goals[j].id == goalId
      ensures goals == old(goals)
      ensures currentGoalId == if ok then Some(goalId) else old(currentGoalId)
      ensures old(Valid()) ==> Valid()
    {
      ok := false;
      ghost var found := 0;
      var i := 0;
      while i < |goals|
        invariant 0 <= i <= |goals|
        invariant ok ==> 0 <= found < |goals| && goals[found].id == goalId
        invariant !ok ==> forall j | 0 <= j < i :: goals[j].id != goalId
      {
        if goals[i].id == goalId {
          ok := true;
          found := i;
        }
        i := i + 1;
      }
      if ok {
        currentGoalId := Some(goalId);
        assert goals[found].id == goalId;
      }
    }

    /** `update_goal_stage`: records the given previous stage (the goal's own
        stage when none is given) and sets the new stage on the current goal. */
    method UpdateGoalStage(stage: string, previousStage: Option<string>) returns (g: Option<Goal>)
      modifies this
      ensures currentGoalId == old(currentGoalId)
      ensures old(CurrentIndex()).None? ==> g.None? && goals == old(goals)
      ensures old(CurrentIndex()).Some? ==>
                var k := old(CurrentIndex()).value;
                var before := old(goals)[k];
                var prev := if previousStage.Some? then previousStage.value else before.stage;
                && g == Some(before.(previousStage := Some(prev), stage := stage))
                && goals == old(goals)[k := g.value]
      ensures old(Valid()) ==> Valid()
    {
      if currentGoalId.None? {
        return None;
      }
      var id := currentGoalId.value;
      var i := 0;
      while i < |goals|
        invariant 0 <= i <= |goals|
        invariant forall j | 0 <= j < i :: goals[j].id != id
      {
        if goals[i].id == id {
          var prev := if previousStage.Some? then previousStage.value else goals[i].stage;
          var updated := goals[i].(previousStage := Some(prev), stage := stage);
          if Valid() {
            ReplaceGoalKeepsValid(goals, currentGoalId, i, updated);
          }
          goals := goals[i := updated];
          return Some(updated);
        }
        i := i + 1;
      }
      return None;
    }

    /** `add_motivation`: appends one motivation, id `max + 1` (or 1) within
        the current goal's motivations. */
    method AddMotivation(content: string, stage: string) returns (m: Option<Motivation>)
      modifies this
      ensures currentGoalId == old(currentGoalId)
      ensures old(CurrentIndex()).None? ==> m.None? && goals == old(goals)
      ensures old(CurrentIndex()).Some? ==>
                var k := old(CurrentIndex()).value;
                var before := old(goals)[k];
                && m.Some? && m.value.content == content && m.value.stage == stage
                && IsNextId(MotivationIds(before.motivations), m.value.id)
                && goals == old(goals)[k := before.(motivations := before.motivations + [m.value])]
      ensures old(Valid()) ==> Valid()
    {
      if currentGoalId.None? {
        return None;
      }
      var id := currentGoalId.value;
      var i := 0;
      while i < |goals|
        invariant 0 <= i <= |goals|
        invariant forall j | 0 <= j < i :: goals[j].id != id
      {
        if goals[i].id == id {
          var goal := goals[i];
          var motivationId := 1;
          if goal.motivations != [] {
            motivationId := MaxIdPlusOne(MotivationIds(goal.motivations));
          }
          var motivation := Motivation(motivationId, content, stage);
          var updated := goal.(motivations := goal.motivations + [motivation]);
          if Valid() {
            NextIdIsFresh(MotivationIds(goal.motivations), motivationId);
            assert MotivationIds(updated.motivations) == MotivationIds(goal.motivations) + [motivationId];
            ReplaceGoalKeepsValid(goals, currentGoalId, i, updated);
          }
          goals := goals[i := updated];
          return Some(motivation);
        }
        i := i + 1;
      }
      return None;
    }

    /** `add_plan`: appends one plan with status "active", id `max + 1` (or 1)
        within the current goal's plans. */
    method AddPlan(action: string, timeline: string, difficulty: string) returns (p: Option<Plan>)
      modifies this
      ensures currentGoalId == old(currentGoalId)
      ensures old(CurrentIndex()).None? ==> p.None? && goals == old(goals)
      ensures old(CurrentIndex()).Some? ==>
                var k := old(CurrentIndex()).value;
                var before := old(goals)[k];
                && p.Some? && p.value.status == ActiveStatus
                && p.value.action == action && p.value.timeline == timeline
                && p.value.difficulty == difficulty
                && IsNextId(PlanIds(before.plans), p.value.id)
                && goals == old(goals)[k := before.(plans := before.plans + [p.value])]
      ensures old(Valid()) ==> Valid()
    {
      if currentGoalId.None? {
        return None;
      }
      var id := currentGoalId.value;
      var i := 0;
      while i < |goals|
        invariant 0 <= i <= |goals|
        invariant forall j | 0 <= j < i :: goals[j].id != id
      {
        if goals[i].id == id {
          var goal := goals[i];
          var planId := 1;
          if goal.plans != [] {
            planId := MaxIdPlusOne(PlanIds(goal.plans));
          }
          var plan := Plan(planId, action, timeline, difficulty, ActiveStatus);
          var updated := goal.(plans := goal.plans + [plan]);
          if Valid() {
            NextIdIsFresh(PlanIds(goal.plans), planId);
            assert PlanIds(updated.plans) == PlanIds(goal.plans) + [planId];
            ReplaceGoalKeepsValid(goals, currentGoalId, i, updated);
          }
          goals := goals[i := updated];
          return Some(plan);
        }
        i := i + 1;
      }
      return None;
    }

    /** `update_plan_status`: changes the status of the plan with id `planId`
        in the current goal, and nothing else. */
    method UpdatePlanStatus(planId: int, status: string) returns (p: Option<Plan>)
      modifies this
      ensures currentGoalId == old(currentGoalId)
      ensures old(currentGoalId).None? || FindGoalWithPlan(old(goals), old(currentGoalId).value, planId).None?
              ==> p.None? && goals == old(goals)
      ensures old(currentGoalId).Some? && FindGoalWithPlan(old(goals), old(currentGoalId).value, planId).Some? ==>
                var k := FindGoalWithPlan(old(goals), old(currentGoalId).value, planId).value;
                var before := old(goals)[k];
                var j := FindPlan(before.plans, planId).value;
                && p == Some(before.plans[j].(status := status))
                && goals == old(goals)[k := before.(plans := before.plans[j := p.value])]
      ensures old(Valid()) ==> Valid()
    {
      if currentGoalId.None? {
        return None;
      }
      var id := currentGoalId.value;
      var i := 0;
      while i < |goals|
        invariant 0 <= i <= |goals|
        invariant forall j | 0 <= j < i :: !(goals[j].id == id && FindPlan(goals[j].plans, planId).Some?)
      {
        if goals[i].id == id {
          var goal := goals[i];
          var j := 0;
          while j < |goal.plans|
            invariant 0 <= j <= |goal.plans|
            invariant forall q | 0 <= q < j :: goal.plans[q].id != planId
          {
            if goal.plans[j].id == planId {
              var plan := goal.plans[j].(status := status);
              var updated := goal.(plans := goal.plans[j := plan]);
              if Valid() {
                assert PlanIds(updated.plans) == PlanIds(goal.plans);
                ReplaceGoalKeepsValid(goals, currentGoalId, i, updated);
              }
              goals := goals[i := updated];
              return Some(plan);
            }
            j := j + 1;
          }
        }
        i := i + 1;
      }
      return None;
    }

    /** `add_solution`: appends one solution, id `max + 1` (or 1) within the
        current goal's solutions. */
    method AddSolution(name: string, description: string, effectiveness: string) returns (s: Option<Solution>)
      modifies this
      ensures currentGoalId == old(currentGoalId)
      ensures old(CurrentIndex()).None? ==> s.None? && goals == old(goals)
      ensures old(CurrentIndex()).Some? ==>
                var k := old(CurrentIndex()).value;
                var before := old(goals)[k];
                && s.Some? && s.value.name == name && s.value.description == description
                && s.value.effectiveness == effectiveness
                && IsNextId(SolutionIds(before.solutions), s.value.id)
                && goals == old(goals)[k := before.(solutions := before.solutions + [s.value])]
      ensures old(Valid()) ==> Valid()
    {
      if currentGoalId.None? {
        return None;
      }
      var id := currentGoalId.value;
      var i := 0;
      while i < |goals|
        invariant 0 <= i <= |goals|
        invariant forall j | 0 <= j < i :: goals[j].id != id
      {
        if goals[i].id == id {
          var goal := goals[i];
          var solutionId := 1;
          if goal.solutions != [] {
            solutionId := MaxIdPlusOne(SolutionIds(goal.solutions));
          }
          var solution := Solution(solutionId, name, description, effectiveness);
          var updated := goal.(solutions := goal.solutions + [solution]);
          if Valid() {
            NextIdIsFresh(SolutionIds(goal.solutions), solutionId);
            assert SolutionIds(updated.solutions) == SolutionIds(goal.solutions) + [solutionId];
            ReplaceGoalKeepsValid(goals, currentGoalId, i, updated);
          }
          goals := goals[i := updated];
          return Some(solution);
        }
        i := i + 1;
      }
      return None;
    }

    /** `get_solutions_for_current_goal`. */
    method SolutionsForCurrentGoal() returns (ss: seq<Solution>)
      ensures CurrentIndex().None? ==> ss == []
      ensures CurrentIndex().Some? ==> ss == goals[CurrentIndex().value].solutions
    {
      var g := GetCurrentGoal();
      if g.None? {
        return [];
      }
      return g.value.solutions;
    }

    /** `get_active_plans_for_current_goal`. */
    method ActivePlansForCurrentGoal() returns (ps: seq<Plan>)
      ensures CurrentIndex().None? ==> ps == []
      ensures CurrentIndex().Some? ==> ps == ActivePlans(goals[CurrentIndex().value].plans)
    {
      var g := GetCurrentGoal();
      if g.None? {
        return [];
      }
      return ActivePlans(g.value.plans);
    }

    /** `get_motivations_for_current_goal(limit)`: the last `limit` when
        `limit > 0`, otherwise all of them. */
    method MotivationsForCurrentGoal(limit: Option<int>) returns (ms: seq<Motivation>)
      ensures CurrentIndex().None? ==> ms == []
      ensures CurrentIndex().Some? ==>
                var all := goals[CurrentIndex().value].motivations;
                && (limit.Some? && limit.value > 0 ==>
                      |ms| == (if limit.value < |all| then limit.value else |all|)
                      && ms == all[|all| - |ms|..])
                && (limit.None? || limit.value <= 0 ==> ms == all)
    {
      var g := GetCurrentGoal();
      if g.None? {
        return [];
      }
      ms := g.value.motivations;
      if limit.Some? && limit.value > 0 {
        ms := LastN(ms, limit.value);
      }
    }

    /** `get_all_goals`. */
    method AllGoals() returns (gs: seq<Goal>)
      ensures gs == goals
    {
      return goals;
    }
  }
}
