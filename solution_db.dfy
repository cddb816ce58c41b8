/** The legacy solution database of solution_db_utils.py: an append-only list
    of solutions, numbered from 1, with a case-insensitive habit filter, and
    the post-processing of its own solution extractor. The database file is
    not modelled; the list starts as the empty structure the loader creates. */
module SolutionDb {
  import opened Wrappers
  import opened Text
  import opened JsonValues

  datatype StoredSolution = StoredSolution(
    id: int, name: string, habit: string, description: string, effectiveness: string)

  /** `s["habit"].lower() == habit.lower()`. */
  predicate SameHabit(s: StoredSolution, habit: string) {
    Lower(s.habit) == Lower(habit)
  }

  /** The entries of `ss` for `habit`, in stored order. */
  function Matching(ss: seq<StoredSolution>, habit: string): (r: seq<StoredSolution>)
    ensures |r| <= |ss|
    ensures forall s | s in r :: s in ss && SameHabit(s, habit)
    ensures forall s | s in ss && SameHabit(s, habit) :: s in r
  {
    if ss == [] then []
    else (if SameHabit(ss[0], habit) then [ss[0]] else []) + Matching(ss[1..], habit)
  }

  /** Filtering commutes with appending: the filter keeps the stored order. */
  lemma {:induction false} MatchingAppend(ss: seq<StoredSolution>, ts: seq<StoredSolution>, habit: string)
    ensures Matching(ss + ts, habit) == Matching(ss, habit) + Matching(ts, habit)
  {
    if ss == [] {
      assert ss + ts == ts;
    } else {
      assert (ss + ts)[0] == ss[0];
      assert (ss + ts)[1..] == ss[1..] + ts;
      MatchingAppend(ss[1..], ts, habit);
    }
  }

  /** The filter ignores the case of the habit asked for. */
  lemma MatchingIgnoresCase(ss: seq<StoredSolution>, habit: string)
    ensures Matching(ss, Lower(habit)) == Matching(ss, habit)
  {
    LowerIdempotent(habit);
    assert forall s :: SameHabit(s, Lower(habit)) == SameHabit(s, habit);
  }

  class SolutionStore {
    var solutions: seq<StoredSolution>

    /** Ids are the positions counted from 1. */
    ghost predicate Valid()
      reads this
    {
      forall i | 0 <= i < |solutions| :: solutions[i].id == i + 1
    }

    /** The `{"solutions": []}` structure the loader creates. */
    constructor()
      ensures solutions == []
      ensures Valid()
    {
      solutions := [];
    }

    /** `add_solution`: appends one entry with id `len + 1`. */
    method AddSolution(name: string, habit: string, description: string, effectiveness: string)
      returns (s: StoredSolution)
      modifies this
      ensures s == StoredSolution(|old(solutions)| + 1, name, habit, description, effectiveness)
      ensures solutions == old(solutions) + [s]
      ensures old(Valid()) ==> Valid()
    {
      s := StoredSolution(|solutions| + 1, name, habit, description, effectiveness);
      solutions := solutions + [s];
    }

    /** `get_solutions_by_habit`. */
    function SolutionsByHabit(habit: string): (r: seq<StoredSolution>)
      reads this
      ensures forall s | s in r :: s in solutions && SameHabit(s, habit)
      ensures forall s | s in solutions && SameHabit(s, habit) :: s in r
    {
      Matching(solutions, habit)
    }

    /** `get_all_solutions`. */
    function AllSolutions(): (r: seq<StoredSolution>)
      reads this
      ensures |r| == |solutions|
      ensures Valid() ==> forall i | 0 <= i < |r| :: r[i].id == i + 1
    {
      solutions
    }

    /** `get_solution_by_id`: the first entry with that id, or `None`. */
    method GetSolutionById(solutionId: int) returns (r: Option<StoredSolution>)
      ensures r.None? <==> forall j | 0 <= j < |solutions| :: solutions[j].id != solutionId
      ensures r.Some? ==>
                exists k | 0 <= k < |solutions| ::
                  solutions[k] == r.value && r.value.id == solutionId
                  && forall j | 0 <= j < k :: solutions[j].id != solutionId
    {
      var i := 0;
      while i < |solutions|
        invariant 0 <= i <= |solutions|
        invariant forall j | 0 <= j < i :: solutions[j].id != solutionId
      {
        if solutions[i].id == solutionId {
          return Some(solutions[i]);
        }
        i := i + 1;
      }
      return None;
    }
  }

  /** In a store whose ids are positions, the id `k` names the `k`-th entry. */
  lemma IdIsPosition(ss: seq<StoredSolution>, solutionId: int)
    requires forall i | 0 <= i < |ss| :: ss[i].id == i + 1
    ensures 1 <= solutionId <= |ss| <==> exists j | 0 <= j < |ss| :: ss[j].id == solutionId
    ensures 1 <= solutionId <= |ss| ==> ss[solutionId - 1].id == solutionId
  {
    if 1 <= solutionId <= |ss| {
      assert ss[solutionId - 1].id == solutionId;
    }
  }

  /** What the extractor returns: the fields of the solution dictionary. */
  datatype Extracted = Extracted(habit: string, description: Json, effectiveness: string, name: string)

  const SolutionForPrefix: string := "Solution for "

  /** `extract_solution_from_text` of solution_db_utils.py on the decoded
      reply. Only an object can yield a solution: on any other value the
      membership tests are false or raise. */
  function ExtractLegacySolution(reply: Call<Json>): (r: Option<Extracted>)
    ensures r.Some? <==>
              reply.Answer? && reply.value.Object?
              && var f := reply.value.fields;
              && !("is_solution" in f && f["is_solution"] == Bool(false))
              && (if HasTruthy(f, "habit") then f["habit"].Str?
                  else HasTruthy(f, "problem") && f["problem"].Str?)
              && (HasTruthy(f, "description") || HasTruthy(f, "solution") || HasTruthy(f, "action"))
              && (HasTruthy(f, "effectiveness") ==> f["effectiveness"].Str?)
    ensures r.Some? ==>
              var f := reply.value.fields;
              && r.value.habit == Lower(if HasTruthy(f, "habit") then f["habit"].s else f["problem"].s)
              && r.value.description
                 == (if HasTruthy(f, "description") then f["description"]
                     else if HasTruthy(f, "solution") then f["solution"] else f["action"])
              && r.value.effectiveness
                 == (if HasTruthy(f, "effectiveness") then Lower(f["effectiveness"].s) else "medium")
              && r.value.name == SolutionForPrefix + r.value.habit
  {
    if reply.Failed? || !reply.value.Object? then None
    else
      var f := reply.value.fields;
      if "is_solution" in f && f["is_solution"] == Bool(false) then None
      else
        var habit :=
          if HasTruthy(f, "habit") then LowerField(f, "habit")
          else if HasTruthy(f, "problem") then LowerField(f, "problem")
          else None;
        if habit.None? then None
        else
          var description :=
            if HasTruthy(f, "description") then Some(f["description"])
            else if HasTruthy(f, "solution") then Some(f["solution"])
            else if HasTruthy(f, "action") then Some(f["action"])
            else None;
          if description.None? then None
          else
            var effectiveness :=
              if HasTruthy(f, "effectiveness") then LowerField(f, "effectiveness") else Some("medium");
            if effectiveness.None? then None
            else Some(Extracted(habit.value, description.value, effectiveness.value,
                                SolutionForPrefix + habit.value))
  }

  /** The extracted habit is already lowercase, so the habit filter finds a
      solution stored under it whatever case the caller uses. */
  lemma ExtractedHabitIsLower(reply: Call<Json>)
    requires ExtractLegacySolution(reply).Some?
    ensures var h := ExtractLegacySolution(reply).value.habit;
            Lower(h) == h
  {
    var f := reply.value.fields;
    LowerIdempotent(if HasTruthy(f, "habit") then f["habit"].s else f["problem"].s);
  }
}
