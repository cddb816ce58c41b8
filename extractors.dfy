/** The post-processing of the four extractors of utils/extractors.py. Each
    extractor asks the language model one question; the reply is the input
    here, as text or as the decoded JSON value, and `Failed` stands for a
    call that raised or a reply that did not decode. Every exception inside
    an extractor ends in `None`. */
module Extractors {
  import opened Wrappers
  import opened Text
  import opened JsonValues

  const NoGoal: string := "NO_GOAL"
  const NoMotivation: string := "NO_MOTIVATION"

  /** The stripped reply, unless it is the sentinel. */
  function Sentinel(reply: Call<string>, sentinel: string): (r: Option<string>)
    ensures reply.Failed? ==> r.None?
    ensures reply.Answer? ==> (r.None? <==> Strip(reply.value) == sentinel)
    ensures r.Some? ==> r.value == Strip(reply.value)
  {
    if reply.Failed? then None
    else
      var answer := Strip(reply.value);
      if answer == sentinel then None else Some(answer)
  }

  /** `extract_goal_from_text`: `None` iff the stripped reply is "NO_GOAL"
      (or the call failed); otherwise the stripped reply. */
  function ExtractGoal(reply: Call<string>): (r: Option<string>)
    ensures reply.Failed? ==> r.None?
    ensures reply.Answer? ==> (r.None? <==> Strip(reply.value) == NoGoal)
    ensures r.Some? ==> r.value == Strip(reply.value)
  {
    Sentinel(reply, NoGoal)
  }

  /** `extract_motivation_from_text`: the same with "NO_MOTIVATION". */
  function ExtractMotivation(reply: Call<string>): (r: Option<string>)
    ensures reply.Failed? ==> r.None?
    ensures reply.Answer? ==> (r.None? <==> Strip(reply.value) == NoMotivation)
    ensures r.Some? ==> r.value == Strip(reply.value)
  {
    Sentinel(reply, NoMotivation)
  }

  /** An extracted goal or motivation has no whitespace at either end, and
      extracting it again gives it back. */
  lemma SentinelTrimmed(reply: Call<string>, sentinel: string)
    requires Sentinel(reply, sentinel).Some?
    ensures var s := Sentinel(reply, sentinel).value;
            (s == [] || (!IsSpace(s[0]) && !IsSpace(s[|s| - 1])))
            && Sentinel(Answer(s), sentinel) == Some(s)
  {
    StripKeeps(Sentinel(reply, sentinel).value);
  }

  /** The phrases that, in the lowercased user message, mean the user adopts
      the assistant's previous suggestions. */
  const AdoptionPhrases: seq<string> := [
    "i will adopt", "sounds good", "i'll try", "i'll do that", "i'll implement",
    "i agree", "i'll follow", "i'll use", "will try", "ok", "okay", "yes", "good plan"
  ]

  /** The test of lines 47-50: a non-empty previous assistant message, and one
      of the phrases occurs in the lowercased text. */
  predicate Adopting(text: string, previousAssistantMessage: Option<string>) {
    previousAssistantMessage.Some? && previousAssistantMessage.value != ""
    && exists k | 0 <= k < |AdoptionPhrases| :: Contains(Lower(text), AdoptionPhrases[k])
  }

  /** The phrases are plain substrings: "ok" occurs inside "book", so a
      message about a book counts as adopting a suggestion. */
  lemma AdoptionMatchesInsideWords()
    ensures Adopting("I read a book", Some("Try reading before bed."))
  {
    var lowered := Lower("I read a book");
    assert lowered == "i read a book";
    assert OccursAt(lowered, "ok", 11);
    assert AdoptionPhrases[9] == "ok";
  }

  /** The adoption branch (lines 99-108): the first element of a non-empty
      top-level list, or of a non-empty "plans" list; the element is returned
      as it is. Any other decoded value gives `None` (for a string, a number
      or a list, the membership test or the subscript either is false or
      raises). */
  function AdoptedPlan(result: Json): (r: Option<Json>)
    ensures r.Some? <==>
              (result.List? && result.items != [])
              || (result.Object? && "plans" in result.fields
                  && result.fields["plans"].List? && result.fields["plans"].items != [])
    ensures result.List? && result.items != [] ==> r == Some(result.items[0])
    ensures result.Object? && r.Some? ==> r == Some(result.fields["plans"].items[0])
  {
    if result.List? && |result.items| > 0 then Some(result.items[0])
    else if result.Object? && "plans" in result.fields && result.fields["plans"].List?
            && |result.fields["plans"].items| > 0 then
      Some(result.fields["plans"].items[0])
    else None
  }

  const AsSoonAsPossible: string := "as soon as possible"
  const Medium: string := "medium"

  /** `result.get(key) is False` as the code tests it. */
  predicate IsFalse(d: map<string, Json>, key: string) {
    key in d && d[key] == Bool(false)
  }

  /** The explicit-plan branch (lines 146-168) on the decoded reply. */
  function ExplicitPlan(result: Json): (r: Option<Json>)
    ensures r.Some? <==>
              result.Object? && !IsFalse(result.fields, "is_plan")
              && HasTruthy(result.fields, "action")
              && (HasTruthy(result.fields, "difficulty") ==> result.fields["difficulty"].Str?)
    ensures r.Some? ==>
              var f := result.fields;
              var p := r.value;
              && p.Object? && p.fields.Keys == {"action", "timeline", "difficulty"}
              && p.fields["action"] == f["action"]
              && p.fields["timeline"] == (if HasTruthy(f, "timeline") then f["timeline"] else Str(AsSoonAsPossible))
              && p.fields["difficulty"]
                 == (if HasTruthy(f, "difficulty") then Str(Lower(f["difficulty"].s)) else Str(Medium))
  {
    if !result.Object? then None
    else
      var f := result.fields;
      if IsFalse(f, "is_plan") then None
      else if !HasTruthy(f, "action") then None
      else
        var timeline := if HasTruthy(f, "timeline") then f["timeline"] else Str(AsSoonAsPossible);
        var difficulty := if HasTruthy(f, "difficulty") then LowerField(f, "difficulty") else Some(Medium);
        if difficulty.None? then None
        else Some(Object(map["action" := f["action"], "timeline" := timeline, "difficulty" := Str(difficulty.value)]))
  }

  /** `extract_plan_from_text(text, previous_assistant_message)` once the
      model has answered `reply`. */
  function ExtractPlan(text: string, previousAssistantMessage: Option<string>, reply: Call<Json>): (r: Option<Json>)
    ensures reply.Failed? ==> r.None?
    ensures reply.Answer? && Adopting(text, previousAssistantMessage) ==> r == AdoptedPlan(reply.value)
    ensures reply.Answer? && !Adopting(text, previousAssistantMessage) ==> r == ExplicitPlan(reply.value)
  {
    if reply.Failed? then None
    else if Adopting(text, previousAssistantMessage) then AdoptedPlan(reply.value)
    else ExplicitPlan(reply.value)
  }

  /** An explicit plan has a truthy action, timeline and difficulty, so the
      controller's `plan["action"]` and `.get(...)` find them. */
  lemma ExplicitPlanComplete(result: Json)
    requires ExplicitPlan(result).Some?
    ensures var p := ExplicitPlan(result).value.fields;
            HasTruthy(p, "action") && HasTruthy(p, "timeline") && HasTruthy(p, "difficulty")
  {
    var f := result.fields;
    if HasTruthy(f, "difficulty") {
      assert |Lower(f["difficulty"].s)| == |f["difficulty"].s| > 0;
    }
  }

  /** The adoption branch applies no such check: a list whose first element
      is a bare string is returned as the plan. */
  lemma AdoptedPlanUnchecked()
    ensures AdoptedPlan(List([Str("Set an alarm")])) == Some(Str("Set an alarm"))
    ensures !AdoptedPlan(List([Str("Set an alarm")])).value.Object?
  {
  }

  const DefaultSolutionName: string := "Solution"

  /** `extract_solution_from_text` (lines 257-284) on the decoded reply. */
  function ExplicitSolution(result: Json): (r: Option<Json>)
    ensures r.Some? <==>
              result.Object? && !IsFalse(result.fields, "is_solution")
              && (HasTruthy(result.fields, "description") || HasTruthy(result.fields, "solution"))
              && (HasTruthy(result.fields, "effectiveness") ==> result.fields["effectiveness"].Str?)
    ensures r.Some? ==>
              var f := result.fields;
              var s := r.value;
              && s.Object? && s.fields.Keys == {"name", "description", "effectiveness"}
              && s.fields["name"] == (if HasTruthy(f, "name") then f["name"] else Str(DefaultSolutionName))
              && s.fields["description"]
                 == (if HasTruthy(f, "description") then f["description"] else f["solution"])
              && s.fields["effectiveness"]
                 == (if HasTruthy(f, "effectiveness") then Str(Lower(f["effectiveness"].s)) else Str(Medium))
  {
    if !result.Object? then None
    else
      var f := result.fields;
      if IsFalse(f, "is_solution") then None
      else
        var name := if HasTruthy(f, "name") then f["name"] else Str(DefaultSolutionName);
        var description :=
          if HasTruthy(f, "description") then Some(f["description"])
          else if HasTruthy(f, "solution") then Some(f["solution"])
          else None;
        if description.None? then None
        else
          var effectiveness := if HasTruthy(f, "effectiveness") then LowerField(f, "effectiveness") else Some(Medium);
          if effectiveness.None? then None
          else Some(Object(map["name" := name, "description" := description.value,
                                "effectiveness" := Str(effectiveness.value)]))
  }

  function ExtractSolution(reply: Call<Json>): (r: Option<Json>)
    ensures reply.Failed? ==> r.None?
    ensures reply.Answer? ==> r == ExplicitSolution(reply.value)
  {
    if reply.Failed? then None else ExplicitSolution(reply.value)
  }

  /** A returned solution has a truthy name, description and effectiveness. */
  lemma ExplicitSolutionComplete(result: Json)
    requires ExplicitSolution(result).Some?
    ensures var s := ExplicitSolution(result).value.fields;
            HasTruthy(s, "name") && HasTruthy(s, "description") && HasTruthy(s, "effectiveness")
  {
    var f := result.fields;
    if HasTruthy(f, "effectiveness") {
      assert |Lower(f["effectiveness"].s)| == |f["effectiveness"].s| > 0;
    }
  }
}
