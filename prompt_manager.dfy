/** Assembly of the system prompt for one turn (utils/prompt_manager.py):
    the choice between the five stage templates and the regression template,
    and the context blocks built from the current goal's motivations, active
    plans and solutions. The source reads the current goal from storage; here
    the goal, as `get_current_goal` returns it, is a parameter. */
module PromptManager {
  import opened Wrappers
  import opened Text
  import opened DataStorage
  import opened StagePrompts
  import opened StageClassifier

  /** The concatenation of a list of strings, front to back. */
  function Concat(ss: seq<string>): string {
    if ss == [] then "" else ss[0] + Concat(ss[1..])
  }

  lemma {:induction false} ConcatAppend(a: seq<string>, b: seq<string>)
    ensures Concat(a + b) == Concat(a) + Concat(b)
  {
    if a == [] {
      assert a + b == b;
    } else {
      assert (a + b)[0] == a[0];
      assert (a + b)[1..] == a[1..] + b;
      ConcatAppend(a[1..], b);
    }
  }

  /** The text a `for x in xs: text += line(x)` loop adds, accumulated one
      element at a time. */
  function Lines<T>(xs: seq<T>, line: T -> string): string {
    if xs == [] then "" else Lines(xs[..|xs| - 1], line) + line(xs[|xs| - 1])
  }

  /** The lines of two lists in turn are the lines of the joined list. */
  lemma {:induction false} LinesAppend<T>(xs: seq<T>, ys: seq<T>, line: T -> string)
    ensures Lines(xs + ys, line) == Lines(xs, line) + Lines(ys, line)
  {
    if ys == [] {
      assert xs + ys == xs;
    } else {
      var init := ys[..|ys| - 1];
      assert (xs + ys)[..|xs + ys| - 1] == xs + init;
      assert (xs + ys)[|xs + ys| - 1] == ys[|ys| - 1];
      LinesAppend(xs, init, line);
    }
  }

  /** The lines, one per element and in the elements' order. */
  function LineList<T>(xs: seq<T>, line: T -> string): (r: seq<string>)
    ensures |r| == |xs| && forall i | 0 <= i < |xs| :: r[i] == line(xs[i])
  {
    seq(|xs|, i requires 0 <= i < |xs| => line(xs[i]))
  }

  /** The accumulated text is the lines concatenated in order. */
  lemma {:induction false} LinesIsConcat<T>(xs: seq<T>, line: T -> string)
    ensures Lines(xs, line) == Concat(LineList(xs, line))
  {
    if xs != [] {
      var init := xs[..|xs| - 1];
      LinesIsConcat(init, line);
      assert LineList(xs, line) == LineList(init, line) + [line(xs[|xs| - 1])];
      ConcatAppend(LineList(init, line), [line(xs[|xs| - 1])]);
      assert Concat([line(xs[|xs| - 1])]) == line(xs[|xs| - 1]) + Concat([]);
    }
  }

  /** How many of `n` entries `xs[-limit:] if len(xs) > limit else xs` keeps.
      For `limit == 0` Python's `xs[-0:]` is the whole list. */
  function Kept(n: nat, limit: nat): (k: nat)
    ensures k <= n
    ensures 0 < limit ==> k == (if limit < n then limit else n)
    ensures limit == 0 ==> k == n
  {
    if n > limit then (if limit == 0 then n else limit) else n
  }

  /** `xs[-limit:] if len(xs) > limit else xs`. */
  function Window<T>(xs: seq<T>, limit: nat): (r: seq<T>)
    ensures r == xs[|xs| - Kept(|xs|, limit)..]
  {
    if |xs| > limit then (if limit == 0 then xs[0..] else xs[|xs| - limit..]) else xs
  }

  /** The lines a block shows: those of the last `Kept(|xs|, limit)` entries,
      oldest first. */
  function ShownLines<T>(xs: seq<T>, limit: nat, line: T -> string): (r: seq<string>)
    ensures |r| == Kept(|xs|, limit)
    ensures forall i | 0 <= i < |r| :: r[i] == line(xs[|xs| - Kept(|xs|, limit) + i])
  {
    var k := Kept(|xs|, limit);
    seq(k, i requires 0 <= i < k => line(xs[|xs| - k + i]))
  }

  /** The shape shared by the three formatters: nothing for an empty list,
      otherwise a header, the windowed lines, and a footer. */
  function Block<T>(header: string, xs: seq<T>, limit: nat, line: T -> string, footer: string): (r: string)
    ensures xs == [] ==> r == ""
    ensures xs != [] ==> r == header + Concat(ShownLines(xs, limit, line)) + footer
  {
    if xs == [] then ""
    else
      var w := Window(xs, limit);
      LinesIsConcat(w, line);
      assert LineList(w, line) == ShownLines(xs, limit, line);
      header + Lines(w, line) + footer
  }

  const MotivationsHeader: string := "\n\nRecent motivations expressed by the user:\n"
  const PlansHeader: string := "\n\nCurrent plans the user is working on:\n"
  const SolutionsHeader: string :=
    "\n\nPast successful solutions that worked when the user was in a higher stage:\n"
  const SolutionsFooter: string :=
    "\nThese solutions can be gently reintroduced to help rebuild momentum.\n"

  function MotivationLine(m: Motivation): string {
    "- \"" + m.content + "\" (when in " + m.stage + " stage)\n"
  }

  function PlanLine(p: Plan): string {
    "- " + p.action + " (" + p.timeline + ")\n"
  }

  function SolutionLine(s: Solution): string {
    "- " + s.description + " (Effectiveness: " + s.effectiveness + ")\n"
  }

  /** `format_motivations_for_prompt`: empty for no motivations, otherwise the
      header and one line for each of the last `limit` motivations, oldest
      first. */
  function FormatMotivations(ms: seq<Motivation>, limit: nat): (r: string)
    ensures r == "" <==> ms == []
    ensures ms != [] ==> r == MotivationsHeader + Concat(ShownLines(ms, limit, MotivationLine))
  {
    Block(MotivationsHeader, ms, limit, MotivationLine, "")
  }

  /** `format_plans_for_prompt`: only plans whose status is "active" are
      shown, the last `limit` of them; empty when there is none. */
  function FormatPlans(ps: seq<Plan>, limit: nat): (r: string)
    ensures r == "" <==> ActivePlans(ps) == []
    ensures ActivePlans(ps) != [] ==>
              r == PlansHeader + Concat(ShownLines(ActivePlans(ps), limit, PlanLine))
  {
    Block(PlansHeader, ActivePlans(ps), limit, PlanLine, "")
  }

  /** `format_solutions_for_prompt`. */
  function FormatSolutionsForPrompt(ss: seq<Solution>, limit: nat): (r: string)
    ensures r == "" <==> ss == []
    ensures ss != [] ==>
              r == SolutionsHeader + Concat(ShownLines(ss, limit, SolutionLine)) + SolutionsFooter
  {
    Block(SolutionsHeader, ss, limit, SolutionLine, SolutionsFooter)
  }

  /** `format_solutions_for_regression`, a second copy of the same code. */
  function FormatSolutionsForRegression(ss: seq<Solution>, limit: nat): (r: string)
    ensures r == "" <==> ss == []
    ensures ss != [] ==>
              r == SolutionsHeader + Concat(ShownLines(ss, limit, SolutionLine)) + SolutionsFooter
  {
    var text := if ss == [] then "" else SolutionsHeader + Lines(Window(ss, limit), SolutionLine);
    if ss == [] then text
    else
      LinesIsConcat(Window(ss, limit), SolutionLine);
      assert LineList(Window(ss, limit), SolutionLine) == ShownLines(ss, limit, SolutionLine);
      text + SolutionsFooter
  }

  /** The two solution formatters give the same text. */
  lemma SolutionFormattersAgree(ss: seq<Solution>, limit: nat)
    ensures FormatSolutionsForPrompt(ss, limit) == FormatSolutionsForRegression(ss, limit)
  {
  }

  /** Windows of windows: keeping the last `a` and then the last `b <= a`
      is keeping the last `b`. */
  lemma {:induction false} WindowOfWindow<T>(xs: seq<T>, a: nat, b: nat, line: T -> string)
    requires 0 < b <= a
    ensures ShownLines(LastN(xs, a), b, line) == ShownLines(xs, b, line)
  {
    var ys := LastN(xs, a);
    var k := Kept(|xs|, b);
    assert Kept(|ys|, b) == k;
    forall i | 0 <= i < k
      ensures ShownLines(ys, b, line)[i] == ShownLines(xs, b, line)[i]
    {
      assert ys[|ys| - k + i] == xs[|xs| - k + i];
    }
  }

  /** The prompt fetches the last 5 motivations and formats them with the
      default limit 3: it shows the last 3. */
  lemma MotivationWindowIsThree(ms: seq<Motivation>)
    ensures FormatMotivations(LastN(ms, 5), 3) == FormatMotivations(ms, 3)
  {
    WindowOfWindow(ms, 5, 3, MotivationLine);
  }

  /** Filtering the already active plans again changes nothing. */
  lemma {:induction false} ActivePlansIdempotent(ps: seq<Plan>)
    ensures ActivePlans(ActivePlans(ps)) == ActivePlans(ps)
  {
    if ps != [] {
      var h := if ps[0].status == ActiveStatus then [ps[0]] else [];
      var rs := ActivePlans(ps[1..]);
      assert ActivePlans(ps) == h + rs;
      ActivePlansAppend(h, rs);
      if h != [] {
        assert h[1..] == [];
        assert ActivePlans(h) == h + ActivePlans([]);
      }
      ActivePlansIdempotent(ps[1..]);
    }
  }

  const NotYetSpecified: string := "not yet specified"

  /** The keyword arguments of a stage template. */
  function StageArgs(goalName: string): map<string, string> {
    map[UserGoal := goalName, UserMessage := UserMessagePlaceholder]
  }

  /** The five stage templates, aligned with `Order`. */
  const StageTemplates: seq<Template> :=
    [PrecontemplationPrompt, ContemplationPrompt, PreparationPrompt, ActionPrompt, MaintenancePrompt]

  /** The if/elif chain of lines 111-142: the template of the stage, and the
      contemplation template for a label outside the order. */
  function TemplateFor(stage: string): (t: Template)
    ensures stage in Order ==> t == StageTemplates[IndexOf(stage).value]
    ensures stage !in Order ==> t == ContemplationPrompt
  {
    if stage == Precontemplation then PrecontemplationPrompt
    else if stage == Contemplation then ContemplationPrompt
    else if stage == Preparation then PreparationPrompt
    else if stage == Action then ActionPrompt
    else if stage == Maintenance then MaintenancePrompt
    else ContemplationPrompt
  }

  /** The regression test of lines 74-84: `None` is the `ValueError` of
      `stages_order.index` on a label outside the order; `Some(true)` means the
      regression template is used. */
  function RegressionCheck(stage: string, previous: Option<string>): (r: Option<bool>)
    ensures r.None? <==>
              previous.Some? && previous.value != "" && previous.value != stage
              && (stage !in Order || previous.value !in Order)
    ensures r == Some(true) <==>
              previous.Some? && previous.value != "" && previous.value != stage
              && stage in Order && previous.value in Order
              && IndexOf(stage).value < IndexOf(previous.value).value
  {
    if previous.Some? && previous.value != "" && previous.value != stage then
      var i := IndexOf(stage);
      var j := IndexOf(previous.value);
      if i.None? || j.None? then None else Some(i.value < j.value)
    else Some(false)
  }

  const SolutionGuidance: string :=
    "\nStrategic guidance for reintroducing solutions:\n"
    + "- Gently remind the user of these past successes without pushing\n"
    + "- Frame solutions as 'what worked before' rather than 'what you should do'\n"
    + "- Ask if any elements of these past strategies still feel appealing\n"
    + "- Suggest starting with a significantly smaller version of a past solution\n"

  /** The keyword arguments of the regression template. */
  function RegressionArgs(g: Goal, stage: string, previous: string): map<string, string> {
    map[UserGoal := g.name, UserMessage := UserMessagePlaceholder,
        PreviousStage := previous, CurrentStage := stage,
        PastSolutionsContext := if g.solutions != [] then FormatSolutionsForRegression(g.solutions, 3) else ""]
  }

  /** The base prompt of a regression (lines 86-108): the filled regression
      template, then, when the goal has solutions, the solutions block and the
      guidance for reintroducing them. */
  function RegressionBase(g: Goal, stage: string, previous: string): (r: string)
    ensures Contains(r, UserMessagePlaceholder)
    ensures Fill(RegressionPrompt, RegressionArgs(g, stage, previous)).Some?
    ensures r == Fill(RegressionPrompt, RegressionArgs(g, stage, previous)).value
                 + (if g.solutions != [] then FormatSolutionsForPrompt(g.solutions, 3) + SolutionGuidance else "")
    ensures r != ""
  {
    var filled := RegressionFilled(g, stage, previous);
    var solutionText := if g.solutions != [] then FormatSolutionsForPrompt(g.solutions, 3) else "";
    var extra := if solutionText != "" then solutionText + SolutionGuidance else "";
    ContainsAppend(filled, UserMessagePlaceholder, extra);
    filled + extra
  }

  /** `REGRESSION_PROMPT.format(...)` (lines 89-95): every placeholder has a
      value, the text is not empty and it keeps the message placeholder. */
  function RegressionFilled(g: Goal, stage: string, previous: string): (r: string)
    ensures Fill(RegressionPrompt, RegressionArgs(g, stage, previous)) == Some(r)
    ensures r != "" && Contains(r, UserMessagePlaceholder)
  {
    var args := RegressionArgs(g, stage, previous);
    RegressionTemplateHoles(RegressionIntro, RegressionApproach);
    FillKeepsPlaceholder(RegressionPrompt, args);
    var filled := Fill(RegressionPrompt, args).value;
    assert RegressionPrompt[0].text <= filled;
    assert |RegressionPrompt[0].text| > 0;
    filled
  }

  /** The filled regression template shows the goal's solutions block. */
  lemma RegressionTemplateShowsSolutions(g: Goal, stage: string, previous: string)
    requires g.solutions != []
    ensures var filled := Fill(RegressionPrompt, RegressionArgs(g, stage, previous));
            filled.Some? && Contains(filled.value, FormatSolutionsForPrompt(g.solutions, 3))
  {
    RegressionTemplateHoles(RegressionIntro, RegressionApproach);
    FillContainsArgument(RegressionPrompt, RegressionArgs(g, stage, previous), PastSolutionsContext);
    SolutionFormattersAgree(g.solutions, 3);
  }

  /** The context blocks end with the goal's solutions block. */
  lemma ContextShowsSolutions(g: Goal)
    ensures Contains(ContextAdditions(g), FormatSolutionsForPrompt(g.solutions, 3))
  {
    var front := FormatMotivations(LastN(g.motivations, 5), 3) + FormatPlans(ActivePlans(g.plans), 2);
    var block := FormatSolutionsForPrompt(g.solutions, 3);
    ContainsMiddle(front, block, "");
    assert front + block + "" == ContextAdditions(g);
  }

  /** After a regression, a goal with solutions has its solutions block three
      times in the prompt: inside the filled regression template, appended
      right after it with the reintroduction guidance, and again among the
      context blocks. */
  lemma RegressionRepeatsSolutions(stage: string, g: Goal)
    requires RegressionCheck(stage, g.previousStage) == Some(true)
    requires g.solutions != []
    ensures var base := RegressionBase(g, stage, g.previousStage.value);
            var block := FormatSolutionsForPrompt(g.solutions, 3);
            var filled := Fill(RegressionPrompt, RegressionArgs(g, stage, g.previousStage.value)).value;
            && base == filled + (block + SolutionGuidance)
            && Contains(filled, block)
            && Contains(ContextAdditions(g), block)
            && GetStagePrompt(stage, Some(g))
               == Some(base + (ContextAdditions(g) + GuidanceHeader + StageGuidance(stage)))
  {
    RegressionTemplateShowsSolutions(g, stage, g.previousStage.value);
    ContextShowsSolutions(g);
  }

  /** A stage template filled with the goal name and the placeholder. */
  function StageBase(stage: string, goalName: string): (r: string)
    ensures Fill(TemplateFor(stage), StageArgs(goalName)) == Some(r)
    ensures Contains(r, UserMessagePlaceholder)
  {
    var t := TemplateFor(stage);
    StageTemplatesHoles();
    FillKeepsPlaceholder(t, StageArgs(goalName));
    Fill(t, StageArgs(goalName)).value
  }

  /** Every stage template takes exactly the goal and the message. */
  lemma StageTemplatesHoles()
    ensures forall k | 0 <= k < |StageTemplates| ::
              HoleNames(StageTemplates[k]) == {UserGoal, UserMessage}
    ensures HoleNames(ContemplationPrompt) == {UserGoal, UserMessage}
  {
    StageTemplateHoles(PrecontemplationIntro, PrecontemplationApproach, PrecontemplationAim);
    StageTemplateHoles(ContemplationIntro, ContemplationApproach, ContemplationAim);
    StageTemplateHoles(PreparationIntro, PreparationApproach, PreparationAim);
    StageTemplateHoles(ActionIntro, ActionApproach, ActionAim);
    StageTemplateHoles(MaintenanceIntro, MaintenanceApproach, MaintenanceAim);
  }

  /** The three context blocks in their order: recent motivations (the store
      is asked for the last 5, formatted with the default limit 3), active
      plans, solutions. */
  function ContextAdditions(g: Goal): (r: string)
    ensures r == "" <==> g.motivations == [] && ActivePlans(g.plans) == [] && g.solutions == []
  {
    FormatMotivations(LastN(g.motivations, 5), 3)
    + FormatPlans(ActivePlans(g.plans), 2)
    + FormatSolutionsForPrompt(g.solutions, 3)
  }

  const GuidanceHeader: string := "\n\nStrategic guidance:"

  /** The stage-specific guidance of lines 172-201, aligned with `Order`. */
  const Guidances: seq<string> := [
    "\n- If appropriate, gently reference past motivations to explore values without pushing\n"
    + "- Don't directly suggest implementing plans yet, but you can ask about what might make change feel more appealing\n"
    + "- Reference past successful solutions very carefully - \"I notice in the past you found X helpful when you were ready\"\n",
    "\n- Reference past motivations to strengthen change talk\n"
    + "- Explore what made past solutions effective without pushing to immediately implement them\n"
    + "- If the user seems ready, you can gently inquire if any of their past plans still feel relevant\n",
    "\n- Use past motivations to reinforce commitment\n"
    + "- Suggest building on past successful solutions\n"
    + "- Help refine existing plans or create new ones based on what's worked before\n",
    "\n- Affirm consistency with past motivations and values\n"
    + "- Suggest adaptations to current plans based on past successful solutions\n"
    + "- Focus on problem-solving around current plans\n",
    "\n- Connect current success to deeply-held motivations\n"
    + "- Reference past solutions as evidence of capability and growth\n"
    + "- Help evolve plans to maintain engagement and prevent boredom\n"
  ]

  /** The guidance for a stage; nothing is added for a label outside the order. */
  function StageGuidance(stage: string): (r: string)
    ensures stage in Order ==> r == Guidances[IndexOf(stage).value]
    ensures stage !in Order ==> r == ""
  {
    if stage == Precontemplation then Guidances[0]
    else if stage == Contemplation then Guidances[1]
    else if stage == Preparation then Guidances[2]
    else if stage == Action then Guidances[3]
    else if stage == Maintenance then Guidances[4]
    else ""
  }

  /** The base prompt of lines 70-142, before the context blocks. */
  function BasePrompt(stage: string, g: Goal): (r: Option<string>)
    ensures r.None? <==> RegressionCheck(stage, g.previousStage).None?
    ensures RegressionCheck(stage, g.previousStage) == Some(true) ==>
              r == Some(RegressionBase(g, stage, g.previousStage.value))
    ensures RegressionCheck(stage, g.previousStage) == Some(false) ==>
              r == Fill(TemplateFor(stage), StageArgs(g.name))
    ensures r.Some? ==> Contains(r.value, UserMessagePlaceholder)
  {
    match RegressionCheck(stage, g.previousStage)
    case None => None
    case Some(regressed) =>
      var base := if regressed then RegressionBase(g, stage, g.previousStage.value) else "";
      if base == "" then Some(StageBase(stage, g.name)) else Some(base)
  }

  /** `get_stage_prompt(stage, ...)` with the current goal given; `None` is the
      `ValueError` raised when a regression test meets a label outside the
      order. The context blocks follow the base prompt, and the guidance
      follows them only when there is context. */
  function GetStagePrompt(stage: string, goal: Option<Goal>): (r: Option<string>)
    ensures goal.None? ==> r == Fill(ContemplationPrompt, StageArgs(NotYetSpecified))
    ensures goal.Some? ==> (r.None? <==> BasePrompt(stage, goal.value).None?)
    ensures goal.Some? && r.Some? ==>
              var context := ContextAdditions(goal.value);
              r.value == BasePrompt(stage, goal.value).value
                         + (if context == "" then "" else context + GuidanceHeader + StageGuidance(stage))
    ensures r.Some? ==> Contains(r.value, UserMessagePlaceholder)
  {
    if goal.None? then Some(StageBase(Contemplation, NotYetSpecified))
    else
      var base := BasePrompt(stage, goal.value);
      if base.None? then None
      else
        var context := ContextAdditions(goal.value);
        if context != "" then
          var tail := context + GuidanceHeader + StageGuidance(stage);
          ContainsAppend(base.value, UserMessagePlaceholder, tail);
          Some(base.value + tail)
        else
          assert base.value + "" == base.value;
          Some(base.value)
  }
}
