/** The six prompt templates of utils/stage_prompts.py, as opaque constants
    with their placeholder sets. A template is a sequence of literal pieces
    and named placeholders; filling it is Python's `str.format` with keyword
    arguments. The literal prose of each template is abridged to its opening
    sentence and its approach and aim lines: no property below depends on it
    beyond being free of braces. */
module StagePrompts {
  import opened Wrappers
  import opened Text

  datatype Piece = Lit(text: string) | Hole(name: string)

  type Template = seq<Piece>

  const UserGoal: string := "user_goal"
  const UserMessage: string := "user_message"
  const PreviousStage: string := "previous_stage"
  const CurrentStage: string := "current_stage"
  const PastSolutionsContext: string := "past_solutions_context"

  /** The literal text `{user_message}`: what the stage prompt keeps in place
      of the user's message until the controller substitutes it. */
  const UserMessagePlaceholder: string := "{user_message}"

  /** The placeholder names a template uses. */
  function HoleNames(t: Template): set<string> {
    if t == [] then {}
    else (if t[0].Hole? then {t[0].name} else {}) + HoleNames(t[1..])
  }

  /** `t.format(**args)`: `None` is the `KeyError` of a placeholder without a
      value; values are inserted verbatim and extra arguments are ignored. */
  function Fill(t: Template, args: map<string, string>): (r: Option<string>)
    ensures r.Some? <==> HoleNames(t) <= args.Keys
    ensures r.Some? && t != [] && t[0].Lit? ==> t[0].text <= r.value
  {
    if t == [] then Some("")
    else
      var rest := Fill(t[1..], args);
      match t[0]
      case Lit(s) => if rest.Some? then Some(s + rest.value) else None
      case Hole(n) => if n in args && rest.Some? then Some(args[n] + rest.value) else None
  }

  /** The value given for a placeholder the template uses appears in the
      filled text. */
  lemma {:induction false} FillContainsArgument(t: Template, args: map<string, string>, n: string)
    requires n in HoleNames(t) && Fill(t, args).Some?
    ensures n in args && Contains(Fill(t, args).value, args[n])
  {
    var rest := Fill(t[1..], args);
    if t[0] == Hole(n) {
      assert Fill(t, args).value == "" + args[n] + rest.value;
      ContainsMiddle("", args[n], rest.value);
    } else {
      FillContainsArgument(t[1..], args, n);
      var head := if t[0].Lit? then t[0].text else args[t[0].name];
      assert Fill(t, args).value == head + rest.value + "";
      ContainsExtend(rest.value, args[n], head, "");
    }
  }

  /** Filling a template that uses `user_message` with the literal
      placeholder as its value keeps the placeholder in the text. */
  lemma FillKeepsPlaceholder(t: Template, args: map<string, string>)
    requires UserMessage in HoleNames(t) && HoleNames(t) <= args.Keys
    requires args[UserMessage] == UserMessagePlaceholder
    ensures Fill(t, args).Some? && Contains(Fill(t, args).value, UserMessagePlaceholder)
  {
    FillContainsArgument(t, args, UserMessage);
  }

  function StageTemplate(intro: string, approach: string, aim: string): Template {
    [ Lit("\n" + intro + "\n\nUser goal: "), Hole(UserGoal),
      Lit("\n\nUser message: "), Hole(UserMessage),
      Lit("\n\nPrimary approach: " + approach + "\n\nPrimary aim: " + aim + "\n") ]
  }

  const PrecontemplationIntro: string :=
    "You are a skilled Motivational Interviewing (MI) therapist working with someone in the PRECONTEMPLATION stage."
  const PrecontemplationApproach: string :=
    "MOTIVATIONAL INTERVIEWING"
  const PrecontemplationAim: string :=
    "Gently explore ambivalence and build awareness without pushing for change."
  const PrecontemplationPrompt: Template := StageTemplate(PrecontemplationIntro, PrecontemplationApproach, PrecontemplationAim)

  const ContemplationIntro: string :=
    "You are an expert Solution-Focused therapist with MI training, working with someone in the CONTEMPLATION stage."
  const ContemplationApproach: string :=
    "SOLUTION-FOCUSED THERAPY with MI elements"
  const ContemplationAim: string :=
    "Help resolve ambivalence and build a vision of success without rushing to action."
  const ContemplationPrompt: Template := StageTemplate(ContemplationIntro, ContemplationApproach, ContemplationAim)

  const PreparationIntro: string :=
    "You are an experienced Cognitive-Behavioral therapist working with someone in the PREPARATION stage."
  const PreparationApproach: string :=
    "COGNITIVE BEHAVIORAL THERAPY (CBT)"
  const PreparationAim: string :=
    "Develop specific, achievable action plans and prepare for obstacles."
  const PreparationPrompt: Template := StageTemplate(PreparationIntro, PreparationApproach, PreparationAim)

  const ActionIntro: string :=
    "You are a skilled therapist trained in both CBT and ACT, working with someone in the ACTION stage."
  const ActionApproach: string :=
    "COMBINED CBT AND ACT (Acceptance and Commitment Therapy)"
  const ActionAim: string :=
    "Support ongoing change efforts, solve problems, and build consistency."
  const ActionPrompt: Template := StageTemplate(ActionIntro, ActionApproach, ActionAim)

  const MaintenanceIntro: string :=
    "You are an insightful Acceptance and Commitment Therapy (ACT) therapist working with someone in the MAINTENANCE stage."
  const MaintenanceApproach: string :=
    "ACCEPTANCE AND COMMITMENT THERAPY (ACT)"
  const MaintenanceAim: string :=
    "Support habit refinement, prevent relapse, and deepen habit integration."
  const MaintenancePrompt: Template := StageTemplate(MaintenanceIntro, MaintenanceApproach, MaintenanceAim)

  function RegressionTemplate(intro: string, approach: string): Template {
    [ Lit("\n" + intro + "\n\nUser goal: "), Hole(UserGoal),
      Lit("\n\nUser message: "), Hole(UserMessage) ]
    + [ Lit("\n\nPrevious stage: "), Hole(PreviousStage),
        Lit("\n\nCurrent stage: "), Hole(CurrentStage) ]
    + [ Lit("\n\nPrimary approach: " + approach + "\n\n"), Hole(PastSolutionsContext),
        Lit("\n") ]
  }

  const RegressionIntro: string :=
    "You are a compassionate therapist working with someone who has REGRESSED in their change journey."
  const RegressionApproach: string :=
    "MOTIVATIONAL INTERVIEWING (MI) WITH ACT ELEMENTS for emotional regulation"
  const RegressionPrompt: Template := RegressionTemplate(RegressionIntro, RegressionApproach)

  lemma HoleNamesCons(p: Piece, t: Template)
    ensures HoleNames([p] + t) == (if p.Hole? then {p.name} else {}) + HoleNames(t)
  {
    assert ([p] + t)[1..] == t;
  }

  /** Every stage template takes the goal and the message, and nothing else. */
  lemma StageTemplateHoles(intro: string, approach: string, aim: string)
    ensures HoleNames(StageTemplate(intro, approach, aim)) == {UserGoal, UserMessage}
  {
    var t := StageTemplate(intro, approach, aim);
    HoleNamesCons(t[4], []);
    assert t[4..] == [t[4]] + [];
    HoleNamesCons(t[3], t[4..]);
    assert t[3..] == [t[3]] + t[4..];
    HoleNamesCons(t[2], t[3..]);
    assert t[2..] == [t[2]] + t[3..];
    HoleNamesCons(t[1], t[2..]);
    assert t[1..] == [t[1]] + t[2..];
    HoleNamesCons(t[0], t[1..]);
    assert t == [t[0]] + t[1..];
  }

  lemma {:induction false} HoleNamesAppend(a: Template, b: Template)
    ensures HoleNames(a + b) == HoleNames(a) + HoleNames(b)
  {
    if a == [] {
      assert a + b == b;
    } else {
      HoleNamesAppend(a[1..], b);
      assert (a + b)[1..] == a[1..] + b;
    }
  }

  /** Two literals around one placeholder use that placeholder only. */
  lemma HoleNamesPair(s: string, n: string, u: string, m: string)
    ensures HoleNames([Lit(s), Hole(n), Lit(u), Hole(m)]) == {n, m}
  {
    var t := [Lit(s), Hole(n), Lit(u), Hole(m)];
    HoleNamesCons(t[3], []);
    assert t[3..] == [t[3]] + [];
    HoleNamesCons(t[2], t[3..]);
    assert t[2..] == [t[2]] + t[3..];
    HoleNamesCons(t[1], t[2..]);
    assert t[1..] == [t[1]] + t[2..];
    HoleNamesCons(t[0], t[1..]);
    assert t == [t[0]] + t[1..];
  }

  /** The regression template takes the two stages and the past-solutions
      text besides the goal and the message. */
  lemma RegressionTemplateHoles(intro: string, approach: string)
    ensures HoleNames(RegressionTemplate(intro, approach))
            == {UserGoal, UserMessage, PreviousStage, CurrentStage, PastSolutionsContext}
  {
    var a := [Lit("\n" + intro + "\n\nUser goal: "), Hole(UserGoal),
              Lit("\n\nUser message: "), Hole(UserMessage)];
    var b := [Lit("\n\nPrevious stage: "), Hole(PreviousStage),
              Lit("\n\nCurrent stage: "), Hole(CurrentStage)];
    var c := [Lit("\n\nPrimary approach: " + approach + "\n\n"), Hole(PastSolutionsContext),
              Lit("\n")];
    HoleNamesPair(a[0].text, UserGoal, a[2].text, UserMessage);
    HoleNamesPair(b[0].text, PreviousStage, b[2].text, CurrentStage);
    HoleNamesCons(c[2], []);
    assert c[2..] == [c[2]] + [];
    HoleNamesCons(c[1], c[2..]);
    assert c[1..] == [c[1]] + c[2..];
    HoleNamesCons(c[0], c[1..]);
    assert c == [c[0]] + c[1..];
    HoleNamesAppend(a, b);
    HoleNamesAppend(a + b, c);
  }
}
