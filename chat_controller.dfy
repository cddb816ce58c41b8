/** The decisions of one chat turn (utils/chat_controller.py): the regression
    test, the motivational context, the goal-switch match, the guard of the
    response simplifier, the second `.format` of the prompt, the message list
    sent to the model and the branches of `process_message`. Every reply of
    the language model is an input. */
module ChatController {
  import opened Wrappers
  import opened Text
  import opened StageClassifier
  import opened DataStorage
  import opened JsonValues
  import PromptManager
  import StagePrompts
  import Extractors

  // ---------------------------------------------------------------------
  // is_regression

  /** `is_regression(current, previous)`: both labels are in the order and
      the current one comes first; a label outside the order gives false. */
  function IsRegression(current: string, previous: string): (r: bool)
    ensures r <==> current in Order && previous in Order
                   && exists i, j | 0 <= i < j < |Order| :: Order[i] == current && Order[j] == previous
  {
    var i := IndexOf(current);
    var j := IndexOf(previous);
    if i.None? || j.None? then false
    else
      assert Order[i.value] == current && Order[j.value] == previous;
      StagesDistinct();
      i.value < j.value
  }

  /** No stage regresses to itself, and regression is transitive. */
  lemma RegressionIsStrictOrder(a: string, b: string, c: string)
    ensures !IsRegression(a, a)
    ensures IsRegression(a, b) && IsRegression(b, c) ==> IsRegression(a, c)
  {
    StagesDistinct();
    if IsRegression(a, b) && IsRegression(b, c) {
      assert IndexOf(a).value < IndexOf(b).value < IndexOf(c).value;
      assert Order[IndexOf(a).value] == a && Order[IndexOf(c).value] == c;
    }
  }

  /** The prompt builder's regression test agrees with `is_regression` on a
      non-empty previous label, and it raises only where `is_regression`
      answers false for a label outside the order. */
  lemma PromptRegressionAgrees(stage: string, previous: string)
    requires previous != ""
    ensures stage in Order && previous in Order ==>
              PromptManager.RegressionCheck(stage, Some(previous)) == Some(IsRegression(stage, previous))
    ensures PromptManager.RegressionCheck(stage, Some(previous)).None? ==> !IsRegression(stage, previous)
  {
    if stage in Order && previous in Order {
      StagesDistinct();
      assert Order[IndexOf(stage).value] == stage && Order[IndexOf(previous).value] == previous;
    }
  }

  // ---------------------------------------------------------------------
  // create_motivational_context

  /** The contents of the motivations recorded in stage `st`, in order: the
      list the code collects under key `st`. */
  function Group(ms: seq<Motivation>, st: string): (r: seq<string>)
    ensures |r| <= |ms|
  {
    if ms == [] then []
    else Group(ms[..|ms| - 1], st) + (if ms[|ms| - 1].stage == st then [ms[|ms| - 1].content] else [])
  }

  /** The keys of the `stage_motivations` dictionary in insertion order: the
      stages in order of first appearance. */
  function StageKeys(ms: seq<Motivation>): (r: seq<string>)
    ensures forall st :: st in r <==> Group(ms, st) != []
    ensures forall i, j | 0 <= i < j < |r| :: r[i] != r[j]
  {
    if ms == [] then []
    else
      var keys := StageKeys(ms[..|ms| - 1]);
      if ms[|ms| - 1].stage in keys then keys else keys + [ms[|ms| - 1].stage]
  }

  /** The groups of `keys` concatenated in order: `all_motivations`. */
  function Flatten(ms: seq<Motivation>, keys: seq<string>): seq<string> {
    if keys == [] then [] else Flatten(ms, keys[..|keys| - 1]) + Group(ms, keys[|keys| - 1])
  }

  /** All motivation contents, grouped by stage in order of first appearance. */
  function Grouped(ms: seq<Motivation>): seq<string> {
    Flatten(ms, StageKeys(ms))
  }

  /** The first motivation's stage is the first key. */
  lemma {:induction false} StageKeysFirst(ms: seq<Motivation>)
    requires ms != []
    ensures StageKeys(ms) != [] && StageKeys(ms)[0] == ms[0].stage
  {
    var init := ms[..|ms| - 1];
    if init != [] {
      StageKeysFirst(init);
      assert init[0] == ms[0];
    }
  }

  /** The first motivation heads its stage's list. */
  lemma {:induction false} GroupFirst(ms: seq<Motivation>)
    requires ms != []
    ensures Group(ms, ms[0].stage) != [] && Group(ms, ms[0].stage)[0] == ms[0].content
  {
    var init := ms[..|ms| - 1];
    if init != [] {
      GroupFirst(init);
      assert init[0] == ms[0];
    }
  }

  /** The first key's list is a prefix of the flattened lists. */
  lemma {:induction false} FlattenStartsWithFirstGroup(ms: seq<Motivation>, keys: seq<string>)
    requires keys != []
    ensures Group(ms, keys[0]) <= Flatten(ms, keys)
  {
    var init := keys[..|keys| - 1];
    if init == [] {
      assert Flatten(ms, keys) == [] + Group(ms, keys[0]);
    } else {
      FlattenStartsWithFirstGroup(ms, init);
      assert init[0] == keys[0];
    }
  }

  /** `all_motivations[0]` is the oldest motivation given: the maintenance
      branch recalls the earliest of them. */
  lemma GroupedStartsWithOldest(ms: seq<Motivation>)
    requires ms != []
    ensures Grouped(ms) != [] && Grouped(ms)[0] == ms[0].content
  {
    StageKeysFirst(ms);
    GroupFirst(ms);
    FlattenStartsWithFirstGroup(ms, StageKeys(ms));
  }

  /** Every content in a stage's list comes from a motivation of that stage. */
  lemma {:induction false} GroupMembers(ms: seq<Motivation>, st: string, x: string)
    requires x in Group(ms, st)
    ensures exists i | 0 <= i < |ms| :: ms[i].stage == st && ms[i].content == x
  {
    var init := ms[..|ms| - 1];
    if x in Group(init, st) {
      GroupMembers(init, st, x);
      var i :| 0 <= i < |init| && init[i].stage == st && init[i].content == x;
      assert ms[i] == init[i];
    } else {
      assert ms[|ms| - 1].stage == st && ms[|ms| - 1].content == x;
    }
  }

  /** At most the first `n` elements: `xs[:n]`. */
  function Take<T>(xs: seq<T>, n: nat): (r: seq<T>)
    ensures |r| == if |xs| <= n then |xs| else n
    ensures r == xs[..|r|]
  {
    if |xs| <= n then xs else xs[..n]
  }

  lemma TakeAppend<T>(a: seq<T>, b: seq<T>, n: nat)
    ensures Take(a + b, n) == Take(a, n) + Take(b, n - |Take(a, n)|)
  {
    if |a| >= n {
      assert (a + b)[..n] == a[..n];
    } else {
      assert (a + b)[..|Take(a + b, n)|] == a + b[..|Take(b, n - |a|)|];
    }
  }

  /** The first stage of `stages` that has a motivation. */
  function FirstWithMotivation(ms: seq<Motivation>, stages: seq<string>): (r: Option<string>)
    ensures r.Some? ==> r.value in stages && Group(ms, r.value) != []
    ensures r.None? ==> forall k | 0 <= k < |stages| :: Group(ms, stages[k]) == []
  {
    if stages == [] then None
    else if Group(ms, stages[0]) != [] then Some(stages[0])
    else FirstWithMotivation(ms, stages[1..])
  }

  /** The groups of the priority stages, concatenated in priority order. */
  function Pool(ms: seq<Motivation>, stages: seq<string>): seq<string> {
    if stages == [] then [] else Pool(ms, stages[..|stages| - 1]) + Group(ms, stages[|stages| - 1])
  }

  const ContextHeader: string := "User's expressed motivations:\n"
  const LaterStages: seq<string> := [Contemplation, Preparation, Action, Maintenance]
  const PriorityStages: seq<string> := [Action, Preparation, Contemplation]
  const PastLine: string := "When the user was more motivated in the past, they mentioned: "
  const ExpressedLine: string := "The user has expressed: "
  const ReasonsLine: string := "The user's reasons for considering change include:\n"
  const StrongestLine: string := "The user's strongest motivations for change include:\n"
  const OriginalLine: string := "To help maintain progress, remember the user's original motivations:\n"

  function Bullet(m: string): string {
    "- " + m + "\n"
  }

  /** What follows the header for each stage (lines 231-276). */
  function StageSection(ms: seq<Motivation>, stage: string): string {
    if stage == Precontemplation then
      match FirstWithMotivation(ms, LaterStages)
      case Some(st) => PastLine + Group(ms, st)[0] + "\n"
      case None =>
        if Group(ms, Precontemplation) != [] then ExpressedLine + Group(ms, Precontemplation)[0] + "\n"
        else ""
    else if stage == Contemplation then
      ReasonsLine + PromptManager.Lines(Take(Grouped(ms), 2), Bullet)
    else if stage == Preparation || stage == Action then
      StrongestLine + PromptManager.Lines(Take(Pool(ms, PriorityStages), 2), Bullet)
    else if stage == Maintenance then
      OriginalLine + (if Grouped(ms) != [] then Bullet(Grouped(ms)[0]) else "")
    else ""
  }

  /** The motivational context as a function of the motivations and the
      stage: `None` for no motivations. */
  function MotivationalContext(ms: seq<Motivation>, stage: string): (r: Option<string>)
    ensures r.None? <==> ms == []
    ensures r.Some? ==> ContextHeader <= r.value && r.value != ""
  {
    if ms == [] then None else Some(ContextHeader + StageSection(ms, stage))
  }

  /** Lines 249-251 and 271-273: the per-stage lists joined in the
      dictionary's key order. */
  method FlattenGroups(ghost ms: seq<Motivation>, keys: seq<string>, groups: map<string, seq<string>>)
    returns (all: seq<string>)
    requires GroupMap(ms, groups) && keys == StageKeys(ms)
    ensures all == Flatten(ms, keys)
  {
    all := [];
    var j := 0;
    while j < |keys|
      invariant 0 <= j <= |keys|
      invariant all == Flatten(ms, keys[..j])
    {
      FlattenStep(ms, keys, j);
      all := all + groups[keys[j]];
      j := j + 1;
    }
    assert keys[..|keys|] == keys;
  }

  /** One more key appends its group. */
  lemma FlattenStep(ms: seq<Motivation>, keys: seq<string>, j: nat)
    requires j < |keys|
    ensures Flatten(ms, keys[..j + 1]) == Flatten(ms, keys[..j]) + Group(ms, keys[j])
  {
    assert keys[..j + 1][..j] == keys[..j];
  }

  /** `groups` maps each stage to its motivations' contents and has no
      other key. */
  ghost predicate GroupMap(ms: seq<Motivation>, groups: map<string, seq<string>>) {
    (forall st | st in groups :: groups[st] == Group(ms, st) && groups[st] != [])
    && (forall st | st !in groups :: Group(ms, st) == [])
  }

  /** One more motivation: its content joins its stage's list, and its
      stage becomes a key if it was not one. */
  lemma GroupMapStep(ms: seq<Motivation>, i: nat, groups: map<string, seq<string>>)
    requires i < |ms| && GroupMap(ms[..i], groups)
    ensures var st := ms[i].stage;
            GroupMap(ms[..i + 1], groups[st := (if st in groups then groups[st] else []) + [ms[i].content]])
    ensures StageKeys(ms[..i + 1])
            == if ms[i].stage in StageKeys(ms[..i]) then StageKeys(ms[..i]) else StageKeys(ms[..i]) + [ms[i].stage]
  {
    var pre := ms[..i + 1];
    assert pre[..|pre| - 1] == ms[..i];
    assert pre[|pre| - 1] == ms[i];
  }

  /** Lines 222-226: the motivations' contents collected by stage; `keys`
      is the dictionary's insertion order. */
  method BuildGroups(ms: seq<Motivation>) returns (keys: seq<string>, groups: map<string, seq<string>>)
    ensures keys == StageKeys(ms) && GroupMap(ms, groups)
  {
    groups := map[];
    keys := [];
    var i := 0;
    assert ms[..0] == [];
    while i < |ms|
      invariant 0 <= i <= |ms|
      invariant keys == StageKeys(ms[..i])
      invariant GroupMap(ms[..i], groups)
    {
      var m := ms[i];
      GroupMapStep(ms, i, groups);
      assert m.stage in groups <==> m.stage in keys;
      if m.stage !in groups {
        keys := keys + [m.stage];
      }
      var sofar := if m.stage in groups then groups[m.stage] else [];
      groups := groups[m.stage := sofar + [m.content]];
      i := i + 1;
    }
    assert ms[..|ms|] == ms;
  }

  /** Lines 232-244: a motivation from the first later stage that has one,
      else the first precontemplation motivation. */
  method PrecontemplationSection(ghost ms: seq<Motivation>, groups: map<string, seq<string>>)
    returns (section: string)
    requires GroupMap(ms, groups)
    ensures section == StageSection(ms, Precontemplation)
  {
    section := "";
    var found := false;
    var j := 0;
    while j < |LaterStages| && !found
      invariant 0 <= j <= |LaterStages|
      invariant !found ==> section == ""
      invariant !found ==> FirstWithMotivation(ms, LaterStages) == FirstWithMotivation(ms, LaterStages[j..])
      invariant found ==> section == StageSection(ms, Precontemplation)
    {
      var st := LaterStages[j];
      if st in groups {
        found := true;
        section := section + PastLine + groups[st][0] + "\n";
      }
      j := j + 1;
    }
    if !found && Precontemplation in groups {
      section := section + ExpressedLine + groups[Precontemplation][0] + "\n";
    }
  }

  /** Appends one line per element, in order: the accumulating loops of
      the controller. */
  method AppendLines<T>(text: string, xs: seq<T>, line: T -> string) returns (r: string)
    ensures r == text + PromptManager.Lines(xs, line)
  {
    r := text;
    var k := 0;
    while k < |xs|
      invariant 0 <= k <= |xs|
      invariant r == text + PromptManager.Lines(xs[..k], line)
    {
      assert xs[..k + 1][..k] == xs[..k];
      r := r + line(xs[k]);
      k := k + 1;
    }
    assert xs[..|xs|] == xs;
  }

  /** One more stage of the priority loop: its motivations fill what is
      left of the two places. */
  lemma PickStep(ms: seq<Motivation>, stages: seq<string>, j: nat)
    requires j < |stages|
    ensures Take(Pool(ms, stages[..j + 1]), 2)
            == Take(Pool(ms, stages[..j]), 2) + Take(Group(ms, stages[j]), 2 - |Take(Pool(ms, stages[..j]), 2)|)
  {
    assert stages[..j + 1][..j] == stages[..j];
    TakeAppend(Pool(ms, stages[..j]), Group(ms, stages[j]), 2);
  }

  /** Lines 261-266 for any list of stages: up to two motivations, taken
      stage by stage in the order of `stages`. */
  method PickInOrder(ghost ms: seq<Motivation>, groups: map<string, seq<string>>, stages: seq<string>,
                     header: string)
    returns (section: string)
    requires GroupMap(ms, groups)
    ensures section == header + PromptManager.Lines(Take(Pool(ms, stages), 2), Bullet)
  {
    section := header;
    var added := 0;
    ghost var picked: seq<string> := [];
    var j := 0;
    while j < |stages|
      invariant 0 <= j <= |stages|
      invariant picked == Take(Pool(ms, stages[..j]), 2)
      invariant added == |picked|
      invariant section == header + PromptManager.Lines(picked, Bullet)
    {
      var st := stages[j];
      PickStep(ms, stages, j);
      if st in groups && added < 2 {
        var slice := Take(groups[st], 2 - added);
        PromptManager.LinesAppend(picked, slice, Bullet);
        section := AppendLines(section, slice, Bullet);
        picked := picked + slice;
        added := added + |slice|;
      }
      j := j + 1;
    }
    assert stages[..|stages|] == stages;
  }

  /** Lines 256-266: up to two motivations taken in the priority order
      action, preparation, contemplation. */
  method PrioritySection(ghost ms: seq<Motivation>, groups: map<string, seq<string>>)
    returns (section: string)
    requires GroupMap(ms, groups)
    ensures section == StrongestLine + PromptManager.Lines(Take(Pool(ms, PriorityStages), 2), Bullet)
  {
    section := PickInOrder(ms, groups, PriorityStages, StrongestLine);
  }

  /** `create_motivational_context(motivations, current_stage)`. The
      header is followed by the text of the stage's branch. */
  method CreateMotivationalContext(ms: seq<Motivation>, stage: string) returns (r: Option<string>)
    ensures r == MotivationalContext(ms, stage)
  {
    if ms == [] {
      return None;
    }
    var keys, groups := BuildGroups(ms);
    var section := "";
    if stage == Precontemplation {
      section := PrecontemplationSection(ms, groups);
    } else if stage == Contemplation {
      var all := FlattenGroups(ms, keys, groups);
      section := AppendLines(ReasonsLine, Take(all, 2), Bullet);
    } else if stage == Preparation || stage == Action {
      section := PrioritySection(ms, groups);
    } else if stage == Maintenance {
      section := OriginalLine;
      var all := FlattenGroups(ms, keys, groups);
      if all != [] {
        section := section + Bullet(all[0]);
      }
    }
    return Some(ContextHeader + section);
  }

  /** The priority pool is the action, preparation and contemplation lists
      in that order. */
  lemma PriorityPool(ms: seq<Motivation>)
    ensures Pool(ms, PriorityStages) == Group(ms, Action) + Group(ms, Preparation) + Group(ms, Contemplation)
  {
    var ps := PriorityStages;
    assert ps[..3] == ps;
    assert ps[..3][..2] == ps[..2];
    assert ps[..2][..1] == ps[..1];
    assert ps[..1][..0] == [];
    assert Pool(ms, ps[..1]) == [] + Group(ms, Action);
  }

  /** In preparation and action the bullets are the first two of the action
      motivations, then the preparation ones, then the contemplation ones;
      each is the content of a motivation recorded in one of those stages. */
  lemma PrioritySectionPicks(ms: seq<Motivation>, stage: string)
    requires stage == Preparation || stage == Action
    ensures var picks := Take(Group(ms, Action) + Group(ms, Preparation) + Group(ms, Contemplation), 2);
            && StageSection(ms, stage) == StrongestLine + PromptManager.Lines(picks, Bullet)
            && |picks| <= 2
            && forall x | x in picks ::
                 exists i | 0 <= i < |ms| :: ms[i].content == x && ms[i].stage in PriorityStages
  {
    PriorityPool(ms);
    var picks := Take(Group(ms, Action) + Group(ms, Preparation) + Group(ms, Contemplation), 2);
    forall x | x in picks
      ensures exists i | 0 <= i < |ms| :: ms[i].content == x && ms[i].stage in PriorityStages
    {
      if x in Group(ms, Action) {
        GroupMembers(ms, Action, x);
      } else if x in Group(ms, Preparation) {
        GroupMembers(ms, Preparation, x);
      } else {
        GroupMembers(ms, Contemplation, x);
      }
    }
  }

  // ---------------------------------------------------------------------
  // check_for_goal_switch

  const NoSwitch: string := "NO_SWITCH"

  /** The goal's name, lowercased, occurs in the lowercased answer. */
  predicate NameMatches(g: Goal, answer: string) {
    Contains(Lower(answer), Lower(g.name))
  }

  /** Position of the first goal whose name the answer mentions. */
  function FirstMatch(goals: seq<Goal>, answer: string): (r: Option<nat>)
    ensures r.Some? ==> r.value < |goals| && NameMatches(goals[r.value], answer)
    ensures r.Some? ==> forall j | 0 <= j < r.value :: !NameMatches(goals[j], answer)
    ensures r.None? ==> forall j | 0 <= j < |goals| :: !NameMatches(goals[j], answer)
  {
    if goals == [] then None
    else if NameMatches(goals[0], answer) then Some(0)
    else
      var rest := FirstMatch(goals[1..], answer);
      if rest.None? then None else Some(rest.value + 1)
  }

  /** `check_for_goal_switch` once the model has answered `reply`: nothing
      with fewer than two goals, a failed call or the answer "NO_SWITCH";
      otherwise the id of the first goal, in store order, whose name occurs
      in the stripped answer, ignoring case. */
  function SwitchTarget(goals: seq<Goal>, reply: Call<string>): (r: Option<int>)
    ensures |goals| <= 1 || reply.Failed? || Strip(reply.value) == NoSwitch ==> r.None?
    ensures r.Some? ==> exists k | 0 <= k < |goals| ::
              goals[k].id == r.value && NameMatches(goals[k], Strip(reply.value))
              && forall j | 0 <= j < k :: !NameMatches(goals[j], Strip(reply.value))
    ensures r.None? && |goals| > 1 && reply.Answer? && Strip(reply.value) != NoSwitch ==>
              forall j | 0 <= j < |goals| :: !NameMatches(goals[j], Strip(reply.value))
  {
    if |goals| <= 1 || reply.Failed? || Strip(reply.value) == NoSwitch then None
    else
      var k := FirstMatch(goals, Strip(reply.value));
      if k.Some? then Some(goals[k.value].id) else None
  }

  /** The loop of lines 206-208 finds the goal `SwitchTarget` names. */
  method CheckForGoalSwitch(goals: seq<Goal>, reply: Call<string>) returns (r: Option<int>)
    ensures r == SwitchTarget(goals, reply)
  {
    if |goals| <= 1 || reply.Failed? {
      return None;
    }
    var answer := Strip(reply.value);
    if answer == NoSwitch {
      return None;
    }
    var i := 0;
    while i < |goals|
      invariant 0 <= i <= |goals|
      invariant forall j | 0 <= j < i :: !NameMatches(goals[j], answer)
    {
      if NameMatches(goals[i], answer) {
        return Some(goals[i].id);
      }
      i := i + 1;
    }
    return None;
  }

  /** A goal whose name is part of a later goal's name wins the match even
      when the answer names the later goal. */
  lemma SwitchPrefersEarlierName()
    ensures var goals := [NewGoal(1, "Run"), NewGoal(2, "run every morning")];
            FirstMatch(goals, "run every morning") == Some(0)
  {
    var answer := "run every morning";
    assert Lower("Run") == "run";
    assert Lower(answer)[0..3] == "run";
    assert OccursAt(Lower(answer), Lower("Run"), 0);
  }

  // ---------------------------------------------------------------------
  // simplify_response

  /** `simplify_response(text)` once the simplifier has answered
      `simplified`: a text with at most one question mark is kept; otherwise
      the simplifier's answer replaces it, and `None` is the exception of a
      failed call. */
  function SimplifyResponse(text: string, simplified: Call<string>): (r: Option<string>)
    ensures CountChar(text, '?') <= 1 ==> r == Some(text)
    ensures CountChar(text, '?') > 1 ==> (r.Some? <==> simplified.Answer?)
    ensures CountChar(text, '?') > 1 && r.Some? ==> r.value == simplified.value
  {
    if CountChar(text, '?') > 1 then
      if simplified.Answer? then Some(simplified.value) else None
    else Some(text)
  }

  // ---------------------------------------------------------------------
  // stage_prompt.format(user_message=...)

  /** What follows the opening brace of the one field the controller
      supplies. */
  const UserMessageField: string := "user_message}"

  predicate NoBraces(s: string) {
    forall i | 0 <= i < |s| :: s[i] != '{' && s[i] != '}'
  }

  function Prepend(s: string, r: Option<string>): Option<string> {
    if r.Some? then Some(s + r.value) else None
  }

  /** `s.format(user_message=msg)`: a doubled brace stands for one brace,
      `{user_message}` for the message; any other field and a lone closing
      brace raise, which is `None`. */
  function FormatUserMessage(s: string, msg: string): (r: Option<string>)
    decreases |s|
  {
    if s == [] then Some([])
    else if s[0] == '{' then
      if |s| >= 2 && s[1] == '{' then Prepend("{", FormatUserMessage(s[2..], msg))
      else if UserMessageField <= s[1..] then
        Prepend(msg, FormatUserMessage(s[1 + |UserMessageField|..], msg))
      else None
    else if s[0] == '}' then
      if |s| >= 2 && s[1] == '}' then Prepend("}", FormatUserMessage(s[2..], msg)) else None
    else Prepend([s[0]], FormatUserMessage(s[1..], msg))
  }

  /** Text without braces comes through unchanged. */
  lemma {:induction false} FormatBraceFree(s: string, msg: string)
    requires NoBraces(s)
    ensures FormatUserMessage(s, msg) == Some(s)
    decreases |s|
  {
    if s != [] {
      FormatBraceFree(s[1..], msg);
      assert [s[0]] + s[1..] == s;
    }
  }

  /** Formatting splits at any point where the first part formats on its
      own. */
  lemma {:induction false} FormatAppend(a: string, b: string, msg: string)
    requires FormatUserMessage(a, msg).Some?
    ensures FormatUserMessage(a + b, msg) == Prepend(FormatUserMessage(a, msg).value, FormatUserMessage(b, msg))
    decreases |a|
  {
    var s := a + b;
    if a == [] {
      assert s == b;
      if FormatUserMessage(b, msg).Some? {
        assert [] + FormatUserMessage(b, msg).value == FormatUserMessage(b, msg).value;
      }
    } else if a[0] == '{' {
      if |a| >= 2 && a[1] == '{' {
        FormatAppend(a[2..], b, msg);
        DropAppend(a, b, 2);
        PrependPrepend("{", FormatUserMessage(a[2..], msg).value, FormatUserMessage(b, msg));
      } else {
        var n := 1 + |UserMessageField|;
        DropAppend(a, b, 1);
        PrefixAppend(UserMessageField, a[1..], b);
        FormatAppend(a[n..], b, msg);
        DropAppend(a, b, n);
        PrependPrepend(msg, FormatUserMessage(a[n..], msg).value, FormatUserMessage(b, msg));
      }
    } else if a[0] == '}' {
      FormatAppend(a[2..], b, msg);
      DropAppend(a, b, 2);
      PrependPrepend("}", FormatUserMessage(a[2..], msg).value, FormatUserMessage(b, msg));
    } else {
      FormatAppend(a[1..], b, msg);
      DropAppend(a, b, 1);
      PrependPrepend([a[0]], FormatUserMessage(a[1..], msg).value, FormatUserMessage(b, msg));
    }
  }

  lemma DropAppend(a: string, b: string, k: nat)
    requires k <= |a|
    ensures (a + b)[k..] == a[k..] + b
  {
  }

  lemma PrefixAppend(p: string, t: string, b: string)
    requires p <= t
    ensures p <= t + b && |p| <= |t|
  {
    assert (t + b)[..|p|] == t[..|p|];
  }

  lemma PrependPrepend(x: string, y: string, r: Option<string>)
    ensures Prepend(x, Prepend(y, r)) == Prepend(x + y, r)
  {
    if r.Some? {
      assert x + (y + r.value) == x + y + r.value;
    }
  }

  /** The placeholder left in the stage prompt becomes the message. */
  lemma FormatPlaceholder(b: string, msg: string)
    ensures FormatUserMessage(StagePrompts.UserMessagePlaceholder + b, msg)
            == Prepend(msg, FormatUserMessage(b, msg))
  {
    var s := StagePrompts.UserMessagePlaceholder + b;
    assert s[1..1 + |UserMessageField|] == UserMessageField;
    assert s[1 + |UserMessageField|..] == b;
  }

  /** A prompt whose only braces are the placeholder gets the message in
      its place. */
  lemma FormatFillsPlaceholder(a: string, b: string, msg: string)
    requires NoBraces(a) && NoBraces(b)
    ensures FormatUserMessage(a + StagePrompts.UserMessagePlaceholder + b, msg) == Some(a + msg + b)
  {
    FormatBraceFree(a, msg);
    FormatBraceFree(b, msg);
    FormatPlaceholder(b, msg);
    FormatAppend(a, StagePrompts.UserMessagePlaceholder + b, msg);
    assert a + StagePrompts.UserMessagePlaceholder + b == a + (StagePrompts.UserMessagePlaceholder + b);
    assert a + (msg + b) == a + msg + b;
  }

  /** Stored text that reads like another field, such as a goal named
      "{plan}", makes the second format raise. */
  lemma FormatRaisesOnOtherField(a: string, b: string, msg: string)
    requires NoBraces(a)
    ensures FormatUserMessage(a + "{plan}" + b, msg).None?
  {
    FormatBraceFree(a, msg);
    FormatAppend(a, "{plan}" + b, msg);
    assert a + "{plan}" + b == a + ("{plan}" + b);
    var s := "{plan}" + b;
    assert s[1] == 'p';
  }

  // ---------------------------------------------------------------------
  // The message list sent to the model (process_message, lines 108-153)

  datatype Message = Message(role: string, content: string)

  const SystemRole: string := "system"
  const UserRole: string := "user"
  const GoalLinePrefix: string := "The user's goal is: "
  const RevisitHeader: string := "Previous solutions that worked when you were making more progress include:\n"
  const RevisitFooter: string := "\nWould you like to revisit any of these approaches, perhaps in a smaller way?"
  const PlansHeader: string := "Current user plans:\n"
  const WorkedHeader: string := "Solutions that have worked for the user in the past:\n"

  function System(content: string): Message {
    Message(SystemRole, content)
  }

  /** The solutions offered again after a regression: the first three. */
  function RevisitText(ss: seq<Solution>): string {
    RevisitHeader + PromptManager.Lines(Take(ss, 3), PromptManager.SolutionLine) + RevisitFooter
  }

  /** The active plans: the first two. */
  function PlansText(ps: seq<Plan>): string {
    PlansHeader + PromptManager.Lines(Take(ps, 2), PromptManager.PlanLine)
  }

  /** The solutions that worked: the first three. */
  function WorkedText(ss: seq<Solution>): string {
    WorkedHeader + PromptManager.Lines(Take(ss, 3), PromptManager.SolutionLine)
  }

  /** Lines 120-130: after a regression, the solutions to revisit. */
  function RevisitPart(g: Goal, stage: string, previous: string): Option<string> {
    if stage != previous && IsRegression(stage, previous) && g.solutions != []
    then Some(RevisitText(g.solutions)) else None
  }

  /** Lines 132-137: the motivational context of the last three motivations. */
  function MotivationPart(g: Goal, stage: string): Option<string> {
    MotivationalContext(LastN(g.motivations, 3), stage)
  }

  /** Lines 139-145: the active plans. */
  function PlansPart(g: Goal): Option<string> {
    var active := ActivePlans(g.plans);
    if active != [] then Some(PlansText(active)) else None
  }

  /** Lines 147-153: the solutions that worked. */
  function WorkedPart(g: Goal): Option<string> {
    if g.solutions != [] then Some(WorkedText(g.solutions)) else None
  }

  function AsSeq(o: Option<string>): seq<string> {
    if o.Some? then [o.value] else []
  }

  /** The texts of the context messages between the stage prompt and the
      goal line, in their final order. Every one is inserted right after the
      stage prompt, so the one inserted last comes first: the solutions, the
      plans, the motivational context and the regression reminder. */
  function ContextTexts(g: Goal, stage: string, previous: string): (r: seq<string>)
    ensures |r| <= 4
  {
    Present(WorkedPart(g), PlansPart(g), MotivationPart(g, stage), RevisitPart(g, stage, previous))
  }

  /** The texts present among four optional ones, in order. */
  function Present(a: Option<string>, b: Option<string>, c: Option<string>, d: Option<string>): (r: seq<string>)
    ensures |r| <= 4
  {
    AsSeq(a) + AsSeq(b) + AsSeq(c) + AsSeq(d)
  }

  function SystemMessages(ts: seq<string>): (r: seq<Message>)
    ensures |r| == |ts| && forall i | 0 <= i < |r| :: r[i].role == SystemRole
  {
    if ts == [] then [] else [System(ts[0])] + SystemMessages(ts[1..])
  }

  /** The whole list: the stage prompt, the context messages, the goal line
      and the user's message; everything but the last is a system message. */
  function RequestMessages(prompt: string, contexts: seq<string>, goalName: string, userMessage: string): (r: seq<Message>)
    ensures |r| == |contexts| + 3
    ensures r[0] == System(prompt)
    ensures r[|r| - 2] == System(GoalLinePrefix + goalName)
    ensures r[|r| - 1] == Message(UserRole, userMessage)
    ensures forall i | 0 <= i < |r| - 1 :: r[i].role == SystemRole
  {
    [System(prompt)] + SystemMessages(contexts)
    + [System(GoalLinePrefix + goalName), Message(UserRole, userMessage)]
  }

  /** `messages.insert(1, m)`. */
  function InsertAfterPrompt(ms: seq<Message>, m: Message): (r: seq<Message>)
    requires |ms| >= 1
    ensures r == [ms[0]] + ([m] + ms[1..])
  {
    ms[..1] + [m] + ms[1..]
  }

  /** The message list takes the oldest entries: of more than `n` distinct
      entries, the newest is never among the first `n`, while the prompt's
      own window of the last `n` always holds it. */
  lemma NewestLeftOut<T>(xs: seq<T>, n: nat)
    requires 0 < n < |xs|
    requires forall i, j | 0 <= i < j < |xs| :: xs[i] != xs[j]
    ensures xs[|xs| - 1] !in Take(xs, n)
    ensures xs[|xs| - 1] in LastN(xs, n)
  {
    assert LastN(xs, n)[n - 1] == xs[|xs| - 1];
  }

  /** Lines 121-127 against the store. */
  method RevisitMessage(store: GoalStore, stage: string, previous: string) returns (text: Option<string>)
    requires store.CurrentIndex().Some?
    ensures text == RevisitPart(store.goals[store.CurrentIndex().value], stage, previous)
  {
    text := None;
    if stage != previous && IsRegression(stage, previous) {
      var solutions := store.SolutionsForCurrentGoal();
      if solutions != [] {
        var t := AppendLines(RevisitHeader, Take(solutions, 3), PromptManager.SolutionLine);
        text := Some(t + RevisitFooter);
      }
    }
  }

  /** Lines 133-136 against the store. */
  method MotivationMessage(store: GoalStore, stage: string) returns (text: Option<string>)
    requires store.CurrentIndex().Some?
    ensures text == MotivationPart(store.goals[store.CurrentIndex().value], stage)
  {
    text := None;
    var past := store.MotivationsForCurrentGoal(Some(3));
    ghost var g := store.goals[store.CurrentIndex().value];
    assert past == LastN(g.motivations, 3);
    if past != [] {
      var context := CreateMotivationalContext(past, stage);
      if context.Some? && context.value != "" {
        text := context;
      }
    }
  }

  /** Lines 140-144 against the store. */
  method PlansMessage(store: GoalStore) returns (text: Option<string>)
    requires store.CurrentIndex().Some?
    ensures text == PlansPart(store.goals[store.CurrentIndex().value])
  {
    text := None;
    var active := store.ActivePlansForCurrentGoal();
    if active != [] {
      var t := AppendLines(PlansHeader, Take(active, 2), PromptManager.PlanLine);
      text := Some(t);
    }
  }

  /** Lines 148-152 against the store. */
  method WorkedMessage(store: GoalStore) returns (text: Option<string>)
    requires store.CurrentIndex().Some?
    ensures text == WorkedPart(store.goals[store.CurrentIndex().value])
  {
    text := None;
    var solutions := store.SolutionsForCurrentGoal();
    if solutions != [] {
      var t := AppendLines(WorkedHeader, Take(solutions, 3), PromptManager.SolutionLine);
      text := Some(t);
    }
  }

  /** One `messages.insert(1, ...)` of an optional context message. */
  lemma InsertStep(messages: seq<Message>, prompt: string, text: Option<string>,
                   contexts: seq<string>, tail: seq<Message>)
    requires messages == [System(prompt)] + (SystemMessages(contexts) + tail)
    ensures (if text.Some? then InsertAfterPrompt(messages, System(text.value)) else messages)
            == [System(prompt)] + (SystemMessages(AsSeq(text) + contexts) + tail)
  {
    if text.Some? {
      var cs := [text.value] + contexts;
      assert AsSeq(text) == [text.value];
      assert cs[1..] == contexts;
      assert SystemMessages(cs) == [System(text.value)] + SystemMessages(contexts);
      assert messages[0] == System(prompt);
      assert messages[1..] == SystemMessages(contexts) + tail;
      var r := InsertAfterPrompt(messages, System(text.value));
      assert r == [System(prompt)] + ([System(text.value)] + (SystemMessages(contexts) + tail));
      assert [System(text.value)] + (SystemMessages(contexts) + tail) == SystemMessages(cs) + tail;
    } else {
      assert AsSeq(text) + contexts == contexts;
    }
  }

  /** One `messages.insert(1, ...)` of an optional context message. */
  method InsertContext(messages: seq<Message>, ghost prompt: string, text: Option<string>,
                       ghost contexts: seq<string>, ghost tail: seq<Message>)
    returns (r: seq<Message>)
    requires messages == [System(prompt)] + (SystemMessages(contexts) + tail)
    ensures r == [System(prompt)] + (SystemMessages(AsSeq(text) + contexts) + tail)
  {
    InsertStep(messages, prompt, text, contexts, tail);
    r := messages;
    if text.Some? {
      r := InsertAfterPrompt(messages, System(text.value));
    }
  }

  /** Lines 108-153: the stage prompt and the user's message, then the goal
      line, the regression reminder, the motivational context, the plans and
      the solutions, each inserted at position 1 when present. */
  method AssembleMessages(prompt: string, userMessage: string, goalName: string,
                          revisit: Option<string>, motivation: Option<string>,
                          plans: Option<string>, worked: Option<string>)
    returns (messages: seq<Message>)
    ensures messages == RequestMessages(prompt, Present(worked, plans, motivation, revisit), goalName, userMessage)
  {
    ghost var tail := [System(GoalLinePrefix + goalName), Message(UserRole, userMessage)];
    messages := [System(prompt), Message(UserRole, userMessage)];
    messages := InsertAfterPrompt(messages, System(GoalLinePrefix + goalName));
    assert messages == [System(prompt)] + (SystemMessages([]) + tail);
    messages := InsertContext(messages, prompt, revisit, [], tail);
    ghost var contexts := AsSeq(revisit) + [];
    messages := InsertContext(messages, prompt, motivation, contexts, tail);
    contexts := AsSeq(motivation) + contexts;
    messages := InsertContext(messages, prompt, plans, contexts, tail);
    contexts := AsSeq(plans) + contexts;
    messages := InsertContext(messages, prompt, worked, contexts, tail);
    contexts := AsSeq(worked) + contexts;
    assert AsSeq(revisit) + [] == AsSeq(revisit);
    JoinFour(AsSeq(worked), AsSeq(plans), AsSeq(motivation), AsSeq(revisit));
    assert contexts == Present(worked, plans, motivation, revisit);
    RequestFromContexts(messages, prompt, contexts, goalName, userMessage);
  }

  /** The message list of the current goal. */
  method BuildRequest(store: GoalStore, prompt: string, userMessage: string, goalName: string,
                      stage: string, previous: string)
    returns (messages: seq<Message>)
    requires store.CurrentIndex().Some?
    ensures messages == RequestMessages(prompt, ContextTexts(store.goals[store.CurrentIndex().value], stage, previous),
                                        goalName, userMessage)
  {
    var revisit := RevisitMessage(store, stage, previous);
    var motivation := MotivationMessage(store, stage);
    var plans := PlansMessage(store);
    var worked := WorkedMessage(store);
    messages := AssembleMessages(prompt, userMessage, goalName, revisit, motivation, plans, worked);
  }

  lemma JoinFour<T>(a: seq<T>, b: seq<T>, c: seq<T>, d: seq<T>)
    ensures a + (b + (c + d)) == a + b + c + d
  {
  }

  lemma RequestFromContexts(messages: seq<Message>, prompt: string, contexts: seq<string>,
                            goalName: string, userMessage: string)
    requires messages == [System(prompt)]
                         + (SystemMessages(contexts) + [System(GoalLinePrefix + goalName), Message(UserRole, userMessage)])
    ensures messages == RequestMessages(prompt, contexts, goalName, userMessage)
  {
  }

  // ---------------------------------------------------------------------
  // process_message

  /** The model's replies during one turn, one per call the controller may
      make; `Failed` is a call that raised (or, for the chat completion, a
      reply without content). */
  datatype Replies = Replies(
    goal: Call<string>,
    goalSwitch: Call<string>,
    classification: Call<string>,
    motivation: Call<string>,
    plan: Call<Json>,
    solution: Call<Json>,
    generated: Call<string>,
    simplified: Call<string>)

  /** What `process_message` returns: the 400 and 500 error tuples, the four
      kinds of reply dictionary, or an exception that leaves it. */
  datatype Outcome =
    | BadRequest
    | GoalCreated(reply: string, stage: string, previousStage: Option<string>, goal: string, goalId: int)
    | GoalSwitched(reply: string, stage: string, previousStage: Option<string>, goal: string, goalId: int)
    | NoGoalYet(reply: string)
    | Replied(reply: string, stage: string, previousStage: Option<string>, goal: string, goalId: int)
    | ServerError
    | Raised

  const GreetingLead: string := "Thanks for sharing your goal to "
  const GreetingTail: string :=
    ". I'm here to support you on this journey. Could you tell me a bit about where you are with this goal right now?"
  const SwitchLead: string := "I've switched to your goal: "
  const SwitchTail: string :=
    ". Let's continue working on this together. What would you like to focus on with this goal right now?"
  const NoGoalReply: string :=
    "I don't have a specific goal to work on yet. Can you share what habit or behavior you'd like to change or improve?"

  /** The three texts handed to `add_plan` or `add_solution`. */
  datatype Fields = Fields(first: string, second: string, third: string)

  /** What one extracted record does to the store: nothing, one record, or
      an exception. */
  datatype Step<T> = Skip | Record(value: T) | Raise

  /** `d.get(key, default)`. */
  function Get(d: map<string, Json>, key: string, default: string): Json {
    if key in d then d[key] else Str(default)
  }

  /** Lines 77-79: the motivation to record, when the extractor found a
      non-empty one. */
  function MotivationStep(reply: Call<string>): (r: Option<string>)
    ensures r.Some? ==> r == Extractors.ExtractMotivation(reply) && r.value != ""
    ensures r.None? ==> Extractors.ExtractMotivation(reply) in {None, Some("")}
  {
    var m := Extractors.ExtractMotivation(reply);
    if m.Some? && m.value != "" then m else None
  }

  /** Lines 82-88: a truthy plan must be a dictionary with an "action";
      the timeline and difficulty fall back to their defaults. Values are
      stored as their `str()`. */
  function PlanStep(plan: Option<Json>): (r: Step<Fields>)
    ensures r.Skip? <==> plan.None? || !Truthy(plan.value)
    ensures r.Raise? <==> plan.Some? && Truthy(plan.value) && !(plan.value.Object? && "action" in plan.value.fields)
    ensures r.Record? ==>
              var f := plan.value.fields;
              r.value == Fields(Show(f["action"]), Show(Get(f, "timeline", Extractors.AsSoonAsPossible)),
                                Show(Get(f, "difficulty", Extractors.Medium)))
  {
    if plan.None? || !Truthy(plan.value) then Skip
    else if plan.value.Object? && "action" in plan.value.fields then
      var f := plan.value.fields;
      Record(Fields(Show(f["action"]), Show(Get(f, "timeline", Extractors.AsSoonAsPossible)),
                    Show(Get(f, "difficulty", Extractors.Medium))))
    else Raise
  }

  /** A plan stated outright never makes line 85 raise. */
  lemma ExplicitPlanIsRecorded(text: string, previousAssistantMessage: Option<string>, reply: Call<Json>)
    requires !Extractors.Adopting(text, previousAssistantMessage)
    ensures !PlanStep(Extractors.ExtractPlan(text, previousAssistantMessage, reply)).Raise?
  {
    var plan := Extractors.ExtractPlan(text, previousAssistantMessage, reply);
    if plan.Some? {
      Extractors.ExplicitPlanComplete(reply.value);
    }
  }

  /** An adopted suggestion the model returns as a bare string makes
      `plan["action"]` raise. */
  lemma AdoptedStringRaises()
    ensures PlanStep(Extractors.AdoptedPlan(List([Str("Set an alarm")]))).Raise?
  {
    Extractors.AdoptedPlanUnchecked();
  }

  /** Lines 91-97: an extracted solution always has its three fields. */
  function SolutionStep(reply: Call<Json>): (r: Option<Fields>)
    ensures r.Some? <==> Extractors.ExtractSolution(reply).Some?
    ensures r.Some? ==>
              var f := Extractors.ExtractSolution(reply).value.fields;
              r.value == Fields(Show(f["name"]), Show(f["description"]), Show(f["effectiveness"]))
  {
    var s := Extractors.ExtractSolution(reply);
    if s.None? || !Truthy(s.value) then None
    else
      var f := s.value.fields;
      Some(Fields(Show(f["name"]), Show(f["description"]), Show(f["effectiveness"])))
  }

  /** `after` is `before` with one motivation appended when there is
      content, the new id being the next one. */
  predicate MotivationAdded(before: seq<Motivation>, after: seq<Motivation>, content: Option<string>, stage: string) {
    if content.None? then after == before
    else
      && |after| == |before| + 1 && after[..|before|] == before
      && after[|before|].content == content.value && after[|before|].stage == stage
      && IsNextId(MotivationIds(before), after[|before|].id)
  }

  predicate PlanAdded(before: seq<Plan>, after: seq<Plan>, fields: Option<Fields>) {
    if fields.None? then after == before
    else
      && |after| == |before| + 1 && after[..|before|] == before
      && after[|before|] == Plan(after[|before|].id, fields.value.first, fields.value.second,
                                 fields.value.third, ActiveStatus)
      && IsNextId(PlanIds(before), after[|before|].id)
  }

  predicate SolutionAdded(before: seq<Solution>, after: seq<Solution>, fields: Option<Fields>) {
    if fields.None? then after == before
    else
      && |after| == |before| + 1 && after[..|before|] == before
      && after[|before|] == Solution(after[|before|].id, fields.value.first, fields.value.second,
                                     fields.value.third)
      && IsNextId(SolutionIds(before), after[|before|].id)
  }

  /** Lines 72-97 on the current goal: the new stage with the old one as
      previous stage, then the motivation, the plan and the solution; a
      plan that raises stops before the plan. */
  predicate Recorded(before: Goal, after: Goal, stage: string, motivation: Option<string>,
                     plan: Step<Fields>, solution: Option<Fields>)
  {
    && after.id == before.id && after.name == before.name
    && after.stage == stage && after.previousStage == Some(before.stage)
    && MotivationAdded(before.motivations, after.motivations, motivation, stage)
    && PlanAdded(before.plans, after.plans, if plan.Record? then Some(plan.value) else None)
    && SolutionAdded(before.solutions, after.solutions, if plan.Raise? then None else solution)
  }

  lemma ReplaceKeepsIndex(gs: seq<Goal>, id: int, k: nat, g: Goal)
    requires FindGoal(gs, id) == Some(k) && g.id == gs[k].id
    ensures FindGoal(gs[k := g], id) == Some(k)
  {
    assert GoalIds(gs[k := g]) == GoalIds(gs);
    FindGoalSameIds(gs[k := g], gs, id);
  }

  /** Lines 72-82 against the store: the new stage, then the motivation. */
  method RecordStage(store: GoalStore, stage: string, previous: string, motivation: Option<string>)
    requires store.CurrentIndex().Some?
    requires previous == store.goals[store.CurrentIndex().value].stage
    modifies store
    ensures store.currentGoalId == old(store.currentGoalId)
    ensures store.CurrentIndex() == old(store.CurrentIndex())
    ensures var k := old(store.CurrentIndex()).value;
            var before := old(store.goals)[k];
            var after := store.goals[k];
            && |store.goals| == |old(store.goals)|
            && store.goals == old(store.goals)[k := after]
            && after.id == before.id && after.name == before.name
            && after.stage == stage && after.previousStage == Some(before.stage)
            && MotivationAdded(before.motivations, after.motivations, motivation, stage)
            && after.plans == before.plans && after.solutions == before.solutions
    ensures old(store.Valid()) ==> store.Valid()
  {
    ghost var k := store.CurrentIndex().value;
    ghost var id := store.currentGoalId.value;
    ghost var g0 := store.goals;
    var updated := store.UpdateGoalStage(stage, Some(previous));
    ReplaceKeepsIndex(g0, id, k, store.goals[k]);
    ghost var g1 := store.goals;
    if motivation.Some? {
      var m := store.AddMotivation(motivation.value, stage);
      ReplaceKeepsIndex(g1, id, k, store.goals[k]);
    }
  }

  /** Lines 84-97 against the store: the plan, then the solution. */
  method RecordOutcomes(store: GoalStore, plan: Option<Fields>, solution: Option<Fields>)
    requires store.CurrentIndex().Some?
    modifies store
    ensures store.currentGoalId == old(store.currentGoalId)
    ensures store.CurrentIndex() == old(store.CurrentIndex())
    ensures var k := old(store.CurrentIndex()).value;
            var before := old(store.goals)[k];
            var after := store.goals[k];
            && |store.goals| == |old(store.goals)|
            && store.goals == old(store.goals)[k := after]
            && after.(plans := before.plans, solutions := before.solutions) == before
            && PlanAdded(before.plans, after.plans, plan)
            && SolutionAdded(before.solutions, after.solutions, solution)
    ensures old(store.Valid()) ==> store.Valid()
  {
    ghost var k := store.CurrentIndex().value;
    ghost var id := store.currentGoalId.value;
    ghost var g2 := store.goals;
    if plan.Some? {
      var p := store.AddPlan(plan.value.first, plan.value.second, plan.value.third);
      ReplaceKeepsIndex(g2, id, k, store.goals[k]);
    }
    ghost var g3 := store.goals;
    if solution.Some? {
      var s := store.AddSolution(solution.value.first, solution.value.second, solution.value.third);
      ReplaceKeepsIndex(g3, id, k, store.goals[k]);
    }
  }

  /** Lines 72-97 against the store. */
  method RecordTurn(store: GoalStore, stage: string, previous: string, motivation: Option<string>,
                    plan: Step<Fields>, solution: Option<Fields>)
    returns (ok: bool)
    requires store.CurrentIndex().Some?
    requires previous == store.goals[store.CurrentIndex().value].stage
    modifies store
    ensures ok <==> !plan.Raise?
    ensures store.currentGoalId == old(store.currentGoalId)
    ensures store.CurrentIndex() == old(store.CurrentIndex())
    ensures var k := old(store.CurrentIndex()).value;
            && |store.goals| == |old(store.goals)|
            && store.goals == old(store.goals)[k := store.goals[k]]
            && Recorded(old(store.goals)[k], store.goals[k], stage, motivation, plan, solution)
    ensures old(store.Valid()) ==> store.Valid()
  {
    RecordStage(store, stage, previous, motivation);
    if plan.Raise? {
      return false;
    }
    RecordOutcomes(store, if plan.Record? then Some(plan.value) else None, solution);
    return true;
  }

  /** Lines 100-106: the stage prompt for the updated goal, with the
      message substituted; `None` where either step raises. */
  function TurnPrompt(stage: string, g: Goal, userMessage: string): Option<string> {
    var prompt := PromptManager.GetStagePrompt(stage, Some(g));
    if prompt.None? then None else FormatUserMessage(prompt.value, userMessage)
  }

  /** Lines 100-179 once the turn is recorded on goal `g`: a prompt that
      cannot be built ends in an exception; otherwise the request is sent
      and the reply, simplified, is returned with the goal's name and id and
      the stages of the turn. */
  predicate ResponseOutcome(g: Goal, stage: string, previous: string, userMessage: string, replies: Replies,
                            out: Outcome, request: seq<Message>)
  {
    var prompt := TurnPrompt(stage, g, userMessage);
    if prompt.None? then out == Raised && request == []
    else
      && request == RequestMessages(prompt.value, ContextTexts(g, stage, previous), g.name, userMessage)
      && var reply := if replies.generated.Answer? then SimplifyResponse(replies.generated.value, replies.simplified)
                      else None;
         out == if reply.None? then ServerError else Replied(reply.value, stage, Some(previous), g.name, g.id)
  }

  /** Lines 69-179 once a current goal exists: the classifier's reply
      fails, or the turn is recorded on goal `k`; then a plan that raises
      ends in an exception, and otherwise the response follows. */
  ghost predicate TurnOutcome(before: seq<Goal>, after: seq<Goal>, k: nat, userMessage: string,
                              previousAssistantMessage: Option<string>, replies: Replies,
                              out: Outcome, request: seq<Message>)
  {
    && k < |before| && |after| == |before|
    && if replies.classification.Failed? then out == Raised && after == before && request == []
       else
         var stage := ClassifyStage(replies.classification.value);
         var plan := PlanStep(Extractors.ExtractPlan(userMessage, previousAssistantMessage, replies.plan));
         && after == before[k := after[k]]
         && Recorded(before[k], after[k], stage, MotivationStep(replies.motivation), plan, SolutionStep(replies.solution))
         && if plan.Raise? then out == Raised && request == []
            else ResponseOutcome(after[k], stage, before[k].stage, userMessage, replies, out, request)
  }

  /** Lines 100-179 against the store. */
  method Respond(store: GoalStore, stage: string, previous: string, userMessage: string, replies: Replies)
    returns (out: Outcome, request: seq<Message>)
    requires store.CurrentIndex().Some?
    ensures ResponseOutcome(store.goals[store.CurrentIndex().value], stage, previous, userMessage, replies, out, request)
  {
    var current := store.GetCurrentGoal();
    var prompt := PromptManager.GetStagePrompt(stage, current);
    if prompt.None? {
      return Raised, [];
    }
    var formatted := FormatUserMessage(prompt.value, userMessage);
    if formatted.None? {
      return Raised, [];
    }
    request := BuildRequest(store, formatted.value, userMessage, current.value.name, stage, previous);
    if replies.generated.Failed? {
      return ServerError, request;
    }
    var reply := SimplifyResponse(replies.generated.value, replies.simplified);
    if reply.None? {
      return ServerError, request;
    }
    return Replied(reply.value, stage, Some(previous), current.value.name, current.value.id), request;
  }

  /** Lines 69-179 against the store. */
  method Turn(store: GoalStore, current: Goal, userMessage: string, previousAssistantMessage: Option<string>,
              replies: Replies)
    returns (out: Outcome, request: seq<Message>)
    requires store.CurrentIndex().Some? && current == store.goals[store.CurrentIndex().value]
    modifies store
    ensures store.currentGoalId == old(store.currentGoalId)
    ensures TurnOutcome(old(store.goals), store.goals, old(store.CurrentIndex()).value, userMessage,
                        previousAssistantMessage, replies, out, request)
    ensures old(store.Valid()) ==> store.Valid()
  {
    if replies.classification.Failed? {
      return Raised, [];
    }
    var stage := ClassifyStage(replies.classification.value);
    var previous := current.stage;
    var plan := PlanStep(Extractors.ExtractPlan(userMessage, previousAssistantMessage, replies.plan));
    var ok := RecordTurn(store, stage, previous, MotivationStep(replies.motivation), plan, SolutionStep(replies.solution));
    if !ok {
      return Raised, [];
    }
    out, request := Respond(store, stage, previous, userMessage, replies);
  }

  /** `process_message(user_message, previous_assistant_message)` with the
      model's replies as inputs. `request` is the message list sent for the
      chat completion, empty when none is sent. */
  method ProcessMessage(store: GoalStore, userMessage: string, previousAssistantMessage: Option<string>,
                        replies: Replies)
    returns (out: Outcome, request: seq<Message>)
    modifies store
    ensures out == BadRequest <==> userMessage == ""
    ensures userMessage == "" ==> store.goals == old(store.goals) && store.currentGoalId == old(store.currentGoalId)
    ensures old(store.Valid()) ==> store.Valid()
    ensures userMessage != "" && old(store.CurrentIndex()).None? ==>
              var name := Extractors.ExtractGoal(replies.goal);
              if name.Some? && name.value != "" then
                && out.GoalCreated?
                && out == GoalCreated(GreetingLead + name.value + GreetingTail, Contemplation, None, name.value, out.goalId)
                && IsNextId(GoalIds(old(store.goals)), out.goalId)
                && store.goals == old(store.goals) + [NewGoal(out.goalId, name.value)]
                && store.currentGoalId == Some(out.goalId)
                && request == []
              else
                var target := SwitchTarget(old(store.goals), replies.goalSwitch);
                && store.goals == old(store.goals) && store.currentGoalId == old(store.currentGoalId)
                && request == []
                && out == if target.Some? && target.value != 0 then Raised else NoGoalYet(NoGoalReply)
    ensures userMessage != "" && old(store.CurrentIndex()).Some? ==>
              var k := old(store.CurrentIndex()).value;
              var target := SwitchTarget(old(store.goals), replies.goalSwitch);
              if target.Some? && target.value != 0 && target.value != old(store.goals)[k].id then
                && store.goals == old(store.goals) && store.currentGoalId == target
                && store.CurrentIndex().Some? && request == []
                && var g := store.goals[store.CurrentIndex().value];
                   out == GoalSwitched(SwitchLead + g.name + SwitchTail, g.stage, g.previousStage, g.name, g.id)
              else
                && store.currentGoalId == old(store.currentGoalId)
                && TurnOutcome(old(store.goals), store.goals, k, userMessage, previousAssistantMessage,
                               replies, out, request)
  {
    if userMessage == "" {
      return BadRequest, [];
    }
    var current := store.GetCurrentGoal();
    if current.None? {
      var potential := Extractors.ExtractGoal(replies.goal);
      if potential.Some? && potential.value != "" {
        var g := store.AddNewGoal(potential.value);
        return GoalCreated(GreetingLead + potential.value + GreetingTail, g.stage, g.previousStage, g.name, g.id), [];
      }
    }
    var goals := store.AllGoals();
    var target := CheckForGoalSwitch(goals, replies.goalSwitch);
    if target.Some? && target.value != 0 {
      if current.None? {
        return Raised, [];
      }
      if target.value != current.value.id {
        var ok := store.SetCurrentGoal(target.value);
        if ok {
          var g := store.GetCurrentGoal();
          return GoalSwitched(SwitchLead + g.value.name + SwitchTail, g.value.stage, g.value.previousStage,
                              g.value.name, g.value.id), [];
        }
      }
    }
    if current.None? {
      return NoGoalYet(NoGoalReply), [];
    }
    out, request := Turn(store, current.value, userMessage, previousAssistantMessage, replies);
  }
}
