# HabitCoach chatbot core, modelled in Dafny

HabitCoach is a chatbot that coaches someone through changing one habit.
On each turn it does five things:
- it classifies the user's stage of change: precontemplation, contemplation, preparation, action or maintenance;
- it records what the user said about the current goal: motivations, plans and solutions;
- it assembles a system prompt for that stage, with a special prompt after a regression to an earlier stage;
- it builds the list of chat messages sent to the language model;
- it trims the model's answer to a single question.

Every call to the language model is an input to this model. A reply is
`Answer(value)`, or `Failed` when the call raised or its JSON did not decode.
With the replies fixed, the system is deterministic, and the model states and
proves its behaviour.

The project has these modules, one per source file or shared concern:

- `Wrappers` (wrappers.dfy): `Option` and the `Call` reply wrapper.
- `Text` (text.dfy): Python's `strip`, `lower`, `in` on strings and `count`, over ASCII.
- `JsonValues` (json_values.dfy): decoded JSON values, truthiness and `str()`.
- `StageClassifier` (stage_classifier.dfy): the five stage labels, their order, and the parsing of the classifier's reply.
- `DataStorage` (data_storage.dfy): the goal store as a class `GoalStore`. It holds a sequence of goals and a current-goal id. Each mutator has a search loop.
- `StagePrompts` (stage_prompts.dfy): the six prompt templates, as literal pieces and named placeholders, and `str.format`.
- `PromptManager` (prompt_manager.dfy): the context formatters and `get_stage_prompt`, with the current goal as a parameter.
- `Extractors` (extractors.dfy): the post-processing of the goal, motivation, plan and solution extractors.
- `SolutionDb` (solution_db.dfy): the legacy solution database as a class `SolutionStore`, and its extractor.
- `ChatController` (chat_controller.dfy) covers:
  - `is_regression` and `create_motivational_context`;
  - the goal-switch match and the guard of `simplify_response`;
  - the second `.format(user_message=...)`;
  - the message list built by repeated `insert(1, ...)`;
  - every branch of `process_message`.

The store's invariant is `GoalStore.Valid()`. It says:
- goal ids are distinct;
- ids inside each goal's motivation, plan and solution lists are distinct;
- the current-goal id is unset or names a stored goal.

Every mutator keeps the invariant, and so does `ProcessMessage`.

## Model

| member | source | states |
|---|---|---|
| Text.Strip | utils/extractors.py:29 | `str.strip()`: the result has no surrounding whitespace, and everything cut from either end is whitespace |
| Text.StripKeeps | utils/extractors.py:29 | a text without surrounding whitespace is its own strip |
| Text.Lower | utils/chat_controller.py:207 | `str.lower()` keeps the length and lowercases each character |
| Text.LowerIdempotent | solution_db_utils.py:62 | lowercasing twice is lowercasing once |
| StageClassifier.IndexOf | utils/stage_classifier.py:8-12 | `stages_order.index(s)`: defined exactly for the five labels; the label at the returned position is `s` |
| StageClassifier.StagesDistinct | utils/stage_classifier.py:8-12 | the five stage constants are pairwise different |
| StageClassifier.ParseClassification | utils/stage_classifier.py:74-86 | always one of the five stages; the first of CLASS 1..CLASS 5 found as a substring decides, mapping CLASS n to the n-th stage; no marker gives contemplation |
| StageClassifier.ClassifyStage | utils/stage_classifier.py:71-86 | the stage parsed from the stripped reply is one of the five labels |
| StageClassifier.StripKeepsMarker | utils/stage_classifier.py:71 | a marker with non-space ends occurs in the stripped reply iff it occurs in the raw reply |
| StageClassifier.ClassifyIgnoresSurroundingSpace | utils/stage_classifier.py:71-86 | stripping the reply never changes the classified stage |
| DataStorage.NextIdIsFresh | utils/data_storage.py:69-71 | an id `max + 1` (or 1 for an empty list) is not yet used, so the ids stay distinct after appending it |
| DataStorage.MaxIdPlusOne | utils/data_storage.py:71 | the scan returns one more than an element of the list and more than every element |
| DataStorage.FindGoal | utils/data_storage.py:48-52 | the position of the first goal with the id, or `None` when no goal has it |
| DataStorage.FindPlan | utils/data_storage.py:203-209 | the position of the first plan with the id, or `None` when no plan has it |
| DataStorage.FindGoalWithPlan | utils/data_storage.py:201-211 | the first goal with the id that holds a plan with the plan id, or `None` |
| DataStorage.FindGoalSameIds | utils/data_storage.py:48-52 | the goal search depends on the ids alone, so it finds the same position after a goal is changed in place without a new id |
| DataStorage.PlanTargetIsCurrentGoal | utils/data_storage.py:201-211 | with distinct goal ids, `update_plan_status` looks only at the current goal, and changes it iff that goal holds the plan |
| DataStorage.ActivePlans | utils/data_storage.py:260 | exactly the plans whose status is "active" |
| DataStorage.ActivePlansAppend | utils/data_storage.py:260 | the filter keeps stored order: filtering a concatenation concatenates the filtered parts |
| DataStorage.LastN | utils/data_storage.py:271-272 | `xs[-k:]`: the last `min(k, len)` elements |
| DataStorage.ReplaceGoalKeepsValid | utils/data_storage.py:117-127 | replacing a goal in place by a well-formed goal with the same id keeps the document invariant |
| DataStorage.GoalStore.constructor | utils/data_storage.py:13-18 | the default document: no goals and no current goal, which satisfies the invariant |
| DataStorage.GoalStore.CurrentIndex | utils/data_storage.py:40-52 | the position of the goal the current-goal id names, if it names one |
| DataStorage.GoalStore.GetCurrentGoal | utils/data_storage.py:40-52 | `None` iff the current-goal id is unset or names no goal; otherwise the goal it names |
| DataStorage.GoalStore.GetGoalById | utils/data_storage.py:54-62 | `None` iff no goal has the id; otherwise the first goal that has it |
| DataStorage.GoalStore.AddNewGoal | utils/data_storage.py:64-93 | the id is `max + 1` or 1; the new goal has stage contemplation, no previous stage and empty lists; it is appended last and made current; the invariant is kept |
| DataStorage.GoalStore.SetCurrentGoal | utils/data_storage.py:95-107 | true iff a goal has the id; then the current-goal id is that id, otherwise nothing changes; goals never change |
| DataStorage.GoalStore.UpdateGoalStage | utils/data_storage.py:109-129 | without a current goal, `None` and no change; otherwise only the current goal changes, to the new stage with the given (or old) previous stage |
| DataStorage.GoalStore.AddMotivation | utils/data_storage.py:131-159 | without a current goal, `None` and no change; otherwise exactly one motivation, with the next id, is appended to the current goal alone |
| DataStorage.GoalStore.AddPlan | utils/data_storage.py:161-191 | as `AddMotivation`, for one plan whose status is "active" |
| DataStorage.GoalStore.UpdatePlanStatus | utils/data_storage.py:193-211 | without a current goal or without the plan, `None` and no change; otherwise only that plan's status changes |
| DataStorage.GoalStore.AddSolution | utils/data_storage.py:213-242 | as `AddMotivation`, for one solution |
| DataStorage.GoalStore.SolutionsForCurrentGoal | utils/data_storage.py:244-251 | the current goal's solutions, or empty without a current goal |
| DataStorage.GoalStore.ActivePlansForCurrentGoal | utils/data_storage.py:253-260 | the current goal's active plans in stored order, or empty |
| DataStorage.GoalStore.MotivationsForCurrentGoal | utils/data_storage.py:262-274 | the last `min(limit, n)` motivations for a positive limit, otherwise all; empty without a current goal |
| DataStorage.GoalStore.AllGoals | utils/data_storage.py:276-279 | the stored goals |
| StagePrompts.Fill | utils/prompt_manager.py:60-63 | `str.format` with keyword arguments succeeds iff every placeholder of the template has a value; the text starts with the template's opening literal |
| StagePrompts.FillContainsArgument | utils/prompt_manager.py:90-96 | the value given for a placeholder the template uses appears in the filled text |
| StagePrompts.FillKeepsPlaceholder | utils/prompt_manager.py:60-62 | filling `user_message` with the literal `{user_message}` keeps the placeholder in the text |
| StagePrompts.StageTemplateHoles | utils/stage_prompts.py:2-7 | a stage template has exactly the placeholders `user_goal` and `user_message` |
| StagePrompts.RegressionTemplateHoles | utils/stage_prompts.py:174-217 | the regression template has exactly `user_goal`, `user_message`, `previous_stage`, `current_stage` and `past_solutions_context` |
| StagePrompts.HoleNamesAppend | utils/stage_prompts.py:174-217 | the placeholders of joined templates are the union of their placeholders |
| PromptManager.ConcatAppend | utils/prompt_manager.py:16-17 | concatenation distributes over joined lists |
| PromptManager.LinesAppend | utils/prompt_manager.py:16-17 | the text added by a `+=` loop over two lists in turn is the texts of the two loops joined |
| PromptManager.LinesIsConcat | utils/prompt_manager.py:16-17 | the text accumulated by the loop is the per-element lines concatenated in order |
| PromptManager.Kept | utils/prompt_manager.py:13 | how many entries `xs[-limit:] if len(xs) > limit else xs` keeps: `min(limit, n)`, and all of them for limit 0 |
| PromptManager.Window | utils/prompt_manager.py:13 | that slice is the last `Kept` entries |
| PromptManager.ShownLines | utils/prompt_manager.py:16-17 | the lines of the last `Kept` entries, oldest first |
| PromptManager.Block | utils/prompt_manager.py:8-19 | empty for an empty list; otherwise header, the windowed lines and footer |
| PromptManager.FormatMotivations | utils/prompt_manager.py:8-19 | "" iff there are no motivations; otherwise the header and one line per motivation among the last `limit`, in stored order |
| PromptManager.FormatPlans | utils/prompt_manager.py:21-36 | "" iff no plan is active; otherwise the header and the last `limit` active plans |
| PromptManager.FormatSolutionsForPrompt | utils/prompt_manager.py:38-50 | "" iff there are no solutions; otherwise header, the last `limit` solutions and the footer |
| PromptManager.FormatSolutionsForRegression | utils/prompt_manager.py:211-223 | the same text, from the second copy of the code |
| PromptManager.SolutionFormattersAgree | utils/prompt_manager.py:38-50 | the two solution formatters return identical text for identical input |
| PromptManager.WindowOfWindow | utils/prompt_manager.py:148-150 | taking the last `b` of the last `a >= b` is taking the last `b` |
| PromptManager.MotivationWindowIsThree | utils/prompt_manager.py:148-150 | fetching 5 motivations and formatting with limit 3 shows the last 3 |
| PromptManager.ActivePlansIdempotent | utils/prompt_manager.py:26 | filtering already active plans again changes nothing |
| PromptManager.TemplateFor | utils/prompt_manager.py:111-142 | the template of a known stage, in the order's alignment; contemplation for an unknown label |
| PromptManager.RegressionCheck | utils/prompt_manager.py:74-84 | the regression template is chosen iff the previous stage is non-empty, different and later in the order; `None` (the `ValueError`) iff that test meets a label outside the order |
| PromptManager.RegressionBase | utils/prompt_manager.py:86-108 | the base prompt of a regression is the filled regression template, followed, when the goal has solutions, by the solutions block and the reintroduction guidance; it is non-empty and keeps the placeholder |
| PromptManager.RegressionFilled | utils/prompt_manager.py:89-95 | the regression template's `format` succeeds, and its text is non-empty and keeps the placeholder |
| PromptManager.RegressionTemplateShowsSolutions | utils/prompt_manager.py:86-95 | with solutions, the filled regression template contains the solutions block, through `past_solutions_context` |
| PromptManager.ContextShowsSolutions | utils/prompt_manager.py:144-166 | the context blocks contain the solutions block |
| PromptManager.RegressionRepeatsSolutions | utils/prompt_manager.py:86-166 | after a regression, a goal with solutions gets its solutions block three times: inside the filled template, right after it with the guidance, and among the context blocks; the prompt is that base, then the context and the stage guidance |
| PromptManager.StageBase | utils/prompt_manager.py:112-142 | the stage template filled with the goal and the placeholder, which the text keeps |
| PromptManager.StageTemplatesHoles | utils/stage_prompts.py:2-7 | each of the five stage templates takes exactly the goal and the message |
| PromptManager.ContextAdditions | utils/prompt_manager.py:144-166 | the context is empty iff the goal has no motivations, no active plans and no solutions |
| PromptManager.StageGuidance | utils/prompt_manager.py:168-201 | the guidance of a known stage; nothing for an unknown label |
| PromptManager.BasePrompt | utils/prompt_manager.py:70-142 | raises iff the regression test does; a regression gives the regression base prompt, otherwise the filled stage template is used; the placeholder is kept |
| PromptManager.GetStagePrompt | utils/prompt_manager.py:52-208 | without a goal, the contemplation template with "not yet specified"; otherwise the base prompt, followed by context and guidance iff there is context; the result keeps `{user_message}` |
| Extractors.Sentinel | utils/extractors.py:29-31 | `None` iff the call failed or the stripped reply is the sentinel; otherwise the stripped reply |
| Extractors.ExtractGoal | utils/extractors.py:29-35 | the same with "NO_GOAL" |
| Extractors.ExtractMotivation | utils/extractors.py:201-211 | the same with "NO_MOTIVATION" |
| Extractors.SentinelTrimmed | utils/extractors.py:29-31 | an extracted value has no surrounding whitespace and extracts to itself |
| Extractors.AdoptionMatchesInsideWords | utils/extractors.py:47-50 | the phrase test is a plain substring test: "ok" inside "book" selects the adoption branch |
| Extractors.AdoptedPlan | utils/extractors.py:99-112 | the first element of a non-empty list, or of a non-empty "plans" list, returned as it is; otherwise `None` |
| Extractors.ExplicitPlan | utils/extractors.py:146-168 | `None` iff not an object, `is_plan` is false, no truthy action, or a truthy difficulty is not a string; otherwise action, timeline with default "as soon as possible", and difficulty lowercased with default "medium" |
| Extractors.ExtractPlan | utils/extractors.py:37-172 | a failed call gives `None`; adopting text takes the adoption branch, other text the explicit branch |
| Extractors.ExplicitPlanComplete | utils/extractors.py:151-168 | a returned explicit plan has a truthy action, timeline and difficulty |
| Extractors.AdoptedPlanUnchecked | utils/extractors.py:102-103 | the adoption branch returns a bare string element unchecked |
| Extractors.ExplicitSolution | utils/extractors.py:257-284 | `None` iff not an object, `is_solution` is false, no truthy description or solution, or a truthy effectiveness is not a string; name defaults to "Solution", effectiveness is lowercased with default "medium" |
| Extractors.ExtractSolution | utils/extractors.py:213-288 | a failed call gives `None`; otherwise the explicit solution |
| Extractors.ExplicitSolutionComplete | utils/extractors.py:262-284 | a returned solution has a truthy name, description and effectiveness |
| JsonValues.LowerField | utils/extractors.py:164 | `.lower()` succeeds iff the value is a string and keeps its length |
| JsonValues.Digits | utils/chat_controller.py:85 | the decimal digits of `str(n)`: read back as a number they give `n`, and only zero starts with the digit 0 |
| JsonValues.Show | utils/chat_controller.py:85-87 | `str()` of a string value is the string itself; of a number, its decimal digits with a minus sign when negative |
| SolutionDb.Matching | solution_db_utils.py:62 | exactly the entries whose habit equals the argument ignoring case |
| SolutionDb.MatchingAppend | solution_db_utils.py:62 | the filter keeps stored order |
| SolutionDb.MatchingIgnoresCase | solution_db_utils.py:62 | lowercasing the habit asked for changes nothing |
| SolutionDb.SolutionStore.constructor | solution_db_utils.py:23 | the empty solution list, whose ids are positions |
| SolutionDb.SolutionStore.AddSolution | solution_db_utils.py:39-56 | appends exactly one entry with id `len + 1`, older entries unchanged; ids stay the positions 1..k |
| SolutionDb.SolutionStore.SolutionsByHabit | solution_db_utils.py:59-62 | exactly the stored entries for the habit, ignoring case |
| SolutionDb.SolutionStore.AllSolutions | solution_db_utils.py:65-68 | all entries; in a valid store the k-th has id k |
| SolutionDb.SolutionStore.GetSolutionById | solution_db_utils.py:71-77 | the first entry with the id, or `None` iff no entry has it |
| SolutionDb.IdIsPosition | solution_db_utils.py:45 | with ids equal to positions, an id exists iff it is in 1..len, and id k is the k-th entry |
| SolutionDb.ExtractLegacySolution | solution_db_utils.py:124-164 | `None` exactly for the rejected inputs; habit from "habit", else "problem", lowercased; description from "description", "solution", then "action"; effectiveness lowercased with default "medium"; name "Solution for " + habit |
| SolutionDb.ExtractedHabitIsLower | solution_db_utils.py:134-137 | the extracted habit is already lowercase |
| ChatController.IsRegression | utils/chat_controller.py:301-313 | true iff both labels are in the order and the current one comes strictly first |
| ChatController.RegressionIsStrictOrder | utils/chat_controller.py:301-313 | regression is irreflexive and transitive |
| ChatController.PromptRegressionAgrees | utils/prompt_manager.py:74-84 | the prompt's regression test agrees with `is_regression` on known labels, and raises only where `is_regression` is false |
| ChatController.Group | utils/chat_controller.py:222-226 | the list the dictionary collects for one stage, no longer than the input |
| ChatController.StageKeys | utils/chat_controller.py:222-226 | the dictionary keys: exactly the stages with a motivation, without repetition |
| ChatController.StageKeysFirst | utils/chat_controller.py:222-226 | the first motivation's stage is the first key |
| ChatController.GroupFirst | utils/chat_controller.py:222-226 | the first motivation heads its stage's list |
| ChatController.FlattenStartsWithFirstGroup | utils/chat_controller.py:249-251 | the first key's list begins the flattened list |
| ChatController.GroupedStartsWithOldest | utils/chat_controller.py:268-276 | the maintenance branch recalls the oldest motivation given |
| ChatController.GroupMembers | utils/chat_controller.py:222-226 | every entry of a stage's list is the content of a motivation of that stage |
| ChatController.Take | utils/chat_controller.py:253 | `xs[:n]`: the first `min(n, len)` elements |
| ChatController.TakeAppend | utils/chat_controller.py:264 | `xs[:n]` of a concatenation takes from the second part only what the first leaves |
| ChatController.FirstWithMotivation | utils/chat_controller.py:237-241 | the first stage of the list with a motivation, or `None` when none has one |
| ChatController.MotivationalContext | utils/chat_controller.py:216-229 | `None` iff there are no motivations; otherwise a non-empty text starting with the header |
| ChatController.FlattenGroups | utils/chat_controller.py:249-251 | the loop joins the lists in key order |
| ChatController.FlattenStep | utils/chat_controller.py:250-251 | one more key appends its list |
| ChatController.GroupMapStep | utils/chat_controller.py:223-226 | one more motivation joins its stage's list, and adds its stage as a key if new |
| ChatController.BuildGroups | utils/chat_controller.py:222-226 | the loop builds exactly the per-stage lists, with keys in order of first appearance |
| ChatController.PrecontemplationSection | utils/chat_controller.py:232-244 | the loop gives the precontemplation text: the first later stage's first motivation, else the first precontemplation one |
| ChatController.AppendLines | utils/chat_controller.py:253-254 | the `+=` loop appends one line per element, in order |
| ChatController.PickStep | utils/chat_controller.py:262-266 | one more stage fills what is left of the two places |
| ChatController.PickInOrder | utils/chat_controller.py:261-266 | the `added` loop takes the first two motivations of the stages, stage by stage |
| ChatController.PrioritySection | utils/chat_controller.py:256-266 | the preparation and action text takes the first two of the priority pool |
| ChatController.CreateMotivationalContext | utils/chat_controller.py:216-278 | the method's result is the motivational context of the motivations and stage |
| ChatController.PriorityPool | utils/chat_controller.py:259 | the pool is the action, then preparation, then contemplation motivations |
| ChatController.PrioritySectionPicks | utils/chat_controller.py:256-266 | at most two bullets, in priority order, each from a motivation of a priority stage |
| ChatController.FirstMatch | utils/chat_controller.py:206-210 | the first goal whose lowercased name occurs in the lowercased answer, or none |
| ChatController.SwitchTarget | utils/chat_controller.py:181-214 | `None` for fewer than two goals, a failed call or "NO_SWITCH"; otherwise the id of the first matching goal, or `None` iff no goal matches |
| ChatController.CheckForGoalSwitch | utils/chat_controller.py:181-214 | the search loop returns the switch target |
| ChatController.SwitchPrefersEarlierName | utils/chat_controller.py:206-208 | a goal whose name is part of a later goal's name wins even when the answer names the later goal |
| ChatController.SimplifyResponse | utils/chat_controller.py:280-299 | at most one '?' keeps the text; more gives the simplifier's answer, and a failed call raises |
| ChatController.FormatBraceFree | utils/chat_controller.py:106 | text without braces comes through the second format unchanged |
| ChatController.FormatAppend | utils/chat_controller.py:106 | formatting splits at any point where the first part formats on its own |
| ChatController.FormatPlaceholder | utils/chat_controller.py:106 | `{user_message}` becomes the message |
| ChatController.FormatFillsPlaceholder | utils/chat_controller.py:106 | a prompt whose only braces are the placeholder gets the message in its place |
| ChatController.FormatRaisesOnOtherField | utils/chat_controller.py:106 | stored text such as `{plan}` makes the second format raise |
| ChatController.Present | utils/chat_controller.py:120-153 | at most four texts: the optional context texts that are present |
| ChatController.ContextTexts | utils/chat_controller.py:120-153 | at most four context messages for a goal |
| ChatController.SystemMessages | utils/chat_controller.py:130-153 | one system message per context text, in order |
| ChatController.RequestMessages | utils/chat_controller.py:109-153 | the stage prompt first, then system messages, then the goal line and the user's message last |
| ChatController.InsertAfterPrompt | utils/chat_controller.py:115 | `insert(1, m)` puts `m` right after the first message |
| ChatController.NewestLeftOut | utils/chat_controller.py:143-151 | the slices `[:n]` keep the oldest entries: the newest of more than `n` is left out, though `[-n:]` would hold it |
| ChatController.RevisitMessage | utils/chat_controller.py:120-130 | the regression reminder of the current goal: the first three solutions, only after a regression and with solutions |
| ChatController.MotivationMessage | utils/chat_controller.py:132-137 | the motivational context of the last three motivations of the current goal |
| ChatController.PlansMessage | utils/chat_controller.py:139-145 | the first two active plans of the current goal, when there is one |
| ChatController.WorkedMessage | utils/chat_controller.py:147-153 | the first three solutions of the current goal, when there is one |
| ChatController.InsertStep | utils/chat_controller.py:130-153 | one insertion at position 1 puts its text before the earlier context messages |
| ChatController.InsertContext | utils/chat_controller.py:130-153 | the same for the method performing the insertion |
| ChatController.AssembleMessages | utils/chat_controller.py:109-153 | the insertions give prompt, solutions, plans, motivations, regression reminder, goal line, user message |
| ChatController.BuildRequest | utils/chat_controller.py:108-153 | the message list of the current goal is that order over its context texts |
| ChatController.RequestFromContexts | utils/chat_controller.py:109-118 | the list so built is the request for those contexts |
| ChatController.MotivationStep | utils/chat_controller.py:77-79 | a motivation is recorded iff the extractor returned a non-empty one |
| ChatController.PlanStep | utils/chat_controller.py:82-88 | no plan or a falsy one records nothing; a truthy plan raises iff it is not an object with "action"; otherwise action, timeline and difficulty with their defaults |
| ChatController.ExplicitPlanIsRecorded | utils/chat_controller.py:82-88 | a plan from the explicit branch never makes `plan["action"]` raise |
| ChatController.AdoptedStringRaises | utils/chat_controller.py:85 | an adopted plan given as a bare string makes `plan["action"]` raise |
| ChatController.SolutionStep | utils/chat_controller.py:91-97 | a solution is recorded iff the extractor returned one, with its name, description and effectiveness |
| ChatController.ReplaceKeepsIndex | utils/data_storage.py:117-127 | replacing the current goal by one with the same id keeps it current |
| ChatController.RecordStage | utils/chat_controller.py:72-79 | the current goal alone gets the new stage, the old one as previous stage, and the motivation if any |
| ChatController.RecordOutcomes | utils/chat_controller.py:82-97 | the current goal alone gets the plan and the solution, if any |
| ChatController.RecordTurn | utils/chat_controller.py:72-97 | the recording succeeds iff the plan does not raise; the current goal alone is changed as `Recorded` describes; the invariant is kept |
| ChatController.Respond | utils/chat_controller.py:100-179 | a prompt that cannot be built raises; otherwise the request is sent, and a failed generation or simplification is the 500 error; the reply carries the stages and the goal |
| ChatController.Turn | utils/chat_controller.py:69-179 | a failed classification raises with no change; otherwise the turn is recorded on the current goal and the response follows, unless the plan raises |
| ChatController.ProcessMessage | utils/chat_controller.py:18-179 | an empty message is the 400 error, and nothing else is; without a current goal, a non-empty extracted goal gets the next id, is appended, made current and greeted; otherwise a switch target raises on the missing goal's id, and no target gives the no-goal reply; with a current goal, a switch to a different goal moves the current-goal id and is confirmed, otherwise the turn runs on the current goal; no request is sent except in a turn; the store invariant is kept |

## Left out

- The network calls to the language model are left out. Their replies are parameters (`Call<T>` and the `Replies` record). The prompts the source sends to those calls are not modelled.
- JSON file reading and writing for the user document and the solution database is left out. The in-memory objects start from the default empty documents. Corrupt-file recovery is I/O.
- Timestamps from `datetime.now()` are not stored.
- Concurrent requests on the shared document are left out. The Flask routes, the browser script and the conversation history of app.py are not part of this model.
- `lower()` and `strip()` cover ASCII only. Python's Unicode case mapping and whitespace are not modelled.
- JSON floating-point numbers are not modelled. `Show` prints a list or an object as a fixed marker, not as Python's `repr`.
- Values from a plan or solution dictionary are stored as their `str()`. The source stores the raw JSON value.
- FormatUserMessage: handles doubled braces and the single field `user_message`. It does not model format specs, conversions, attribute or index access, or positional fields; the model treats these as errors.
- SimplifyResponse: a simplifier reply without content is treated as a failed call.
- The prose of the six templates in utils/stage_prompts.py is abridged to one opening sentence and the approach and aim lines. No property depends on the prose beyond its being free of braces.
- GetStagePrompt: takes the current goal as a parameter. The source's unused `user_data` argument is dropped.
- Extractors.ExtractPlan: does not model the `get_current_goal()` lookup, whose result the source never uses. Extractors.ExtractSolution has the same lookup, also not modelled.
- The source's comments at utils/chat_controller.py:143 and 151 say "most recent". The slices `[:2]` and `[:3]` keep the oldest entries. The model follows the code; `NewestLeftOut` states the difference.
- Negative limits are not modelled. Every limit in the source is a positive constant, so limits are `nat`.
