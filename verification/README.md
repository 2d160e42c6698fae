# Gotong example hubs: a verified model

This project models the mechanisms behind Gotong's example hubs and proves what they promise, in Dafny 4.11.
`dafny verify dfyconfig.toml` checks everything.

| files | what they model |
|---|---|
| `federation.dfy`, `federation_safety.dfy`, `federation_quiescence.dfy`, `federation_coherence.dfy`, `federation_ready.dfy`, `federation_wake.dfy`, `federation_answers.dfy`, `federation_witness.dfy`, `federation_hub.dfy` | the approval-gated crossing between two hubs: a gate that parks, a resolver that flips, resumes child and parent, and everything that can interleave at an await |
| `workflow.dfy`, `workflow_env.dfy`, `workflow_harness.dfy`, `workflow_story.dfy`, `workflow_asks.dfy`, `tutor_teach.dfy`, `tutor_asks.dfy`, `tutor_drive.dfy` | the sequential workflow runner with human steps, the harness that drives a run through its gates, and the two-gate lesson workflow |
| `cli.dfy`, `cli_refinement.dfy`, `cli_app.dfy` | the event-driven command line and the sequential interpreter it refines |
| `routing.dfy`, `policy.dfy`, `policy_file.dfy`, `tool_loop.dfy`, `router.dfy` | the coder router, its policy object and file, and the tool loop that carries out its plan |
| `situation.dfy`, `codex.dfy`, `preceptor*.dfy`, `training.dfy` | the session planner, its text archive, the brain that re-reads the conversation, and fairness over many days |
| `sweep.dfy`, `sweep_hub.dfy`, `heartbeat.dfy` | the sweep that drains long-running remote tasks, and the one that must never lose a row |
| `teach.dfy`, `lessons.dfy`, `workspace.dfy`, `course.dfy` | the lesson planner, the tutor's memories and the per-learner file workspace |
| `bullets.dfy`, `tutor_lines.dfy`, `course_totals.dfy` | files that accumulate one line after another, the tutor's two lines, and what a course adds up to in them |
| `steward.dfy`, `steward_binding.dfy`, `steward_app.dfy` | the chat steward: propose, apply, park, resolve; bindings that change while a message waits |
| `sparkline.dfy` | the load test's sparkline |
| `options.dfy`, `text.dfy`, `numbers.dfy`, `line_marks.dfy` | optional values, trimming and substrings, decimal texts, counting marked lines |

Code that updates fields in place is a class. Each of its methods is proved against a transition function
(`View() == Step(...)`), and the theorems are about every sequence of such transitions. In the concurrent parts a
transition is the code between two awaits, so an event sequence is an interleaving: the theorems are about every
schedule at that granularity, whatever a store, a notifier or a model behind an await takes to answer. Two stretches are
one transition only where the later one touches nothing shared, or, for one row of a sweep, where all that can move in
between has the same effect in front of it or behind it.

## What turned out not to hold as written

Each item has a lemma with the run or input that shows it, and a theorem beside it that says exactly when the promise does
hold. Which of these schedules occur depends on what stands behind the awaits. With the example's own parts, an in-memory
notifier and a store that does file reads under a lock for each item, a dispatch finishes before a resolver can flip its
item; the first two runs, and the one of the sweep, need a notifier or a store that takes longer, such as a database.
Likewise the two runs of the steward need a resolver, an unbind hook or a port that answers later messages first.

- An approval that arrives after the inbox item is on disk but before the gate's row is parked is accepted and then
  throws (`FederationWitness.EarlyResolveStrands`), and the run never ends (`FederationCoherence.StrandedNeverEnds`). A
  rejection between the parked row and the recorded suspension is recorded first and then overwritten, and the run waits
  for ever (`FederationWitness.DispatchOverwritesResult`). A `choice` or `edit` decision spends the item and drops the
  row the gate parked again (`FederationWitness.UnusableDecisionWedges`). A stray wake can park a row behind a finished
  resolver (`FederationWitness.StrayWakeOrphans`). `FederationCoherence.CoherentIff` is the exact condition on a schedule, and
  `FederationReady.ResolveIsSafeIff` and `FederationWake.WakeIsSafeIff` are the ones a caller can check: a resolver needs
  both rows parked and the result recorded, and a parked gate is never safe to wake.
- The content gate of the lesson workflow has no reader: approving or rejecting there gives the same output
  (`TutorTeach.ContentDecisionIsIgnored`, for every run).
- `appendUnique` is documented as comparing whole lines; it tests for a substring, so a line is lost exactly if it is a
  proper part of another (`Bullets.LostIff`). The tutor's own source line is lost behind a topic that quotes it
  (`CourseTotals.QuotedTopicIsLost`); `CourseTotals.SourcesListedOnceIff` and `TermsListedOnceIff` say when the totals
  are right.
- "Unchanged if nothing was understood" fails for a policy file that lists a coder twice
  (`Policy.DuplicatesRewritten`), if a clause is about calls and not otherwise (`Policy.NothingUnderstoodNothingChanged`).
- A closing brace inside an ailment cuts the situation block short (`PreceptorPrompt.DayReadBackIff`). If the rest does
  not parse, the preceptor drills a normal day (`PreceptorPrompt.BracedDayIsNormal`), and so the body in spite of the
  ailment (`PreceptorPrompt.BraceDrillsTheInjured`).
- A sweep that completes a review before its firing has recorded it as suspended leaves the run parked for ever
  (`Sweep.EarlySettlingStrands`); by `Sweep.EveryJobDrains` this is the only way a job fails to drain. The demo awaits each
  firing before it sweeps (`Sweep.RestedIsNeverEarly`).
- An unbind does not clear a proposal whose plan is still under way (`StewardBinding.LatePlanOutlivesUnbind`);
  `StewardBinding.ClearedForGoodIff` says when it does. An apply that has looked up its user before the unbind is still made
  (`StewardBinding.LateApplyOutlivesUnbind`, `StewardBinding.StillBoundIff`).
- The comment at `packages/workflow/src/predicate.ts:16-18` says that comparing `undefined` with anything, also with
  `undefined`, is false; in the code a reference without a value differs from every value, but two of them compare as
  equal (`Workflow.ComparesIff`).

## Assumptions

- The hub folds a thrown suspension into a parked row and then a `suspended` result
  (`packages/core/src/scheduler.ts:307-366`), the resume path does the same, the latest result of a task wins
  (`packages/core/src/hub.ts:567-569`), and the inbox decides read, check and flip of an item under one lock
  (`packages/inbox/src/file-inbox-store.ts:162-218`).
- In the federation model runs are resumed by resolvers only, gated tasks are dispatched by a workflow, and a peer's
  answer is ok or failed. The cross-hub federation example is the instance with an empty whitelist and one local step
  behind the gated one.
- Inbox items are written at distinct times, so "newest first" is the reverse of the order in which they were written.
- Step ids of a workflow are distinct, and every human step of the harness is addressed to the guardian whose inbox is listed.
- Regular expressions on goals and clauses, the splitting of instructions, the steward's classifier and proposals, JSON
  parsing and per-character lower-casing are parameters, so every theorem holds for all of them.
- No goal line is delivered once the command line is being stopped for the end of its input, as an input that ends after its
  last line guarantees; `CliRefinement.IdleIff` says that this is exactly what keeps a dispatch from being cut off.
- The clock never runs backwards (heartbeat); samples and minutes are exact numbers.
- Learner ids are plain directory names, and file names are compared character by character.

## Model

| member | source | states |
|---|---|---|
| `FederationSafety.CrossesAtMostOnceAndOnlyIfApproved` | examples/family-learning-hub/src/federation.ts:177-221 | over every interleaving of dispatches, concurrent resolvers and stray wakes: a gated lesson reaches the peer at most once, and only if its trimmed topic is whitelisted or its own inbox item was resolved by an approval that some caller submitted for that item |
| `FederationSafety.EffectsAreAPrefix` | examples/family-learning-hub/workflows/child-guided-lesson.yaml:48-79 | the effects of a run are always the steps 0, 1, 2, ... in order, each once; all of them if it is done, none while its item is pending or not approved; a whitelisted lesson never has an inbox item |
| `FederationSafety.QuotaHolds` | examples/family-learning-hub/src/federation.ts:130-137 | the receiving hub admits at most the budget, each admitted task was sent, crosses the link, and is admitted once |
| `FederationSafety.InvRun` | examples/family-learning-hub/src/federation.ts:456-491 | the invariant behind the safety theorem holds in every reachable state: the flip comes first, so one item has one effective resolver |
| `FederationSafety.LessonsAreTopics` | examples/family-learning-hub/src/federation.ts:181-183 | lesson n of a run is the n-th request, gated exactly by its own topic |
| `FederationSafety.CallsWereMade` | examples/family-learning-hub/src/federation.ts:456-467 | a resolver on record was called with that item and that decision |
| `FederationSafety.WakeSendsNothing` | examples/family-learning-hub/src/federation.ts:212-221 | in every reachable state a wake without a decision sends nothing: no row carries an answer, and the gate will park again with what its row carries |
| `FederationCoherence.CoherentIff` | examples/family-learning-hub/src/federation.ts:456-491 | over every await-granular schedule of lessons, resolvers and stray wakes: once nothing runs, pending items, gate rows and unfinished runs match one to one if and only if no resolver resumed a row that was not parked yet, no suspended result was recorded over a resolver's own before the run had folded it, no wake parked a decided gate again, and no decision was of a kind the gate cannot use |
| `FederationReady.ResolveIsSafeIff` | packages/core/src/scheduler.ts:307-366 | the condition on one call: an approval or rejection of a pending item whose gate nobody wakes leaves its lesson coherent at rest under every continuation if and only if both rows are parked and the suspended result is recorded when the call is entered |
| `FederationWake.WakeIsSafeIff` | examples/family-learning-hub/src/federation.ts:219-220 | the condition on one wake: for a lesson whose dispatch has returned unharmed and whose gate nobody is waking, a wake leaves it coherent at rest under every continuation if and only if the gate has no row, so that there is nothing to wake |
| `FederationReady.GuardedIsCoherent` | examples/cross-hub-federation/src/demo.ts:393-428 | if every caller enters only then, with approvals or rejections, every quiet state is coherent, an approved lesson has crossed exactly once and its run is over, a rejected one has no effect and its run has failed |
| `FederationCoherence.DamagedIff` | examples/family-learning-hub/src/federation.ts:456-491 | a reachable state shows for each lesson, by a mark, whether one of these mistimed stretches happened to it |
| `FederationCoherence.DamagedForever` | examples/family-learning-hub/src/federation.ts:456-491 | the mark stays in every continuation, so no later lesson, resolver or wake repairs a damaged lesson |
| `FederationQuiescence.QRun` | examples/family-learning-hub/src/federation.ts:456-491 | how rows, recorded results, items and resolvers match in every reachable state, stray wakes included: also between the parked row and the recorded result, and in the middle of a resolve or a wake |
| `FederationWitness.EarlyResolveStrands` | examples/family-learning-hub/src/federation.ts:206-209 | a run from the start: an approval whose flip comes between the item's write and the gate's parking is accepted and then throws, which leaves a quiet, incoherent state |
| `FederationWitness.DispatchOverwritesResult` | packages/core/src/scheduler.ts:307-366 | a run from the start: a rejection that resumes the gate between its row and its recorded suspension; the dispatch records suspended over failed, the run parks again, and its gate's row is gone |
| `FederationCoherence.StrandedNeverEnds` | examples/family-learning-hub/src/federation.ts:469-472 | in every reachable state a run whose resolver threw is unfinished, whatever lessons, resolvers and wakes follow |
| `FederationCoherence.SpentNeverEnds` | examples/family-learning-hub/src/federation.ts:212-221 | in every reachable state a run whose item was spent on a choice or edit decision is unfinished |
| `FederationWitness.UnusableDecisionWedges` | examples/family-learning-hub/src/federation.ts:212-221 | a choice or edit decision makes the gate park again, and the resolver then deletes the row it parked |
| `FederationWitness.StrayWakeOrphans` | examples/family-learning-hub/src/federation.ts:219-220 | a stray wake that parks again after the resolver's delete leaves a row without a pending item |
| `FederationHub.ChildHub.Dispatch` | examples/family-learning-hub/src/federation.ts:177-183 | a request crosses at once exactly if its trimmed topic is on the whitelist, else it starts to park |
| `FederationHub.ChildHub.ContinueDispatch` | examples/family-learning-hub/src/federation.ts:195-209 | item, then the gate's row, then the suspended result, then the run's row, each in a stretch of its own; a fresh run walks its steps and stops at the first failure |
| `FederationHub.ChildHub.Receive` | examples/family-learning-hub/src/federation.ts:130-137 | the counter refuses once the budget is used up and counts only what it lets through; the answer that comes back is a success only if it was not refused, as `FederationAnswers` proves of every run |
| `FederationHub.ChildHub.StartResolve` | examples/family-learning-hub/src/federation.ts:463-464 | an unknown item is refused before anything is touched |
| `FederationHub.ChildHub.ContinueResolve` | examples/family-learning-hub/src/federation.ts:466-489 | flip; resume the gate; park its row again if it suspended; record the result; drop its row; resume the run and drop its row unless it suspended: the whole new state after each stretch between awaits |
| `FederationHub.ChildHub.OnResume` | examples/family-learning-hub/src/federation.ts:212-221 | approved crosses, rejected fails, anything else parks again with the state handed in |
| `FederationHub.ChildHub.ResumeWorkflow` | packages/workflow/src/step-executors.ts:123-141 | the run folds the gate's latest result: suspended parks again, failed halts, ok goes on with the next step |
| `FederationHub.ChildHub.WakeGate` | examples/cross-hub-federation/src/demo.ts:179-188 | a wake without a decision hands the gate the state of its own row |
| `FederationHub.ChildHub.FinishWake` | examples/family-learning-hub/src/federation.ts:219-220 | each later stretch of a wake: parking the row again, receiving the answer of a crossing, recording the result |
| `FederationAnswers.SuccessIsNeeded` | packages/workflow/src/step-executors.ts:118-119 | over every run of events: a step is sent, and a run done, only behind an answer of success to the step before, which the other hub, if it crossed, had room for and has admitted |
| `FederationAnswers.FailureIsFinal` | packages/core/src/peer-link-install.ts:300-306 | behind a failed answer or a refusal by the quota nothing more of the run is sent and the run is never done |
| `FederationAnswers.FreshHaltsAtOnce` | examples/family-learning-hub/src/federation.ts:177-183 | a whitelisted lesson is halted by that answer itself |
| `FederationAnswers.AnswersDecide` | packages/workflow/src/step-executors.ts:118-141 | at rest and unharmed, a lesson whose first step was sent is done exactly if every step was answered with success within the quota, and halted exactly if one was not |
| `FederationAnswers.AdmittedIff` | examples/family-learning-hub/src/federation.ts:130-137 | the other hub admits a step exactly if it was answered over the link while there was room |
| `Workflow.ParkingIsTransparent` | packages/workflow/src/runner.ts:434-487 | parking at a human step and going on with the decision gives exactly the run in which the decision is given on the spot |
| `Workflow.DirectEnds` | examples/family-learning-hub/src/harness.ts:243-248 | a run writes at most one inbox item for each human step still ahead of it, and never stays parked when it is answered |
| `Workflow.AdvanceParks` | packages/workflow/src/runner.ts:444-472 | a run that stops suspended stands before a human step and has written exactly one item |
| `Workflow.ComparesIff` | packages/workflow/src/predicate.ts:14-20 | a comparison of two references is true if and only if neither has a value, or both have the same value and it is no object |
| `Workflow.ConditionsMean` | packages/workflow/src/predicate.ts:282-335 | exactly undefined, null, false and the empty text count as false, and not, and, or are those of logic |
| `Workflow.WhenMeans` | packages/workflow/src/runner.ts:504-525 | a step without a condition always runs, any other exactly if its condition is none of the four false values |
| `Workflow.WalkGoesOn` | packages/workflow/src/resolver.ts:258-275 | a path is walked name by name, through objects only; a name that is not there is undefined |
| `Workflow.StepOutputIs` | packages/workflow/src/resolver.ts:225-237 | the output of a step is its answer, undefined if it was skipped, and nothing while it is not finished |
| `WorkflowEnv.HistoryIsCoherent` | examples/family-learning-hub/src/harness.ts:262-296 | after any history of fired runs and resolved items: pending items and parked human rows match one to one, every waiting run owns one row and one pending item, ended runs own none; also when a run parks again |
| `WorkflowEnv.ResolveKeeps` | examples/family-learning-hub/src/harness.ts:262-296 | under coherence a resolve goes through exactly if its item is pending, and keeps coherence |
| `WorkflowStory.HistoryTells` | packages/workflow/src/runner.ts:434-487 | after any history the contacts and items of every run are exactly those of its finished steps; a skipped step is one whose condition failed; a completed run returns its output template |
| `WorkflowStory.EachStepOnce` | packages/workflow/src/runner.ts:278-412 | however often a run is parked and resumed, each of its steps reaches a participant at most once |
| `WorkflowStory.AnsweredOnce` | packages/workflow/src/runner.ts:322-372 | a finished dispatched step was dispatched exactly once, any other finished step not at all |
| `WorkflowAsks.HistoryAsks` | packages/workflow/src/resolver.ts:195-256 | after any history every contact of every run carries exactly what its step's payload template says of the trigger and of the answers before it |
| `WorkflowHarness.FiredIsNewest` | packages/inbox/src/file-inbox-store.ts:136-160 | a fired run that parks waits for the item the inbox lists first |
| `WorkflowHarness.DriveOnce` | examples/family-learning-hub/src/harness.ts:269-295 | resolving the first listed item moves its run strictly forward or ends it, leaves the rest of the answered run ahead unchanged, and moves no other run |
| `WorkflowHarness.DriveBound` | examples/family-learning-hub/src/harness.ts:243-244 | the run that is driven can write fewer further items than it has human steps left |
| `WorkflowHarness.Harness.RunFrom` | packages/workflow/src/runner.ts:434-535 | the step loop brings the hub to the state in which the run has advanced to its next park, its failure or its end |
| `WorkflowHarness.Harness.DispatchLesson` | examples/family-learning-hub/src/harness.ts:188-196 | firing the workflow: new run, its result, and its item first in the inbox if it parked |
| `WorkflowHarness.Harness.ResumeRun` | packages/workflow/src/runner.ts:344-395 | the suspended step takes over the latest result of its human step: park again, fail, or go on behind it |
| `WorkflowHarness.Harness.WakeRun` | packages/workflow/src/runner.ts:354-371 | a run woken before its human step is decided parks again and nothing changes |
| `WorkflowHarness.Harness.ResolveHumanStep` | examples/family-learning-hub/src/harness.ts:262-296 | returns a result exactly for a pending item, and the whole new state; anything else throws and changes nothing |
| `WorkflowHarness.Harness.ListPending` | packages/inbox/src/file-inbox-store.ts:136-160 | exactly the pending items, newest first |
| `WorkflowHarness.Harness.DriveToCompletion` | examples/family-learning-hub/src/harness.ts:233-250 | drives the run that owns the newest pending item and ends exactly as if its human steps had been answered at once; the gates it returns are that run's, the listed item first; throws exactly if more than ten come up; other runs and items stay as they were |
| `TutorTeach.EveryLessonIsGated` | examples/family-learning-hub/workflows/tutor-teach.yaml:56-107 | for every history, whitelist, rule list and any tutor: a run reaches the tutor at most once, only if a whitelist keyword occurs in its topic or the guardian approved, and exactly then if the run completes; the content gate of a completed run opened exactly if the lesson flagged itself or a rule fires; a failed run failed at the screening, exactly if its request was no object, or at the tutor, exactly if it was reached; with what each is reached is `TutorAsks.ParticipantsAreAsked` |
| `TutorTeach.FailsWhere` | examples/family-learning-hub/workflows/tutor-teach.yaml:56-92 | no other step of the lesson workflow can fail, and neither can its output |
| `TutorAsks.ParticipantsAreAsked` | examples/family-learning-hub/workflows/tutor-teach.yaml:56-92 | for every history: the screen is asked about exactly the request's topic; the tutor for exactly the request's topic and learner, and only if that topic is on the whitelist or was approved; the moderation about exactly the lesson the tutor answered in the same run |
| `TutorAsks.CompletedReturnsTheLesson` | examples/family-learning-hub/workflows/tutor-teach.yaml:103-107 | a completed run returns what the screen said, the tutor's own lesson and what the moderation said |
| `TutorDrive.AtMostTwoGates` | examples/family-learning-hub/src/harness.ts:243-248 | from any state, a waiting lesson is over after at most two gates |
| `TutorDrive.DriveLesson` | examples/family-learning-hub/src/harness.ts:233-255 | driving a fired lesson ends with its result after at most two gates; the guard against endless parking never fires |
| `TutorTeach.GatedAlways` | examples/family-learning-hub/workflows/tutor-teach.yaml:63-99 | which steps of a run are skipped, in terms of the request, the decision and the lesson |
| `TutorTeach.ScreenAnswer` | examples/family-learning-hub/src/participants.ts:188-195 | the screen's answer is a real boolean: allowed exactly if the trimmed, non-empty topic contains a keyword |
| `TutorTeach.ModerateAnswer` | examples/family-learning-hub/src/participants.ts:214-231 | the moderation flags exactly if some non-empty pattern occurs in the lower-cased text fields of the lesson |
| `TutorTeach.WhitelistMeans` | examples/family-learning-hub/src/participants.ts:188-195 | a request is on the whitelist exactly if its trimmed topic is not empty and is something, a keyword, and something |
| `TutorTeach.NoTopicIsNotOnWhitelist` | examples/family-learning-hub/src/participants.ts:188-195 | a request without a topic is never on it |
| `TutorTeach.RuleFlagMeans` | examples/family-learning-hub/src/participants.ts:214-231 | a rule fires exactly if its one-line pattern, in any case, occurs in one of the seven screened fields |
| `TutorTeach.CollectReasons` | examples/family-learning-hub/src/participants.ts:224-230 | the loop reports the rules that fire, in rule order |
| `TutorTeach.Reasons` | examples/family-learning-hub/src/participants.ts:224-230 | there is a reason exactly if a rule fires |
| `TutorTeach.NoRulesNoFlag` | examples/family-learning-hub/src/participants.ts:198-207 | an empty rule list never flags, which leaves the self-flag alone |
| `TutorTeach.ContentDecisionIsIgnored` | examples/family-learning-hub/workflows/tutor-teach.yaml:96-107 | the decision at the content gate does not change the output of the run |
| `CliRefinement.ExitRefinesInterpreter` | examples/codex-deepseek-hub/src/cli.ts:155-251 | a run that exits normally, with no goal delivered once it is stopping, has nothing in flight and made one shutdown; its session is the sequential interpreter's on the lines received, all of them unless it was told to quit |
| `CliRefinement.RunFollows` | examples/codex-deepseek-hub/src/cli.ts:172-231 | at every moment: at most one dispatch in flight, the session is the interpreter's after the lines taken so far, the rest waits in order, and once it should leave and nothing is awaited, shutdown has begun |
| `CliRefinement.NothingAfterQuitting` | examples/codex-deepseek-hub/src/cli.ts:174-176 | once it is quitting, nothing more is dispatched or edited, whatever arrives |
| `CliRefinement.QuitLineEnds` | examples/codex-deepseek-hub/src/cli.ts:107-110 | once a line that says quit, q or exit was taken, whatever follows the word, nothing that arrives later is dispatched or edited, and the session is that of the lines before it |
| `CliRefinement.EachGoalOnce` | examples/codex-deepseek-hub/src/cli.ts:212-217 | the interpreter dispatches each goal before the first quit exactly once, in order |
| `CliRefinement.RoutedUnderEarlierEdits` | examples/codex-deepseek-hub/src/cli.ts:197-205 | every goal meets the router of the policy folded from the understood edits before it |
| `CliRefinement.PolicyIsFolded` | examples/codex-deepseek-hub/src/cli.ts:192-202 | the policy in memory is the starting one folded over the understood edits |
| `CliRefinement.InterpretInStep` | examples/codex-deepseek-hub/src/cli.ts:199-205 | memory, file and registered router always say the same, in normal form |
| `CliRefinement.RestartKeepsPolicy` | examples/codex-deepseek-hub/src/cli.ts:128-132 | a session opened on the file that another one left starts with the policy that one ended with |
| `CliRefinement.AllLinesReceived` | examples/codex-deepseek-hub/src/cli.ts:235-251 | while it runs, and on an exit without quit, every line delivered was received |
| `CliRefinement.ClosedWithTheInput` | examples/codex-deepseek-hub/src/cli.ts:163-170 | the input interface is closed exactly when the input has ended, by itself or by the shutdown |
| `CliRefinement.IdleIff` | examples/codex-deepseek-hub/src/cli.ts:163-170 | over every event sequence: nothing is ever in flight while the hub is being stopped if and only if no goal line is delivered once it is being stopped for the end of its input |
| `Cli.ParseMeans` | examples/codex-deepseek-hub/src/cli.ts:177-196 | white space around a line never matters; what is a goal and what is an edit |
| `Cli.MetaMeans` | examples/codex-deepseek-hub/src/cli.ts:182-217 | what a line of a colon, any word and any rest is: quit, q and exit leave, roster is the roster, policy with a rest is an edit by exactly the trimmed rest, policy alone asks for usage, and nothing else does anything |
| `Cli.LineIs` | examples/codex-deepseek-hub/src/cli.ts:177-183 | every line is blank, a goal, or a colon with a word and a rest |
| `CliApp.App.OnLine` | examples/codex-deepseek-hub/src/cli.ts:235-238 | a line is queued, and handled at once unless a dispatch is awaited |
| `CliApp.App.OnSigint` | examples/codex-deepseek-hub/src/cli.ts:241-245 | the first SIGINT asks to quit, one while quitting exits with 130 |
| `CliApp.App.OnClose` | examples/codex-deepseek-hub/src/cli.ts:247-250 | the end of the input lets the queue finish and then leaves |
| `CliApp.App.Loop` | examples/codex-deepseek-hub/src/cli.ts:172-231 | the drain loop reaches the state the machine prescribes: it takes lines until one has to be awaited, and shuts down behind the last |
| `CliApp.App.ShutDown` | examples/codex-deepseek-hub/src/cli.ts:163-170 | one shutdown; the close handler it fires in passing changes nothing else |
| `CliApp.Desk.HandleLine` | examples/codex-deepseek-hub/src/cli.ts:182-217 | an understood edit goes to memory, file and router; a goal is dispatched; nothing else moves |
| `Policy.ReachableIsNormal` | examples/codex-deepseek-hub/src/policy.ts:110-120 | every policy reachable from the default by any edits is in normal form |
| `Policy.ClauseMeans` | examples/codex-deepseek-hub/src/policy.ts:122-152 | what a clause does to each field, in terms of the coders it mentions: who is off-call afterwards, who leads, whether one coder must do; which of two opposite patterns wins; all else stays |
| `Policy.ReportMeans` | examples/codex-deepseek-hub/src/policy.ts:122-152 | what a clause reports: exactly the coders it marks off or brings back, the lead it sets and the cap it sets or lifts, and nothing that was so before |
| `Policy.DisjointClausesCommute` | examples/codex-deepseek-hub/src/policy.ts:116-119 | clauses that edit different fields give the same stored policy in either order, key order included |
| `Policy.OffCallClausesCommute` | examples/codex-deepseek-hub/src/policy.ts:127-130 | two off-call clauses mark the same coders in either order |
| `Policy.NothingUnderstoodNothingChanged` | examples/codex-deepseek-hub/src/policy.ts:90-97 | an edit that reports no change stores the same policy if and only if no coder is listed off-call twice or no clause is about calls |
| `Policy.DuplicatesRewritten` | examples/codex-deepseek-hub/src/policy.ts:127-130 | a list with a duplicate is rewritten by an off-call clause that reports no change |
| `Policy.ApplyPolicyEdit` | examples/codex-deepseek-hub/src/policy.ts:110-120 | the loop over the clauses computes the edit: the folded policy in canonical key order and all changes |
| `PolicyFile.LoadAfterSave` | examples/codex-deepseek-hub/src/policy.ts:35-50 | a policy in normal form is read back exactly as written, key order included |
| `PolicyFile.LoadedIsNormal` | examples/codex-deepseek-hub/src/policy.ts:63-83 | whatever the file holds, or if it is missing or corrupt, what is loaded is in normal form |
| `PolicyFile.NoFileIsDefault` | examples/codex-deepseek-hub/src/policy.ts:35-44 | a missing, corrupt or empty file is read as both coders on call with their own strengths, no cap and no lead |
| `PolicyFile.DocumentMeans` | examples/codex-deepseek-hub/src/policy.ts:63-83 | field by field what any other document is read as |
| `PolicyFile.JunkAgentsAreDropped` | examples/codex-deepseek-hub/src/policy.ts:63-83 | an item that names no coder does not matter among those off-call |
| `PolicyFile.JunkProfilesAreDropped` | examples/codex-deepseek-hub/src/policy.ts:63-83 | nor does a profile without the name of a coder or without a list of strengths |
| `PolicyFile.NormalizeIdempotent` | examples/codex-deepseek-hub/src/policy.ts:63-83 | coercing the saved form of a coerced document changes nothing |
| `PolicyFile.SessionsCompose` | examples/codex-deepseek-hub/src/policy.ts:35-50 | saving and reloading between two series of edits is the same as one series |
| `Routing.PlanIsSound` | examples/codex-deepseek-hub/src/routing.ts:163-241 | nobody is dispatched twice, nobody off-call, and nobody at all exactly if no usable coder exists |
| `Routing.NamedIsMentioned` | examples/codex-deepseek-hub/src/routing.ts:45-55 | deepseek-tui is named exactly if the text mentions it, codex likewise, and deepseek-tui first |
| `Routing.NamedArePlanned` | examples/codex-deepseek-hub/src/routing.ts:144-203 | naming a coder on call decides the plan: exactly the named ones on call, in the order of naming |
| `Routing.UnusableNamingIsNone` | examples/codex-deepseek-hub/src/routing.ts:163-203 | naming only coders that are off-call is as good as naming none |
| `Routing.OneRoleIsFilled` | examples/codex-deepseek-hub/src/routing.ts:205-225 | without a usable naming, a review goes to one coder on call picked for review or analysis, the preferred lead first, and a trivial change to one picked for implementing |
| `Routing.TwoRolesAreFilled` | examples/codex-deepseek-hub/src/routing.ts:227-240 | any other goal: a lead picked for design, analysis or review and a different coder picked for implementing; the lead is alone exactly under the budget cap or when nobody else is on call |
| `Routing.UnusedOffCallChangesNothing` | examples/codex-deepseek-hub/src/routing.ts:163-257 | taking a coder off-call that the plan does not use leaves agents, kind and solo as they were |
| `Routing.Pick` | examples/codex-deepseek-hub/src/routing.ts:250-257 | a qualified coder if there is one, the preferred one if it qualifies |
| `Router.RouterDispatchesPlan` | examples/codex-deepseek-hub/src/router-provider.ts:50-84 | for every goal and arrangement the tool loop dispatches exactly the plan, once each and in order |
| `Router.OffCallIsNeverDispatched` | examples/codex-deepseek-hub/src/policy.ts:122-130 | a coder that a clause mentions and takes off-call is dispatched for no goal, however the goal names it |
| `Router.AssignedGoesToTheMentioned` | examples/codex-deepseek-hub/src/routing.ts:144-203 | a goal that assigns itself is dispatched exactly to the coders it mentions that are on call, deepseek-tui first; without one, as any other goal, by the standing arrangement |
| `Router.ClauseSteersTheGoals` | examples/codex-deepseek-hub/src/routing.ts:227-240 | what a clause says about budget and lead is what later goals meet: one coder at most under the cap, two without it if both are on call, the lead that was asked for first |
| `Router.DefaultRoutes` | examples/codex-deepseek-hub/src/routing.ts:205-240 | with the default roster: a review goes to deepseek-tui, a trivial change to codex, anything else is designed by deepseek-tui and implemented by codex |
| `ToolLoop.PlanIsDispatched` | packages/llm/src/agent.ts:738-832 | a brain that follows a plan dispatches the plan up to the round limit, and is aborted exactly if the plan is longer |
| `ToolLoop.EveryUseIsDispatched` | packages/llm/src/agent.ts:738-832 | for any brain: all that it asks for in a round is dispatched in order, round after round, up to the first reply that asks for nothing or the limit; the loop returns that reply |
| `ToolLoop.RoundSays` | packages/llm/src/agent.ts:770-832 | what a round adds to the conversation: the words, each dispatch, and each dispatch's own answer in the same place |
| `ToolLoop.RunToolLoop` | packages/llm/src/agent.ts:738-832 | the loop dispatches what the brain asks for, round by round, until it stops asking or the limit is reached |
| `ToolLoop.CountDispatched` | examples/codex-deepseek-hub/src/router-provider.ts:96-103 | the nested loops count the tool uses of the assistant messages |
| `ToolLoop.ReplanningFollows` | examples/codex-deepseek-hub/src/router-provider.ts:50-60 | counting the tool uses so far is a correct turn counter for a brain that re-plans on every turn |
| `Situation.PlanSession` | examples/battle-monk-training/src/situation.ts:103-146 | filter, sort and hand-out compute the plan: the first places of the priority order are drilled, all others deferred |
| `Situation.PlanPartitions` | examples/battle-monk-training/src/situation.ts:103-146 | every pillar of the roster is drilled or deferred, as often as it is listed |
| `Situation.DrillsFit` | examples/battle-monk-training/src/situation.ts:107-140 | as many drills as capacity and candidates allow, and never the body under a non-blank ailment |
| `Situation.OrderedIs` | examples/battle-monk-training/src/situation.ts:120-131 | the order places are handed out in is sorted by focus, rank and place and holds exactly the candidates |
| `Situation.SortIsUnique` | examples/battle-monk-training/src/situation.ts:122-131 | only one order satisfies the comparator, so any sort gives it |
| `Situation.HandedOutInOrder` | examples/battle-monk-training/src/situation.ts:120-131 | who goes first in that order: the focus, then the lower rank, then the earlier in the roster |
| `Situation.FitCuts` | examples/battle-monk-training/src/situation.ts:107-118 | the candidates are the roster in its own order without an ailing body, and only that is held for an injury |
| `Situation.PlanSaysWhy` | examples/battle-monk-training/src/situation.ts:132-146 | why each pillar is drilled or held, in the order the places are handed out |
| `Situation.MoreOnlyExtends` | examples/battle-monk-training/src/situation.ts:73-77 | on an otherwise equal day more minutes or more energy only extends the drill list |
| `Situation.CapacityMonotone` | examples/battle-monk-training/src/situation.ts:73-88 | capacity grows with time and energy, and the load is full or light exactly at its ends |
| `Situation.CapacityTable` | examples/battle-monk-training/src/situation.ts:73-88 | how many pillars and how hard for each energy and time: the cuts are at 20 and at 50 minutes |
| `Preceptor.FindBlockStable` | examples/battle-monk-training/src/preceptor-provider.ts:135-143 | appending text without a closing brace changes no block that is found |
| `Preceptor.FindBlockIs` | examples/battle-monk-training/src/preceptor-provider.ts:135-143 | what is found is the first block that stands behind its label, a colon and white space, from an opening brace to the first closing one; nothing is found exactly if there is none |
| `PreceptorSession.DrillSays` | examples/battle-monk-training/src/preceptor-provider.ts:64-69 | what the brain says with a dispatch: the pillar and why it is its turn |
| `PreceptorPrompt.NothingToRead` | examples/battle-monk-training/src/preceptor-provider.ts:109-118 | a prompt without the two blocks is drilled as a normal day of a beginner |
| `PreceptorPrompt.EachRankIsRead` | examples/battle-monk-training/src/preceptor-provider.ts:109-118 | the ranks in the order body, mind, lore; one that the block does not tell is 1 |
| `PreceptorSession.LoopDispatchesThePlan` | examples/battle-monk-training/src/preceptor-provider.ts:58-99 | for every prompt the loop dispatches exactly the drills planned from it and stops, although the plan is read anew from the growing conversation each turn |
| `PreceptorPrompt.DayReadBackIff` | examples/battle-monk-training/src/preceptor-provider.ts:135-143 | the day is read back as written if and only if its JSON has no closing brace but the last |
| `PreceptorPrompt.ArchiveMatch` | examples/battle-monk-training/src/preceptor-provider.ts:135-143 | the ranks are read as written, unless the day holds an archive block of its own, which is then read instead |
| `PreceptorPrompt.SessionDrillsThePlan` | examples/battle-monk-training/src/index.ts:143-153 | from the written prompt to the dispatches: exactly the plan of the day and the ranks |
| `PreceptorPrompt.BracedDayIsNormal` | examples/battle-monk-training/src/preceptor-provider.ts:109-118 | a day with an earlier closing brace whose remainder does not parse: the loop drills the plan of a normal day, whatever the day says about time, energy, focus and ailment |
| `PreceptorPrompt.BraceDrillsTheInjured` | examples/battle-monk-training/src/preceptor-provider.ts:135-143 | one such day, with a brace in its ailment: the plan of the day as written spares the body, and the body is drilled |
| `LineMarks.AppendAddsOne` | examples/battle-monk-training/src/codex.ts:67-73 | appending an entry line adds exactly one entry to the count |
| `Codex.Archive.constructor` | examples/battle-monk-training/src/codex.ts:39-52 | after the induction every pillar holds one entry |
| `Codex.BaselineReads` | examples/battle-monk-training/src/codex.ts:39-52 | each file opens with its pillar's heading and the entry of rank 0 |
| `Codex.Archive.HandleTask` | examples/battle-monk-training/src/pillar-agent.ts:73-96 | one task appends exactly one entry to its own pillar, numbered by the entries before it, with the directive of that rank and load |
| `Codex.EntryReads` | examples/battle-monk-training/src/pillar-agent.ts:88-96 | an entry says its rank, the load of the day, what it builds on and the directive |
| `Training.FairOverAllDays` | examples/battle-monk-training/src/situation.ts:103-146 | over any number of days without focus and ailment and of any length, the spread of the ranks never exceeds its initial value, or one |
| `Training.FocusDriftsApart` | examples/battle-monk-training/src/situation.ts:122-127 | under a focus the spread grows by one a day, without bound |
| `Training.LowestFirst` | examples/battle-monk-training/src/situation.ts:126-140 | on a plain day no drilled pillar ranks above one that is left out |
| `Training.TrainDay` | examples/battle-monk-training/src/pillar-agent.ts:73-96 | a session raises exactly the planned pillars, by one each |
| `Training.Train` | examples/battle-monk-training/src/codex.ts:67-73 | over any series of sessions the archive holds what the days' plans add up to, and stays within one entry from pillar to pillar on plain days |
| `Sweep.EveryJobDrains` | examples/a2a-long-running-step/src/demo.ts:225-235 | for any number of jobs, fired at any time, with sweeps between the stretches of a firing and firings between the rows of a sweep, and any row order: each remote is sent to once and asked until it settles or the attempts are used up; one sweep later, with its run parked, the archive step ran exactly once if the remote settled in time, and no row of the job is parked, unless the review settled before its firing had recorded that it waits: then and only then the run stays parked and the archive step never runs |
| `Sweep.AllDrained` | examples/a2a-long-running-step/src/demo.ts:262-264 | when every job has seen more sweeps than there are attempts, one of them with its run parked, and none settled too early, nothing is parked |
| `Sweep.SweepOk` | examples/a2a-long-running-step/src/demo.ts:225-235 | one sweep polls every waiting review exactly once and ends every run whose review had settled, in any row order |
| `Sweep.DoomedIff` | packages/core/src/scheduler.ts:307-366 | a state shows whether a review settled in some sweep before its firing had recorded that it waits |
| `Sweep.RestedIsNeverEarly` | examples/a2a-long-running-step/src/demo.ts:242-264 | no review settles too early if no sweep begins while a firing still has to record that its review waits, as in the demo, which awaits the firing |
| `Sweep.EarlySettlingStrands` | packages/core/src/scheduler.ts:307-366 | a run from the start: a sweep completes the review before its firing records it as suspended; the run is parked behind a result that nobody will bring again |
| `SweepHub.Hub.Resume` | packages/a2a/src/participant.ts:175-240 | one row: settle, poll again with the next attempt, or fail closed after the last; a run folds its review's result or parks again |
| `SweepHub.Hub.SweepOnce` | examples/a2a-long-running-step/src/demo.ts:225-235 | the loop over the snapshot is the sweep |
| `SweepHub.Hub.FireRun` | packages/core/src/scheduler.ts:307-330 | a firing sends once and parks the review |
| `SweepHub.Hub.ContinueFiring` | packages/core/src/scheduler.ts:331-352 | behind the notifier the suspended result is recorded, and then the run is parked |
| `SweepHub.Hub.TasksGet` | examples/a2a-long-running-step/src/demo.ts:129-145 | each poll is counted, and answered as completed from the needed one on |
| `Heartbeat.NeverAheadOfTime` | examples/heartbeat-agent/src/index.ts:155-163 | for every row at all times, also with rows seeded while a sweep awaits its fires: it rests for one interval between two of its fires, so fires times interval and the time its fires took are together at most the time since its seed |
| `Heartbeat.SweepFiresEachDueRowOnce` | examples/heartbeat-agent/src/index.ts:203-213 | a sweep loses no row, and of the rows that are not seeded anew while it runs it fires each due one exactly once and no other, however long the fires take |
| `Heartbeat.DueSorted` | examples/heartbeat-agent/src/index.ts:205-205 | rows are resumed in the order they fell due |
| `Heartbeat.Broker.HandleResume` | examples/heartbeat-agent/src/index.ts:155-163 | whether the fire threw or not, the row parks one interval after it; only what its reply deserves is surfaced |
| `Heartbeat.Broker.Report` | examples/heartbeat-agent/src/index.ts:239-257 | an idle reply stays quiet, an active or failed one is surfaced |
| `Heartbeat.Broker.RunSweep` | examples/heartbeat-agent/src/index.ts:203-213 | the sweep loop over the rows due at its start, and their number, when nothing is seeded meanwhile |
| `Heartbeat.Broker.Park` | examples/heartbeat-agent/src/index.ts:225-233 | insert or replace: one row for each id, in its old place |
| `Heartbeat.SurfacedIsReal` | examples/heartbeat-agent/src/index.ts:114-123 | what is surfaced is never blank nor the sentinel, and reads the same again |
| `Heartbeat.ReplyMeans` | examples/heartbeat-agent/src/index.ts:114-123 | what each kind of reply means: a failure is surfaced with its error; a text is idle exactly if it is blank or the sentinel, and is surfaced trimmed otherwise |
| `Course.EachLessonIsOwn` | examples/family-learning-hub/src/participants.ts:274-321 | under any interleaving of learners, what is taught on a request is a function of that learner's own topics so far |
| `Course.AllFilesThere` | examples/family-learning-hub/src/teach-workspace.ts:164-220 | a learner whose n lessons by the tutor were all recorded, in any order and however often, has n lesson files and n - 1 records |
| `Course.MissionNeverChanges` | examples/family-learning-hub/src/teach-workspace.ts:174-181 | from the recording of the tutor's first lesson on, MISSION.md holds that learner's first topic and the reason made from it, whatever is recorded afterwards |
| `Course.DiskIsFiled` | examples/family-learning-hub/src/teach-workspace.ts:164-193 | at any time a learner's directory holds exactly the recorded lessons, and a record for each but the first |
| `Lessons.LessonShape` | examples/family-learning-hub/src/teach.ts:118-186 | lesson k is numbered k, the first establishes the mission, every later one has an insight, and from the third on it builds on the insight of the one before |
| `Lessons.LessonIsAbout` | examples/family-learning-hub/src/teach.ts:118-167 | lesson k is about the topic asked for, or the default for a blank one; its quiz, source, glossary, title and insight are of that topic and number |
| `Lessons.MissionStays` | examples/family-learning-hub/src/teach.ts:122-124 | every lesson works for the mission the first one established |
| `Lessons.MemoryCounts` | examples/family-learning-hub/src/participants.ts:314-320 | the memory after n lessons: n taught, n - 1 insights, the newest being the last lesson's |
| `Lessons.LessonTutor.HandleTask` | examples/family-learning-hub/src/participants.ts:274-321 | the lesson planned from the learner's own memory; only that memory moves |
| `Workspaces.WritingIsIdempotent` | examples/family-learning-hub/src/teach-workspace.ts:164-220 | writing a lesson twice leaves the whole workspace as writing it once |
| `Workspaces.WritingOnlyAdds` | examples/family-learning-hub/src/teach-workspace.ts:93-99 | the old RESOURCES and GLOSSARY are prefixes of the new, and no bullet is lost |
| `Workspaces.StandardSeparates` | examples/family-learning-hub/src/teach-workspace.ts:171-172 | lessons with different numbers never share a file name |
| `Workspaces.FilesAreNamed` | examples/family-learning-hub/src/teach-workspace.ts:171-184 | a lesson file is named after its title and a record after its insight's: number, dash, the letters of that title |
| `Bullets.AppendedIff` | examples/family-learning-hub/src/teach-workspace.ts:88-99 | for every file and every non-empty line: it is appended as one more entry behind the others if and only if no line of the file contains it, else nothing changes |
| `Bullets.LostIff` | examples/family-learning-hub/src/teach-workspace.ts:83-95 | a line is missing after it was offered if and only if it is a proper part of some line of the file and itself none |
| `Bullets.ListedOnceIff` | examples/family-learning-hub/src/teach-workspace.ts:88-99 | for every series of lines: each distinct line is listed exactly once, in order of first occurrence, if and only if none is part of an earlier one or of what the file began with |
| `Bullets.FileListsOnceIff` | examples/family-learning-hub/src/teach-workspace.ts:93-99 | and so is what appending the series to a file leaves in it |
| `Bullets.LinesJoin` | examples/family-learning-hub/src/teach-workspace.ts:79-83 | splitting a text at its line feeds gives one-line pieces, and joining them gives the text |
| `Bullets.BulletIs` | examples/family-learning-hub/src/teach-workspace.ts:81-86 | an entry is a line that begins with a dash and a blank |
| `Bullets.TotalIff` | examples/family-learning-hub/src/teach-workspace.ts:79-83 | the bullet count of a file that was begun with its heading equals the number of distinct lines offered if and only if nothing is lost, and is never more |
| `TutorLines.ResourceSwallowIff` | examples/family-learning-hub/src/teach.ts:142-142 | the source line of one topic is part of another's if and only if the topics are equal, or the other topic ends with the line up to its topic, begins with its topic and all behind it, or holds the whole line |
| `TutorLines.GlossedSwallow` | examples/family-learning-hub/src/teach.ts:152-154 | below a topic without stars only the same lesson's term line is found |
| `TutorLines.GlossedSwallowIff` | examples/family-learning-hub/src/teach.ts:152-154 | the term line of another lesson is part of a term line if and only if the topic, twice as it stands there, holds that line whole or begins with all of it behind its opening words |
| `CourseTotals.SourcesListedOnceIff` | examples/family-learning-hub/src/teach-workspace.ts:195-199 | for any course, recorded in any order and however often, on one-line topics: RESOURCES.md has as many bullets as there are distinct topics if and only if no topic quotes the line of a later new one in one of these ways |
| `CourseTotals.EverySourceIsListed` | examples/family-learning-hub/src/teach-workspace.ts:195-199 | in particular it has one bullet for each distinct topic when no topic has a title mark |
| `CourseTotals.QuotedTopicIsLost` | examples/family-learning-hub/src/teach-workspace.ts:95-95 | two lessons, the first on a topic that quotes the end of the second's line: the second source is never listed |
| `CourseTotals.TermsListedOnceIff` | examples/family-learning-hub/src/teach-workspace.ts:201-206 | for any such course: GLOSSARY.md has as many bullets as there are distinct recorded lessons if and only if neither the learner's name nor an earlier topic holds the line of a new lesson in one of these ways |
| `CourseTotals.EveryTermIsListed` | examples/family-learning-hub/src/teach-workspace.ts:201-206 | in particular it has one bullet for each recorded lesson when neither the learner's name nor a topic has a star |
| `Workspaces.ChildDesk.WriteTeachWorkspace` | examples/family-learning-hub/src/teach-workspace.ts:164-220 | the writer's new disk: only the learner's directory changes; the totals are the files and bullets there |
| `Teach.FileNamesDiffer` | examples/family-learning-hub/src/teach-workspace.ts:171-184 | the padded number decides the file, whatever the slug |
| `Teach.SlugIsOneName` | examples/family-learning-hub/src/teach-workspace.ts:67-73 | a slug is never empty and holds no separator, dot or white space |
| `Teach.SlugKeepsTheLetters` | examples/family-learning-hub/src/teach-workspace.ts:67-73 | a slug keeps exactly the letters of the lower-cased title, in order, with single dashes between; only a title without any gives the fallback |
| `Teach.LetterIs` | examples/family-learning-hub/src/teach-workspace.ts:67-73 | which characters those are |
| `Teach.QuizIsFair` | examples/family-learning-hub/src/teach.ts:218-230 | three options of equal length, exactly one of them right, at the place the lesson number says |
| `Teach.EqualizeOptionLengths` | examples/family-learning-hub/src/teach.ts:193-199 | all options get the same length, each keeps its text in front, and equal ones stay as they are |
| `Teach.FilledUp` | examples/family-learning-hub/src/teach.ts:193-199 | the length is that of the longest option, and the others are filled up with ideographic spaces |
| `Teach.MakeStudyQuiz` | examples/family-learning-hub/src/teach.ts:218-230 | the loop places the right option and the distractors in order around it |
| `Steward.ExecutedIsAllowed` | examples/im-steward-bridge/src/steward-port.ts:172-231 | over every interleaving: inline executions are exactly the safe applies and the inbox exactly the risky ones, in order; an item is executed once if approved and never otherwise; nothing forbidden runs |
| `Steward.AppliesAreOwn` | examples/im-steward-bridge/src/steward-router.ts:228-253 | every apply takes an action of that user's own latest finished proposal; which one is `StewardBinding.AppliedIsNumbered` |
| `StewardBinding.AppliedIsNumbered` | examples/im-steward-bridge/src/steward-router.ts:240-253 | over every run: a logged apply belongs to a message that says `/apply k`, k is from 1 to the length of that user's latest finished proposal, and the action is its k-th |
| `StewardBinding.NumberedIsApplied` | examples/im-steward-bridge/src/steward-router.ts:240-253 | and such a message makes that apply when it is routed, any other apply message none |
| `StewardBinding.PlannedIsProposed` | examples/im-steward-bridge/src/steward-router.ts:206-226 | a stored plan is what the planner proposed to that user for the instruction of some message of theirs |
| `StewardBinding.DecidedAsAsked` | examples/im-steward-bridge/src/steward-port.ts:201-214 | in every reachable state a pending item is decided as it is asked to be, and executed exactly on approval |
| `StewardBinding.AppliesAsLookedUp` | examples/im-steward-bridge/src/steward-router.ts:160-183 | over every interleaving: an apply is made for the user its account was bound to at that message's own lookup, and there is only one such lookup |
| `StewardBinding.StillBoundIff` | examples/im-steward-bridge/src/steward-router.ts:160-200 | at the apply the account is still bound to that user if and only if every unbind, and every binding to someone else, that took effect since the lookup was followed by a binding back |
| `StewardBinding.LateApplyOutlivesUnbind` | examples/im-steward-bridge/src/steward-router.ts:160-200 | a run from the start in which an apply has looked up its user, an unbind takes the binding, and the apply is then executed inline for an unbound account |
| `StewardBinding.LogIsTrue` | examples/im-steward-bridge/src/steward-router.ts:240-253 | the log notes an apply exactly when one is made |
| `Steward.DecidedOnce` | examples/im-steward-bridge/src/steward-port.ts:201-214 | a second decision on an item changes nothing |
| `StewardBinding.ClearedForGoodIff` | examples/im-steward-bridge/src/steward-router.ts:190-226 | when an unbind clears a user's proposal, the user has none in any continuation without a new plan of theirs if and only if no plan of theirs was looked up or under way at that moment |
| `StewardBinding.LatePlanOutlivesUnbind` | examples/im-steward-bridge/src/steward-router.ts:190-226 | a run from the start in which a plan is under way, an unbind clears the user, and the plan is then stored for an unbound user |
| `StewardApp.App.ApplyOne` | examples/im-steward-bridge/src/steward-port.ts:172-193 | re-classified: refused, executed, or parked, and nothing else |
| `StewardApp.App.ResolveInbox` | examples/im-steward-bridge/src/steward-port.ts:201-214 | only a pending item is flipped, and executed on approval |
| `StewardApp.App.Execute` | examples/im-steward-bridge/src/steward-port.ts:216-231 | the three lists are what was executed, sort by sort |
| `StewardApp.App.Continue` | examples/im-steward-bridge/src/steward-router.ts:137-203 | each stretch of a message's handling between awaits: lookup, routing, storing a plan, removing a binding, clearing |
| `StewardApp.App.RouteFrom` | examples/im-steward-bridge/src/steward-router.ts:167-203 | apply, plan and unbind for the user that was looked up; the number of an apply counts from one |
| `Sparkline.BinsAreNonEmpty` | examples/loadtest/src/report.ts:73-78 | every bin holds a sample and none reaches past the last |
| `Sparkline.EverySampleIsShown` | examples/loadtest/src/report.ts:73-78 | every sample falls in some bin |
| `Sparkline.LevelIsMonotone` | examples/loadtest/src/report.ts:83-85 | a higher average is never drawn lower |
| `Sparkline.HigherBinsAreHigher` | examples/loadtest/src/report.ts:76-85 | a bin whose samples are all at least those of another is drawn at least as high |
| `Sparkline.LevelCuts` | examples/loadtest/src/report.ts:83-85 | a block is at least k eighths high exactly if the average is at least k eighths of the range above the least sample |
| `Sparkline.EndsAreDrawn` | examples/loadtest/src/report.ts:69-85 | the least sample is drawn lowest and the greatest, if it is a tenth above, highest |
| `Sparkline.BinShows` | examples/loadtest/src/report.ts:73-78 | which samples a bin shows: those that its share of the samples touches |
| `Sparkline.SumSplits` | examples/loadtest/src/report.ts:78-82 | a bin's sum is that of its parts |
| `Sparkline.AverageIs` | examples/loadtest/src/report.ts:78-82 | the average, taken as often as there are samples, is their sum |
| `Sparkline.RangeIs` | examples/loadtest/src/report.ts:69-72 | the range is what lies between the least and the greatest sample, but never less than a tenth |
| `Sparkline.AsciiSparkline` | examples/loadtest/src/report.ts:66-88 | one block for each bin, within the eight levels, and none for no samples |
| `Numbers.NoLeadingZero` | examples/family-learning-hub/src/teach-workspace.ts:170-171 | a number is written without leading zeros |
| `Numbers.PaddedKeeps` | examples/family-learning-hub/src/teach-workspace.ts:170-171 | padding brings it to four digits at least and keeps its value |
| `Text.TrimCuts` | examples/codex-deepseek-hub/src/cli.ts:177-178 | trimming takes away white space at both ends and nothing else |
| `Text.TrimIs` | examples/codex-deepseek-hub/src/cli.ts:177-178 | and no other text is what trimming leaves |
| `Text.IncludesMeans` | examples/family-learning-hub/src/teach-workspace.ts:201-206 | a text includes a part exactly if it is something, the part, and something |

## Left out

- WebSocket handshakes, bearer tokens, vaults, JSON-RPC envelopes, data-class contracts and credentials: only their outcome (admitted or refused) is modelled.
- A peer or tutor that itself suspends behind the gate: the federation model's remote steps answer ok or failed.
- Gated tasks without a workflow parent: the resolver rejects them after the gate was resumed.
- Parallel workflow steps, retries, `continue` on failure, revisions of a definition and the run store: the modelled workflows use none of them.
- Workflow.ComparesIff: an object equals nothing there, while in the code it equals itself; object identity is not modelled.
- Reasons, rationales, prompts, banners and rendered pages: a lesson file is identified by the lesson it renders, and `dispatchPrompt` is not modelled.
- Failing file writes: saving the policy, the archive and the workspace always succeeds.
- FederationHub.ChildHub.WakeGate: a wake of a parked run is not modelled there, because it folds the same results the resolver folds; WorkflowHarness.Harness.WakeRun covers it.
- The harness with several resolvers at once: its resolve is one transition; the interleaved version is the federation model.
- A row that is seeded anew under its own id while a sweep holds the old one: the model follows the code, which parks the old row's next beat over it, but only the bound of `Heartbeat.NeverAheadOfTime` is stated for it.
- SweepHub.Hub.SweepOnce: the method runs while no firing moves; the sweeps of the theorems may have firings between their rows.
- Heartbeat.Broker.RunSweep: the method runs while nothing is seeded; the theorems cover seeds between its rows.
- CourseTotals.SourcesListedOnceIff: topics and learner ids with a line break are left out, here and in `CourseTotals.TermsListedOnceIff`, because their entries are more than one line.
- Remote reviews that are answered at once, fail or are cancelled on their own, and turning polling off while tasks are parked.
- The notify-back messages of the steward, its help text and error replies, and the `reachable` map behind them.
- The tutor's self-flag keywords: the tutor's answer is arbitrary in the workflow model.
- Defaults that `records.append` fills in for a partial lesson.
- Ranks in the archive prompt are integers; JSON numbers with fractions are not modelled.
- Cafe, bar and cross-hub-workflow examples: the same two-step resolver again.
