# Codebase Gardener: verification

A Dafny model of the parts of Codebase Gardener that carry real logic, with proofs of what they
promise. `dafny verify dfyconfig.toml` verifies everything.

The service analyses repositories, plans maintenance pull requests, executes them, and learns from
what becomes of them. The modules follow that path:

| files | what they model |
|---|---|
| `Graphs`, `Tarjan`, `Json`, `JsonText`, `Payload` | import cycles by Tarjan's algorithm, with its recursion, index counter, stack, on-stack set and lowlinks; the backward search for the last JSON value in a tool's output, and JSON values as trees with their renderings |
| `Policy`, `Ranking`, `Grouping`, `PlanRule`, `BranchNames`, `Planner` | one planning call: policy decisions, ranking, first-fit grouping with path conflicts, plan fields, unique branch names; and the rule the plans follow, read off the context |
| `Gate`, `Execution`, `ExecutionSafety`, `ExecutionAlone`, `ExecutionChoice`, `ExecutionRetry` | which plans may run, and the execution protocol as a state machine over database and GitHub calls |
| `DocsNote`, `EditMatching`, `LineWords`, `EditBlocks`, `Chunking`, `Workers` | the two authors of file changes: the marker-delimited documentation note, and the model's SEARCH/REPLACE edits with their matching tiers, chunking and parallel workers |
| `Learning`, `OutcomeCounts` | the repository profile learned from pull request outcomes, against the recount in the rendered profile |
| `RepoSync`, `SelectionTrail`, `WebhookEvents` | repository selection with its audit trail; the life of a stored webhook delivery |
| `Drift`, `DriftHotspots`, `Entropy`, `Rounding` | the drift report as a keyed difference; the entropy score |
| `Text`, `Options` | strings as Python sees them: find, strip, split into lines, join |

Code that changes state step by step is a class or a method with loops, proved against a function of
its inputs or of the old state (`SccFinder`, `PlanRecord`, `GardenerProfile`, `RepositoryTable`,
`WebhookEvent`, the matching tiers, the chunker, the report builders). Lemmas then say what that
function means.

## Assumptions that are part of the statements

- Execution (`Execution.Enabled`): a worker acts only within the stale timeout of its claim, and is
  gone otherwise; the trees of the default branch and of branches made by others hold no marker of an
  unfinished plan; nobody closes a pull request, opens one from a plan's branch, or deletes a branch;
  each database or GitHub call is one step. Workers may die between any two steps, and any number of them run interleaved.
- Planning: `fnmatch` is an arbitrary relation, confidences are reals, and the plan-wide results
  assume distinct ids among the opportunities not linked yet. `Planner.PlanMaintenancePrs` shows that
  the call fails exactly when they are not distinct.
- Matching: the similarity ratio is any function with `f(x, y) <= f(y, y) = 1`. Whether a text parses
  as Python is any predicate, and the top-level line numbers of a file any set.
- Learning: a plan keeps its category and paths, and outcomes for one repository are recorded one
  after the other (the source holds a row lock).
- Repository selection: one event completes before the next begins.
- Webhook deliveries: a request checks the row and queues it in one step. The source uses two
  statements; `WebhookEvents.SoundIffHarmless` says exactly when that goes well, and
  `WebhookEvents.LateEnqueueRoutesTwice` shows it going wrong.

## What turned out not to hold

- The docs note is idempotent exactly when no section carries the end marker and the document has no
  start marker without an end marker (`DocsNote.NoteIdempotentIff`). Otherwise the second application
  deletes text (`DocsNote.DanglingExample`) or the document grows with every application
  (`DocsNote.UncleanNeverSettles`).
- A docs plan whose run wrote every note and then died can never succeed: later runs change nothing
  and fail (`ExecutionRetry.StuckForever`; `ExecutionRetry.CrashedRun` is such a run from the
  beginning). Left alone, a run takes the first of its ten branch names that is free and succeeds
  exactly when it finds a target file there that its note, or what the author answers, changes
  (`ExecutionChoice.RetrySucceedsIff`); a docs plan on its own branch is stuck exactly otherwise
  (`ExecutionRetry.StuckIffNothingToChange`).
- Planning leaves plans of an unsupported tier unblocked when their category is advisory or assisted;
  the guard then refuses them (`Planner.UnsupportedTierIsPlanned`; exact condition in
  `Planner.ApprovedPlanRuns`).
- The unique-match tier says it avoids replacing the wrong block, but the edit replaces the first
  textual occurrence of the matched lines, which may be inside an earlier line
  (`EditBlocks.LandsElsewhere`). That is the only way it can go wrong: the edit lands on the picked
  window exactly when its text does not occur earlier across the edge of a line
  (`EditBlocks.LandsOnWindowIff`).
- How a plan ended depends on the delivery order exactly when two different terminal outcomes were
  delivered for it (`OutcomeCounts.EndingOrderFreeIff`).
- A webhook delivery whose worker dies while routing is never processed (`WebhookEvents.CrashAbandons`);
  that is the only way to get stuck (`WebhookEvents.EndsUnlessAbandoned`).
- Finding one more signal can lower the entropy score (`Entropy.MildSignalLowersScore`; exact
  condition for a component in `Entropy.LevelDropsIffMild`, and the score moves by exactly as much as
  the component's rounded share, `Entropy.ScoreMovesWithShare`).

## Model

| member | source | states |
|---|---|---|
| `Tarjan.StronglyConnectedComponents` | analysis_engine/src/gardener_analysis/repowise.py:503-539 | For every finite graph and every neighbour order it ends with a partition of all nodes into components in which two nodes share a component exactly when each reaches the other. |
| `Tarjan.SccFinder.Visit` | analysis_engine/src/gardener_analysis/repowise.py:511-534 | The recursive visit of an undiscovered node ends, keeps the invariant (among it: emitted components are complete classes) and everything that was on the stack, and leaves a lowlink that is the node's own index with nothing of it left on the stack, or the index of a node that was on the stack and that it reaches; no edge from what it left on the stack leads lower. |
| `Tarjan.SccFinder.PopTo` | analysis_engine/src/gardener_analysis/repowise.py:526-533 | The pop loop takes off exactly the nodes at and above the root and returns them as one component. |
| `Tarjan.PopComponent` | analysis_engine/src/gardener_analysis/repowise.py:525-534 | When a node's lowlink equals its index, the nodes above it on the stack are exactly those mutually reachable with it, and retiring them keeps the invariant. |
| `Tarjan.ImportGraph` | analysis_engine/src/gardener_analysis/repowise.py:449-466 | The graph has an edge for every import edge between files and no other. |
| `Tarjan.KnowledgeGraphCycles` | analysis_engine/src/gardener_analysis/repowise.py:449-485 | Reported cycles are disjoint components of at least two files, at most fifty; when fewer than fifty are reported, a file lies on a multi-file import cycle exactly when it is in one of them. |
| `Tarjan.CycleMembers` | analysis_engine/src/gardener_analysis/repowise.py:468-485 | A file is mutually reachable with another file exactly when it is in a component of at least two. |
| `Payload.FinalPayload` | analysis_engine/src/gardener_analysis/repowise.py:222-250 | For every output: it returns a position exactly when a written array or object stands there and only white space follows, and then no other position has one; it returns nothing exactly when there is no such position. |
| `Payload.LoggedPayload` | analysis_engine/src/gardener_analysis/repowise.py:222-250 | Any noise, any array or object in any rendering, any white space: the payload is behind the noise. |
| `JsonText.ValueScanned` | analysis_engine/src/gardener_analysis/repowise.py:233-242 | The scanner goes over every rendered value to its end: literals, numbers, escaped strings, arrays and objects of any length, any white space between tokens. |
| `JsonText.ValueParsed` | analysis_engine/src/gardener_analysis/repowise.py:233-242 | Whatever the scanner accepts is the rendering of a value, an array or object exactly behind an opening bracket. |
| `JsonText.ContainerIff` | analysis_engine/src/gardener_analysis/repowise.py:233-242 | From an opening bracket on, the scanner ends exactly where the rendering of an array or object does. |
| `Payload.PayloadUnique` | analysis_engine/src/gardener_analysis/repowise.py:222-250 | At most one opener in a text has a JSON value that ends exactly with the text, so the rightmost hit is the only one. |
| `Payload.OppositePhase` | analysis_engine/src/gardener_analysis/repowise.py:233-249 | Reading from an opener inside a string of an earlier reading stays in the opposite quote phase, in or out of a string, for as long as both readings are legal. |
| `Payload.NoiseIsIgnored` | analysis_engine/src/gardener_analysis/repowise.py:222-250 | Whatever is printed before a final JSON value, that value's position is the one and only hit. |
| `Payload.StripKeepsPayload` | analysis_engine/src/gardener_analysis/repowise.py:222-226 | White space after a final JSON value is all that stripping removes. |
| `Policy.ThresholdOnlyRises` | backend/apps/maintenance_prs/policy.py:29-63 | A constitution can raise the configured confidence threshold, never lower it, and never above one. |
| `PlanRule.PolicyAllowsPlannable` | backend/apps/maintenance_prs/planner.py:162-216 | Policy allows an opportunity exactly when no open question blocks, no blocker but the policy's own markers is left, no path is off limits, the confidence suffices, and its category is listed as advisory or assisted, or as autonomous with a supported tier and no rejection; each condition spelled out over the context's fields. |
| `PlanRule.ThresholdReached` | backend/apps/maintenance_prs/policy.py:29-63 | The effective threshold is the least confidence that reaches the configured default, the first risk policy that is present (a percentage above one, capped at certainty) and 0.97 for a reverted category. |
| `PlanRule.PolicyReasonsHold` | backend/apps/maintenance_prs/planner.py:162-216 | The reason given for a policy block is a true one. |
| `PlanRule.KeptIff` | backend/apps/maintenance_prs/planner.py:76-103 | An opportunity is kept exactly when it is not linked yet, plannable, and shares no path with one kept at an earlier rank. |
| `PlanRule.ConflictLosesToBetter` | backend/apps/maintenance_prs/planner.py:59-92 | What is held back for a path conflict alone shares a path with a kept one that is of an accepted category when it is not, or else at least as sure. |
| `Ranking.SortIsRanked` | backend/apps/maintenance_prs/planner.py:59-68 | Sorting keeps every opportunity and puts none behind one it outranks. |
| `Ranking.InKeyOrder` | backend/apps/maintenance_prs/planner.py:59-68 | Of two ranked opportunities the first is of an accepted category when only one of them is, else at least as sure; between equals, category and id decide by their first different character. |
| `Ranking.SortIgnoresOrder` | backend/apps/maintenance_prs/planner.py:59-68 | With distinct ids, the ranking does not depend on the order the opportunities came in. |
| `Grouping.GroupOpportunities` | backend/apps/maintenance_prs/planner.py:76-103 | The grouping loop computes the groups and forced blocks of `Placed`, the function the results below are about. |
| `Grouping.KeptDisjoint` | backend/apps/maintenance_prs/planner.py:313-329 | The opportunities that survive policy and conflict blocking share no path with each other. |
| `Grouping.KeptMaximal` | backend/apps/maintenance_prs/planner.py:78-92 | An allowed opportunity is dropped only for a kept one ranked before it that shares a path with it. |
| `Grouping.PlacedChunked` | backend/apps/maintenance_prs/planner.py:76-103 | Within each category and risk tier the unblocked groups are the kept opportunities in rank order, cut into runs of three: first fit never skips a group for its paths. |
| `Grouping.UnblockedGroupsDisjoint` | backend/apps/maintenance_prs/planner.py:299-349 | No two opportunities in unblocked groups, of one group or of two, share a path. |
| `Grouping.BlockedGroupIsSingle` | backend/apps/maintenance_prs/planner.py:83-92 | A blocked group holds a single opportunity. |
| `Grouping.EveryFreshLandsOnce` | backend/apps/maintenance_prs/planner.py:76-103 | Every opportunity not linked yet lands in exactly one group, and nothing else does. |
| `Grouping.ClassGroupCount` | backend/apps/maintenance_prs/planner.py:94-103 | A category and tier with n kept opportunities gets ceil(n/3) unblocked groups, all but the last of them full. |
| `Grouping.NoFewerGroups` | backend/apps/maintenance_prs/planner.py:299-310 | No split into groups of at most three has fewer groups. |
| `BranchNames.UniqueBranchName` | backend/apps/maintenance_prs/planner.py:389-399 | The search ends within one candidate more than there are used names and returns the first unused one, at most 255 long when the base is and the counters have at most 254 digits. |
| `BranchNames.CandidateInjective` | backend/apps/maintenance_prs/planner.py:394-399 | Different counters give different candidates, wherever the base was cut. |
| `BranchNames.CandidateLength` | backend/apps/maintenance_prs/planner.py:394-399 | A candidate is at most 255 characters long. |
| `BranchNames.SessionsGetDifferentBases` | backend/apps/maintenance_prs/planner.py:372-386 | One category and title gets different base names in sessions with different suffixes of whatever length, in spite of the cuts. |
| `Gate.GuardAgreesWithQuery` | backend/apps/maintenance_prs/executor.py:596-625 | The guard passes exactly the plans that the executable query lists and that have a file fix. |
| `Gate.RefusalApplies` | backend/apps/maintenance_prs/executor.py:596-625 | The reason the guard gives for a refusal is a true one. |
| `Gate.PlanRecord.Claim` | backend/apps/maintenance_prs/executor.py:628-682 | The claim succeeds exactly on executable plans, and then only sets the status to running and the time. |
| `Gate.ClaimHoldsUntilTimeout` | backend/apps/maintenance_prs/models.py:54-63 | With nothing else changed, a claimed plan can be claimed again exactly when the stale timeout has passed. |
| `Planner.UnblockedMeetsThreshold` | backend/apps/maintenance_prs/planner.py:542-547 | In an unblocked plan the smallest confidence reaches the largest threshold. |
| `Planner.UnblockedPathsAllowed` | backend/apps/maintenance_prs/planner.py:162-216 | An unblocked plan touches no never-touch path, and a protected path puts it in the advisory tier. |
| `Planner.UnblockedPlansDisjoint` | backend/apps/maintenance_prs/planner.py:299-349 | Two unblocked plans of one planning call have no path in common. |
| `Planner.InOneGroup` | backend/apps/maintenance_prs/planner.py:78-103 | No opportunity is in two groups. |
| `Planner.ApprovedPlanRuns` | backend/apps/maintenance_prs/planner.py:104-143 | In an active repository with an unchanged mode, an approved plan is executable exactly when planning left it unblocked and its tier is one of the three or forced by a protected path. |
| `Planner.UnsupportedTierIsPlanned` | backend/apps/maintenance_prs/planner.py:192-195 | An advisory documentation opportunity of unknown tier is planned unblocked in autonomous mode and, once approved, cannot run. |
| `Planner.CreatePlans` | backend/apps/maintenance_prs/planner.py:106-143 | Every group gets its plan, in order, with branch names that are new, pairwise distinct and at most 255 long. |
| `Planner.LinkOpportunities` | backend/apps/maintenance_prs/planner.py:139-143 | Linking succeeds exactly when all grouped ids are distinct. |
| `Planner.PlanMaintenancePrs` | backend/apps/maintenance_prs/planner.py:49-155 | A planning call fails exactly when two opportunities that are not linked yet share an id. Otherwise each of those is in exactly one plan, and each plan has one to three of them, their category, their least confidence, the least sufficient confidence as its threshold, their paths, and the advisory tier exactly when one of its paths is protected, else theirs. It is unblocked exactly when its opportunities are plannable, share no path with one kept before, and the mode permits their tier; a blocked one gives a true reason. Branch names are new and fit their column. |
| `Planner.PlanningIgnoresInputOrder` | backend/apps/maintenance_prs/planner.py:59-103 | The groups do not depend on the order in which the opportunities are listed, when those not linked yet have distinct ids. |
| `ExecutionSafety.NextKeeps` | backend/apps/maintenance_prs/executor.py:63-372 | Every step of every worker, every claim, failure, crash, tick and foreign change keeps the protocol's invariant. |
| `ExecutionSafety.RunInv` | backend/apps/maintenance_prs/executor.py:63-372 | The invariant holds at every point of every run. |
| `ExecutionSafety.OneLiveWorker` | backend/apps/maintenance_prs/executor.py:628-682 | In every run a plan has at most one worker that is not past its timeout. |
| `ExecutionSafety.OnePullRequestPerPlan` | backend/apps/maintenance_prs/executor.py:199-231 | In every run at most one pull request is ever created for a plan, however often it is retried. |
| `ExecutionSafety.SucceededHasItsPullRequest` | backend/apps/maintenance_prs/executor.py:146-170 | A succeeded plan's row names the pull request it made itself, on the branch its row records. |
| `ExecutionSafety.OneWriterPerBranch` | backend/apps/maintenance_prs/executor.py:316-372 | Markers and fixes on a branch come only from the plan that created the branch, even when runs die between creating it and writing the marker. |
| `ExecutionSafety.SucceededIsFinal` | backend/apps/maintenance_prs/executor.py:146-170 | Once succeeded, a plan's row never changes again. |
| `ExecutionChoice.RetrySucceedsIff` | backend/apps/maintenance_prs/executor.py:63-187 | Claimed and left alone, every plan's run ends within a bounded number of calls. If one of its ten names is free (no other plan of the session has it, and no branch or one marked as the plan's own), it takes the first such name, records and marks that branch, edits the target files there, and succeeds with a pull request from it if and only if some target file is there and is changed; otherwise it fails without a new pull request. If no name is free it fails and changes no branch, pull request or recorded name. |
| `ExecutionChoice.CandidateIsNameAt` | backend/apps/maintenance_prs/executor.py:360-364 | The k-th name is the preferred one, or as much of it as leaves room in 255 characters for the suffix -2 to -10. |
| `ExecutionChoice.TryName` | backend/apps/maintenance_prs/executor.py:332-353 | A name that is not free is passed over to the next, a free one is taken, in at most two calls. |
| `ExecutionChoice.MarkerPathIs` | backend/apps/maintenance_prs/executor.py:706-707 | The marker file is named after the branch, with dashes for slashes. |
| `ExecutionChoice.ReachesFiles` | backend/apps/maintenance_prs/executor.py:82-112 | With a free name a run comes to its first file on the branch of the first free name, recorded and marked, with the branch's files unchanged. |
| `ExecutionAlone.FixingEnds` | backend/apps/maintenance_prs/executor.py:244-313 | From any file on, the run ends and succeeds exactly when it has changed a file or will. |
| `ExecutionAlone.EditedAt` | backend/apps/maintenance_prs/executor.py:244-313 | With each target file listed once, every one that is there becomes its content with the note, or what the author answers, and nothing else changes. |
| `ExecutionRetry.LastNoteWritten` | backend/apps/maintenance_prs/executor.py:445-471 | The write of the last missing note leaves every target file as the note would leave it. |
| `ExecutionRetry.CrashAfterNotesSticks` | backend/apps/maintenance_prs/executor.py:113-130 | A docs plan whose worker dies with all notes in place is stuck. |
| `ExecutionRetry.StuckForever` | backend/apps/maintenance_prs/executor.py:113-130 | A stuck plan stays stuck in every continuation: it never succeeds and no pull request is created for it. |
| `ExecutionRetry.StuckIffNothingToChange` | backend/apps/maintenance_prs/executor.py:113-130 | An idle, unfinished docs plan on its own branch is stuck exactly when no target file is there that its note changes. |
| `ExecutionRetry.CrashedRun` | backend/apps/maintenance_prs/executor.py:63-187 | A run from the initial state: planned, claimed, the note written, the worker dead, and the plan stuck. |
| `DocsNote.NoteIdempotentIff` | backend/apps/maintenance_prs/docs_fixes.py:38-90 | For every document and plan, applying the note twice equals applying it once exactly when no section carries the end marker and the document has no dangling start marker. |
| `DocsNote.IdempotentIff` | backend/apps/maintenance_prs/docs_fixes.py:38-53 | The same for any block between a start and an end marker: exactly when its only end marker is its end and the document has no dangling start marker. |
| `DocsNote.DanglingDiffers` | backend/apps/maintenance_prs/docs_fixes.py:42-53 | With a dangling start marker the second application always changes the document, whatever the block holds. |
| `DocsNote.DanglingLosesText` | backend/apps/maintenance_prs/docs_fixes.py:42-53 | With a dangling start marker the second application removes everything from that marker on, except the note. |
| `DocsNote.DanglingExample` | backend/apps/maintenance_prs/docs_fixes.py:38-53 | A document whose only line of text is kept by the first application and gone after the second. |
| `DocsNote.OutsideSurvives` | backend/apps/maintenance_prs/docs_fixes.py:42-49 | Replacing a note keeps the text before and after it, up to white space next to the note and at the end, with a blank line between text and note. |
| `DocsNote.AppendKeepsText` | backend/apps/maintenance_prs/docs_fixes.py:51-53 | Without a note to replace, the whole text stays, up to white space at its end, and the note follows behind a blank line. |
| `LineWords.NoteLines` | backend/apps/maintenance_prs/docs_fixes.py:56-77 | The note is always ten lines, whatever its sections contain: markers, heading, plan, and one line for each section's words. |
| `LineWords.SectionShown` | backend/apps/maintenance_prs/docs_fixes.py:73-77 | A section is shown as its words with single spaces, or as not supplied when it has none. |
| `DocsNote.UncleanNeverSettles` | backend/apps/maintenance_prs/docs_fixes.py:42-53 | A block that carries an early end marker makes the document longer at each application. |
| `DocsNote.OneEndIffClean` | backend/apps/maintenance_prs/docs_fixes.py:56-77 | The block has its end marker only at its end exactly when no section's text carries it. |
| `EditMatching.MatchIgnoringTrailingSpace` | backend/apps/maintenance_prs/ai_fixes.py:365-373 | Returns the text of the first window of lines equal to SEARCH up to trailing white space, if there is one. |
| `EditMatching.MatchUnique` | backend/apps/maintenance_prs/ai_fixes.py:376-432 | For both strict tiers: returns the window that agrees with SEARCH if exactly one does and SEARCH is not blank at that tier, and nothing otherwise. |
| `EditMatching.OnlyFitIffOne` | backend/apps/maintenance_prs/ai_fixes.py:376-432 | A strict tier picks a window exactly when it is the only one that agrees. |
| `EditMatching.MatchFuzzy` | backend/apps/maintenance_prs/ai_fixes.py:435-475 | The scan with best ratio and runner-up returns the window of `FuzzyFit`. |
| `EditMatching.FuzzyFitIff` | backend/apps/maintenance_prs/ai_fixes.py:430-475 | The fuzzy tier picks a window exactly when its ratio reaches 0.92 and exceeds every other window's by 0.02. |
| `EditMatching.FindMatch` | backend/apps/maintenance_prs/ai_fixes.py:327-335 | The chain of tiers computes `Matched`: exact text first, then each tier in turn. |
| `EditMatching.OrDropsNothing` | backend/apps/maintenance_prs/ai_fixes.py:327-335 | Python's `or` between tiers never throws a match away: no tier before the last returns an empty window for a non-blank SEARCH. |
| `EditMatching.MatchedOccurs` | backend/apps/maintenance_prs/ai_fixes.py:319-475 | Whatever tier matched, the returned text occurs in the file. |
| `EditMatching.FitsWeaken` | backend/apps/maintenance_prs/ai_fixes.py:399-405 | A window that agrees at one tier agrees at every later one. |
| `LineWords.TrailingIff` | backend/apps/maintenance_prs/ai_fixes.py:365-373 | Lines agree at the first tier exactly when both are one text with white space behind it. |
| `LineWords.IndentationIff` | backend/apps/maintenance_prs/ai_fixes.py:376-397 | Lines agree at the second tier exactly when both are one text with white space around it. |
| `LineWords.NormalizedLine` | backend/apps/maintenance_prs/ai_fixes.py:399-406 | The third tier sees a line as its words with single spaces, with single quotes for double ones and without a comma at the end. |
| `EditMatching.AmbiguousIsSkipped` | backend/apps/maintenance_prs/ai_fixes.py:319-475 | When the exact and trailing-space tiers fail and two windows equal SEARCH up to indentation, no tier matches and the edit is skipped. |
| `EditBlocks.ApplyEditBlocks` | backend/apps/maintenance_prs/ai_fixes.py:319-354 | There are texts from the original to the result: each is the one before with the first occurrence of the block's match in it replaced, or the one before itself when the block is skipped there (blank, no match, or the Python would not parse). The file is refused exactly when nothing was replaced. |
| `EditBlocks.BlocksCompose` | backend/apps/maintenance_prs/ai_fixes.py:319-345 | Applying more blocks is applying them to the result of the first ones; the numbers of replacements add up. |
| `EditBlocks.RefusedIffNoneApplies` | backend/apps/maintenance_prs/ai_fixes.py:347-354 | The file is refused exactly when no single block would change the original on its own. |
| `EditBlocks.PythonKeepsParsing` | backend/apps/maintenance_prs/ai_fixes.py:340-346 | An edited Python file parses. |
| `EditBlocks.StepReplacesOnce` | backend/apps/maintenance_prs/ai_fixes.py:322-346 | An applied block replaces one stretch, the first that reads like the match, and keeps all other text. |
| `EditBlocks.LandsOnWindowIff` | backend/apps/maintenance_prs/ai_fixes.py:327-340 | Whichever tier picked the window, the edit lands on it exactly when its text does not occur earlier beginning or ending inside a line; then the lines around it stay. |
| `EditBlocks.AlignedIsWindow` | backend/apps/maintenance_prs/ai_fixes.py:340-440 | The window's text occurring earlier as whole lines is an earlier window with the same lines. |
| `EditBlocks.PickedIsFirst` | backend/apps/maintenance_prs/ai_fixes.py:365-475 | No tier picks a window when the same lines come earlier. |
| `EditBlocks.LandsElsewhere` | backend/apps/maintenance_prs/ai_fixes.py:340-397 | An example in which the only line that agrees with SEARCH is matched and a different line is edited. |
| `Chunking.ChunkContent` | backend/apps/maintenance_prs/ai_fixes.py:222-250 | The chunking loop computes the texts of `Chunks`, and refuses more than forty. |
| `Chunking.ChunksKeepContent` | backend/apps/maintenance_prs/ai_fixes.py:222-250 | Joining the parts with newlines gives back the file, and no part is without lines. |
| `Chunking.PartsAreSmall` | backend/apps/maintenance_prs/ai_fixes.py:236-244 | Without statement boundaries every part is under 32000 characters or a single line. |
| `Chunking.PartsStartAtStatements` | backend/apps/maintenance_prs/ai_fixes.py:223-244 | With boundaries every part after the first starts at a top-level statement. |
| `Chunking.CutsAreGreedy` | backend/apps/maintenance_prs/ai_fixes.py:222-250 | Parts are cut only where the next line would make 32000 characters, and at the first such line where a cut is allowed. |
| `Workers.CompleteChunks` | backend/apps/maintenance_prs/ai_fixes.py:150-193 | In whatever order the parallel workers finish, the results are those of asking part by part, and it fails exactly when one part fails. |
| `Workers.AuthorFixes` | backend/apps/maintenance_prs/executor.py:375-424 | In whatever order the files are finished, the authored files are those of the sequential loop, in the same order. |
| `Learning.GardenerProfile.RecordOutcome` | backend/apps/profiles/learning.py:86-163 | An unknown outcome changes nothing; a known one moves the profile by `Record` and the plan's history by `Remember` unless it was recorded before, and reports whether a ranking signal changed. |
| `Learning.GardenerProfile.ApplyOutcome` | backend/apps/profiles/learning.py:230-259 | The signals change as `Learn` says, and the reported flag says whether any did. |
| `Learning.GardenerProfile.ProtectPaths` | backend/apps/profiles/learning.py:246-250 | Each path of a reverted plan is protected once, with the first reason. |
| `OutcomeCounts.CountOutcomes` | backend/apps/profiles/sync.py:54-66 | The counting loop computes `Recount` for all three buckets. |
| `OutcomeCounts.KeysAlwaysAgree` | backend/apps/profiles/sync.py:54-66 | At every point of every delivery sequence each stored category list is, in order, the keys of the recount from the log. |
| `OutcomeCounts.RunFollows` | backend/apps/profiles/learning.py:86-163 | Lists, protected paths, notes and counts are functions of the set of recorded (plan, outcome) pairs, which is the set of delivered ones. |
| `OutcomeCounts.ProfileTells` | backend/apps/profiles/learning.py:43-49 | In terms of the deliveries: a category is accepted when one of its plans was merged or accepted, rejected when one was rejected or closed, reverted when one was reverted; a path is protected when a plan that changed it was reverted. |
| `OutcomeCounts.DeliveriesConverge` | backend/apps/profiles/learning.py:86-163 | Two delivery sequences with the same known pairs, in any order with any repeats, give the same categories, protected paths, notes and outcome counts. |
| `OutcomeCounts.RedeliveryChangesNothing` | backend/apps/profiles/learning.py:116-122 | Delivering again what was delivered before changes nothing. |
| `OutcomeCounts.RowAgrees` | backend/apps/profiles/learning.py:166-202 | The plan row's terminal outcome stays the last of merged, closed and reverted in the log. |
| `OutcomeCounts.EndingOrderFreeIff` | backend/apps/profiles/learning.py:166-202 | All orders of the same deliveries agree on how a plan ended exactly when at most one terminal outcome was delivered for it. |
| `RepoSync.RepositoryTable.UpsertRepository` | backend/apps/github_app/services.py:1210-1252 | The row is created, revived or kept, moves to the installation, and is reported and audited as newly selected exactly when it was not selected. |
| `RepoSync.RepositoryTable.SelectPayloads` | backend/apps/github_app/services.py:1139-1171 | Every listed repository is selected, with one audit for each that was not, and those are returned in order. |
| `RepoSync.RepositoryTable.UnselectListed` | backend/apps/github_app/services.py:1174-1207 | Exactly the listed repositories of the installation that are selected get unselected, audited and counted. |
| `RepoSync.RepositoryTable.SyncRepositories` | backend/apps/github_app/services.py:1089-1136 | A full sync is selecting the listed repositories and unselecting the rest of the installation's. |
| `RepoSync.RepositoryTable.MarkInstallationDeleted` | backend/apps/github_app/services.py:1283-1316 | Uninstalling marks the installation and unselects all its selected repositories. |
| `RepoSync.RepositoryTable.ProcessRepository` | backend/apps/github_app/services.py:582-640 | Deletion takes effect only on a selected repository of an active installation; other actions upsert the row when the installation is active. |
| `SelectionTrail.TrailAlwaysTells` | backend/apps/github_app/services.py:582-1309 | Over every run of events the selection audits of each repository alternate, starting with a selection, and it is selected exactly when the last one is a selection. |
| `SelectionTrail.EventChangesRow` | backend/apps/github_app/services.py:582-1309 | What each kind of event does to each row and installation, whatever order the database lists rows in: the listed are selected since now or since before, those taken away keep the time they were selected, and deletions and touches count only under an installation that works. |
| `SelectionTrail.SyncSelectsExactly` | backend/apps/github_app/services.py:1089-1136 | After a full sync the installation's selected repositories are exactly the listed ones. |
| `SelectionTrail.SyncLeavesOthers` | backend/apps/github_app/services.py:1109-1117 | Rows of other installations that are not listed stay as they are. |
| `SelectionTrail.SyncTwiceIsOnce` | backend/apps/github_app/services.py:1089-1136 | Repeating a sync changes no row and writes no selection audit. |
| `SelectionTrail.UninstallUnselectsAll` | backend/apps/github_app/services.py:1283-1309 | An uninstalled installation has no selected repository left. |
| `WebhookEvents.WebhookEvent.WebhookDelivery` | backend/apps/github_app/views.py:124-177 | Stores a delivery once, queues it when it is new or was not queued, and answers with accepted, requeued, duplicate, unavailable or invalid accordingly. |
| `WebhookEvents.WebhookEvent.Claim` | backend/apps/github_app/services.py:363-376 | A worker gets a delivery exactly when it is received or queued. |
| `WebhookEvents.WebhookEvent.ProcessStored` | backend/apps/github_app/services.py:363-429 | A claimed delivery ends up processed, ignored, failed or, after a retryable error, received again, each with the matching result; an unclaimed one stays. |
| `WebhookEvents.OneWorkerRoutes` | backend/apps/github_app/services.py:363-429 | For any mix of redeliveries, duplicate messages and crashes, at most one worker routes a delivery at a time and a terminal result is stored exactly once if it has ended and never before. |
| `WebhookEvents.EndedIsFinal` | backend/apps/github_app/services.py:366-372 | Processed, ignored and failed are final: the row and its result never change again and nobody routes it. |
| `WebhookEvents.EndedByLastWord` | backend/apps/github_app/services.py:363-429 | Over atomic runs: the delivery is stored by its first request, and has ended exactly when its payload was invalid or the last stored routing is not retryable; processed, ignored and failed say which. |
| `WebhookEvents.RetryableRoutesAgain` | backend/apps/github_app/services.py:380-397 | After a retryable error the delivery has not ended and no terminal result is stored; the next request queues it and the next worker routes it again. |
| `WebhookEvents.EndsUnlessAbandoned` | backend/apps/github_app/services.py:363-376 | A delivery can still come to an end exactly when it is not in processing without a worker. |
| `WebhookEvents.CrashAbandons` | backend/apps/github_app/services.py:363-376 | A worker that dies on a delivery it claimed leaves it in processing with nobody routing it. |
| `WebhookEvents.SoundIffHarmless` | backend/apps/github_app/views.py:133-177 | With checking and queueing as separate steps, the guarantees hold all along a run exactly when no late queueing hits a row that is being routed or has ended. |
| `WebhookEvents.StepSoundIff` | backend/apps/github_app/views.py:166-177 | A late queueing keeps the state sound exactly when the row is missing, can be claimed, or was abandoned. |
| `WebhookEvents.LateEnqueueRoutesTwice` | backend/apps/github_app/views.py:133-147 | If checking and queueing are separate steps, a processed delivery can be queued again, routed by a second worker and stored a second time. |
| `Drift.SignalsByKey` | analysis_engine/src/gardener_analysis/drift.py:102-123 | The nested loops build `Indexed`, the dictionary of signals by key. |
| `Drift.IndexedKeys` | analysis_engine/src/gardener_analysis/drift.py:102-123 | The dictionary has exactly the keys of the snapshot's signals, each listed once. |
| `Drift.LastSignalDecides` | analysis_engine/src/gardener_analysis/drift.py:102-123 | A key's impact is that of the last signal in its bucket with its path, kind and summary: the first score given, else the severity's rank, else what its amounts add up to, or one. |
| `Drift.BuildReport` | analysis_engine/src/gardener_analysis/drift.py:45-72 | Both branches compute `Compare`: a missing baseline is an empty one. |
| `Drift.ReportPartitions` | analysis_engine/src/gardener_analysis/drift.py:45-72 | New, worsened and unchanged signals partition the current keys, resolved is baseline minus current, and what both sides share is counted the same on each. |
| `Drift.ReportTells` | analysis_engine/src/gardener_analysis/drift.py:45-72 | Every reported impact, baseline and difference is the value it stands for to the nearest hundredth. |
| `Drift.SwapMirrors` | analysis_engine/src/gardener_analysis/drift.py:45-72 | Swapping the snapshots swaps new and resolved, and no key is worse both ways. |
| `Drift.WorsenedIsPositive` | analysis_engine/src/gardener_analysis/drift.py:55-64 | The rounded difference of a worsened signal is at least 0.01. |
| `Drift.ScoreDeltasMirror` | analysis_engine/src/gardener_analysis/drift.py:178-190 | Swapping the reports negates every rounded component difference. |
| `DriftHotspots.HotspotPaths` | analysis_engine/src/gardener_analysis/drift.py:148-171 | The entries are those of `Gather`, with the impact to the nearest hundredth and the first three reasons. |
| `DriftHotspots.GatherByPath` | analysis_engine/src/gardener_analysis/drift.py:148-160 | Paths are unique, a path has an entry exactly when something changed there, and the entry holds the number, the summed impact and the distinct reasons of the changes at that path. |
| `DriftHotspots.ReasonsTell` | analysis_engine/src/gardener_analysis/drift.py:148-160 | The reasons at a path are the summaries of its changes, each once. |
| `DriftHotspots.GatherConserves` | analysis_engine/src/gardener_analysis/drift.py:148-160 | Over all entries the change counts add up to the number of changes and the unrounded impacts to their total. |
| `Entropy.ComponentRaw` | analysis_engine/src/gardener_analysis/entropy.py:137-162 | The loops compute `Raw` for every component. |
| `Entropy.GradesRise` | analysis_engine/src/gardener_analysis/entropy.py:98-116 | A higher severity label is worse, and labels of one grade weigh the same whatever numbers come along. |
| `Entropy.NumbersDecide` | analysis_engine/src/gardener_analysis/entropy.py:112-134 | Without a known label: a low health score is worse the lower it is, then the confidence counts, then a score out of ten, then one half. |
| `Entropy.SignalCountsOnce` | analysis_engine/src/gardener_analysis/entropy.py:20-28 | One more signal counts once for the component its bucket feeds in the table, and changes no other contribution. |
| `Entropy.WorstShares` | analysis_engine/src/gardener_analysis/entropy.py:11-18 | At their worst architecture and maintainability contribute 25 each, knowledge and testing 15, dependency and operational 10. |
| `Entropy.EmptyConstitutionCosts` | analysis_engine/src/gardener_analysis/entropy.py:156-161 | An empty constitution costs half of the knowledge component; one without a completeness costs nothing. |
| `Entropy.ContributionBounds` | analysis_engine/src/gardener_analysis/entropy.py:165-174 | Each rounded contribution is between 0 and 100 times its weight. |
| `Entropy.ScoreBounds` | analysis_engine/src/gardener_analysis/entropy.py:165-174 | The overall score and the forecast are in [0, 100], and the forecast is not below the score. |
| `Entropy.ProjectionAdds` | analysis_engine/src/gardener_analysis/entropy.py:309-310 | From 60 on the projection is five points above the score, at most 100; below it is the score. |
| `Entropy.LevelDropsIffMild` | analysis_engine/src/gardener_analysis/entropy.py:144-153 | With one more signal of severity s, a component of n signals with mean m does not drop exactly when s (n + 38.5) >= 37.5 m for n below 25, and s >= m from 25 on. |
| `Entropy.MeanIsBadEnough` | analysis_engine/src/gardener_analysis/entropy.py:144-153 | A signal at least as severe as the mean always meets that condition. |
| `Entropy.ScoreMovesWithShare` | analysis_engine/src/gardener_analysis/entropy.py:165-174 | One more signal moves the overall score by exactly as much as it moves its component's rounded contribution. |
| `Entropy.BadSignalNeverHelps` | analysis_engine/src/gardener_analysis/entropy.py:137-174 | Adding a signal that meets the condition never lowers the overall score. |
| `Entropy.CompletenessNeverHurts` | analysis_engine/src/gardener_analysis/entropy.py:156-161 | Raising the constitution's completeness never raises the overall score. |
| `Entropy.MildSignalLowersScore` | analysis_engine/src/gardener_analysis/entropy.py:137-174 | One critical failing check scores 5.9; adding a medium one lowers the score to 4.6. |

## Left out

- Tarjan.KnowledgeGraphCycles: cycles are node lists; the path names, their sorting and the summary text are not modelled, nor Python's recursion limit, which a long import chain exceeds.
- Gate.PlanRecord.Claim: the execution error that a claim clears is not modelled.
- Payload.FinalPayload: positions only; the decoded value, Python's recursion limit and the error class are not modelled. `Json` recognises RFC 8259 values and, like the Python decoder, `NaN` and `Infinity`.
- Policy.ThresholdOnlyRises: thresholds are reals, so float rounding of `x / 100` is not covered.
- Planner.PlanMaintenancePrs: titles, pull request body sections, required checks and log records are left out, as are the row's own field validations.
- ExecutionSafety.NextKeeps: the protocol is a state machine on values, not a class per worker, because the point is the interleaving of many; installation tokens, labels, audits and the pull request text are left out, and reading a file's hash is one step with the write.
- ExecutionSafety.OneWriterPerBranch: a marker file holds a plan's id; the source looks for the id inside the file's text.
- ExecutionSafety.RunInv: the guard's read is one step with the claim, which checks the same conditions; for AI fixes the source reads all files before it writes the first, here each is read before its own write.
- ExecutionSafety.OneLiveWorker: approval, tier, mode and repository activity stay as they are during a run, so only the status part of the claim is a state change.
- ExecutionChoice.RetrySucceedsIff: what the author of AI fixes answers is a function of path and content that does not change during the run.
- EditMatching.MatchFuzzy: ratios are reals and the measure is a parameter; `difflib` and its rounding are not modelled.
- EditBlocks.ApplyEditBlocks: the regular expression that finds the blocks, the removal of repeated blocks, the whole-file fallback and the final change-ratio validation are left out.
- Chunking.ChunkContent: files up to 40000 characters are not chunked at all; that shortcut and the size limit of the whole file are left out.
- Workers.AuthorFixes: asks that files with the same path have the same content, as they are read from one branch; the model call itself is a function of path and content.
- Learning.GardenerProfile.RecordOutcome: timestamps, metadata, audit records and the jobs queued on commit are left out; the category is the plan's, stripped.
- RepoSync.RepositoryTable.SyncRepositories: organisations are taken to be active and to match, row validation is taken to pass, and names, branches and session creation are left out.
- WebhookEvents.WebhookEvent.ProcessStored: routing is a parameter; signature and JSON checks before storing are left out.
- DriftHotspots.HotspotPaths: the final ranking of the entries is left out.
- Drift.BuildReport: the final sorting, report metadata and the choice of a signal's kind and summary text are left out; numbers are reals.
- Entropy.ScoreBounds: reals with ties rounded to even; binary float rounding is not modelled. The weighted explanation, scopes and top contributors are left out.
- HTTP, the GitHub client, OAuth, request signing, S3, subprocesses, the language model and the Django ORM: foreign calls without logic to prove.
- Session running and cancelling: unlocked read-then-save code without clean whole-run claims.
- Billing, ROI text, source-truth classification and constitution parsing: case lists.
- The frontend and the TypeScript of RepoWise.
