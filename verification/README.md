# Klarnow client dashboard — a Dafny model

Klarnow sells two productised website kits, the **Launch Kit** and the
**Growth Kit**. A client signs in with the email they used for the brand
quiz. They pick the kit, fill in a three-step onboarding wizard that is
saved in the browser, and then follow a 14-day build split into four phases.
Each phase has a fixed checklist.

This project models the logic of that dashboard:

- **The phase catalogue.** The fixed four-phase plans with their checklists,
  and how stored per-phase progress is merged onto them.
- **The client-facing API routes.** My project, its progress figures, the
  onboarding commit, user lookup at sign-in, and the onboarding status.
- **The three onboarding steps of each kit.** Which answers count as
  filled, what is saved as a draft, and when a step is complete.
- **The screens.** The kit pages, the dashboard, the build tracker (its
  checklist is kept in browser storage), the sign-in flow and the page
  chrome.
- **The admin list and write endpoints.**

Each route handler is a function from the request and the stored rows to
the response and the rows stored afterwards. The components that hold state
are classes whose methods change their fields:

- the build tracker;
- the sign-in form;
- the browser storage of the onboarding draft;
- the database of the onboarding commit.

The rest of the browser and the database become parameters: the clock, the
id generator, the user-id hash of an email, and the signed-in user from the
request header.

The numbers follow JavaScript:

- `Math.round(c / t * 100)` is computed exactly as round-half-up of the
  rational `100c/t`.
- Percentages with one decimal are kept in tenths.
- A JavaScript `||` on strings treats the empty string like a missing value.

## Model

| member | source | states |
|---|---|---|
| `Text.NonBlankIff` | src/components/launch-kit/onboarding/Step2Form.tsx:120-132 | a string passes a `trim()` truthiness check exactly when it is not all white space |
| `Text.AllSpaceTrims` | src/components/launch-kit/onboarding/Step2Form.tsx:120-132 | trimming a string of white space leaves nothing |
| `Percent.RoundPercent` | src/app/api/my-project/progress/route.ts:86 | the result is the nearest integer to 100c/t, halves rounded up, and 0 when the total is 0 |
| `Percent.RoundTenths` | src/app/api/my-project/progress/route.ts:101-103 | the result is the nearest integer to 1000c/t (a percent in tenths), and 0 when the total is 0 |
| `Percent.PercentBounds` | src/app/api/my-project/progress/route.ts:86 | for 0 ≤ c ≤ t the percent lies in 0..100, and it is 100 exactly when c/t ≥ 0.995 |
| `Percent.TenthsBounds` | src/app/api/my-project/progress/route.ts:101-103 | for 0 ≤ c ≤ t the percent in tenths lies in 0..1000 |
| `Percent.PercentExtremes` | src/app/api/my-project/progress/route.ts:101-103 | nothing done rounds to 0 and everything done rounds to 100 (1000 tenths) |
| `Percent.PercentMonotone` | src/components/growth-kit/BuildTracker.tsx:147-149 | more items done never lowers the rounded percent |
| `ListOps.RemoveAll` | src/components/growth-kit/onboarding/Step1Form.tsx:90-106 | `filter(x => x !== v)`: v is gone, every other element is kept, and nothing changes when v was absent |
| `ListOps.Toggle` | src/components/growth-kit/onboarding/Step1Form.tsx:90-106 | a checkbox toggle: v is in the result exactly when it was not in the input, and other values keep their membership |
| `ListOps.ToggleTwice` | src/components/growth-kit/onboarding/Step1Form.tsx:90-106 | ticking and then unticking a box restores the list |
| `ListOps.ReplaceAt` | src/components/growth-kit/onboarding/Step2Form.tsx:107-112 | the list keeps its length, position i holds the new value, and every other position is unchanged |
| `ListOps.RemoveAt` | src/components/growth-kit/onboarding/Step2Form.tsx:128-140 | `filter((_, j) => j !== i)`: one element fewer and the rest shifted down when i is in range; otherwise unchanged |
| `ListOps.FilterAppend` | src/app/api/projects/phases/route.ts:88-94 | filtering keeps order: the filter of a concatenation is the concatenation of the filters |
| `ListOps.FilterOne` | src/app/api/projects/phases/route.ts:88-94 | one entry is kept exactly when it satisfies the predicate |
| `ListOps.FilterHead` | src/app/api/users/lookup/route.ts:20-23 | the first entry satisfying the predicate heads the filtered list, so the newest matching submission comes first |
| `PhaseStructure.CatalogShape` | src/lib/phase-structure.ts:32-163 | both kits have four phases numbered 1–4 with distinct ids, and 15 (Launch) or 18 (Growth) checklist items in all |
| `PhaseStructure.GetPhaseStructureForKitType` | src/lib/phase-structure.ts:168-170 | LAUNCH selects the Launch plan; every other kit string selects the Growth plan |
| `PhaseStructure.Merge` | src/lib/phase-structure.ts:176-214 | the merged phases keep the plan's order, ids, numbers, titles, day ranges, links and checklist labels |
| `PhaseStructure.MergeReadsState` | src/lib/phase-structure.ts:201-212 | an item is done exactly when the stored checklist marks its label true; a missing status reads NOT_STARTED; each timestamp is the stored one when it is a non-empty string, else null |
| `PhaseStructure.MergeNullIsEmpty` | src/lib/phase-structure.ts:180-192 | merging with no stored state equals merging with an empty state |
| `PhaseStructure.MergeIgnoresUnknownPhase` | src/lib/phase-structure.ts:194-198 | stored state under an id that is not in the plan has no effect |
| `PhaseStructure.MergeIgnoresUnknownLabel` | src/lib/phase-structure.ts:201-204 | a stored checklist entry whose label is not in the phase has no effect |
| `PhaseStructure.InitialChecklist` | src/lib/phase-structure.ts:220-237 | the initial checklist has one entry per label, all false |
| `PhaseStructure.InitialState` | src/lib/phase-structure.ts:220-237 | the initial state has one entry per phase id, NOT_STARTED, with no timestamps and nothing ticked |
| `PhaseStructure.InitialStateMergesUnstarted` | src/lib/phase-structure.ts:220-237 | merging the initial state gives the same phases as merging no state at all |
| `PhaseStructure.InitializePhasesState` | src/lib/phase-structure.ts:220-237 | the loop builds exactly the initial state of the kit's plan |
| `PhaseRows.RowsToState` | src/app/api/my-project/route.ts:115-123 | the state map has exactly the phase ids of the stored rows as its keys |
| `PhaseRows.LastRowWins` | src/app/api/my-project/route.ts:115-123 | when a phase id has several rows, the last one is the one kept |
| `PhaseRows.StateArg` | src/app/api/my-project/route.ts:128-132 | an empty state is passed on as null; any other state is passed on as it is |
| `PhaseRows.StateArgNullIffNoRows` | src/app/api/my-project/route.ts:128-132 | the merge receives null exactly when the client has no phase rows |
| `PhaseRows.BuildPhasesState` | src/app/api/my-project/progress/route.ts:66-79 | the row loop builds the same map as the last-row-wins definition |
| `Identity.ResolveCaller` | src/app/api/my-project/route.ts:20-41 | a header user is the caller when its email and id are non-empty, and there is no caller otherwise; without a header but with a truthy email parameter, the caller is the normalised email with its hash, present exactly when both are non-empty; with neither there is no caller |
| `Identity.FindClient` | src/app/api/my-project/route.ts:45-53 | no client is found exactly when none matches the caller's id or email; otherwise the result is the first match |
| `ProgressRoute.StatusCountsPartition` | src/app/api/my-project/progress/route.ts:82-86 | the four status counts add up to the number of phases |
| `ProgressRoute.DoneItemsBounded` | src/app/api/my-project/progress/route.ts:88-99 | at most every checklist item is done |
| `ProgressRoute.MergedItemCount` | src/app/api/my-project/progress/route.ts:88-99 | the item total of the merged phases is the item count of the plan, whatever state is stored |
| `ProgressRoute.CountChecklistItems` | src/app/api/my-project/progress/route.ts:88-99 | the counting loop returns the total items and the done items |
| `ProgressRoute.FindStatus` | src/app/api/my-project/progress/route.ts:106-107 | `find` by status: the first phase with that status, or none when there is none |
| `ProgressRoute.HighestDone` | src/app/api/my-project/progress/route.ts:108-109 | the done phase with the highest number, or none when no phase is done |
| `ProgressRoute.SelectCurrentPhase` | src/app/api/my-project/progress/route.ts:105-111 | the first IN_PROGRESS phase, else the first WAITING_ON_CLIENT phase, else the highest-numbered DONE phase, else the first phase; none only for no phases |
| `ProgressRoute.CompletionOf` | src/app/api/my-project/progress/route.ts:113-128 | the current phase's figures are its done-item count, its item count, and the done share rounded half up to a tenth of a percent (0 for no items), which lies in 0..100.0 |
| `ProgressRoute.TimelineOf` | src/app/api/my-project/progress/route.ts:130-134 | the current day is the stored day, else 0; 14 days in all; days remaining is max(0, 14 − day); the percent is day/14 rounded half up to a tenth, in 0..100.0 up to day 14 and above 100 after it |
| `ProgressRoute.ProgressInvariants` | src/app/api/my-project/progress/route.ts:136-167 | 4 phases, with the DONE, IN_PROGRESS and NOT_STARTED counts of the merged plan, adding up to at most 4; phase percent = 25 × completed; 15 or 18 items by kit, the done ones counted, remaining = total − done, and the done share rounded to a tenth in 0..100.0; the current phase is the one the priority rule selects, with its own checklist figures; next actions from us and from the client and the timeline come from the client record |
| `ProgressRoute.Get` | src/app/api/my-project/progress/route.ts:37-167 | the route answers with the progress of the caller's client, and its done count never exceeds its total |
| `MyProjectRoute.LatestQuiz` | src/app/api/my-project/route.ts:67-70 | the caller's most recent quiz submission, or none when there is none |
| `MyProjectRoute.ResponseShape` | src/app/api/my-project/route.ts:61-155 | unauthorised exactly when there is no caller; four phases; without a client, a placeholder on the fallback kit with that kit's unstarted catalog, unfinished, at 0 percent, stateless and unticked, carrying the caller's user id and email and null day and next actions; with one, finished, with the client's id, user id, day, next actions, percent and kit and no email, the state built from its phase rows (null exactly when there are none), and the catalog of its plan merged with that state |
| `MyProjectRoute.PlaceholderShape` | src/app/api/my-project/route.ts:61-96 | the placeholder project is on the fallback kit with that kit's catalog, four phases all unstarted and unticked, unfinished, at 0 percent, with no id and no stored state |
| `MyProjectRoute.LatestIsNewest` | src/app/api/my-project/route.ts:66-69 | the quiz looked up is the email's first submission in newest-first order |
| `MyProjectRoute.FallbackKit` | src/app/api/my-project/route.ts:65-74 | the placeholder kit is the newest submission's preferred kit when it is set, else LAUNCH, and LAUNCH when the email has no submission |
| `MyProjectRoute.Get` | src/app/api/my-project/route.ts:20-155 | the handler's response is the route's response and always carries four phases |
| `OnboardingTypes.StepsPercentBounded` | src/components/growth-kit/onboarding/Step1Form.tsx:149-153 | when no step claims more completed than required fields, the overall onboarding percent lies in 0..100 |
| `FieldChecks.CountNonBlank` | src/components/growth-kit/onboarding/Step2Form.tsx:94 | `filter(q => q.trim()).length` is at most the list's length |
| `FieldChecks.CountNonBlankIff` | src/components/growth-kit/onboarding/Step2Form.tsx:84-96 | `some(trim)` holds exactly when the count is positive, and `every(trim)` exactly when every entry counts |
| `OnboardingComplete.Validate` | src/app/api/onboarding/complete/route.ts:32-44 | a request is accepted exactly when it has an email, a kit and exactly three steps; which rejection message is returned depends on what is missing |
| `OnboardingComplete.FindProject` | src/app/api/onboarding/complete/route.ts:70-76 | a project with the same email and kit, or none when there is none |
| `OnboardingComplete.FindRow` | src/app/api/onboarding/complete/route.ts:142-149 | a step row of that project with the same step number, or none when there is none |
| `OnboardingComplete.Stamped` | src/app/api/onboarding/complete/route.ts:176-177 | `started_at` is kept or set to now; `completed_at` is kept, or set to now exactly for a DONE step; nothing else changes |
| `OnboardingComplete.SavedRows` | src/app/api/onboarding/complete/route.ts:140-238 | one saved row per submitted step, in order, stamped |
| `OnboardingComplete.UpsertRowEffect` | src/app/api/onboarding/complete/route.ts:164-235 | the stamped row is stored; it is appended only when no row had its key; other rows are untouched; keys stay unique |
| `OnboardingComplete.UpsertAllEffect` | src/app/api/onboarding/complete/route.ts:140-238 | at most one row per step is added; other projects' rows are untouched; keys stay unique; with distinct step numbers every submitted step is stored |
| `OnboardingComplete.EnsureProject` | src/app/api/onboarding/complete/route.ts:70-131 | get-or-create: an existing (email, kit) project is reused as it is; otherwise a new one is appended; the index points at it |
| `OnboardingComplete.RejectedChangesNothing` | src/app/api/onboarding/complete/route.ts:32-52 | 400 exactly for an invalid request; 500 for a valid one without configuration; neither writes anything |
| `OnboardingComplete.SavedOutcome` | src/app/api/onboarding/complete/route.ts:65-268 | the saved project has the normalised email, the kit, the step percent and is finished; the (email, kit) project is reused, or added at 0 percent and unfinished; when the final update succeeds it gets the step percent and is finished, otherwise it stays as it was; every other project is unchanged; the step rows are the submitted steps upserted in order; keys stay unique; the three returned steps are stored |
| `OnboardingComplete.OnboardingDatabase.constructor` | src/app/api/onboarding/complete/route.ts:54-63 | starts from the given projects and step rows |
| `OnboardingComplete.OnboardingDatabase.WriteSteps` | src/app/api/onboarding/complete/route.ts:140-238 | the step loop leaves the rows upserted step by step, returns the stamped rows and leaves the projects alone |
| `OnboardingComplete.OnboardingDatabase.Complete` | src/app/api/onboarding/complete/route.ts:32-268 | the handler's response and the new tables are those of the route's outcome |
| `OnboardingDraft.SaveKit` | src/components/growth-kit/onboarding/Step1Form.tsx:119-127 | the draft is keyed by the session's `kitType`, else its `kit_type`, else the page's kit |
| `OnboardingDraft.FindStep` | src/components/growth-kit/onboarding/Step1Form.tsx:142-147 | `findIndex` by step number: the first matching step, or none |
| `OnboardingDraft.UpsertStepEffect` | src/components/growth-kit/onboarding/Step1Form.tsx:142-147 | the step replaces the first one with its number, or is appended; others are unchanged; step numbers stay unique |
| `OnboardingDraft.UpsertStepIdempotent` | src/components/growth-kit/onboarding/Step1Form.tsx:142-147 | saving the same step twice is the same as saving it once |
| `OnboardingDraft.WithStep` | src/components/growth-kit/onboarding/Step1Form.tsx:149-153 | the draft's percent is the rounded share of completed over required fields across its steps; the finished flag is kept |
| `OnboardingDraft.WithStepKeepsPercentBounded` | src/components/growth-kit/onboarding/Step1Form.tsx:142-153 | saving a consistent step into a consistent draft keeps it consistent, with the percent in 0..100 |
| `OnboardingDraft.StepRecord` | src/components/growth-kit/onboarding/Step1Form.tsx:129-140 | the record carries the answers and counts; DONE and `completed_at` exactly when complete, else IN_PROGRESS; the first `started_at` is kept |
| `OnboardingDraft.SaveRoute` | src/components/growth-kit/onboarding/Step1Form.tsx:157-161 | "save and continue" on a complete step goes to the next step; otherwise back to the kit page |
| `OnboardingDraft.StoredFields` | src/components/growth-kit/onboarding/Step1Form.tsx:33-62 | stored answers are found only for a signed-in user with a draft under their key |
| `OnboardingDraft.SavedStepReloads` | src/components/growth-kit/onboarding/Step1Form.tsx:33-62 | reopening a step just saved shows the answers saved |
| `OnboardingDraft.CommitIsAccepted` | src/components/growth-kit/onboarding/Step3Form.tsx:185-211 | the final commit is sent exactly when there are three steps and an email, and the route then accepts it, with the kit and the step order preserved and DONE steps' completion times kept |
| `OnboardingDraft.BrowserStorage.constructor` | src/components/growth-kit/onboarding/Step1Form.tsx:108-116 | starts from the given session user and drafts |
| `OnboardingDraft.BrowserStorage.SaveStep` | src/components/growth-kit/onboarding/Step1Form.tsx:108-161 | without a signed-in user nothing is saved; otherwise the draft under the user's kit key gets the step |
| `OnboardingDraft.BrowserStorage.Finish` | src/components/growth-kit/onboarding/Step3Form.tsx:125-236 | without a user nothing changes; an incomplete last step is only saved; a complete one also marks the draft and the session finished and yields the commit request |
| `GrowthStep1.EmptyFormCountsNothing` | src/components/growth-kit/onboarding/Step1Form.tsx:66-84 | a blank form has no required field answered |
| `GrowthStep1.FullCountIff` | src/components/growth-kit/onboarding/Step1Form.tsx:66-79 | all twelve required fields count exactly when each text is non-empty and both checkbox lists are non-empty |
| `GrowthStep1.WebsiteNotCounted` | src/components/growth-kit/onboarding/Step1Form.tsx:66-79 | the current website URL is not a required field |
| `GrowthStep1.ToggleChannel` | src/components/growth-kit/onboarding/Step1Form.tsx:90-97 | ticks or unticks one sales channel and changes nothing else |
| `GrowthStep1.ToggleDelivery` | src/components/growth-kit/onboarding/Step1Form.tsx:99-106 | ticks or unticks one delivery mode and changes nothing else |
| `GrowthStep1.ToggleTwiceRestores` | src/components/growth-kit/onboarding/Step1Form.tsx:90-106 | ticking and unticking the same box gives the form back |
| `GrowthStep1.Saved` | src/components/growth-kit/onboarding/Step1Form.tsx:129-140 | step 1 is saved with 12 required fields and the count answered; DONE exactly when at least 10 are answered; consistent |
| `GrowthStep1.ResumesSavedAnswers` | src/components/growth-kit/onboarding/Step1Form.tsx:33-62 | after a save, opening step 1 again shows the same answers |
| `GrowthStep1.HandleSave` | src/components/growth-kit/onboarding/Step1Form.tsx:108-161 | no user: nothing saved and no page; otherwise the draft holds the step, and the next page is step 2 exactly when continuing a complete step |
| `GrowthStep2.BuyerQuestionsIff` | src/components/growth-kit/onboarding/Step2Form.tsx:94 | the buyer-questions field counts exactly when at least ten questions are non-blank |
| `GrowthStep2.EmptyFormCountsNothing` | src/components/growth-kit/onboarding/Step2Form.tsx:84-98 | the initial form, with blank entries in every list, has no required field answered |
| `GrowthStep2.EmptiedListsCount` | src/components/growth-kit/onboarding/Step2Form.tsx:84-96 | `every` holds vacuously: removing every pain, outcome, voice word and myth makes those four fields count as answered |
| `GrowthStep2.SetList` | src/components/growth-kit/onboarding/Step2Form.tsx:107-149 | sets one list field and leaves every other field as it was |
| `GrowthStep2.UpdateArrayItem` | src/components/growth-kit/onboarding/Step2Form.tsx:107-112 | replaces one entry of one list; length and other lists unchanged |
| `GrowthStep2.AddArrayItem` | src/components/growth-kit/onboarding/Step2Form.tsx:114-126 | appends a blank entry (or a blank case study) and changes nothing else |
| `GrowthStep2.RemoveArrayItem` | src/components/growth-kit/onboarding/Step2Form.tsx:128-140 | removes the entry at an index and changes nothing else |
| `GrowthStep2.AddThenRemoveRestores` | src/components/growth-kit/onboarding/Step2Form.tsx:114-140 | adding an entry and removing it again gives the form back |
| `GrowthStep2.UpdateCaseStudy` | src/components/growth-kit/onboarding/Step2Form.tsx:142-149 | edits one part of one case study; the other case studies and fields are unchanged |
| `GrowthStep2.Saved` | src/components/growth-kit/onboarding/Step2Form.tsx:172-183 | step 2 is saved with 9 required fields and the count answered; DONE exactly when at least 7 are answered; consistent |
| `GrowthStep2.BannerAfterCompleteStep1` | src/components/growth-kit/onboarding/Step2Form.tsx:212-213 | after a complete step 1 is saved, step 2 sees step 1 as done |
| `GrowthStep2.HandleSave` | src/components/growth-kit/onboarding/Step2Form.tsx:151-204 | no user: nothing saved; otherwise the draft holds the step, and the next page is step 3 exactly when continuing a complete step |
| `GrowthStep3.AllFieldsCompleteIff` | src/components/growth-kit/onboarding/Step3Form.tsx:80-101 | the finish condition holds exactly when all thirteen answers are given; it implies the lenient 10-of-13 check |
| `GrowthStep3.EmptyFormIncomplete` | src/components/growth-kit/onboarding/Step3Form.tsx:99-101 | a blank step 3 cannot be finished |
| `GrowthStep3.ToggleTracking` | src/components/growth-kit/onboarding/Step3Form.tsx:107-114 | ticks or unticks one tracking option and changes nothing else |
| `GrowthStep3.ToggleTrafficFocus` | src/components/growth-kit/onboarding/Step3Form.tsx:116-123 | ticks or unticks one traffic focus and changes nothing else |
| `GrowthStep3.ToggleTwiceRestores` | src/components/growth-kit/onboarding/Step3Form.tsx:107-123 | ticking and unticking the same box gives the form back |
| `GrowthStep3.Saved` | src/components/growth-kit/onboarding/Step3Form.tsx:146-157 | step 3 is saved with 13 required fields; DONE exactly when every field is answered; consistent |
| `GrowthStep3.FinishPage` | src/components/growth-kit/onboarding/Step3Form.tsx:234-236 | the page moves on exactly when the step was saved but not finished |
| `GrowthStep3.HandleFinish` | src/components/growth-kit/onboarding/Step3Form.tsx:125-236 | no user: nothing changes; an incomplete step is saved only; a complete one is saved, the draft and session are marked finished, and the commit request is built from the three saved steps |
| `LaunchStep1.OverlayLaws` | src/components/launch-kit/onboarding/Step1Form.tsx:31-51 | stored answers replace the defaults field by field: all stored gives the stored form, none stored gives the defaults |
| `LaunchStep1.BaseFormCountsNothing` | src/components/launch-kit/onboarding/Step1Form.tsx:125-138 | the default form has no required field answered |
| `LaunchStep1.AddSocialLink` | src/components/launch-kit/onboarding/Step1Form.tsx:144-150 | appends one blank social link and changes nothing else |
| `LaunchStep1.RemoveSocialLink` | src/components/launch-kit/onboarding/Step1Form.tsx:152-157 | removes the link at an index and changes nothing else |
| `LaunchStep1.UpdateSocialLink` | src/components/launch-kit/onboarding/Step1Form.tsx:159-165 | edits one part of one link; the other links and fields are unchanged |
| `LaunchStep1.AddSocialLinkLaws` | src/components/launch-kit/onboarding/Step1Form.tsx:144-157 | social links are not counted, and adding then removing a link gives the form back |
| `LaunchStep1.Saved` | src/components/launch-kit/onboarding/Step1Form.tsx:226-237 | step 1 is saved with the stored answers, 7 required fields and the count answered; DONE exactly when complete; consistent |
| `LaunchStep1.HandleSave` | src/components/launch-kit/onboarding/Step1Form.tsx:167-258 | no user: nothing saved; otherwise the draft holds the step, and the next page is step 2 exactly when continuing a complete step |
| `LaunchStep2.OverlayLaws` | src/components/launch-kit/onboarding/Step2Form.tsx:35-57 | stored answers replace the defaults field by field |
| `LaunchStep2.PrefillTouchesThree` | src/components/launch-kit/onboarding/Step2Form.tsx:88-109 | the quiz prefill changes only voice words, top results and the ideal-client text, and only those the quiz offers |
| `LaunchStep2.PrefillLastWins` | src/components/launch-kit/onboarding/Step2Form.tsx:88-109 | the last quiz entry for a field is the one that stays |
| `LaunchStep2.Prefill` | src/components/launch-kit/onboarding/Step2Form.tsx:88-109 | the prefill loop gives the same form as the prefill definition |
| `LaunchStep2.BaseFormCountsNothing` | src/components/launch-kit/onboarding/Step2Form.tsx:120-134 | the default form has no required field answered |
| `LaunchStep2.SavedAsWritten` | src/components/launch-kit/onboarding/Step2Form.tsx:212-223 | as the code stores it: a declared total of 7 next to a count of up to 8 |
| `LaunchStep2.AnsweredCountsEight` | src/components/launch-kit/onboarding/Step2Form.tsx:120-131 | a fully answered step 2 satisfies all eight predicates |
| `LaunchStep2.AsWrittenOverflows` | src/components/launch-kit/onboarding/Step2Form.tsx:217-218 | a fully answered step 2 is stored as 8 of 7 and alone drives the percent to 114 |
| `LaunchStep2.Saved` | src/components/launch-kit/onboarding/Step2Form.tsx:212-223 | step 2 is saved with the stored answers, a total equal to the number of predicates and the count answered; DONE exactly when complete; consistent |
| `LaunchStep2.SavedKeepsPercentBounded` | src/components/launch-kit/onboarding/Step2Form.tsx:225-236 | with the corrected total, saving step 2 keeps the onboarding percent in 0..100 |
| `LaunchStep2.SetList` | src/components/launch-kit/onboarding/Step2Form.tsx:140-159 | sets one list field and leaves the others as they were |
| `LaunchStep2.AddArrayItem` | src/components/launch-kit/onboarding/Step2Form.tsx:140-147 | appends one entry to a growable list and changes no other list |
| `LaunchStep2.RemoveArrayItem` | src/components/launch-kit/onboarding/Step2Form.tsx:149-153 | removes the entry at an index of a growable list and changes no other list |
| `LaunchStep2.UpdateArrayItem` | src/components/launch-kit/onboarding/Step2Form.tsx:155-159 | replaces one entry; length and other lists unchanged |
| `LaunchStep2.AddThenRemoveRestores` | src/components/launch-kit/onboarding/Step2Form.tsx:140-153 | adding an entry and removing it again gives the form back |
| `LaunchStep2.HandleSave` | src/components/launch-kit/onboarding/Step2Form.tsx:161-244 | no user: nothing saved; otherwise the draft holds the step with the corrected total of 8 (see Findings), and the next page is step 3 exactly when continuing a complete step |
| `LaunchStep3.OverlayLaws` | src/components/launch-kit/onboarding/Step3Form.tsx:29-45 | stored answers replace the defaults field by field |
| `LaunchStep3.AllFieldsCompleteIff` | src/components/launch-kit/onboarding/Step3Form.tsx:97-108 | finishing needs exactly the domain provider, access method and contact email; that implies the lenient check; platform and privacy link are not counted |
| `LaunchStep3.Saved` | src/components/launch-kit/onboarding/Step3Form.tsx:165-176 | step 3 is saved with the stored answers; DONE exactly when all three required fields are answered; consistent |
| `LaunchStep3.FinishPage` | src/components/launch-kit/onboarding/Step3Form.tsx:307-314 | finished goes home, saved-but-incomplete goes to the kit page, no user goes nowhere |
| `LaunchStep3.HandleFinish` | src/components/launch-kit/onboarding/Step3Form.tsx:114-314 | no user: nothing changes; an incomplete step is saved only; a complete one is saved, the draft and session are marked finished, and the commit request is built from the saved steps |
| `BuildTracker.ToggleItems` | src/components/growth-kit/BuildTracker.tsx:56-58 | flips exactly the items with that id and keeps the item ids and order |
| `BuildTracker.ToggleChecklistItem` | src/components/growth-kit/BuildTracker.tsx:50-63 | only the given phase's item with that id flips; every other phase and item is unchanged |
| `BuildTracker.ToggleTwice` | src/components/growth-kit/BuildTracker.tsx:50-63 | toggling the same item twice restores the phases |
| `BuildTracker.SavedItems` | src/components/growth-kit/BuildTracker.tsx:70-73 | the saved list is the item ids with their done flags, in order |
| `BuildTracker.SnapshotEntries` | src/components/growth-kit/BuildTracker.tsx:64-76 | the snapshot has an entry exactly for each phase with a checklist, holding that checklist's saved items |
| `BuildTracker.SaveSnapshot` | src/components/growth-kit/BuildTracker.tsx:67-75 | the saving loop builds exactly the snapshot |
| `BuildTracker.FindSaved` | src/components/growth-kit/BuildTracker.tsx:34 | the first saved entry with that id, or none |
| `BuildTracker.LoadItems` | src/components/growth-kit/BuildTracker.tsx:33-36 | an item with a saved entry takes its done flag from it; the others are unchanged |
| `BuildTracker.LoadSnapshot` | src/components/growth-kit/BuildTracker.tsx:27-41 | a phase not in the snapshot is unchanged, and the phase shapes are kept |
| `BuildTracker.LoadSavedItems` | src/components/growth-kit/BuildTracker.tsx:33-36 | loading what was saved from a checklist of the same items gives that checklist back |
| `BuildTracker.SaveLoadRoundTrip` | src/components/growth-kit/BuildTracker.tsx:20-76 | saving phases and loading the snapshot into phases of the same shape gives the saved phases back |
| `BuildTracker.ReloadAfterToggle` | src/components/growth-kit/BuildTracker.tsx:20-76 | after a toggle, a page reload shows the toggled checklist |
| `BuildTracker.ProgressOf` | src/components/growth-kit/BuildTracker.tsx:147-149 | a phase card shows its done items, its items (none for a missing checklist), and the done share rounded half up to a percent, 0 for an empty checklist; that percent lies in 0..100 and is 100 exactly when at least 99.5% is done |
| `BuildTracker.ToggleOneMovesCount` | src/components/growth-kit/BuildTracker.tsx:50-63 | toggling one item moves the done count by exactly one |
| `BuildTracker.DayPercentage` | src/components/growth-kit/BuildTracker.tsx:112-115 | the fixed day 1 of 14 shows 7 percent |
| `BuildTracker.ClickPhase` | src/components/growth-kit/BuildTracker.tsx:154 | clicking the open phase closes it; clicking another opens that one |
| `BuildTracker.ClickTwice` | src/components/growth-kit/BuildTracker.tsx:154 | two clicks on a phase restore the view exactly when nothing or that phase was open |
| `BuildTracker.FindPhase` | src/components/growth-kit/BuildTracker.tsx:208 | the first phase with that number, or none |
| `BuildTracker.Tracker.constructor` | src/components/growth-kit/BuildTracker.tsx:12-18 | starts with the given phases and phase 1 expanded |
| `BuildTracker.Tracker.Load` | src/components/growth-kit/BuildTracker.tsx:20-47 | a stored snapshot is loaded into the phases; otherwise nothing changes |
| `BuildTracker.Tracker.Toggle` | src/components/growth-kit/BuildTracker.tsx:50-80 | the item flips and the stored snapshot becomes that of the new phases |
| `BuildTracker.Tracker.Click` | src/components/growth-kit/BuildTracker.tsx:154 | the expanded phase follows the click rule; the phases and storage are unchanged |
| `BuildTracker.Tracker.Close` | src/components/growth-kit/BuildTracker.tsx:230 | nothing is expanded afterwards; phases and storage are unchanged |
| `BuildTracker.ToggleThenReload` | src/components/growth-kit/BuildTracker.tsx:12-80 | a fresh tracker over the stored snapshot after a toggle shows the toggled phases |
| `KitContent.FindStep` | src/components/launch-kit/LaunchKitContent.tsx:29 | the first step with a status, or none |
| `KitContent.CurrentStep` | src/components/launch-kit/LaunchKitContent.tsx:29 | the first IN_PROGRESS step, else the first NOT_STARTED step, else the first step |
| `KitContent.ExactlyOneActive` | src/components/launch-kit/LaunchKitContent.tsx:49 | exactly the current step's card is highlighted |
| `KitContent.AllDoneUnlocked` | src/components/launch-kit/LaunchKitContent.tsx:48 | the first step is never locked, and when every step is done none is |
| `KitContent.CaptionStep` | src/components/launch-kit/LaunchKitContent.tsx:104 | the caption shows the current step's number, or 1 |
| `KitContent.StepHref` | src/components/launch-kit/LaunchKitContent.tsx:55 | each card links below the kit's onboarding step path |
| `KitContent.Render` | src/components/launch-kit/LaunchKitContent.tsx:11-104 | without a project, a placeholder; otherwise one card per step with its locked, active and complete flags and link, the current step and the percent |
| `KitContent.LaunchKitView` | src/components/launch-kit/LaunchKitContent.tsx:11-104 | the Launch page's cards all link into the Launch onboarding |
| `KitContent.GrowthKitView` | src/components/growth-kit/GrowthKitContent.tsx:11-104 | the Growth page's cards all link into the Growth onboarding |
| `Dashboard.CompletedSteps` | src/components/dashboard/DashboardCoursueStyle.tsx:16 | the number of DONE steps: all of them exactly when every step is done, 0 exactly when none is |
| `Dashboard.OnboardingCard` | src/components/dashboard/DashboardCoursueStyle.tsx:15-17 | the card shows the done steps over the number of steps, or over 3 when there are none |
| `Dashboard.CurrentPhase` | src/components/dashboard/DashboardCoursueStyle.tsx:20-22 | the first IN_PROGRESS phase, else the first WAITING_ON_CLIENT phase, else none |
| `Dashboard.CurrentPhaseAgrees` | src/components/dashboard/DashboardCoursueStyle.tsx:20-22 | where the dashboard finds a current phase, the progress route picks the same one; where it finds none, the route falls back to a done phase or the first |
| `Dashboard.BuildProgressLabel` | src/components/dashboard/DashboardCoursueStyle.tsx:39 | shows the current phase as "n/4 phases", or "Not started" |
| `Dashboard.ProjectStatusLabel` | src/components/dashboard/DashboardCoursueStyle.tsx:50 | shows the current phase's title when it has one, and is never empty |
| `Dashboard.NotDone` | src/components/dashboard/DashboardCoursueStyle.tsx:62-64 | exactly the steps that are not DONE, in their order (the list filter over the steps) |
| `Dashboard.FirstNotDone` | src/components/dashboard/DashboardCoursueStyle.tsx:114-121 | the first step that is not done, or none when all are |
| `Dashboard.NotDoneHead` | src/components/dashboard/DashboardCoursueStyle.tsx:62-72 | the first unfinished step heads the continue list |
| `Dashboard.ContinueItems` | src/components/dashboard/DashboardCoursueStyle.tsx:62-72 | the first three entries of the not-DONE steps (all of them, in their order), each linked under the project's kit |
| `Dashboard.ContinueTarget` | src/components/dashboard/DashboardCoursueStyle.tsx:114-121 | "continue" leads to the first unfinished step of the project's kit, and exists only when there is one |
| `Dashboard.ContinueListLeadsWithTarget` | src/components/dashboard/DashboardCoursueStyle.tsx:62-121 | the continue list is non-empty exactly when the continue button has a target, and its first entry is that step |
| `Dashboard.Description` | src/components/dashboard/DashboardCoursueStyle.tsx:79 | a phase task reads its subtitle, else its day range, else a fixed text |
| `Dashboard.PhaseTasks` | src/components/dashboard/DashboardCoursueStyle.tsx:75-81 | the first three phases as tasks with their titles, descriptions and phase ids |
| `Dashboard.DisplayTasks` | src/components/dashboard/DashboardCoursueStyle.tsx:84-90 | the phase tasks when there are phases, else up to three onboarding steps described as "Step n of total" |
| `UsersLookup.SubmissionsFor` | src/app/api/users/lookup/route.ts:20-23 | all submissions with that email in the store's newest-first order (the list filter over the store), headed by the newest one; non-empty exactly when one exists |
| `UsersLookup.QuizKits` | src/app/api/users/lookup/route.ts:34-36 | only kit names, and every LAUNCH or GROWTH preference from the quizzes, taken in the submissions' order (with `QuizKitsAppend` and `QuizKitsOne`) |
| `UsersLookup.OwnedClients` | src/app/api/users/lookup/route.ts:45-56 | exactly the clients owned by the user id or email |
| `UsersLookup.Dedup` | src/app/api/users/lookup/route.ts:62-65 | the same values without repeats, ordered by where each first occurs |
| `UsersLookup.Resolve` | src/app/api/users/lookup/route.ts:39-73 | the latest submission gives the name; the kit is its truthy preference, else the first quiz kit, else the first project plan when non-empty, else LAUNCH; the offered kits are the deduplicated quiz kits then plans, led by the first of them, else the fallback; at least one kit is always offered |
| `UsersLookup.QuizKitsAppend` | src/app/api/users/lookup/route.ts:34-36 | the quiz kits of consecutive submissions follow each other |
| `UsersLookup.QuizKitsOne` | src/app/api/users/lookup/route.ts:34-36 | a submission contributes its preference exactly when that is LAUNCH or GROWTH |
| `UsersLookup.FirstIndex` | src/app/api/users/lookup/route.ts:62-65 | the first position of a value in the list |
| `UsersLookup.FallbackKits` | src/app/api/users/lookup/route.ts:72 | when neither quizzes nor projects name a kit, exactly one kit is offered: the latest quiz's preference when it has one, else LAUNCH |
| `UsersLookup.Lookup` | src/app/api/users/lookup/route.ts:10-73 | 400 for a missing or non-string email; "not registered" exactly when no quiz has the normalised email; otherwise the lookup result |
| `UsersLookup.ResolveKits` | src/app/api/users/lookup/route.ts:58-72 | the offered kits are distinct, include every owned client's plan, and come only from quizzes, plans, the preference or LAUNCH |
| `UsersLookup.ResolvePreferred` | src/app/api/users/lookup/route.ts:71-72 | a kit chosen in the latest quiz is the kit returned, and it is offered |
| `UsersLookup.ResolveFinished` | src/app/api/users/lookup/route.ts:59 | onboarding is finished exactly when some owned client is at 100 percent |
| `UsersLookup.FoundFacts` | src/app/api/users/lookup/route.ts:17-73 | a found user's latest quiz is the newest stored under their email; finished exactly when an owned client is; every owned plan is offered |
| `LoginFlow.Preselect` | src/components/login/EmailLoginFlow.tsx:67-75 | the first offered kit, else the upper-cased quiz preference, else the lookup's kit, else the current selection is kept |
| `LoginFlow.ContinueKit` | src/components/login/EmailLoginFlow.tsx:88-93 | the selected kit, else the lookup's kit; continuing is refused when neither is set |
| `LoginFlow.RedirectFor` | src/components/login/EmailLoginFlow.tsx:106-116 | finished users go home; others go to step 1 of the Launch onboarding for LAUNCH and of the Growth onboarding otherwise |
| `LoginFlow.LoginForm.constructor` | src/components/login/EmailLoginFlow.tsx:28-33 | the form starts at the email step, empty, not loading, without error or session |
| `LoginFlow.LoginForm.SetStep` | src/components/login/EmailLoginFlow.tsx:24-33 | moves to a step and records it; nothing else changes |
| `LoginFlow.LoginForm.TypeEmail` | src/components/login/EmailLoginFlow.tsx:28-33 | updates the email only |
| `LoginFlow.LoginForm.SubmitEmail` | src/components/login/EmailLoginFlow.tsx:36-84 | passes through loading and ends not loading; a failed or refused lookup or an unknown email is an error with its message; a found user is stored and the kit preselected |
| `LoginFlow.LoginForm.SelectKit` | src/components/login/EmailLoginFlow.tsx:28-33 | updates the selected kit only |
| `LoginFlow.LoginForm.Continue` | src/components/login/EmailLoginFlow.tsx:86-117 | without a kit it is an error and nothing else changes; otherwise the session is stored, the user is signed in and redirected by finished status and kit |
| `LoginFlow.LoginForm.Back` | src/components/login/EmailLoginFlow.tsx:119-123 | back to the email step with the error and user data cleared |
| `LoginFlow.FoundLookupPreselects` | src/components/login/EmailLoginFlow.tsx:67-93 | a found user's first offered kit is preselected and then used to continue |
| `LoginFlow.SessionKitReadBack` | src/components/login/EmailLoginFlow.tsx:96-104 | the stored session's kit is the key under which the onboarding draft is saved and read |
| `LoginFlow.SignIn` | src/components/login/EmailLoginFlow.tsx:36-117 | submitting a found email and continuing signs the user in with the first offered kit and the matching redirect |
| `Sidebar.Render` | src/components/layout/Sidebar.tsx:22-110 | hidden on the sign-in page; otherwise the three overview links in order, each highlighted by the active rule, and settings highlighted only on its own page |
| `Sidebar.AtMostOneActive` | src/components/layout/Sidebar.tsx:80 | whatever the path, at most one overview link is highlighted |
| `Sidebar.SeparatorRequired` | src/components/layout/Sidebar.tsx:80 | `/homepage` does not highlight Home, but `/home/settings` does |
| `Navigation.NavItems` | src/components/layout/Navigation.tsx:18-31 | Home first and Support last, with the Launch or Growth page between exactly for that kit |
| `Navigation.Render` | src/components/layout/Navigation.tsx:34-48 | hidden on the sign-in page; otherwise one link per item, highlighted when the path begins with it, and none highlighted without a path |
| `Navigation.NoSeparatorCheck` | src/components/layout/Navigation.tsx:48 | the top navigation highlights Home on `/homepage` where the sidebar does not |
| `Navigation.SidebarActiveImpliesActive` | src/components/layout/Navigation.tsx:48 | every link the sidebar highlights is highlighted in the top navigation too |
| `Header.BeforeAt` | src/components/layout/Header.tsx:33 | `split('@')[0]`: the longest prefix without `@` |
| `Header.Initial` | src/components/layout/Header.tsx:29 | the avatar shows the upper-cased first letter of the email, or U |
| `Header.DisplayName` | src/components/layout/Header.tsx:33 | the name shown is the text before `@`, or "User" when that is empty or there is no email |
| `Header.LocalPartShown` | src/components/layout/Header.tsx:33 | `local@domain` shows `local`, and an address starting with `@` shows "User" |
| `Header.NoAtShownWhole` | src/components/layout/Header.tsx:33 | an address without `@` is shown whole |
| `Paging.Page` | src/app/api/quiz-submissions/users/route.ts:54-55 | `slice(offset, offset + limit)`: at most `limit` entries, taken in order from `offset` |
| `Paging.HasMoreIffBeyond` | src/app/api/projects/phases/route.ts:103 | `has_more` holds exactly when entries remain after the page, and then the page is full |
| `Paging.PagesTile` | src/app/api/projects/phases/route.ts:38-46 | two adjacent pages together are the page of their combined size |
| `Grouping.FirstPerKey` | src/app/api/quiz-submissions/users/route.ts:44-51 | one entry per key, each the first entry with that key, covering every key |
| `Grouping.FirstKeyIndex` | src/app/api/quiz-submissions/users/route.ts:44-51 | the position of the first entry with a key |
| `Grouping.FirstPerKeyOrder` | src/app/api/quiz-submissions/users/route.ts:44-54 | the kept entries are in the order their keys first appear, the insertion order of the map |
| `Grouping.FirstsKept` | src/app/api/quiz-submissions/users/route.ts:44-51 | the first entry with each key is kept |
| `Grouping.FirstPerKeyPage` | src/app/api/quiz-submissions/users/route.ts:44-55 | any page of the grouped list has distinct keys and only first entries |
| `Grouping.DistinctKeysCount` | src/app/api/quiz-submissions/users/route.ts:44-51 | a list with distinct keys has as many keys as entries |
| `QuizUsers.GroupByEmail` | src/app/api/quiz-submissions/users/route.ts:44-51 | the grouping loop keeps the newest submission per email |
| `QuizUsers.ClientFor` | src/app/api/quiz-submissions/users/route.ts:61-65 | a client with that email, present exactly when one exists |
| `QuizUsers.Enrich` | src/app/api/quiz-submissions/users/route.ts:58-92 | has a project exactly when a client has the lower-cased email; finished exactly at 100 percent |
| `QuizUsers.Get` | src/app/api/quiz-submissions/users/route.ts:13-101 | 401 exactly without a user; otherwise the total of distinct users, whether more remain, and the page enriched in order |
| `QuizUsers.TotalCountsEmails` | src/app/api/quiz-submissions/users/route.ts:95-101 | the total is the number of distinct emails among the matching submissions |
| `QuizUsers.GetListsDistinctUsers` | src/app/api/quiz-submissions/users/route.ts:44-101 | the page lists distinct users, each by their newest matching submission |
| `QuizUsers.EveryUserListed` | src/app/api/quiz-submissions/users/route.ts:44-51 | every user's newest matching submission is among the grouped users |
| `ProjectsPhases.Process` | src/app/api/projects/phases/route.ts:50-81 | finished exactly at 100 percent; without a status every merged phase, with one exactly the phases of that status, in catalog order (the `filter` of the merged phases) |
| `ProjectsPhases.Processed` | src/app/api/projects/phases/route.ts:50-81 | every client of the page is processed, in order |
| `ProjectsPhases.Get` | src/app/api/projects/phases/route.ts:19-103 | 401 exactly without a user; the total counts every listed client; `has_more` compares against it; the page is the processed entries that survive the status filter, in their order |
| `ProjectsPhases.NoStatusKeepsAll` | src/app/api/projects/phases/route.ts:88-94 | without a status filter no client of the page is dropped |
| `ProjectsPhases.StatusFilterNarrows` | src/app/api/projects/phases/route.ts:67-71 | with a status, a client's phases are exactly those with that status |
| `ProjectsPhases.KeepIff` | src/app/api/projects/phases/route.ts:88-94 | with a status, a client is kept exactly when one of its phases has it |
| `ProjectsPhases.StatusFilterKeeps` | src/app/api/projects/phases/route.ts:67-94 | a client of the page is listed exactly when one of its phases has the status |
| `ProjectsPhases.UnknownStatusListsNothing` | src/app/api/projects/phases/route.ts:67-94 | a status that names no phase status lists no client |
| `ProjectsClients.FinishedFilterFrom` | src/app/api/projects/clients/route.ts:31-38 | no parameter means no filter, and only the string "true" means finished |
| `ProjectsClients.NameMap` | src/app/api/projects/clients/route.ts:63-70 | keys are exactly the lower-cased emails of named submissions, and every name is non-empty |
| `ProjectsClients.NameMapFirstWins` | src/app/api/projects/clients/route.ts:63-70 | the first named submission for an email gives its name |
| `ProjectsClients.BuildNameMap` | src/app/api/projects/clients/route.ts:63-70 | the map-building loop builds exactly the first-wins map |
| `ProjectsClients.DisplayName` | src/app/api/projects/clients/route.ts:77 | the client's own name, else the name from the quiz, else none; never empty |
| `ProjectsClients.Get` | src/app/api/projects/clients/route.ts:18-95 | 401 exactly without a user; otherwise the total of matching clients, the page in order, finished exactly at 100 percent, and each name given by the display-name rule over the submissions read for the page |
| `ProjectsClients.NameRule` | src/app/api/projects/clients/route.ts:63-77 | a client's own name when set; else the full name of the first named submission under its lower-cased email; else none |
| `ProjectsClients.ListedName` | src/app/api/projects/clients/route.ts:54-77 | the name listed for each client of the page follows that rule over the submissions stored under the page's emails, newest first |
| `ProjectsClients.FinishedFilterPartitions` | src/app/api/projects/clients/route.ts:31-38 | without the parameter only the kit filters; "true" and "false" split the kit's clients between them |
| `QuizSubmissions.StoredKit` | src/app/api/quiz-submissions/route.ts:83 | the kit is stored upper-cased and trimmed when that is LAUNCH or GROWTH, else not at all |
| `QuizSubmissions.StoredKitIdempotent` | src/app/api/quiz-submissions/route.ts:83 | normalising a stored kit again changes nothing |
| `QuizSubmissions.Post` | src/app/api/quiz-submissions/route.ts:75-119 | 400 exactly when a required field is missing, and then nothing is stored; otherwise the submission is stored first with the normalised email, normalised kit, null for an empty phone and empty lists for missing goals or audience |
| `QuizSubmissions.PostThenLookup` | src/app/api/quiz-submissions/route.ts:82-99 | after a quiz is stored, signing in with its email finds it as the latest, and its kit becomes the offered sign-in kit |
| `UsersOnboarding.Get` | src/app/api/users/onboarding/route.ts:11-43 | 400 exactly without an email; a null body (status 200) exactly when no client is owned by it; otherwise the first owned client's email, kit, completion time, and whether it is at 100 percent |
| `UsersOnboarding.Post` | src/app/api/users/onboarding/route.ts:58-91 | 400 exactly without an email; otherwise the (user id, kit or LAUNCH) row gets 100 or 0 percent, created with the normalised email when missing, and no other row changes |
| `UsersOnboarding.PostKeepsKeyed` | src/app/api/users/onboarding/route.ts:65-84 | the upsert keeps every row under its own user id and plan |
| `UsersOnboarding.PostIdempotent` | src/app/api/users/onboarding/route.ts:65-84 | repeating the same request changes nothing further |
| `UsersOnboarding.PostThenFinished` | src/app/api/users/onboarding/route.ts:76-84 | after a POST, the stored row is finished exactly when the request said so |

## Left out

- Storage and I/O are modelled as values and parameters. This covers the database calls, browser storage, `fetch`, navigation, timers and the realtime subscription. Nothing models concurrent writers or failed writes beyond the flags shown.
- Sign-in state from the request is a parameter: the header user, or a boolean for the admin routes. Hashing an email into a user id is the parameter `userIdOf`.
- Clocks and ids are parameters: `now`, the `Clock` value, `newId` and the submission id.
- The mapping of quiz answers onto onboarding fields and the re-merge of quiz data with form data are parameters (the stored form and `fieldsOf`). They are not part of this model.
- Percentages are exact rationals rounded half up. Floating-point error in `Math.round(c / t * 100)` is not modelled.
- `limit` and `offset` are natural numbers. A `parseInt` that yields NaN or a negative number is not modelled.
- Server errors (500 and 503 from a failing database or a schema error) and error message texts beyond the ones the sign-in form shows are not modelled.
- JSON bodies are assumed to have the declared field types. A non-string email or a non-boolean `onboarding_finished` is not modelled, except where the code checks the type.
- The listing (GET) of `src/app/api/quiz-submissions/route.ts:5-56` is not modelled.
- Case mapping and white space are ASCII only. Unicode case folding is not modelled.
- Rendering and styling are not modelled: markup, icons, progress-bar widths and mobile blocking.
- Context pages that only display data from the modelled routes are not part of this model.
- `LaunchStep2.HandleSave` stores the corrected step record, whose `required_fields_total` is 8, the number of predicates counted. The code stores `totalRequired`, which is 7 (`Step2Form.tsx:132`, `:217`). The record as written is `LaunchStep2.SavedAsWritten`, and `LaunchStep2.AsWrittenOverflows` shows what saving it does to the draft (see Findings).
- `OnboardingComplete.FindProject` and `OnboardingComplete.FindRow` return the first matching row. The code uses `.maybeSingle()`, which fails when more than one row matches. The model assumes that email and kit type identify at most one project, and that project id and step number identify at most one step row. The error for duplicates is not modelled.
- `LoginFlow.Preselect` follows the code. When the lookup offers no kit and gives neither a preference nor a kit type, the current selection is kept rather than cleared.
- `Dashboard.PhaseTasks` uses a phase's `phase_id` as the task id. The code reads `phase.id` (`DashboardCoursueStyle.tsx:76`), which the merged phases do not carry, so the rendered id would be undefined there.

## Findings

| source | as written | input that shows it | evidently intended | confidence | as-written member | corrected member |
|---|---|---|---|---|---|---|
| src/components/launch-kit/onboarding/Step2Form.tsx:120-132 | eight required-field predicates are counted, but `totalRequired` is 7, and both numbers are stored with the step | a step 2 with logo, colours, photos, ideal client, three problems, three results, a testimonial and voice words all filled: 8 completed of 7 required, and 114 percent when it is the only saved step | a total equal to the number of predicates, so that no step exceeds its total and the percent stays in 0..100 | high, not executed | `LaunchStep2.AsWrittenOverflows` | `LaunchStep2.SavedKeepsPercentBounded` |
