# Onboarding portal: task store, progress bar and form rules

A model of the logic inside the onboarding screens of a single-page HR
onboarding app. Everything here is sequential and in-memory.

- **Task store** (`dashboard.dfy`, `task_card.dfy`). The dashboard holds an
  ordered list of onboarding tasks, seeded with six, and a free-text filter
  tab that starts as `"all"`. Each task card offers one button for its
  status: Start, Complete or Reopen. Pressing it sends the card's task id and
  a fixed new status up to the dashboard, which maps over the list and
  replaces the status of the task with that id. The filtered view selects
  tasks by status, or shows all of them for any other tab. The progress is
  the completed share of the list, as a percentage.
  `Dashboard.TaskStore` is the dashboard's state. It is a class whose
  methods replace `tasks` and `activeTab`, as the component's setters do.
- **Progress bar** (`progress_bar.dfy`). It clamps the value into [0, 100]
  and picks a height class from its size.
- **Forms** (`schema.dfy`, `personal_info_form.dfy`, `bank_info_form.dfy`,
  `family_details_form.dfy`). Each schema becomes a function from the
  entered record to `Ok(parsed)` or `Err(issues)`. An issue names the field
  path and the form's message. A minimum length counts UTF-16 code units, as
  JavaScript's `length` does (`Common.Utf16Length`).
  The family form keeps a list of family members, which can be appended to
  or spliced at an index. Removal copies the list into an array and shifts
  the tail down, as the source's copy-then-`splice` does. The personal and
  banking forms each have an `isSaving` flag, and the family form has an
  `isComplete` toggle.
- **Saving flags.** Both forms disable their submit button while
  `isSaving` is set (`PersonalInfoForm.tsx:227`, `BankInfoForm.tsx:258`).
  So in the model, a submit while saving does nothing. Otherwise the record
  is validated, and only a valid record reaches `onSubmit`.
- **Nested forms.** The family form's "Add Member" dialog has its own
  `<form>` (`FamilyDetailsForm.tsx:279`), and it sits inside the main
  `<form>` (`FamilyDetailsForm.tsx:158`) in the component tree. React
  delivers a submit event to every enclosing handler in that tree, through
  the dialog's portal as well, and the form library's submit handler does
  not stop it. So adding a member also validates the main form, and when
  the main values are valid it raises `isComplete`, whether or not the
  member itself was valid. `FamilyDetailsForm.AddFamilyMember` models this.
  The event propagation belongs to React and the form library, which are
  not part of this model.
- **Numbers** (`common.dfy`). Numbers are exact reals. `Common.Number` adds
  NaN, because the progress of an empty list is `0 / 0`.

`Dashboard.tsx` has no zero-length guard, so the model follows the code. An
empty list has progress NaN, not 0. NaN also passes through the bar's clamp
unchanged, because `Math.max` and `Math.min` propagate it. The list is never
empty in the app: tasks are seeded and never added or removed.

## Model

| member | source | states |
|---|---|---|
| Common.Utf16LengthBounds | src/components/onboarding/PersonalInfoForm.tsx:23 | a string's JavaScript length is between its character count and twice that |
| Common.MinLengthOfLength | src/components/onboarding/PersonalInfoForm.tsx:23 | a string of n characters meets `min(n)`; the empty string meets `min(n)` only for n = 0 |
| TaskCard.StatusText | src/components/onboarding/TaskCard.tsx:41-50 | each status has its own caption: "Not Started", "In Progress", "Completed" |
| TaskCard.StatusTextInjective | src/components/onboarding/TaskCard.tsx:41-50 | different statuses never share a caption or a status literal |
| TaskCard.Shows | src/components/onboarding/TaskCard.tsx:136-150 | a button the card shows always moves its task to another status, never back to pending, and from pending only to in-progress; `Offered` proves that each status shows exactly one button |
| TaskCard.Target | src/components/onboarding/TaskCard.tsx:52-74 | no handler ever requests "pending" |
| TaskCard.Handle | src/components/onboarding/TaskCard.tsx:52-74 | every handler reports the card's own task id; Start and Reopen request "in-progress" and Complete requests "completed" |
| TaskCard.Offered | src/components/onboarding/TaskCard.tsx:136-150 | each status shows exactly one button: pending shows Start, in-progress shows Complete, completed shows Reopen |
| TaskCard.NextTransitions | src/components/onboarding/TaskCard.tsx:136-150 | the offered button never yields pending, takes pending only to in-progress, always changes the status, and reaches completed only from in-progress |
| TaskCard.PressTimesNeverPending | src/components/onboarding/TaskCard.tsx:136-150 | any run of presses keeps a non-pending task out of pending; a pending task leaves pending after its first press |
| Dashboard.SeedFacts | src/components/onboarding/Dashboard.tsx:10-59 | the seed has six tasks with the distinct ids task-1 to task-6: one completed, one in progress, four pending |
| Dashboard.Ids | src/components/onboarding/Dashboard.tsx:10-59 | the id list has one id per task, in task order |
| Dashboard.MapStatus | src/components/onboarding/Dashboard.tsx:69-73 | the length is kept; id, title, description, due date and assignee are kept at each position; the status becomes the requested one exactly where the id matches |
| Dashboard.MapStatusOthers | src/components/onboarding/Dashboard.tsx:70-72 | a task with another id is left exactly as it was |
| Dashboard.MapStatusMatched | src/components/onboarding/Dashboard.tsx:70-72 | the matched task is the old task with only its status replaced |
| Dashboard.MapStatusAbsent | src/components/onboarding/Dashboard.tsx:70-72 | an id not in the list leaves the list exactly as before |
| Dashboard.MapStatusReadBack | src/components/onboarding/Dashboard.tsx:70-72 | with distinct ids, reading the task back gives the new status, and every other task equals its old value |
| Dashboard.MapStatusKeepsIds | src/components/onboarding/Dashboard.tsx:70-72 | a status change keeps the id sequence, so distinct ids stay distinct |
| Dashboard.FilterStatus | src/components/onboarding/Dashboard.tsx:77-82 | the filter is no longer than the list, and each task it keeps has the chosen status |
| Dashboard.FilterIsSubsequence | src/components/onboarding/Dashboard.tsx:77-82 | the filtered list is a subsequence of the list, in the original order |
| Dashboard.FilterCounts | src/components/onboarding/Dashboard.tsx:77-82 | the filter keeps every occurrence of each task with the chosen status and none of any other task |
| Dashboard.FilterPartition | src/components/onboarding/Dashboard.tsx:77-82 | the lengths of the three status filters add up to the list length |
| Dashboard.FilterKeepsAll | src/components/onboarding/Dashboard.tsx:77-82 | the filter keeps the whole list exactly when every task has the chosen status |
| Dashboard.FilteredTasks | src/components/onboarding/Dashboard.tsx:75-86 | the view is no longer than the list, shows only tasks of the list (so every card rendered at lines 137-147 is one), and under a status tab only tasks with that status; `VisibleByStatus` and `VisibleOtherTab` state it exactly |
| Dashboard.VisibleByStatus | src/components/onboarding/Dashboard.tsx:75-86 | the tabs "pending", "in-progress" and "completed" each show exactly the tasks with that status, in their original order |
| Dashboard.VisibleOtherTab | src/components/onboarding/Dashboard.tsx:83-84 | "all", and any other tab that is not a status name, shows the whole list unchanged |
| Dashboard.CompletedCount | src/components/onboarding/Dashboard.tsx:66 | the completed count is at most the list length, and equals it exactly when every task is completed |
| Dashboard.ProgressOf | src/components/onboarding/Dashboard.tsx:67 | the empty list gives NaN; otherwise progress lies in [0, 100] and is 100 exactly when every task is completed |
| Dashboard.BarShowsProgress | src/components/onboarding/Dashboard.tsx:105 | the large bar's clamp never alters the dashboard's progress value, and the bar has height h-3 |
| Dashboard.ProgressCaption | src/components/onboarding/Dashboard.tsx:110-112 | the caption is "Complete!" or "In Progress", and "Complete!" exactly when the list is non-empty and every task is completed |
| Dashboard.PressOnce | src/components/onboarding/Dashboard.tsx:143-147 | one button press keeps a non-pending task out of pending; with distinct ids, it never takes a pending task straight to completed |
| Dashboard.PressAllNeverPending | src/components/onboarding/TaskCard.tsx:136-150 | over any sequence of button presses, the ids are kept and a task that has left pending never returns to it |
| Dashboard.SeedScenarioStart | src/components/onboarding/Dashboard.tsx:69-86 | starting task-3 on the seed makes the "in-progress" tab show task-2 and then task-3 |
| Dashboard.SeedProgress | src/components/onboarding/Dashboard.tsx:66-67 | the seed's progress is 100/6 |
| Dashboard.SeedProgressAfterComplete | src/components/onboarding/Dashboard.tsx:66-73 | completing task-2 on the seed raises the progress to 200/6 |
| Dashboard.KeptIdsDistinct | src/components/onboarding/Dashboard.tsx:61-72 | a task list with the seed's ids has pairwise distinct ids; the store's invariant `Valid` (kept by the constructor and `SetStatus`) is exactly that its ids are the seed's, so the store's ids are always distinct |
| Dashboard.TaskStore.constructor | src/components/onboarding/Dashboard.tsx:62-63 | the store starts with the seed tasks and the tab "all" |
| Dashboard.TaskStore.SetStatus | src/components/onboarding/Dashboard.tsx:69-73 | the new list is the status map of the old one; the tab is unchanged; the ids stay those of the seed |
| Dashboard.TaskStore.SetActiveTab | src/components/onboarding/Dashboard.tsx:120-124 | the tab becomes the chosen value; the tasks are unchanged |
| Dashboard.TaskStore.Visible | src/components/onboarding/Dashboard.tsx:75-86 | the view is no longer than the list and shows only tasks of the list |
| Dashboard.TaskStore.Progress | src/components/onboarding/Dashboard.tsx:66-67 | for the store's task list, progress is a finite value in [0, 100] and is 100 exactly when every task is completed |
| ProgressBar.Clamp | src/components/onboarding/ProgressBar.tsx:18 | the result is NaN exactly for NaN input; otherwise it lies in [0, 100] |
| ProgressBar.ClampCases | src/components/onboarding/ProgressBar.tsx:18 | a value in [0, 100] is returned unchanged; a negative value gives 0; a value above 100 gives 100 |
| ProgressBar.ClampIdempotent | src/components/onboarding/ProgressBar.tsx:18 | clamping twice is the same as clamping once |
| ProgressBar.ClampMonotone | src/components/onboarding/ProgressBar.tsx:18 | a larger input never gives a smaller clamped value |
| ProgressBar.HeightClass | src/components/onboarding/ProgressBar.tsx:20-27 | sm gives h-1 and lg gives h-3; md and every other value give h-2 |
| ProgressBar.SizeOrDefault | src/components/onboarding/ProgressBar.tsx:15 | a bar without a size gets the md height, h-2; a given size picks its own height |
| PersonalInfo.Issues | src/components/onboarding/PersonalInfoForm.tsx:22-33 | each field's issue, with the form's message for it, is in the list exactly when that field's rule fails (full name, e-mail, phone, address, contact name, relationship, contact phone); the list has one issue per failing rule, so it holds nothing else; `DefaultsRejected` shows the issues come in field order |
| PersonalInfo.Validate | src/components/onboarding/PersonalInfoForm.tsx:22-33 | accepted exactly when: full name ≥ 2; e-mail is an address; phone ≥ 10; address ≥ 5; contact name ≥ 2; contact relationship ≥ 2; contact phone ≥ 10. An accepted record comes back unchanged |
| PersonalInfo.DateOfBirthFree | src/components/onboarding/PersonalInfoForm.tsx:26 | an absent date of birth, or any string, never changes the outcome |
| PersonalInfo.DefaultsRejected | src/components/onboarding/PersonalInfoForm.tsx:43-54 | the empty defaults are rejected, with one issue per length rule, in field order |
| PersonalInfo.PersonalInfoForm.constructor | src/components/onboarding/PersonalInfoForm.tsx:38 | the form starts not saving |
| PersonalInfo.PersonalInfoForm.Submit | src/components/onboarding/PersonalInfoForm.tsx:57-58 | a submission is accepted exactly when the form is not saving and the record is valid; an accepted one raises `isSaving` |
| PersonalInfo.PersonalInfoForm.SaveFinished | src/components/onboarding/PersonalInfoForm.tsx:61-63 | completing the save lowers `isSaving` |
| BankInfo.ParseMethod | src/components/onboarding/BankInfoForm.tsx:28 | a raw value names a payment method exactly when it is direct_deposit, check or other |
| BankInfo.Issues | src/components/onboarding/BankInfoForm.tsx:21-29 | each field's issue, with the form's message for it (the library's own for the payment method), is in the list exactly when that field's rule fails; the list has one issue per failing rule, so it holds nothing else; `DefaultsRejected` shows the issues come in field order |
| BankInfo.Validate | src/components/onboarding/BankInfoForm.tsx:21-29 | accepted exactly when: holder name ≥ 2; account number ≥ 8; routing number ≥ 9; bank name ≥ 2; account type ≥ 2; payment method one of the three. The parsed record keeps the fields |
| BankInfo.TaxIdFree | src/components/onboarding/BankInfoForm.tsx:27 | an absent tax id, or any string, never changes the outcome |
| BankInfo.RoutingNumberLettersAccepted | src/components/onboarding/BankInfoForm.tsx:24 | only the routing number's length is checked, so nine letters are accepted |
| BankInfo.DefaultsRejected | src/components/onboarding/BankInfoForm.tsx:39-47 | the default account type and payment method meet their rules; the defaults are rejected for exactly the four empty fields |
| BankInfo.ExactlyOneChecked | src/components/onboarding/BankInfoForm.tsx:212-249 | a valid payment method checks exactly the one radio it names; any other value checks none |
| BankInfo.BankInfoForm.constructor | src/components/onboarding/BankInfoForm.tsx:34 | the form starts not saving |
| BankInfo.BankInfoForm.Submit | src/components/onboarding/BankInfoForm.tsx:50-51 | a submission is accepted exactly when the form is not saving and the record is valid; an accepted one raises `isSaving` |
| BankInfo.BankInfoForm.SaveFinished | src/components/onboarding/BankInfoForm.tsx:54-56 | completing the save lowers `isSaving` |
| FamilyDetails.MemberIssues | src/components/onboarding/FamilyDetailsForm.tsx:26-42 | the first-name, last-name and birth-date issues, each with the form's message, are in the list exactly when that field's rule fails; the list has one issue per failing rule, so it holds nothing else |
| FamilyDetails.ValidateMember | src/components/onboarding/FamilyDetailsForm.tsx:26-42 | accepted exactly when first and last name are each ≥ 2 and the birth date is in the past. The parsed member keeps the fields; `isDependent` defaults to false |
| FamilyDetails.MemberDefaultsRejected | src/components/onboarding/FamilyDetailsForm.tsx:89-95 | the empty member dialog is rejected |
| FamilyDetails.Issues | src/components/onboarding/FamilyDetailsForm.tsx:44-63 | the hasChildren issue (library message), the contact-name issue and the contact-phone issue are each in the list exactly when that field's rule fails; the list has one issue per failing rule, so it holds nothing else; `DefaultsRejected` shows which fields the defaults fail |
| FamilyDetails.Validate | src/components/onboarding/FamilyDetailsForm.tsx:44-63 | accepted exactly when hasChildren is yes or no, the contact name is ≥ 2 and the contact phone is ≥ 10. An accepted record comes back unchanged |
| FamilyDetails.FreeFields | src/components/onboarding/FamilyDetailsForm.tsx:44-63 | marital status, children count and the contact's relationship may be any value, empty or absent, without changing the outcome |
| FamilyDetails.DefaultsRejected | src/components/onboarding/FamilyDetailsForm.tsx:74-83 | the defaults are rejected, for the empty contact name and phone only |
| FamilyDetails.SpliceStart | src/components/onboarding/FamilyDetailsForm.tsx:128 | `splice` starts at the index when it is within the list, counts a negative index from the end (not before 0), and stops at the end for a large index |
| FamilyDetails.SpliceOne | src/components/onboarding/FamilyDetailsForm.tsx:128 | `splice(index, 1)` removes one member exactly when the list is non-empty and the index is below its length (a very negative index removes the first), and never adds one; `SpliceOneInRange` says which one goes |
| FamilyDetails.SpliceOneInRange | src/components/onboarding/FamilyDetailsForm.tsx:127-129 | removing at a position in the list deletes exactly that member: one fewer, earlier ones in place, later ones shifted down in order |
| FamilyDetails.SpliceOneBeyondEnd | src/components/onboarding/FamilyDetailsForm.tsx:128 | an index at or past the end removes nothing |
| FamilyDetails.AddThenRemove | src/components/onboarding/FamilyDetailsForm.tsx:115-129 | appending a member and then removing at the old length restores the original list |
| FamilyDetails.RemoveAt | src/components/onboarding/FamilyDetailsForm.tsx:126-129 | copying the list into an array and shifting its tail down yields the `splice` result |
| FamilyDetails.FamilyDetailsForm.constructor | src/components/onboarding/FamilyDetailsForm.tsx:67-68 | the form starts not complete, with no family members |
| FamilyDetails.FamilyDetailsForm.Submit | src/components/onboarding/FamilyDetailsForm.tsx:99-111 | a valid record sets `isComplete`; an invalid one changes nothing; the member list is kept |
| FamilyDetails.FamilyDetailsForm.EditDetails | src/components/onboarding/FamilyDetailsForm.tsx:145 | "Edit Details" clears `isComplete` and keeps the members |
| FamilyDetails.FamilyDetailsForm.AddFamilyMember | src/components/onboarding/FamilyDetailsForm.tsx:114-115 | a valid member is appended at the end and an invalid one is not; because the dialog's form (line 279) is nested in the main form (line 158), the main form is submitted too, so `isComplete` is raised exactly when it was set or the main values are valid |
| FamilyDetails.FamilyDetailsForm.RemoveFamilyMember | src/components/onboarding/FamilyDetailsForm.tsx:126-129 | the member list becomes its `splice(index, 1)`; `isComplete` is kept |

## Left out

- Rendering, CSS classes, icons, the tab, dialog and select widgets, and hover state are not modelled. They are presentation only.
- The dialog's open flag and the reset of the member dialog after an add are not modelled. They are presentation only.
- Toast notifications and `console.log` calls are not modelled. They are fire-and-forget and change no state.
- The `setTimeout` and `await` delays are dropped. Each submit is modelled by the flag values before and after the delay.
- The e-mail format check is the validation library's own pattern, which is not part of this model. `PersonalInfo.Validate` takes it as a parameter, `isEmail`.
- The date-of-birth check compares with the wall clock. `FamilyDetails.ValidateMember` takes it as a parameter, `inPast`.
- `Math.round` on the shown percentage is not modelled, and neither is IEEE division. Progress is computed as an exact real, so the seed's progress is exactly 100/6.
- The assignee's upper-cased initial is not modelled. It needs Unicode case mapping.
- JavaScript's signed zero and infinities are not modelled. The progress value can never be one of them.
- A field that is not a string at all is not modelled; the validation library would report a type error for it. Every record field here is a string, an optional string, or the optional boolean `isDependent`, and the forms always supply one of those.
- The benefits form is not modelled. Its schema only checks types, so there is no rule to state.
- The header, the footer, the pages and the animation wrapper are not modelled. They are layout, clock and timer code.
