# A verified model of a small React CRM front end

This project models the logic of a customer-relationship front end written
in React and TypeScript. It covers:

- three in-memory stores: deals, contacts, and the team's users;
- the interface settings: language, theme, the signed-in user's profile and
  the translation function `t`;
- the filtered and sorted views of the contact, deal and task lists;
- the dashboard's figures;
- the pipeline board, with its columns, drag and drop, and adding a deal
  from a column;
- the contact, deal, profile and user forms: validation, the record each
  builds on submit, and how each edits its state.

Each core source file becomes one Dafny module:

| source | module | form |
|---|---|---|
| `src/types/index.ts` | `Types` | records as datatypes, the two `find` lookups |
| `src/hooks/useDeals.ts` | `DealsStore` | class `DealStore` with a `deals: seq<Deal>` field |
| `src/hooks/useContacts.ts` | `ContactsStore` | class `ContactStore` with a `contacts` field |
| `src/contexts/AppContext.tsx` | `AppContext` | class `AppState`; translation tables and merges as functions |
| `src/components/ContactList.tsx` | `ContactList` | the filter as functions |
| `src/components/DealsList.tsx` | `DealsList` | filter, stable sort and totals as functions |
| `src/components/TaskManager.tsx` | `TaskManager` | filter, stable sort and counters as functions |
| `src/components/Dashboard.tsx` | `Dashboard` | figures as functions |
| `src/components/KanbanBoard.tsx` | `KanbanBoard` | class `Board`; columns and the drop as functions |
| `src/components/ContactForm.tsx` | `ContactForm` | class `ContactFormState`; validation and tags as functions |
| `src/components/DealForm.tsx` | `DealForm` | class `DealFormState`; validation and deal building as functions |
| `src/components/Settings.tsx` | `Settings` | classes `ProfileSettings` and `UserManagement` |

Three helper modules are shared:

- `Wrappers` holds `Option`.
- `Seqs` holds `filter`, sums, and a stable insertion sort by a real-valued
  key. It stands in for `Array.prototype.sort`, which is stable.
- `Text` holds ASCII versions of `toLowerCase`, `includes`, `trim`,
  `split` and `join`.

Several inputs are parameters rather than computed:

- Clocks become parameters: `id` stands for `Date.now().toString()`, `now`
  for `new Date().toISOString()`, and `today` for its date part. When an
  operation reads the clock twice, both readings are the one `now`.
- Dates are compared through a parameter `time: string -> int`, which stands
  for `new Date(s).getTime()`.
- `parseFloat`, `parseInt` and `JSON.parse` are partial functions passed in.
  For the number parsers, `None` stands for `NaN`.
- The pipeline stage list (`pipelineStages`) is a parameter.
- The browser's confirmation answer is a boolean parameter.
- Browser storage is three fields of `AppState`. They hold what was last
  written under `crm-language`, `crm-theme` and `crm-profile`. What the
  start-up load reads from storage is a parameter.

## Model

| member | source | states |
|---|---|---|
| `Types.FindStage` | src/components/KanbanBoard.tsx:118 | `find` by id: a found stage is the first in the list with that id; nothing is found exactly when no stage has the id |
| `Types.FindContact` | src/components/DealForm.tsx:60 | `find` by id: a found contact is the first in the list with that id; nothing is found exactly when no contact has the id |
| `DealsStore.DealStore.AddDeal` | src/hooks/useDeals.ts:8-19 | returns the new deal built from the form data, the id and now; the list becomes that deal followed by the old list |
| `DealsStore.DealStore.UpdateDeal` | src/hooks/useDeals.ts:21-29 | the list becomes `UpdateDeals` of the old list |
| `DealsStore.DealStore.DeleteDeal` | src/hooks/useDeals.ts:31-33 | the list becomes `DeleteDeals` of the old list |
| `DealsStore.UpdateDeals` | src/hooks/useDeals.ts:22-28 | the update keeps the list's length |
| `DealsStore.CreateDealFields` | src/hooks/useDeals.ts:9-15 | the new deal carries every input field, no activities, the given id, and now as both timestamps (the two clock readings taken as one); a fresh id keeps ids unique |
| `DealsStore.TouchFields` | src/hooks/useDeals.ts:25 | `updatedAt` is now even if the patch carries its own; named fields are replaced, the others kept; an empty patch only stamps the deal |
| `DealsStore.TouchIdempotent` | src/hooks/useDeals.ts:25 | applying the same update twice at the same time equals applying it once |
| `DealsStore.UpdateDealsSpec` | src/hooks/useDeals.ts:22-28 | length and order are kept; deals with another id are unchanged; matching deals are merged and stamped |
| `DealsStore.UpdateDealsAbsent` | src/hooks/useDeals.ts:23-27 | an id not in the list leaves the list unchanged |
| `DealsStore.UpdateDealsKeepsUniqueIds` | src/hooks/useDeals.ts:22-28 | a patch without an id keeps the ids unique and the id set the same |
| `DealsStore.DeleteDealsSpec` | src/hooks/useDeals.ts:32 | the result is an ordered subsequence holding every copy of each deal with another id and no deal with the id |
| `DealsStore.DeleteDealsAbsent` | src/hooks/useDeals.ts:32 | deleting an absent id is a no-op |
| `DealsStore.DeleteDealsIdempotent` | src/hooks/useDeals.ts:32 | deleting twice equals deleting once |
| `DealsStore.DeleteUndoesAdd` | src/hooks/useDeals.ts:17-32 | deleting a deal just added under a fresh id gives back the old list |
| `ContactsStore.ContactStore.AddContact` | src/hooks/useContacts.ts:8-16 | returns the new contact (the data plus the id) and puts it in front of the old list |
| `ContactsStore.ContactStore.UpdateContact` | src/hooks/useContacts.ts:18-26 | the list becomes `UpdateContacts` of the old list |
| `ContactsStore.ContactStore.DeleteContact` | src/hooks/useContacts.ts:28-30 | the list becomes `DeleteContacts` of the old list |
| `ContactsStore.UpdateContacts` | src/hooks/useContacts.ts:19-25 | the update keeps the list's length |
| `ContactsStore.CreateContactFields` | src/hooks/useContacts.ts:9-12 | the new contact is the input plus the id; no other field is touched |
| `ContactsStore.MergeEmpty` | src/hooks/useContacts.ts:22 | an empty patch leaves a contact unchanged |
| `ContactsStore.UpdateContactsSpec` | src/hooks/useContacts.ts:19-25 | only matching contacts are merged, with no timestamp; an empty patch or an absent id leaves the list unchanged |
| `ContactsStore.DeleteContactsSpec` | src/hooks/useContacts.ts:29 | the result is an ordered subsequence holding every copy of each contact with another id and no contact with the id |
| `ContactsStore.UpdateContactKeepsDeals` | src/hooks/useContacts.ts:18-26 | updating a contact leaves the deal store, including every embedded contact snapshot, unchanged |
| `AppContext.AppState.constructor` | src/contexts/AppContext.tsx:312-329 | before the load: language `en`, theme `light`, the sample users, and the sample profile with all four notifications on |
| `AppContext.AppState.LoadSettings` | src/contexts/AppContext.tsx:332-346 | a stored language or theme is adopted when it is non-empty, unchecked; a stored profile only when it parses; nothing else changes |
| `AppContext.AppState.SetLanguage` | src/contexts/AppContext.tsx:413-416 | the language becomes the code and the same code is stored; nothing else changes |
| `AppContext.AppState.SetTheme` | src/contexts/AppContext.tsx:418-421 | the theme becomes the code and the same code is stored; nothing else changes |
| `AppContext.AppState.UpdateProfile` | src/contexts/AppContext.tsx:423-427 | the profile becomes the shallow merge and the stored profile equals it |
| `AppContext.AppState.AddUser` | src/contexts/AppContext.tsx:429-435 | the new user is appended at the end |
| `AppContext.AppState.UpdateUser` | src/contexts/AppContext.tsx:437-443 | the list becomes `UpdateUsers` of the old list |
| `AppContext.AppState.DeleteUser` | src/contexts/AppContext.tsx:445-447 | the list becomes `DeleteUsers` of the old list |
| `AppContext.Translate` | src/contexts/AppContext.tsx:449-451 | the result is the active table's entry when it is non-empty, and the key otherwise; a language with no table throws (`None`) |
| `AppContext.TranslateNonEmpty` | src/contexts/AppContext.tsx:449-451 | a known language never translates a non-empty key to the empty string |
| `AppContext.TablesShareKeys` | src/contexts/AppContext.tsx:50-271 | the four tables define the same keys |
| `AppContext.TranslateExamples` | src/contexts/AppContext.tsx:449-451 | `t('dashboard')` is `'Panel'` in `es` and `'Dashboard'` in `en`; an unknown key falls back to itself |
| `AppContext.MergeProfileFields` | src/contexts/AppContext.tsx:424 | an absent field keeps its value and a given one replaces it; a given `notifications` replaces the whole record; an empty patch is a no-op; merging twice equals merging once |
| `AppContext.MergeWholeProfile` | src/contexts/AppContext.tsx:424 | submitting a whole profile makes it current, except that an absent avatar keeps the old one |
| `AppContext.UpdateUsers` | src/contexts/AppContext.tsx:438-442 | the update keeps the list's length |
| `AppContext.Adopt` | src/contexts/AppContext.tsx:337-338 | a non-empty stored string is adopted; otherwise the current value stays |
| `AppContext.AdoptProfile` | src/contexts/AppContext.tsx:339-345 | a stored profile is adopted only when it is non-empty and parses; otherwise the default stays |
| `AppContext.AdoptIdempotent` | src/contexts/AppContext.tsx:332-346 | loading the same storage twice equals loading it once |
| `AppContext.CreateUserFields` | src/contexts/AppContext.tsx:430-434 | the new user is the given data plus the given id, nothing else; appending it adds exactly that id to the list's ids |
| `AppContext.UpdateUsersSpec` | src/contexts/AppContext.tsx:437-443 | only users with that id are merged; an absent id leaves the list unchanged |
| `AppContext.DeleteUsersSpec` | src/contexts/AppContext.tsx:445-447 | the result is an ordered subsequence holding every copy of each user with another id and no user with the id |
| `AppContext.DeleteUndoesAddUser` | src/contexts/AppContext.tsx:429-447 | deleting a user just added under a fresh id gives back the old list |
| `ContactList.FilterContacts` | src/components/ContactList.tsx:87-93 | a contact is kept exactly when the term matches name, company or email case-insensitively, and the filter is `'all'` or its status |
| `ContactList.FilterContactsShowsAll` | src/components/ContactList.tsx:88-91 | an empty term with `'all'` shows the whole list |
| `ContactList.FilterContactsSubseq` | src/components/ContactList.tsx:87 | the output is an ordered subsequence of the input |
| `ContactList.FilterContactsIdempotent` | src/components/ContactList.tsx:87-93 | filtering the output again leaves it unchanged |
| `ContactList.FilterContactsIgnoresCase` | src/components/ContactList.tsx:88-90 | terms that differ only in letter case give the same output |
| `ContactList.FilterContactsStatusNarrows` | src/components/ContactList.tsx:91 | a status filter never shows more contacts than `'all'` |
| `ContactList.SubmitContactForm` | src/components/ContactList.tsx:153-157 | a contact is added, in front, exactly when the form passes its checks; the added contact is the form's contact under the new id, and the form returns to its defaults with no errors; a failing form adds nothing, keeps its data and shows the failed checks |
| `DealsList.FilterDeals` | src/components/DealsList.tsx:118-124 | a deal is kept exactly when the term matches the title or the contact's name or company, and the filter is `'all'` or the stage id |
| `DealsList.DealsViewPermutation` | src/components/DealsList.tsx:117-138 | the sorted view is a permutation of the filtered deals |
| `DealsList.SortDealsOrder` | src/components/DealsList.tsx:125-138 | descending value, descending probability, ascending close date, descending `updatedAt`, by menu choice |
| `DealsList.SortDealsStable` | src/components/DealsList.tsx:125-138 | deals the comparator ties keep their store order |
| `DealsList.SortDealsUnknownKeepsOrder` | src/components/DealsList.tsx:135-136 | an unknown sort choice keeps the filtered order |
| `DealsList.DealsViewTotals` | src/components/DealsList.tsx:140-141 | sorting changes neither the total value nor the average probability |
| `DealsList.AverageProbability` | src/components/DealsList.tsx:141 | 0 for an empty list; otherwise the average times the count is the sum |
| `DealsList.AverageProbabilityBounds` | src/components/DealsList.tsx:141 | when every probability of a non-empty list lies in [lo, hi], so does the average |
| `DealsList.TotalValueSplits` | src/components/DealsList.tsx:140 | the shown and hidden values add up to the whole store's value |
| `TaskManager.FilterTasks` | src/components/TaskManager.tsx:152-159 | a task is kept exactly when the term matches title, description or assignee, and both filters are `'all'` or equal |
| `TaskManager.TasksViewPermutation` | src/components/TaskManager.tsx:151-175 | the sorted view is a permutation of the filtered tasks |
| `TaskManager.SortTasksOrder` | src/components/TaskManager.tsx:160-175 | ascending due date, descending priority rank (urgent 4 to low 1), ascending status rank (todo 1 to completed 3), descending `updatedAt` |
| `TaskManager.SortTasksStable` | src/components/TaskManager.tsx:160-175 | tied tasks keep their order |
| `TaskManager.SortTasksUnknownKeepsOrder` | src/components/TaskManager.tsx:172-173 | an unknown sort choice keeps the order |
| `TaskManager.FilterTasksSubseq` | src/components/TaskManager.tsx:152 | the filter never reorders |
| `TaskManager.FilterTasksShowsAll` | src/components/TaskManager.tsx:152-158 | an empty term with both filters `'all'` shows every task |
| `TaskManager.StatusCountsPartition` | src/components/TaskManager.tsx:179-181 | the three status counts add up to the task count |
| `TaskManager.StatsConsistent` | src/components/TaskManager.tsx:177-183 | `todo + inProgress + completed == total`; `overdue <= total - completed`, counted with the card's `isOverdue` predicate |
| `Dashboard.RecentDeals` | src/components/Dashboard.tsx:33 | the first min(5, n) deals in store order |
| `Dashboard.WonDeals` | src/components/Dashboard.tsx:35 | the number of positions whose deal's stage is named "Closed Won"; at most the number of deals |
| `Dashboard.ConversionRate` | src/components/Dashboard.tsx:35-36 | lies in [0, 100]; 0 for no deals; otherwise rate times count equals won times 100; 100 when every deal is won |
| `Dashboard.HotContacts` | src/components/Dashboard.tsx:37 | the number of positions holding a hot contact; at most the number of contacts |
| `Dashboard.StageDeals` | src/components/Dashboard.tsx:86 | exactly the deals with that stage id |
| `Dashboard.StagesAddUp` | src/components/Dashboard.tsx:85-87 | with distinct stage ids covering every deal, the stage counts add up to the deal count and the stage values to the total value |
| `Dashboard.StagesIgnoreOther` | src/components/Dashboard.tsx:85-87 | deals of an unlisted stage change no listed stage's figures |
| `Dashboard.ConversionRateNoneWon` | src/components/Dashboard.tsx:35-36 | no won deal gives 0 |
| `Dashboard.ConversionRateAllWon` | src/components/Dashboard.tsx:35-36 | all deals won gives 100 |
| `KanbanBoard.Columns` | src/components/KanbanBoard.tsx:165-166 | one column per stage; a column holds exactly the deals with that stage id |
| `KanbanBoard.ColumnsSubseq` | src/components/KanbanBoard.tsx:166 | each column is an ordered subsequence of the deals |
| `KanbanBoard.BoardMatchesStages` | src/components/KanbanBoard.tsx:52 | the column sizes and values are the dashboard's per-stage counts and values |
| `KanbanBoard.ColumnsAddUp` | src/components/KanbanBoard.tsx:165-166 | with distinct stage ids covering every deal, the columns hold every deal once and their values add up to the total |
| `KanbanBoard.DragEndNoOp` | src/components/KanbanBoard.tsx:113-120 | no destination, the same place, or a column that is not a stage leaves the store unchanged |
| `KanbanBoard.DragEndMoves` | src/components/KanbanBoard.tsx:118-123 | otherwise only the dragged deal changes: it gets the new stage and a fresh `updatedAt`; every other deal is untouched |
| `KanbanBoard.DragEndWithinColumn` | src/components/KanbanBoard.tsx:114-123 | a move within a column keeps the stage and only bumps `updatedAt` |
| `KanbanBoard.DragEndColumns` | src/components/KanbanBoard.tsx:110-125 | after a move the dragged deal shows in the destination column and in no other |
| `KanbanBoard.FindStageDistinct` | src/components/KanbanBoard.tsx:118 | with distinct ids, finding a stage's id finds that stage |
| `KanbanBoard.ColumnDealSpec` | src/components/KanbanBoard.tsx:132-143 | no chosen column passes the deal through; an unknown column adds nothing; otherwise only the stage is replaced by the chosen column's |
| `KanbanBoard.ColumnDealKnownStage` | src/components/KanbanBoard.tsx:133-139 | a chosen stage's column always gives the deal that stage |
| `KanbanBoard.Board.OnDragEnd` | src/components/KanbanBoard.tsx:110-125 | the store becomes `DragEnd` of the old deals |
| `KanbanBoard.Board.HandleAddDeal` | src/components/KanbanBoard.tsx:127-130 | the column is remembered and the form opens |
| `KanbanBoard.Board.HandleFormSubmit` | src/components/KanbanBoard.tsx:132-145 | adds the column's version of the deal in front, or nothing; the chosen column is always reset to `''` |
| `KanbanBoard.Board.HandleFormClose` | src/components/KanbanBoard.tsx:182-185 | the form closes and the chosen column is reset |
| `KanbanBoard.Board.SubmitDealForm` | src/components/KanbanBoard.tsx:180-188 | a valid form whose contact, stage, value and probability all resolve adds its deal, with the column's stage, returns to its defaults with no errors, and closes; otherwise the store and the board stay, and the form keeps its data and shows the failed checks (none when the form is valid but a lookup or a number parse failed) |
| `ContactForm.Apply` | src/components/ContactForm.tsx:87-88 | the edited field takes the value; every other field stays |
| `ContactForm.EmailShape` | src/components/ContactForm.tsx:33 | an accepted address has no white space and exactly one `@`, not at the start |
| `ContactForm.EmailAccepted` | src/components/ContactForm.tsx:33 | `ana@crm.io` matches the pattern |
| `ContactForm.EmailWithoutAt` | src/components/ContactForm.tsx:33 | `not-an-email` does not match |
| `ContactForm.EmailLeadingSpace` | src/components/ContactForm.tsx:33 | a leading space fails, because the pattern is matched against the untrimmed text |
| `ContactForm.ClearAt` | src/components/ContactForm.tsx:91 | the field's error becomes `''`; the others stay |
| `ContactForm.ContactErrorsRecord` | src/components/ContactForm.tsx:24-51 | a field has an error key exactly when its check fails, with that check's message; no errors exactly when the form is valid |
| `ContactForm.ContactErrorsSpec` | src/components/ContactForm.tsx:27-47 | name, phone, company and position fail exactly when blank; email is "required" when blank, "invalid" when it does not match, and otherwise clean |
| `ContactForm.TrimAll` | src/components/ContactForm.tsx:68 | each piece is trimmed in place |
| `ContactForm.ParseTagsClean` | src/components/ContactForm.tsx:68 | every tag is non-empty, has no comma, and has no surrounding white space |
| `ContactForm.ParseTagsJoin` | src/components/ContactForm.tsx:68 | clean tags written with commas parse back to the same tags, in order |
| `ContactForm.ParseTagsEmpty` | src/components/ContactForm.tsx:68 | an empty field gives no tags |
| `ContactForm.TrimKeepsOut` | src/components/ContactForm.tsx:68 | trimming adds no character |
| `ContactForm.TrimAllClean` | src/components/ContactForm.tsx:68 | clean tags are left as they are by the trim step |
| `ContactForm.BuildContactFields` | src/components/ContactForm.tsx:60-69 | name, email, phone, company and position are each the trim of the input (no white space at either end, only white space cut); the chosen status, today as last contact, no avatar, and clean tags |
| `ContactForm.ContactFormState.ValidateForm` | src/components/ContactForm.tsx:24-51 | the errors become `ContactErrors`; the result says whether the form is valid; the data stays |
| `ContactForm.ContactFormState.HandleSubmit` | src/components/ContactForm.tsx:53-85 | submits exactly when valid, with `BuildContact`; then resets to the defaults with no errors; otherwise keeps the data and shows the errors |
| `ContactForm.ContactFormState.HandleInputChange` | src/components/ContactForm.tsx:87-93 | sets the field; clears only that field's error, and only if it showed |
| `DealForm.Set` | src/components/DealForm.tsx:95 | the edited field takes the value; every other field stays |
| `DealForm.ClearAt` | src/components/DealForm.tsx:98 | the field's error becomes `''`; the others stay |
| `DealForm.DealErrorsRecord` | src/components/DealForm.tsx:26-51 | a field has an error key exactly when its check fails, with that check's message; no errors exactly when the form is valid |
| `DealForm.DealErrorsSpec` | src/components/DealForm.tsx:29-47 | title and description fail when blank; contact and close date when empty; value when empty or at most 0; stage and probability never |
| `DealForm.UnparsableValuePasses` | src/components/DealForm.tsx:33-35 | a non-empty value that does not parse (`NaN`) raises no error |
| `DealForm.BuildDealFields` | src/components/DealForm.tsx:60-76 | the found contact's id is the chosen id; the found stage has the chosen id; title and description are each the trim of the input (no white space at either end, only white space cut) |
| `DealForm.BuildDealNeedsLookups` | src/components/DealForm.tsx:60-65 | nothing is built when the contact or the stage is not found |
| `DealForm.DealFormState.ValidateForm` | src/components/DealForm.tsx:26-51 | the errors become `DealErrors`; the result says whether the form is valid; the data stays |
| `DealForm.DealFormState.HandleSubmit` | src/components/DealForm.tsx:53-92 | nothing is submitted when invalid or when a lookup fails; otherwise submits `BuildDeal` and resets to the first stage, probability `'25'`, no errors |
| `DealForm.DealFormState.HandleInputChange` | src/components/DealForm.tsx:94-100 | sets the field; clears only that field's error, and only if it showed |
| `Settings.SetProfileValue` | src/components/Settings.tsx:51-53 | the edited profile field takes the value; every other field stays |
| `Settings.SetFlag` | src/components/Settings.tsx:55-60 | the named notification flag takes the value; the other flags stay |
| `Settings.SetFlagUndo` | src/components/Settings.tsx:55-60 | setting a flag to its own value is a no-op; setting it back undoes a change |
| `Settings.ProfileSettings.constructor` | src/components/Settings.tsx:41 | the form starts as a copy of the current profile |
| `Settings.ProfileSettings.HandleInputChange` | src/components/Settings.tsx:51-53 | one text field of the copy changes |
| `Settings.ProfileSettings.HandleNotificationChange` | src/components/Settings.tsx:55-60 | only the named flag changes; every other profile field and flag stays |
| `Settings.ProfileSettings.HandleSubmit` | src/components/Settings.tsx:44-49 | the whole copy is merged into the profile and stored; an unedited copy leaves the profile unchanged; users, language, theme and their stored values stay |
| `Settings.PermissionsRule` | src/components/Settings.tsx:326 | `['all']` exactly for admins; `['deals', 'contacts']` exactly for every other role |
| `Settings.NewUserFields` | src/components/Settings.tsx:323-327 | a new user carries the six form fields, today as join date, the role's permissions and the new id |
| `Settings.EditKeepsIdentity` | src/components/Settings.tsx:320-321 | an edit takes the six fields and keeps the id, avatar, join date and permissions, even when the role changes |
| `Settings.UneditedEditKeepsUser` | src/components/Settings.tsx:317-357 | opening a user and saving without a change leaves that user unchanged |
| `Settings.UserManagement.HandleSubmit` | src/components/Settings.tsx:317-331 | in edit mode, updates the edited user with the six fields and adds no one; otherwise appends the new user; always resets the form; the profile, language, theme and every stored value stay |
| `Settings.UserManagement.ResetForm` | src/components/Settings.tsx:333-344 | empty fields, role `user`, status `active`, no user being edited, dialog closed |
| `Settings.UserManagement.HandleEdit` | src/components/Settings.tsx:346-357 | loads exactly the user's six fields, marks the user as being edited, and opens the dialog |
| `Settings.UserManagement.HandleDelete` | src/components/Settings.tsx:359-363 | deletes only when confirmed; the profile, language, theme and every stored value stay |
| `Seqs.FilterMembers` | src/components/ContactList.tsx:87 | `filter` keeps only elements that pass and every element that passes |
| `Seqs.FilterMultiset` | src/hooks/useDeals.ts:32 | `filter` keeps every copy of each element that passes and no copy of one that fails |
| `Seqs.FilterCount` | src/components/Dashboard.tsx:37 | `filter(p).length` is the number of positions whose element satisfies `p` |
| `Seqs.SortBySorted` | src/components/DealsList.tsx:125 | the stable sort's output is ordered by key |
| `Seqs.SortByPermutation` | src/components/DealsList.tsx:125 | the stable sort's output is a permutation of its input |
| `Seqs.SortByStable` | src/components/DealsList.tsx:125 | elements with equal keys keep their relative order |
| `Seqs.SortByConstantKey` | src/components/DealsList.tsx:135-136 | a comparator that always returns 0 leaves the order unchanged |
| `Text.TrimSpec` | src/components/ContactForm.tsx:61 | `trim` leaves no white space at either end and cuts out only surrounding white space |
| `Text.TrimmedFromUnique` | src/components/ContactForm.tsx:61 | the trim is the only string with no white space at either end that sits in the input with only white space around it |
| `Text.TrimEmptyIffBlank` | src/components/ContactForm.tsx:27 | `!s.trim()` holds exactly when `s` is all white space |
| `Text.ContainsIff` | src/components/ContactList.tsx:88 | `includes` holds exactly when the needle occurs at some position |
| `Text.LowerIdempotent` | src/components/ContactList.tsx:88 | lower-casing twice equals lower-casing once |
| `Text.SplitJoin` | src/components/ContactForm.tsx:68 | joining the split pieces with the separator gives back the text; no piece contains the separator |
| `Text.JoinSplit` | src/components/ContactForm.tsx:68 | pieces without the separator, joined, split back into the same pieces |

## Left out

- Rendering: JSX, CSS classes, icons and the colour maps are presentation with no invariants.
- The theme palette effect on `document` is DOM output.
- The `isOpen` guard of the forms is rendering only.
- The success banner's `setTimeout` is a timer. The model keeps `showSuccess` set after a submit.
- Serialisation is not modelled. JSON parsing is a partial function, and storage holds values, not JSON text.
- `useApp`'s throw outside a provider is view wiring.
- The Google Calendar link and `window.open` in the task manager are an external hand-off.
- Float display formatting is not modelled: `toFixed`, `toLocaleString`, "$…K", the unguarded average deal size, and the close-date colour bands.
- The app shell and navigation (`App`, `Layout`, `Sidebar`, `TopBar`) are view wiring.
- Unicode: `toLowerCase`, `trim` and the regular expression's `\s` are modelled on ASCII letters and ASCII white space only.
- Number parsing and date parsing are parameters, as described above.
- `DealForm.BuildDeal`: when `parseFloat` or `parseInt` gives `NaN`, the application submits a deal carrying `NaN`, while the model submits nothing (`None`), because a real number cannot be `NaN`.
- `DealForm.DealFormState.HandleSubmit`: for the same reason, a valid form whose value or probability does not parse keeps its data here.
- `KanbanBoard.Board.SubmitDealForm`: for the same reason, a valid form whose contact and stage are found but whose value or probability gives `NaN` (for example, a cleared probability field) adds nothing, and the form stays open with its data. The application adds a deal carrying `NaN` in front of the list, resets the form and closes it.
- `DealsStore.CreateDeal`: the application reads the clock twice, once for `createdAt` and once for `updatedAt`. The model takes both readings as the single parameter `now`, so its `createdAt == updatedAt` is a consequence of this abstraction, not something the application promises. The two readings can fall in different milliseconds.
- `AppContext.Translate`: the documented behaviour says `t` never fails. In the code, a language adopted unchecked from storage that names no table and no inherited object property makes the lookup throw; the model returns `None` there. The JavaScript prototype chain is not modelled: a language such as `toString` or `__proto__` finds an inherited value in the code, so `t` returns the key where the model returns `None`, and a key such as `constructor` finds an inherited function in the code where the model returns the key.
- Unparsable dates are not modelled: `time: string -> int` cannot give the `NaN` of `new Date(s).getTime()`. In the code such a task is never overdue (src/components/TaskManager.tsx:40, 182) and the date comparators return `NaN`, which `sort` treats as equal (src/components/DealsList.tsx:132, src/components/TaskManager.tsx:163).
- The error objects are modelled as records with one optional entry per checked field. `handleInputChange` with a field that has no error key leaves the object as it was, which is what the record does.
- Id collisions from `Date.now()` are not modelled: a fresh id is a precondition of the lemmas that need one.
- The drag library's own state (react-beautiful-dnd) is left out; only the record it passes to `onDragEnd` is modelled.
