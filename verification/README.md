# Test plan wizard — a verified Dafny model

This project models the logic of a small test-plan application (a Next.js/React app).

The application lets a user build a test plan step by step:
- a name, an introduction, a project name and a project discovery text;
- a choice of test-approach sections with details;
- a list of epics.

It searches the team's issue tracker (JIRA) for the project's epics and their stories. It keeps drafts in the browser's local store, and exports the plan as a Markdown or HTML document. An administration page registers accounts and stores the tracker settings. A dashboard shows totals over the saved plans.

The model keeps what these parts compute and the state they change. It proves what they promise about it.

| file | module | models |
|---|---|---|
| `types.dfy` | `Types` | the records: tracker issues, test-approach sections, plan content, saved and published plans, tracker settings, accounts; store keys and constants |
| `strings.dfy` | `Strings` | JavaScript string behaviour used by the code: `trim`, `startsWith`, `includes`, `split`/`join` on one character, `replace(/\s+/g, "_")` |
| `seqs.dfy` | `Seqs` | `findIndex`, update-or-append by key, `filter` on a key |
| `storage.dfy` | `Storage` | the local store (class `Store`) and the plan repository of `src/lib/storage.ts` |
| `export.dfy` | `Export` | the Markdown document, the grouping of tracker results under their epics, the paragraph pass of the HTML conversion, the export file name (`src/lib/export.ts`) |
| `jira.dfy` | `Jira` | one tracker search and the epics-then-stories aggregation (`src/lib/jira.ts`) |
| `home.dfy` | `Home` | the wizard component (class `Wizard`): step flags, plan edits, saving and loading drafts, the tracker search of the epic step, its own Markdown generator (`src/app/page.tsx`) |
| `admin.dfy` | `Admin` | the administration page (class `AdminPanel`): account registration and tracker settings |
| `dashboard.dfy` | `Dashboard` | the dashboard's per-plan story count, totals and card text |

The model works as follows:

**Store and pages.**
- The store is a map from key to already-parsed value. A value of the wrong shape is read as missing.
- The components that change state in place are classes: the store, the wizard and the admin page. Their handlers are methods with `modifies` frames.
- Each handler's postcondition gives the complete new state. It is stated through a specification function, for example `SaveByName`, `Toggle`, `Register`, `ValidateJiraConfig` or `EpicDoneOutcome`, and lemmas prove that function's properties.

**Loops.**
- The loops of the source are methods with invariants:
  - the Markdown builders, which grow a string;
  - the epic map filled from the tracker results;
  - the aggregation loop over the epics.
- Each of those methods is proved equal to a function.
- The order and membership properties are then proved about that function.

**Inputs from outside.**
- Clocks, generated ids and the HTTP call are parameters.
- A `Transport` is a function from the request sent to the response received.

## Model

| member | source | states |
|---|---|---|
| `Strings.TrimEmptyIffAllSpace` | src/app/admin/page.tsx:94 | `s.trim()` is empty exactly when every character of `s` is whitespace, which is how the blank checks are stated |
| `Strings.TrimIdempotent` | src/app/admin/page.tsx:153-158 | a trimmed string neither starts nor ends with whitespace, and trimming it again changes nothing |
| `Strings.TrimKeepsWord` | src/app/admin/page.tsx:147-154 | trimming keeps every occurrence of a word that does not start or end with whitespace |
| `Strings.Split` | src/lib/export.ts:117-118 | `split("\n")` gives at least one piece and no piece holds the separator |
| `Strings.SplitJoin` | src/lib/export.ts:31 | joining pieces free of the separator and splitting again gives the pieces back |
| `Strings.JoinSplit` | src/lib/export.ts:117-130 | splitting on a character and joining with it gives the text back |
| `Strings.CollapseWhitespace` | src/lib/export.ts:208 | replacing each whitespace run by `_` leaves no whitespace and never lengthens the text |
| `Strings.CollapseRun` | src/lib/export.ts:208 | a whole run of whitespace, however long, becomes one `_` |
| `Strings.CollapseAppend` | src/lib/export.ts:208 | the replacement works piece by piece wherever the cut is not inside a run, so visible text is copied and each run gives one `_` |
| `Strings.CollapseKeepsVisible` | src/lib/export.ts:208 | the non-whitespace characters of the name survive the replacement, in order |
| `Strings.CollapseNoSpace` | src/lib/export.ts:208 | a name without whitespace is left unchanged |
| `Strings.NatToString` | src/app/dashboard/page.tsx:175 | a count is written as decimal digits that denote it, with no leading zero |
| `Strings.SplitFirstPiece` | src/lib/export.ts:206 | `split(c)[0]` is the text up to the first `c`, or all of it when there is none |
| `Seqs.FirstIndex` | src/lib/storage.ts:61 | `findIndex`: the first index whose key matches, or -1 exactly when no element has that key |
| `Seqs.Upsert` | src/lib/storage.ts:59-69 | an existing key is replaced at its first index with the length and all other entries unchanged; a new key is appended; unique keys stay unique |
| `Seqs.RemoveKey` | src/lib/storage.ts:93 | `filter` on a key: nothing with that key remains and the result is no longer than the input |
| `Seqs.RemoveKeyCount` | src/lib/storage.ts:93 | exactly the entries with that key are dropped; every other entry keeps its number of occurrences |
| `Seqs.RemoveKeyAppend` | src/lib/storage.ts:93 | filtering a concatenation filters each part, so the survivors keep their relative order |
| `Seqs.RemoveKeyAbsent` | src/lib/storage.ts:91-95 | deleting an id that is not there changes nothing |
| `Seqs.RemoveKeyIdempotent` | src/lib/storage.ts:91-95 | deleting the same id twice is deleting it once |
| `Seqs.RemoveKeyFrom` | src/app/page.tsx:479 | every key left after filtering was a key of the original list |
| `Seqs.RemoveKeyUnique` | src/app/page.tsx:479 | filtering keeps keys unique |
| `Storage.Store.GetStorageItem` | src/lib/storage.ts:7-17 | the parsed value, or the default when there is no window, the key is missing or the value does not parse |
| `Storage.Store.GetSavedTestPlans` | src/lib/storage.ts:43-45 | the draft collection, `[]` when it cannot be read |
| `Storage.Store.GetPublishedTestPlans` | src/lib/storage.ts:50-54 | the published collection, `[]` when it cannot be read |
| `Storage.Store.GetJiraConfig` | src/lib/storage.ts:100-105 | the stored tracker settings, all-empty when they cannot be read |
| `Storage.Store.SetItem` | src/app/page.tsx:186 | a direct `localStorage.setItem`: only that key changes |
| `Storage.Store.SetStorageItem` | src/lib/storage.ts:22-30 | writes the key in a browser; without a window the store is unchanged |
| `Storage.Store.RemoveStorageItem` | src/lib/storage.ts:35-38 | removes the key in a browser; without a window the store is unchanged |
| `Storage.Store.SaveTestPlan` | src/lib/storage.ts:59-70 | the draft collection becomes the update-or-append by id of the old one; nothing else changes; the published collection is untouched |
| `Storage.Store.SavePublishedTestPlan` | src/lib/storage.ts:75-86 | the same update-or-append by id on the published collection only; the drafts are untouched |
| `Storage.Store.DeleteTestPlan` | src/lib/storage.ts:91-95 | the draft collection becomes the old one without the plans with that id |
| `Storage.Store.SaveJiraConfig` | src/lib/storage.ts:120-122 | the tracker key holds the given settings and reads back as them |
| `Export.PresentKinds` | src/lib/export.ts:18-47 | the sections that appear are exactly those whose field is set |
| `Export.PresentKindsOrdered` | src/lib/export.ts:18-47 | the sections present keep the order of the template |
| `Export.ExportSectionOrder` | src/lib/export.ts:6-50 | the exported document is the header followed by the texts of the present sections, in the order Introduction, Discovery, Project, Epics, Test Approach, tracker results; a section is there iff its field is set |
| `Export.HomeSectionOrder` | src/app/page.tsx:237-315 | the wizard's own document is the header followed by the same sections' texts, with Test Approach before Epics |
| `Export.RenderFromPresent` | src/lib/export.ts:18-47 | emitting each conditional block in turn gives exactly the texts of the present sections, in order |
| `Export.HomeMarkdownMatchesExport` | src/app/page.tsx:253-266 | with no epics or no test-approach sections, the two generators give the same document |
| `Export.MarkdownStartsWithHeader` | src/lib/export.ts:15-16 | the document opens with the title line, then the line with the generation time |
| `Export.PieceShownIffPresent` | src/lib/export.ts:18-28 | a section's text is non-empty exactly when its field is set |
| `Export.ApproachBlockDetails` | src/lib/export.ts:36-41 | each test-approach entry opens with `### name`; a details line follows iff the details are non-empty |
| `Export.EpicLines` | src/lib/export.ts:31 | one line `- epic` per epic, in input order |
| `Export.EpicLinesOnePerLine` | src/lib/export.ts:31 | when no epic holds a line break, the epics section splits back into exactly those lines |
| `Export.EpicKeys` | src/lib/export.ts:58-63 | the map's keys are exactly the keys of the Epic issues, without repetition |
| `Export.EpicKeysPrefix` | src/lib/export.ts:58-63 | the keys found in a prefix of the results are a prefix of all keys, so the blocks come in first-appearance order |
| `Export.StoriesOf` | src/lib/export.ts:65-72 | an issue is listed under an epic iff it is a Story whose parent is that epic |
| `Export.StoryListedIff` | src/lib/export.ts:58-72 | an issue appears under some epic iff it is a Story whose parent key is an Epic key of the results |
| `Export.FindByKey` | src/lib/export.ts:75 | `find` by key: the first issue with that key, and none only when no issue has it |
| `Export.EpicKeyFound` | src/lib/export.ts:58-75 | every key of the epic map is found again among the results, so every epic gets its block |
| `Export.EpicBlock` | src/lib/export.ts:76-96 | a block opens with its `### Epic:` heading; a block with no stories ends with the "No user stories found" line |
| `Export.CollectEpics` | src/lib/export.ts:58-63 | the first pass puts one empty entry in the map for each Epic key, in first-appearance order |
| `Export.CollectStories` | src/lib/export.ts:65-72 | after the second pass each epic's entry holds exactly its stories, in result order |
| `Export.AppendStory` | src/lib/export.ts:82-90 | appends a story's title and status lines, and the assignee and priority lines when present |
| `Export.AppendEpicBlock` | src/lib/export.ts:76-96 | appends exactly the epic's block |
| `Export.GenerateJiraMarkdown` | src/lib/export.ts:55-100 | the loop builds exactly the tracker section specified by `JiraMarkdown` |
| `Export.AppendSection` | src/lib/export.ts:18-47 | each conditional block appends its section when the field is set and nothing otherwise |
| `Export.AppendTestApproach` | src/lib/export.ts:34-43 | the test-approach loop appends the heading, each entry, then a blank line |
| `Export.GenerateMarkdown` | src/lib/export.ts:6-50 | the method builds exactly the document specified by `Markdown` |
| `Export.WrapParagraphs` | src/lib/export.ts:117-130 | the paragraph pass keeps the number of lines and maps each line on its own |
| `Export.WrapLineCases` | src/lib/export.ts:119-129 | lines starting `<h`, `<ul`, `<li` and blank lines are kept; every other line becomes `<p>line</p>` |
| `Export.ExportFilename` | src/lib/export.ts:202-209 | the file name is the collapsed name, `_`, the date part, `.` and the extension; the date part is the timestamp up to its first `T`; no whitespace when the timestamp has none |
| `Export.SplitPieceNoSpace` | src/lib/export.ts:206 | the date part cut from a whitespace-free timestamp has no whitespace |
| `Export.ExportFilenameKeepsName` | src/lib/export.ts:208 | the visible characters of the plan name are kept in the file name, and a name without whitespace appears unchanged |
| `Jira.FetchJiraIssues` | src/lib/jira.ts:13-32 | success iff the reply is ok and JSON, returning `issues` or `[]`; an error reply fails with the body's non-empty error, else "Failed to query JIRA"; an exception fails with its own message |
| `Jira.EpicJqlRecoversName` | src/lib/jira.ts:45 | the project name sits intact between the fixed parts of the epic search |
| `Jira.EpicJqlInjective` | src/lib/jira.ts:45 | different project names give different epic searches |
| `Jira.StoryJqlRecoversKey` | src/lib/jira.ts:58 | the epic key sits intact between the fixed parts of the story search |
| `Jira.StoryJqlInjective` | src/lib/jira.ts:58 | different epic keys give different story searches |
| `Jira.ProjectData` | src/lib/jira.ts:37-77 | a failed epic search is passed on with no partial result; otherwise the result is a success that starts with exactly the epics |
| `Jira.StoriesForAppend` | src/lib/jira.ts:56-70 | the stories of consecutive runs of epics concatenate in epic order |
| `Jira.StoriesForSkipsFailure` | src/lib/jira.ts:66-69 | an epic whose story search fails adds nothing, and the epics after it still contribute |
| `Jira.StoriesForLength` | src/lib/jira.ts:56-65 | the stories number the sum of the successful story-list lengths |
| `Jira.FetchJiraProjectData` | src/lib/jira.ts:37-77 | the loop computes exactly `ProjectData` |
| `Home.With` | src/app/page.tsx:53-59 | one `setShow…` call changes that flag and no other |
| `Home.HandoffMovesScreen` | src/app/page.tsx:450-614 | a step transition turns one flag off and one on, so a single visible screen is replaced by the next |
| `Home.InitialShowsNameForm` | src/app/page.tsx:53-59 | on first render only the name form is shown |
| `Home.WizardPath` | src/app/page.tsx:450-614 | Name, Title, Introduction, Project name, Discovery, Test approach, Epics, Plan: one screen at a time along the forward path |
| `Home.Toggle` | src/app/page.tsx:476-483 | a name is in the new list iff it was not in the old one; an absent name is appended at the end with empty details; section names stay unique |
| `Home.ToggleTwiceRestores` | src/app/page.tsx:476-483 | selecting an absent section twice gives back the original list exactly |
| `Home.ToggleRemovesExactly` | src/app/page.tsx:479 | deselecting removes exactly the sections with that name and keeps the others with their details |
| `Home.WithDetails` | src/app/page.tsx:496-505 | only the details of the selected section change |
| `Home.WithDetailsKeepsNames` | src/app/page.tsx:496-505 | editing details keeps every section name, hence keeps names unique |
| `Home.Fallback` | src/app/page.tsx:526-527 | `a \|\| b` on strings: `a` unless it is empty, `b` when it is |
| `Home.SaveByName` | src/app/page.tsx:157-184 | a plan with the same name is replaced at its index, keeping its id and creation time; otherwise the plan is appended with the fresh id |
| `Home.SaveByNameKeepsKeysUnique` | src/app/page.tsx:157-184 | saving by name keeps names unique, and keeps ids unique when the fresh id is unused |
| `Home.SaveByNameUpdatesInPlace` | src/app/page.tsx:157-179 | saving under a name already used keeps the length, the id and the creation time |
| `Home.EpicDoneOutcome` | src/app/page.tsx:524-587 | an error leaves no results; no error means the epic search was answered with success |
| `Home.InlineStoriesAbort` | src/app/page.tsx:558-577 | an exception in the story loop ends the whole search |
| `Home.InlineStoriesMatchLibrary` | src/app/page.tsx:558-577 | when no story request throws, the loop collects what the library's aggregation collects |
| `Home.EpicDoneMatchesLibrary` | src/app/page.tsx:524-587 | without exceptions the epic step stores exactly what `fetchJiraProjectData` returns for the same credentials |
| `Home.CollectInlineStories` | src/app/page.tsx:556-577 | the story loop appends each answered search's stories in epic order, skips failed ones and stops at the first exception |
| `Home.SearchTracker` | src/app/page.tsx:524-587 | the searches of the epic step produce exactly `EpicDoneOutcome` |
| `Home.Wizard.constructor` | src/app/page.tsx:39-114 | first render after the mount effect: empty plan, name form only, saved plans and tracker credentials read from the store |
| `Home.Wizard.HandleSaveTestPlan` | src/app/page.tsx:147-194 | a blank name only sets the error; otherwise the collection becomes `SaveByName`, is written to the store, and the "updated"/"saved" message is shown |
| `Home.Wizard.HandleLoadTestPlan` | src/app/page.tsx:196-209 | the first plan with that id replaces the wizard's fields and the plan is shown; an unknown id changes nothing |
| `Home.Wizard.HandleDeleteTestPlan` | src/app/page.tsx:211-215 | the collection loses exactly the plans with that id and is written to the store |
| `Home.Wizard.HandleNewTestPlan` | src/app/page.tsx:217-235 | every plan field is cleared and only the name form is shown |
| `Home.Wizard.HandleStartOver` | src/app/page.tsx:616-632 | like a new plan, but the test-approach sections and their flag are kept |
| `Home.Wizard.HandleNameSubmit` | src/app/page.tsx:450-460 | a non-blank name hands over to the title; a blank one changes nothing |
| `Home.Wizard.TitleTimerFires` | src/app/page.tsx:455-458 | the title hands over to the introduction form |
| `Home.Wizard.HandleIntroductionSubmit` | src/app/page.tsx:462-468 | a non-blank introduction hands over to the project name; a blank one changes nothing |
| `Home.Wizard.HandleProjectNameSubmit` | src/app/page.tsx:608-614 | a non-blank project name hands over to discovery; a blank one changes nothing |
| `Home.Wizard.HandleProjectDiscoSubmit` | src/app/page.tsx:470-474 | discovery hands over to the test approach |
| `Home.Wizard.HandleTestApproachDone` | src/app/page.tsx:485-488 | the test approach hands over to the epics |
| `Home.Wizard.HandleAddMoreEpics` | src/app/page.tsx:590-594 | the plan hands back to the epic form with an empty input |
| `Home.Wizard.HandleAddProjectDisco` | src/app/page.tsx:596-600 | the plan hands back to discovery with the discovery text cleared |
| `Home.Wizard.HandleProjectDiscoCancel` | src/app/page.tsx:602-606 | discovery is skipped, its text cleared, and the epic form shown |
| `Home.Wizard.HandleTestApproachSelect` | src/app/page.tsx:476-483 | the sections become `Toggle` of the old ones |
| `Home.Wizard.HandleUpdateSection` | src/app/page.tsx:490-494 | the dialog opens on the chosen section with its details |
| `Home.Wizard.HandleSaveSectionDetails` | src/app/page.tsx:496-505 | the selected section gets the edited details and the dialog closes; with no valid selection nothing changes |
| `Home.Wizard.HandleAddNewEpic` | src/app/page.tsx:507-513 | a non-blank input is appended as typed and cleared; a blank one changes nothing |
| `Home.Wizard.HandleEpicDone` | src/app/page.tsx:515-588 | a pending epic is kept, the results and error become `EpicDoneOutcome`, and the plan is shown whatever the search gave |
| `Home.Wizard.GenerateMarkdown` | src/app/page.tsx:237-315 | the wizard's builder produces exactly `HomeMarkdown` |
| `Admin.Register` | src/app/admin/page.tsx:93-115 | a blank field fails with "All fields are required"; otherwise a taken username fails with "Username already exists"; success iff neither, appending exactly the new account |
| `Admin.RegisterKeepsUsernamesUnique` | src/app/admin/page.tsx:99-115 | registration keeps usernames unique |
| `Admin.ValidateJiraConfig` | src/app/admin/page.tsx:140-158 | accepted iff no field is blank and the URL contains "atlassian.net"; a blank field fails with the required-fields message, otherwise a URL without the domain fails with "Invalid JIRA instance URL"; the stored settings are the trimmed values and the save time |
| `Admin.AcceptedConfigIsValid` | src/app/admin/page.tsx:147-158 | accepted settings are non-blank, already trimmed, and the URL still contains "atlassian.net" |
| `Admin.AdminPanel.constructor` | src/app/admin/page.tsx:45-86 | the account list and the tracker settings are read from the store; the forms start empty with role "user" |
| `Admin.AdminPanel.HandleRegisterUser` | src/app/admin/page.tsx:88-133 | a refused registration only sets its error; an accepted one appends the account, writes the list and the credentials, shows the message and clears the form |
| `Admin.AdminPanel.HandleSaveJiraConfig` | src/app/admin/page.tsx:135-167 | a refused setting only sets its error; an accepted one is written under the tracker key with the success message, and in a browser the settings read back are the trimmed values |
| `Dashboard.Stories` | src/app/dashboard/page.tsx:209-210 | exactly the Story issues, each as often as in the results, never more than the results |
| `Dashboard.PlanStoryCount` | src/app/dashboard/page.tsx:208-210 | at most the number of results; 0 iff no result is a Story; equal to it iff all are |
| `Dashboard.StoriesCountAll` | src/app/dashboard/page.tsx:209-210 | the filter keeps the whole list iff every result is a Story |
| `Dashboard.TotalsAppend` | src/app/dashboard/page.tsx:235-247 | the epic and story totals add up over concatenated lists of plans |
| `Dashboard.TotalsBound` | src/app/dashboard/page.tsx:235-247 | each plan's epic and story figures are within the totals |
| `Dashboard.TotalStoriesAtMostResults` | src/app/dashboard/page.tsx:241-247 | the story total never exceeds the results kept over all plans |
| `Dashboard.LoadCardText` | src/app/dashboard/page.tsx:173-175 | the invitation iff the count is 0; otherwise it starts with "You have" and the count, and ends in "plans" iff the count is not 1 |

## Left out

- The HTTP calls are a deterministic `Transport` function; awaiting, and a response arriving after the user moved on, are not modelled. The server proxy routes for the tracker and the test-management tool are not part of this model.
- Clocks and generated ids (`toLocaleString`, `toISOString`, `Date.now()`) are parameters.
- JSON parsing is not modelled: the store holds parsed values. A value of the wrong shape reads as missing. The source would use such a value as it is.
- Storage quota errors and the `console` logging are not modelled.
- The regex replacements of `markdownToHtml` (src/lib/export.ts:106-114) are not modelled. They rely on JavaScript regular expressions, and the heading rules also match inside `##` lines. Only the paragraph pass after them is. `generateHtml`, `downloadFile` and the publish handler (`handlePublish`) are left out for the same reason, as are the test-management export and file downloads.
- `setTimeout` delays are not modelled: the closing of dialogs and the clearing of success messages. The title screen's timer is the separate step `TitleTimerFires`.
- Rendering, routing, the login session and logout are not modelled. The mount-time loading of a plan named in the URL is not modelled either.
- `Home.Wizard.HandleLoadTestPlan`: the `plan.testApproach || []` fallback does not arise, because a saved plan always has a section list here.
- `Home.Wizard.HandleUpdateSection`: requires the index to be in range. The page only calls it with the index of a section it lists; an index past the end makes the source throw.
- `Home.Wizard.HandleSaveSectionDetails`: the source writes the new details into the section object itself (src/app/page.tsx:499). The copied list shares that object with the old list. After a load (src/app/page.tsx:203) or a save (src/app/page.tsx:166), the same object is also inside a plan in `savedTestPlans`. So in the source the edit also changes that saved plan in memory, and the change reaches the store at the next save or delete (src/app/page.tsx:186, 213). The model builds a new list and leaves `savedTestPlans` unchanged, so it does not capture this effect on saved plans.
- `Admin.IsAdmin`: a plain definition with no contract. The page's rule depends on the login name only ("admin" or "demo"), whatever role an account was registered with.
- `Home.Wizard.HandleEpicDone`: only the state after the handler finishes is modelled. The intermediate loading state is not.
- Saved plans keep the plan fields in one `content` record, where the source keeps them flat in the plan object. A published plan wraps a saved plan, where the source extends it.
- The search strings put the project name and the epic key in as they are, with no escaping, as the source does.
- The wizard's own `generateMarkdown` (src/app/page.tsx:237-315) shares its section rendering with the export module. Its tracker section is the export module's `GenerateJiraMarkdown`, because the source repeats that code word for word.
- `Home.Wizard.HandleStartOver` is modelled as written: the test-approach sections and the test-approach flag are not reset.
- Blank checks (`!x.trim()`) are stated in some contracts as "every character is whitespace" (`AllSpace`), and in others as `Trim(x) == ""`. The two are equivalent by `Strings.TrimEmptyIffAllSpace`.
