# Anime production console: verified model of its page logic

This project models, in Dafny, the few event handlers and derived values of an
anime-production client portal that carry statable rules. The portal is a
Next.js front end over a hosted database. The modelled parts are:

- **Scene table** of a project workspace (`Workspace`). It holds an ordered
  list of storyboard scenes, and the user edits one field of one scene at a
  time. The time column gives each row its start and end from the running sum
  of durations, and the footer shows the total. A drag and drop moves one
  scene to another scene's position. Times are displayed as `MM:SS`.
- **User list** (`Users`). It has a case-insensitive search over name, e-mail
  and company, and an optional role filter. A dialog creates a user, checks
  that the name and e-mail are present, and puts the new user at the top of
  the list. Each role has a badge label.
- **Project list** (`Projects`). It has a case-insensitive search over title
  and client name, "Step n: name" phase labels in English and Japanese, and
  status badge labels.
- **Login** (`Login`). The user enters an e-mail address, then a six-box
  one-time code. Each box takes one digit, and login is possible only once
  all six boxes are filled.
- **Progress stepper** (`Stepper`). Seven chevrons are each classified as
  completed, current or future against the project's phase. Each chevron's
  shape depends on its position.
- **Hearing sheet** (`Hearing`). A form of 54 text answers keyed by field
  name. Stored answers are merged into it on load. On save it either updates
  the existing sheet row or inserts a draft row, and the busy flags drive
  the two save buttons.

Two shared modules support them. `Common` holds the optional value and the
order-preserving filter. `Text` holds ASCII lower-casing, substring search,
and decimal rendering with zero padding.

Where the component keeps React state that its handlers replace, the model is
a class whose fields are that state (`WorkspaceTab`, `UsersPage`,
`LoginPage`, `HearingTab`). Its methods state the whole new state. Derived
values and lookups are functions, and their properties are lemmas.
Everything the browser or the database supplies is a parameter: the drag
event's ids, the random user id, the stored responses, whether a sheet row
exists, whether the write failed, and the clock.

The hearing sheet's default form has 54 fields, all empty, which is what
`src/components/project/hearing-tab.tsx:22-87` declares. The model follows
that code.

The scene table's add and delete buttons have no handlers
(`src/components/project/workspace-tab.tsx:263-265, 302-305`), so scenes are
never inserted or deleted, and the model has no insert or delete either.

## Model

| member | source | states |
|---|---|---|
| Workspace.ApplyEdit | src/components/project/workspace-tab.tsx:128-132 | after an edit, the edited field of the scene holds the new value and every other field holds its old value |
| Workspace.FieldsDetermineScene | src/components/project/workspace-tab.tsx:41-51 | two scenes that agree on every field of the record are equal, so ApplyEdit's field-by-field contract fixes the edited scene completely |
| Workspace.Total | src/components/project/workspace-tab.tsx:123-125 | the footer's total: the durations of all scenes added up from the first row; its algebra is stated by TotalConcat, TotalSplit and TotalCons |
| Workspace.WorkspaceTab.TotalDuration | src/components/project/workspace-tab.tsx:123-125 | the total shown for the table is Total of its current list, so every lemma about Total applies to it |
| Workspace.Start | src/components/project/workspace-tab.tsx:209-212 | a row starts after the durations of every row above it; Contiguous and StartMonotone state what that means for the time column |
| Workspace.End | src/components/project/workspace-tab.tsx:213-215 | a row ends its own duration after its start; Contiguous ties it to the next row's start and to the total |
| Workspace.UpdateScenes | src/components/project/workspace-tab.tsx:129-131 | the list keeps its length and order; each row whose id matches gets the edit and every other row is unchanged |
| Workspace.UpdateAbsentId | src/components/project/workspace-tab.tsx:129-131 | an edit aimed at an id not in the list leaves the list unchanged |
| Workspace.UpdateKeepsIds | src/components/project/workspace-tab.tsx:128-132 | an edit of any field other than the id keeps every row's id at its position |
| Workspace.UpdateKeepsTotal | src/components/project/workspace-tab.tsx:123-132 | an edit of any field other than the duration leaves the total duration unchanged |
| Workspace.UpdateDurationTotal | src/components/project/workspace-tab.tsx:185-197 | with unique ids, setting a scene's duration to d changes the total by d minus the old duration |
| Workspace.TotalConcat | src/components/project/workspace-tab.tsx:123-125 | the total of two lists joined is the sum of their totals |
| Workspace.TotalSplit | src/components/project/workspace-tab.tsx:123-125 | the total is the durations before a row, plus that row's, plus those after it |
| Workspace.TotalCons | src/components/project/workspace-tab.tsx:123-125 | a scene added at the front adds exactly its duration to the total |
| Workspace.Contiguous | src/components/project/workspace-tab.tsx:209-215 | the first row starts at 0, each row ends where the next one starts, and the last row ends at the total duration |
| Workspace.StartMonotone | src/components/project/workspace-tab.tsx:209-215 | a row never starts before an earlier row ends, so the time slots do not overlap and follow row order |
| Workspace.WorkspaceTab.RowTime | src/components/project/workspace-tab.tsx:204-215 | the running-sum loop yields the durations of all earlier rows as the start, and the start plus the row's duration as the end |
| Workspace.IndexOf | src/components/project/workspace-tab.tsx:292-293 | the result is -1 exactly when no row has the id; otherwise it is the first row with that id |
| Workspace.IndexOfOwnId | src/components/project/workspace-tab.tsx:272-277 | with unique ids, looking up a row's own id finds that row, so rows are addressed by id rather than by position |
| Workspace.Move | src/components/project/workspace-tab.tsx:294 | the dragged scene lands at the target index, the length is kept, and removing the dragged scene from the result gives the input without it, so all other scenes keep their relative order |
| Workspace.MoveAt | src/components/project/workspace-tab.tsx:294 | rows between the two positions shift by one toward the old position; rows outside that range stay where they were |
| Workspace.MovePermutation | src/components/project/workspace-tab.tsx:291-295 | the reordered list is a permutation of the old list (same multiset of scenes) |
| Workspace.MoveKeepsUniqueIds | src/components/project/workspace-tab.tsx:291-295 | a reorder keeps ids unique |
| Workspace.MoveKeepsTotal | src/components/project/workspace-tab.tsx:291-295 | a reorder leaves the total duration unchanged |
| Workspace.MoveRoundTrip | src/components/project/workspace-tab.tsx:288-297 | dragging the scene from the target index back to its old index restores the original list |
| Workspace.WorkspaceTab.HandleDragEnd | src/components/project/workspace-tab.tsx:288-297 | the list is unchanged without a drop target or when a row is dropped on itself; otherwise the list becomes the move from the dragged row's index to the target row's index |
| Workspace.WorkspaceTab.UpdateScene | src/components/project/workspace-tab.tsx:128-132 | the table's list becomes the edited list and nothing else changes |
| Workspace.WorkspaceTab.constructor | src/components/project/workspace-tab.tsx:118-119 | the table opens on the three mock scenes |
| Workspace.InitialTimeline | src/components/project/workspace-tab.tsx:54-80 | the mock scenes (3, 2 and 4 seconds) have unique ids, get the slots 0-3, 3-5 and 5-9, and total 9 seconds |
| Workspace.FormatTime | src/components/project/workspace-tab.tsx:83-87 | whole minutes and the remaining seconds, each zero-padded to two digits and joined by a colon; FormatTimeReadsBack proves the text reads back as the input |
| Workspace.FormatTimeReadsBack | src/components/project/workspace-tab.tsx:83-87 | the text reads back as the input: digits, a colon, and two digits of seconds in 00-59, with minutes times 60 plus seconds equal to the input; the text has exactly 5 characters iff the input is under 100 minutes |
| Workspace.ClockReadsBack | src/components/project/workspace-tab.tsx:83-87 | a minutes-and-seconds text (seconds under 60) splits at the colon three from the end into a digit field that reads back as the minutes and two digits that read back as the seconds; it is 5 characters long iff the minutes are under 100 |
| Workspace.FieldsReadBack | src/components/project/workspace-tab.tsx:86 | with a two-character seconds field, the colon sits three from the end and splits the text back into the two fields |
| Workspace.PaddedField | src/components/project/workspace-tab.tsx:84-85 | a zero-padded field has at least two digits and reads back as its number |
| Workspace.SecondsFieldWidth | src/components/project/workspace-tab.tsx:85 | the seconds field is always exactly two characters |
| Workspace.MinutesFieldWidth | src/components/project/workspace-tab.tsx:84 | the minutes field is two characters exactly when the minutes are below 100 |
| Text.Lower | src/app/users/page.tsx:109 | lower-casing keeps the length and maps each character on its own, turning ASCII capitals into small letters and leaving every other character alone |
| Text.Includes | src/app/users/page.tsx:109-111 | the substring test; IncludesIffOccurs proves it answers true exactly when the query occurs at some position |
| Text.IntToString | src/app/projects/page.tsx:90 | the decimal text of an integer: at least one character, a leading minus exactly for negatives, and digits after the first character |
| Text.PadStart | src/components/project/workspace-tab.tsx:84-85 | the padded text has the requested width (or the input's, if longer), ends with the input, and has only zeros before it |
| Text.ZerosValue | src/components/project/workspace-tab.tsx:84-85 | any number of leading zeros keeps a digit string a digit string of the same value |
| Text.NatToStringValue | src/components/project/workspace-tab.tsx:84-85 | the decimal text of a number reads back as that number |
| Text.PadStartValue | src/components/project/workspace-tab.tsx:84-85 | padding with leading zeros keeps a digit string a digit string of the same value |
| Text.LeadingZeroValue | src/components/project/workspace-tab.tsx:84-85 | one leading zero does not change the value of a digit string |
| Text.IncludesIffOccurs | src/app/users/page.tsx:109-111 | the substring scan answers true exactly when the query occurs at some position of the text |
| Text.LowerIdempotent | src/app/users/page.tsx:109 | lower-casing twice is the same as lower-casing once |
| Text.ContainsIgnoresQueryCase | src/app/users/page.tsx:109-111 | case-insensitive containment gives the same answer whether or not the query was lower-cased first |
| Text.IntToStringInjective | src/app/projects/page.tsx:90 | two different integers never print as the same text |
| Text.NumberBeforeSuffix | src/app/projects/page.tsx:90 | a printed integer followed by text that does not start with a digit determines the integer |
| Text.DigitRunEndsWithNumber | src/app/projects/page.tsx:90 | in a printed integer followed by such text, the run of digits ends exactly where the integer ends |
| Common.Filter | src/app/users/page.tsx:108 | the result is no longer than the input and holds exactly the input elements that pass the test, each passing element as many times as in the input |
| Common.FilterIsSubsequence | src/app/users/page.tsx:108-114 | the filter keeps the input order: its result is a subsequence of the input |
| Common.FilterKeepsAll | src/app/users/page.tsx:108-114 | when every element passes, the filter returns its input |
| Common.FilterSameTest | src/app/users/page.tsx:108-114 | two tests that agree on every element give the same filtered list |
| Common.FilterCons | src/app/users/page.tsx:108-114 | a new first element leads the filtered list exactly when it passes, and the rest is the old filtered list |
| Common.SubsequenceSkip | src/app/users/page.tsx:108 | a subsequence of a list's tail is a subsequence of the whole list |
| Common.SubsequenceTail | src/app/users/page.tsx:108 | without its first element, a subsequence is still a subsequence |
| Users.FilterUsers | src/app/users/page.tsx:108-114 | the listed users are a subsequence of all users, and a user is listed iff the search matches their name, e-mail or company ignoring case and the role filter is off or equals their role; a listed user appears as often as in the full list |
| Users.UsersPage.FilteredUsers | src/app/users/page.tsx:108-114 | the table shows FilterUsers of the page's current users, search text and role filter, so FilterUsers' contract describes the rows on screen |
| Users.EmptySearchListsAll | src/app/users/page.tsx:108-114 | with an empty search and no role filter, every user is listed, in order |
| Users.SearchIgnoresQueryCase | src/app/users/page.tsx:109-111 | lower-casing the search query does not change the listing |
| Users.NewUserListedFirst | src/app/users/page.tsx:150 | after a user is prepended, the listing gains that user at the top exactly when it matches the search and filter, and is otherwise unchanged |
| Users.RoleBadge | src/app/users/page.tsx:116-127 | 制作PM iff the role is pm, 制作メンバー iff creator, クライアント iff client, and その他 iff none of these |
| Users.RoleBadgeOfRole | src/app/users/page.tsx:116-127 | each of the three roles a user can hold gets its own badge, never the fallback |
| Users.UsersPage.constructor | src/app/users/page.tsx:90-106 | the page opens on the mock users, an empty search, no role filter, a closed dialog and an empty form with role client |
| Users.UsersPage.CreateUser | src/app/users/page.tsx:142-153 | with an empty name or e-mail, nothing changes; otherwise the new user (fresh id, the form's name, e-mail, role and company) is first and the old list follows unchanged, the dialog is closed, and the form is reset to empty with role client |
| Projects.FilterProjects | src/app/projects/page.tsx:73-76 | the result is no longer than the input and is a subsequence of it; a project is kept iff its title or client name contains the query ignoring case, and a kept project appears as often as in the input |
| Projects.EmptySearchListsAll | src/app/projects/page.tsx:73-76 | an empty search keeps every project |
| Projects.PhaseLabel | src/app/projects/page.tsx:78-91 | for phases 1-7, "Step p: " followed by the English name of phase p; for any other phase, including 0 and negatives, just "Step p" |
| Projects.PhaseLabelJa | src/app/projects/page.tsx:94-106 | the same rule with the Japanese phase names |
| Projects.StepLabelShape | src/app/projects/page.tsx:90 | a label is "Step ", the printed phase, and then either nothing or text starting with a colon |
| Projects.StepLabelInjective | src/app/projects/page.tsx:89-90 | equal labels from the same name table mean equal phases |
| Projects.PhaseLabelsInjective | src/app/projects/page.tsx:78-106 | in both languages, different phases always get different labels |
| Projects.StatusBadge | src/app/projects/page.tsx:108-119 | 完了 iff completed, 確認中 iff review, 制作中 iff production, and 準備中 iff any other status |
| Login.Truncate | src/app/login/page.tsx:27 | the kept input is empty for empty input and otherwise exactly the input's first character |
| Login.TruncatedInputAccepted | src/app/login/page.tsx:27-28 | a truncated input passes the digits-only test exactly when it is empty or a single digit |
| Login.FilledCodeIsDigits | src/app/login/page.tsx:50 | when every box holds a digit, the boxes spell a code with exactly one digit per box |
| Login.EnabledLoginHasFullCode | src/app/login/page.tsx:168-172 | when the login button is enabled, the boxes hold a complete six-digit code |
| Login.LoginPage.LoginDisabled | src/app/login/page.tsx:171 | the code step's submit button is disabled while a request runs or while any box is empty; EnabledLoginHasFullCode states what an enabled button guarantees |
| Login.LoginPage.constructor | src/app/login/page.tsx:11-14 | the screen opens on the e-mail step with an empty address, not loading, and six empty boxes |
| Login.LoginPage.EmailChange | src/app/login/page.tsx:107 | typing sets the address and changes nothing else |
| Login.LoginPage.EmailSubmit | src/app/login/page.tsx:16-24 | an empty address leaves everything unchanged; any other moves to the code step and keeps the boxes |
| Login.LoginPage.OtpChange | src/app/login/page.tsx:26-33 | the input is cut to its first character; if the result is not empty or a digit the boxes are unchanged, otherwise only box `index` is replaced; six boxes, each empty or a digit, stay so |
| Login.LoginPage.Login | src/app/login/page.tsx:48-56 | with any empty box nothing happens; with all six filled the login request starts |
| Login.LoginPage.Back | src/app/login/page.tsx:139-141 | going back returns to the e-mail step without clearing the boxes |
| Stepper.ViewOf | src/components/project/project-progress-stepper.tsx:23-46 | one chevron: completed before the current phase, current at it, future after it, the check mark when completed, the shape by position, and the overlap for every chevron but the first; ExactlyOneState and ShapesByPosition state these |
| Stepper.Render | src/components/project/project-progress-stepper.tsx:22-60 | one chevron per step, in step order |
| Stepper.StepIds | src/components/project/project-progress-stepper.tsx:8-16 | there are seven steps, numbered 1 to 7 in display order |
| Stepper.ExactlyOneState | src/components/project/project-progress-stepper.tsx:23-50 | each step is exactly one of completed (before the current phase), current (equal to it) or future (after it), and shows the check mark exactly when completed |
| Stepper.OneCurrentStep | src/components/project/project-progress-stepper.tsx:8-25 | at most one step is current, and there is one exactly when the phase is between 1 and 7 |
| Stepper.StatesOrdered | src/components/project/project-progress-stepper.tsx:23-25 | completed steps form a prefix of the bar and future steps a suffix |
| Stepper.ShapesByPosition | src/components/project/project-progress-stepper.tsx:34-46 | the first chevron gets the first shape, the last gets the last shape, all others the middle shape, and every chevron but the first overlaps its left neighbour |
| Hearing.DefaultForm | src/components/project/hearing-tab.tsx:22-87 | the initial form has exactly the sheet's 54 fields, all empty |
| Hearing.WithChange | src/components/project/hearing-tab.tsx:107-109 | a change sets one field and leaves every other field as it was |
| Hearing.Merge | src/components/project/hearing-tab.tsx:99-101 | loading overrides exactly the fields present in the stored answers; every other field keeps its value |
| Hearing.MergeIdempotent | src/components/project/hearing-tab.tsx:100 | loading the same stored answers twice gives the same form as loading them once |
| Hearing.LoadIntoDefaults | src/components/project/hearing-tab.tsx:22-101 | loading into the initial form gives the stored answer for each field that has one and the empty string otherwise |
| Hearing.HearingTab.constructor | src/components/project/hearing-tab.tsx:18-22 | the tab opens on the default form, not saving, and loading |
| Hearing.HearingTab.LoadData | src/components/project/hearing-tab.tsx:89-105 | without a project id nothing changes, so loading stays on; otherwise the stored answers (if any) are merged in and loading ends; no sheet field is ever lost |
| Hearing.HearingTab.HandleChange | src/components/project/hearing-tab.tsx:107-109 | the form becomes the changed form and no sheet field is lost |
| Hearing.HearingTab.BeginSave | src/components/project/hearing-tab.tsx:111-112 | a save in progress has the saving flag set and holds the form as it was at the click |
| Hearing.HearingTab.CompleteSave | src/components/project/hearing-tab.tsx:113-150 | an existing row is updated with the form held since the click and the time; otherwise a row with that form and status draft is inserted; answers typed during the save are kept on screen but not sent; the alert reports failure or success; the saving flag is cleared whatever happened |
| Hearing.HearingTab.HeaderSaveDisabled | src/components/project/hearing-tab.tsx:175 | the header's save button is disabled while saving or loading |
| Hearing.HearingTab.FooterSaveDisabled | src/components/project/hearing-tab.tsx:836 | the bottom save button is disabled only while saving |
| Hearing.SaveButtons | src/components/project/hearing-tab.tsx:173-176 | the bottom button (line 836) is disabled only while saving, and the header button also while loading |

## Left out

- Browser and server plumbing is not modelled: the database client and its queries, `alert`, simulated delays (`setTimeout`), redirects, focus moves between the code boxes and the Backspace focus handler. Database answers, the alert text and the clock appear as parameters or results.
- The resend-code link on the login screen is not modelled. It only toggles the loading flag around a timer.
- Search-box and filter-menu open/close flags, and the one-line setters of the search query, role filter and form fields, are not modelled. The model's fields are assigned directly instead.
- Workspace.WorkspaceTab.HandleDragEnd: requires both dragged and target ids to be in the list, since the drag library reports only the ids given to the sortable context (src/components/project/workspace-tab.tsx:335). A `findIndex` result of -1 passed to `arrayMove` is not modelled.
- Workspace.Move: `arrayMove` comes from the drag-and-drop library, which is not part of this model. It is modelled as remove-then-insert on in-range indices.
- Workspace.Scene: durations are whole non-negative seconds (`nat`). The duration input's minimum of 0 does not stop a typed negative number, and the source then carries it into the total and the time column, where time slots overlap and `formatTime` prints negative fields; negative durations are not modelled, so StartMonotone and FormatTimeReadsBack hold for the model only. Fractional or NaN durations from `Number(input)`, the `|| 0` fallback and the footer's `toFixed(1)` are not modelled either.
- Workspace.FormatTimeReadsBack: covers non-negative whole seconds only.
- Text.ContainsIgnoringCase: `toLowerCase` is modelled on ASCII letters only. Unicode case mapping (full-width Latin, for example) is not modelled.
- Login.Truncate: JavaScript strings index UTF-16 code units, while the model indexes characters. A character outside the Basic Multilingual Plane is cut differently.
- Hearing.HearingTab.LoadData: stored answers are modelled as a string-to-string map. Non-string JSON values are not modelled, and a failed query counts as "no answers", as the code does.
- Hearing.HearingTab.CompleteSave: two saves started before either completes are not modelled. Only the header and footer buttons prevent that.
- Icons, colours, clip-path strings, mock projects (their dates come from the clock) and every page that only renders static content are not modelled.
