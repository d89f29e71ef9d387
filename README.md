# Tool management for the machining cell — a Dafny model

The application is a shop-floor tool-management system for a cell of Fanuc Robodrill machines
and a CMM measuring room. A URL such as `/5701-5702/...` picks the machines a screen works on.
Operators record tool changes, tool compensations, disturbances and matrix codes, and look them
up again in searchable, newest-first lists. They read two compensation sheets that are exported
as CSV, and watch the CMM board. Administrators assign machines to users. A small Python backend
reads a part counter from an ADAM box over Modbus TCP. This project models the logic of those
screens and of the backend reader, and proves properties of it.

Each source file of the core becomes one module; `Wrappers`, `Text` and `Seqs` hold what several
of them share.

| module | source file | form |
|---|---|---|
| `MachineFromUrl` | src/hooks/useMachineFromUrl.ts | functions and lemmas |
| `MachineIds`, `AppSidebar`, `CreateToolChange` | src/components/AppSidebar.tsx, src/pages/CreateToolChange.tsx | functions and lemmas |
| `MachineStatus` | src/lib/machinestatus.ts | functions and lemmas |
| `AdamBox` | src/lib/adambox.ts | functions and lemmas |
| `LastOrders` | src/hooks/useLastManufacturingOrder.ts | a class over a `map` |
| `NumericInput` | src/hooks/useNumericInput.tsx | a class over a `string` |
| `Keypad` | src/components/Keypad.tsx | functions and lemmas |
| `Modbus` | backend/app.py | byte-sequence encoder and decoder |
| `StopCodes` | src/lib/stopcodes.ts | functions and lemmas |
| `CompensationTable`, `ToolCompensationTable` | the two CSV table components | row pipelines as functions, the component state as a class |
| `ToolChangeList`, `ToolCompensationList` | the two history lists | functions and lemmas |
| `Disturbances`, `MatrixkodHistorik` | the two history pages | filter functions, the page state as a class |
| `CompensationRules`, `NewCompensation`, `ToolCompensationForm` | the compensation forms | schema predicates, record mapping, submit as a method |
| `ToolChangeForm`, `NewToolChange`, `ToolChangePage` | the tool-change dialog, wizard and page | schema predicates, record mapping, the wizard as a class |
| `CreateDisturbance`, `Matrixkod`, `Cmm` | the disturbance, matrix-code and CMM pages | functions, and a class per page |
| `Admin`, `AdminUserList`, `LoginDialog`, `AuthContext` | administration and login | classes over the page state |
| `Records` | src/types/index.ts | the record types and their enums |

Calls the model cannot see are inputs. These are the hosted database's queries and inserts, the
`fetch` of a CSV file, the socket exchange with the ADAM box, generated ids and the clock.
Each is passed in as the outcome it had: the rows returned, the error, or the reply bytes.
Effects the code makes through such calls are recorded in the state: a toast, a navigation
target, the rows inserted. CSV text starts out already split into rows of cells.
JavaScript's `trim`, `toLowerCase`, `toUpperCase`, `includes`, `split` and `join` are defined
once in `Text`. `filter`, `findIndex`, and the copy-and-sort to newest first are defined once in
`Seqs`.

Machine-id resolution accepts any group of four digits, with no lookup against a machine registry and no separate
loading state. A URL is valid exactly when some path segment has the pattern. Every group of that
segment becomes a `"<group> Fanuc Robodrill"` machine, and duplicates are kept.

## Model

| member | source | states |
|---|---|---|
| AdamBox.GetMachineIp | src/lib/adambox.ts:57-59 | the address is present exactly for an identifier in the table, and is then the table's non-empty entry; every other identifier gives `null` |
| AdamBox.MappedAddresses | src/lib/adambox.ts:6-14 | the six Robodrills 5701..5706 map to 192.168.3.25..30 and the table holds nothing else |
| AdamBox.AddressesDistinct | src/lib/adambox.ts:6-14 | no two machines share a box address |
| AdamBox.MappedIdsAreFullIds | src/lib/adambox.ts:6-14 | the table's keys are exactly the full identifiers (`getFullMachineId`) of the numbers 5701..5706 |
| AdamBox.FullMachineIdInjective | src/lib/adambox.ts:66-69 | two machine numbers with the same full identifier are equal |
| AdamBox.FullIdMappedIff | src/lib/adambox.ts:57-69 | the full identifier of a number has an address if and only if the number is one of 5701..5706 |
| AdamBox.RequestFor | src/lib/adambox.ts:23-31 | no backend request is made exactly when the identifier has no address; otherwise the request is for that address |
| AdamBox.GetAdamBoxValue | src/lib/adambox.ts:21-50 | a reading is returned if and only if the machine has an address and the backend answered with a value, and it is that value; every failure path gives `null` |
| AdamBox.UnmappedIgnoresBackend | src/lib/adambox.ts:23-28 | for an identifier outside the table no request is made and the result is `null` whatever the backend would answer |
| Admin.BeforeIrreflexive | src/pages/Admin.tsx:56 | the default string order of `sort` never puts a name before itself |
| Admin.BeforeTransitive | src/pages/Admin.tsx:56 | the default string order of `sort` is transitive |
| Admin.BeforeTotal | src/pages/Admin.tsx:56 | of two different names one sorts before the other |
| Admin.StrictlySortedDistinct | src/pages/Admin.tsx:48-56 | a list sorted strictly in that order holds each name once |
| Admin.Insert | src/pages/Admin.tsx:56 | inserting a new name into a strictly sorted list keeps it strictly sorted, adds exactly that name and grows it by one |
| Admin.Present | src/pages/Admin.tsx:50-55 | `data?.forEach` over a `null` result adds nothing; otherwise it adds the rows fetched |
| Admin.CollectMachines | src/pages/Admin.tsx:47-56 | the machine list is strictly sorted and holds a name exactly when one of the three tables has it, so each name once |
| Admin.MachinesOf | src/pages/Admin.tsx:67 | a user's machines are exactly the machines of the assignment rows with that user's id, and no more than there are rows |
| Admin.MachinesOfAppend | src/pages/Admin.tsx:67 | the filter over assignments distributes over concatenation, so each user's machines keep fetched order |
| Admin.UsersOf | src/pages/Admin.tsx:63-68 | one user per profile, in order, with the profile's id and name and exactly its assigned machines in fetched order (`MachinesOf`), or none when the assignments are `null` |
| Admin.ErrorText | src/pages/Admin.tsx:72 | `err.message \|\| err` is the message, or "Error" for an error with an empty message |
| Admin.AdminPage.constructor | src/pages/Admin.tsx:11-15 | the page starts loading, not admin, with no machines, no users and no error |
| Admin.AdminPage.CheckAdmin | src/pages/Admin.tsx:18-40 | the user is an admin exactly when signed in and `.single()` finds one role row for them whose role is "admin"; loading ends with no error and the lists unchanged |
| Admin.RowsOf | src/pages/Admin.tsx:28-31 | the rows selected by `eq("user_id", userId)` are exactly the table's rows of that user |
| Admin.SingleRole | src/pages/Admin.tsx:28-32 | `.single()` gives a role if and only if the user has exactly one row, and then it is that row's role |
| Admin.DuplicateAdminRowsDeny | src/pages/Admin.tsx:28-37 | a user with two "admin" rows gets no data from `.single()` and so is not an admin |
| Admin.AdminPage.RefreshData | src/pages/Admin.tsx:43-76 | the machine list is always replaced (sorted, each name once); a failed profile fetch sets the prefixed error and keeps the old users, a successful one clears the error and sets the joined users; loading ends |
| Admin.AdminPage.OnAdminChecked | src/pages/Admin.tsx:78-86 | for an admin the refresh runs with all its outcomes: the machine list is the sorted union of the three tables, a failed profile fetch sets the prefixed error and keeps the users, a successful one sets the joined users, and the denial text is not shown; for anyone else no state changes |
| AdminUserList.RowsFor | src/components/AdminUserList.tsx:40-41 | one inserted row per edited machine, same order, each for the edited user |
| AdminUserList.WithoutUser | src/components/AdminUserList.tsx:34 | after the delete a row is left exactly when it was there and belongs to another user; the others keep their order |
| AdminUserList.UserListEditor.constructor | src/components/AdminUserList.tsx:16-18 | nobody is edited, no machines ticked, no error, no update yet |
| AdminUserList.UserListEditor.HandleEdit | src/components/AdminUserList.tsx:20-24 | the given user is in edit mode with their current machines and no error; the table is untouched |
| AdminUserList.UserListEditor.HandleCancel | src/components/AdminUserList.tsx:25-29 | edit mode is left, with no machines and no error; the table is untouched |
| AdminUserList.UserListEditor.Toggle | src/components/AdminUserList.tsx:73-77 | ticking appends the machine; unticking makes the list exactly `Unticked` of the old one |
| AdminUserList.Unticked | src/components/AdminUserList.tsx:76 | the filtered list holds no copy of the machine, keeps every other machine, and keeps their order |
| AdminUserList.TickThenUntick | src/components/AdminUserList.tsx:73-77 | ticking a machine that was not ticked and then unticking it gives back the original list |
| AdminUserList.UserListEditor.SaveMachines | src/components/AdminUserList.tsx:31-50 | a failed delete changes no rows and shows "Kunde inte spara: ..."; a failed insert leaves the rows inserted before it and shows "Fel när maskiner sparades: ..." in edit mode; full success gives the user exactly one row per edited machine, leaves edit mode and calls `onUpdate` once |
| AdminUserList.InsertRows | src/components/AdminUserList.tsx:40-46 | the loop fails exactly when the failing insert's position is inside the list, and then holds the rows before it; otherwise it appends one row per machine in order |
| AdminUserList.RowsForExtend | src/components/AdminUserList.tsx:40-41 | one more machine appends one more row |
| AdminUserList.SavedRowsOfUser | src/components/AdminUserList.tsx:31-50 | after a successful save, the user has a row for a machine if and only if it was in the edited list |
| AppSidebar.Entries | src/components/AppSidebar.tsx:26-29 | one entry per available machine, in order; an entry is highlighted if and only if it equals the active machine; the number shown holds no space |
| AppSidebar.EntryLabelsRebuildId | src/components/AppSidebar.tsx:28-29 | number, a space and name give the identifier back; without a space the number is the whole identifier and the name is empty |
| AppSidebar.ClickSelectsEntry | src/components/AppSidebar.tsx:34 | clicking the i-th entry passes the i-th machine to `onMachineChange` |
| AppSidebar.ResolvedSidebarHighlightsFirst | src/components/AppSidebar.tsx:26-27 | with machines taken from a valid URL, the first entry is highlighted, and so is any later entry with the same identifier, and no other |
| AuthContext.AuthProvider.constructor | src/contexts/AuthContext.tsx:14 | nobody is signed in at first |
| AuthContext.AuthProvider.Login | src/contexts/AuthContext.tsx:16-18 | the given id becomes the user, replacing any earlier one, and the call returns nothing |
| AuthContext.AuthProvider.Logout | src/contexts/AuthContext.tsx:20-22 | nobody is signed in afterwards |
| AuthContext.UseAuth | src/contexts/AuthContext.tsx:31-37 | outside a provider the call fails with "useAuth must be used within an AuthProvider"; inside one it returns that provider |
| LoginDialog.LoginOutcome | src/components/LoginDialog.tsx:24-46 | an id is rejected if and only if it is not 5701, 5702 or 5703, with "Ange ett maskin-ID" when empty and the invalid-id text otherwise; sign-in happens if and only if the id is known and `login` answered true |
| LoginDialog.PasswordNotChecked | src/components/LoginDialog.tsx:24-46 | the outcome does not depend on the password |
| LoginDialog.VoidLoginReportsFailure | src/components/LoginDialog.tsx:35-45 | since `login` returns nothing, a known id always ends with "Felaktigt lösenord eller användar-ID" |
| LoginDialog.LoginDialogState.constructor | src/components/LoginDialog.tsx:20-22 | empty id and password, no error, dialog open, no toast |
| LoginDialog.LoginDialogState.HandleLogin | src/components/LoginDialog.tsx:24-46 | a rejected id sets its message and leaves the signed-in user alone; a known id is recorded as the user and the failure message is shown; the dialog stays open and no toast appears |
| Cmm.JsRemainder | src/pages/CMM.tsx:74 | JavaScript's `%`: for a non-negative dividend the Euclidean remainder; for a negative one 0 where that remainder is 0 and otherwise that remainder minus the divisor, so the result lies in (-b, 0] |
| Cmm.FormatTime | src/pages/CMM.tsx:72-76 | the text always ends in "m", and it names hours exactly when the time is at least 60 minutes |
| Cmm.FormatTimeAddsUp | src/pages/CMM.tsx:72-76 | for at least an hour the text is "<h>h <m>m" with h ≥ 1, m < 60 and h·60 + m the input; below an hour it is "<m>m" |
| Cmm.FormatTimeAtTheHour | src/pages/CMM.tsx:72-76 | 59 shows as "59m" and 60 as "1h 0m" |
| Cmm.RemainingTime | src/pages/CMM.tsx:78-80 | the remaining time is never negative and is either 0 or cycle time minus elapsed time, whichever is larger |
| Cmm.StatusText | src/pages/CMM.tsx:90-92 | "Aktiv" exactly for a running machine, "Inaktiv" exactly for a stopped one |
| Cmm.Toggled | src/pages/CMM.tsx:57-70 | only the machine with that id changes; it switches state, starting at `now` with nothing elapsed or stopping with no start and the elapsed time kept; a stopped machine without a start stays so |
| Cmm.Ticked | src/pages/CMM.tsx:43-52 | a running machine with a start gets the whole minutes since it started, rounded down; every other machine and every other field is unchanged |
| Cmm.InitialTickKeepsApexS | src/pages/CMM.tsx:24-51 | the initial machines satisfy the board invariant; Crysta Apex S runs without a start time, so a tick keeps its 3 minutes, and the stopped Apex V is unchanged |
| Cmm.CmmBoard.constructor | src/pages/CMM.tsx:24-39 | the board starts with the two initial machines and satisfies its invariant (a stopped machine has no start time) |
| Cmm.CmmBoard.ToggleMachine | src/pages/CMM.tsx:57-70 | only machines with the id change: they flip running; switching on sets start to now and elapsed to 0; switching off clears the start and keeps elapsed time; the invariant is kept |
| Cmm.CmmBoard.Tick | src/pages/CMM.tsx:42-52 | a running machine with a start time gets the minutes since its start; every other machine is unchanged; the invariant is kept |
| Cmm.TickIsWholeMinutes | src/pages/CMM.tsx:47 | the elapsed value is the floor of the milliseconds divided by 60000 |
| CompensationRules.LocationRule | src/pages/NewCompensation.tsx:41 | the refinement holds if and only if coordinate system, tool or number is present and non-empty |
| CompensationRules.WhitespaceIsALocation | src/components/ToolCompensationForm.tsx:45 | a location of only spaces passes the refinement, while empty strings in every field do not |
| CompensationRules.Unsigned | src/pages/NewCompensation.tsx:37 | the optional leading sign `[+-]?` is split off exactly when the text starts with one |
| CompensationRules.IndexOfAt | src/pages/NewCompensation.tsx:37 | the first point of the text is found where the text has a point and nothing before it does |
| CompensationRules.IsValueDecomposes | src/pages/NewCompensation.tsx:37 | every value the matcher accepts splits into optional sign, digits, optional point and at least one digit |
| CompensationRules.UnsignedPartsMatch | src/pages/NewCompensation.tsx:37 | digits, an optional point and at least one digit pass the matcher's unsigned part |
| CompensationRules.UnsignedOfParts | src/pages/NewCompensation.tsx:37 | a text built from a sign and such parts loses exactly that sign |
| CompensationRules.DecompositionIsValue | src/pages/NewCompensation.tsx:37 | every such split is accepted by the matcher |
| CompensationRules.IsValueIffDecomposes | src/pages/NewCompensation.tsx:37 | the matcher accepts exactly the strings `^[+-]?\d*\.?\d+$` describes |
| CompensationRules.ValueRule | src/pages/NewCompensation.tsx:36-38 | the pattern together with the minimum length of one accepts exactly the strings the pattern describes |
| CompensationRules.AcceptedExamples | src/components/ToolCompensationForm.tsx:38-40 | "+0.15", "-.5" and "7" are values |
| CompensationRules.RejectedExamples | src/components/ToolCompensationForm.tsx:38-40 | "5.", "+", "1.2.3" and "" are not values |
| CompensationTable.SanitiseBoolean | src/components/CompensationTable.tsx:23-35 | the label is "SANT", "FALSKT" or empty; "SANT" exactly when the trimmed, upper-cased cell is SANT, "FALSKT" exactly when it is FALSKT |
| CompensationTable.SanitiseBooleanIdempotent | src/components/CompensationTable.tsx:23-35 | sanitising a label again gives the same label |
| CompensationTable.NormalisedLabel | src/components/CompensationTable.tsx:24-33 | the two labels are already trimmed and upper case |
| CompensationTable.Cell | src/components/CompensationTable.tsx:93 | each cell, missing ones read as empty, is trimmed at both ends |
| CompensationTable.CleanRow | src/components/CompensationTable.tsx:92-110 | a row gives a record if and only if its trimmed first cell is non-empty; the record's id is that cell and no field has white space at either end |
| CompensationTable.CleanRows | src/components/CompensationTable.tsx:91-111 | no more records than rows, and every record has a non-empty id and trimmed fields |
| CompensationTable.CleanRowsSingle | src/components/CompensationTable.tsx:91-111 | a single row gives its own record when its id is non-empty, and nothing otherwise |
| CompensationTable.LoadRows | src/components/CompensationTable.tsx:81-111 | every loaded record has a non-empty id and trimmed fields |
| CompensationTable.LoadRowsSkipsPreamble | src/components/CompensationTable.tsx:81-111 | for preamble rows that are not headers, then the `ID-#` header, then data, the records come only from the non-blank data rows after the header |
| CompensationTable.HeaderHasContent | src/components/CompensationTable.tsx:37-38 | the header row is never dropped as blank |
| CompensationTable.FilterRows | src/components/CompensationTable.tsx:134-154 | the shown rows keep the loaded order; a blank search shows every row; otherwise a row is shown if and only if its seven searched columns, joined and lower-cased, contain the trimmed lower-cased query |
| CompensationTable.FetchErrorMessage | src/components/CompensationTable.tsx:70-119 | a non-OK response shows exactly "Kunde inte läsa filen (" followed by the decimal status and ")", a thrown `Error` its own message and any other thrown value "Okänt fel"; the tool compensation table shows the same messages |
| CompensationTable.SideColumnsNotSearched | src/components/CompensationTable.tsx:140-152 | rows that differ only in the machine-side and operator-side columns are shown or hidden together |
| CompensationTable.CompensationTableView.constructor | src/components/CompensationTable.tsx:57-60 | no rows, empty search, no error, loading |
| CompensationTable.CompensationTableView.LoadData | src/components/CompensationTable.tsx:65-125 | on success the rows are the pipeline's records with no error; on a failed fetch the rows stay and the error is the HTTP-status text, the thrown message or "Okänt fel"; loading ends either way |
| CompensationTable.CompensationTableView.SetSearchTerm | src/components/CompensationTable.tsx:164 | only the search term changes |
| CompensationTable.CompensationTableView.FilteredRows | src/components/CompensationTable.tsx:134-154 | the shown rows are a subsequence of the loaded rows |
| CreateDisturbance.SuggestionCounts | src/pages/CreateDisturbance.tsx:58-83 | Robot and "In- och utbana" offer four comments, Spåntransportör only "Översväming", Annat or no area none; no suggestion is empty |
| CreateDisturbance.CommentSuggestions | src/pages/CreateDisturbance.tsx:58-83 | suggestions are offered only for an area of the enum other than "Annat", and none of them is empty |
| CreateDisturbance.SaveEnabledBySchema | src/pages/CreateDisturbance.tsx:28-34 | values the schema accepts always enable saving; enabled values with an area from the enum pass the schema; the defaults do not enable it |
| CreateDisturbance.MachineRowId | src/pages/CreateDisturbance.tsx:44-46 | a row id is found if and only if the active machine's number has four characters (the query's `enabled` guard), exactly one machine row has that number (`.maybeSingle()`), and its id is non-empty; it is then that row's id |
| CreateDisturbance.ShortNumberNotFound | src/pages/CreateDisturbance.tsx:44-46 | the machine "570 X", whose number has three characters, is never found whatever the machine table holds |
| CreateDisturbance.DisturbanceForm.constructor | src/pages/CreateDisturbance.tsx:48-55 | the form starts at its defaults with nothing inserted and no toast |
| CreateDisturbance.DisturbanceForm.PickSuggestion | src/pages/CreateDisturbance.tsx:237-261 | clicking an offered suggestion replaces the comment and nothing else |
| CreateDisturbance.DisturbanceForm.OnSubmit | src/pages/CreateDisturbance.tsx:92-141 | without a machine id nothing is inserted and "Kunde inte hitta maskinen" is shown; a failed or thrown insert keeps the values and shows its error; a stored row appends exactly the machine id, area, comment and signature, shows "Störningen har sparats" and resets the form |
| CreateToolChange.NavigationTarget | src/pages/CreateToolChange.tsx:13-22 | the target is "/new-tool-change?machine=" followed by exactly the active machine's number, as `getMachineNumber` gives it |
| CreateToolChange.WizardRebuildsActiveMachine | src/pages/NewToolChange.tsx:47-48 | for a machine built from a number without spaces, the wizard rebuilds from the query parameter exactly the machine the button was pressed for |
| Disturbances.ColumnMappingRoundTrip | src/pages/Disturbances.tsx:86-93 | the column mapping loses nothing and invents nothing: mapping to the page's fields and back gives the row again, and the other way round |
| Disturbances.FromDb | src/pages/Disturbances.tsx:86-93 | mapping the mapped row back to columns gives the row again |
| Disturbances.ToDb | src/pages/Disturbances.tsx:86-93 | each page field goes back to the column it came from |
| Disturbances.FilterDisturbances | src/pages/Disturbances.tsx:41-57 | every shown disturbance was loaded and matches both terms, and every loaded one matching both is shown |
| Disturbances.FiltersAreConjunctive | src/pages/Disturbances.tsx:41-57 | the area filter followed by the comment filter, each applied only for a non-empty term, is one filter by both tests |
| Disturbances.ShownIffBothMatch | src/pages/Disturbances.tsx:41-57 | the shown list is a subsequence of the loaded one, and a disturbance is shown if and only if it matches both terms case-insensitively |
| Disturbances.FilterKeepsQueryOrder | src/pages/Disturbances.tsx:41-57 | any order of the loaded list, such as the query's newest first, is kept by the filters |
| Disturbances.DisturbancesView.constructor | src/pages/Disturbances.tsx:29-34 | empty lists, loading, no error, empty terms, and the filter invariant holds |
| Disturbances.DisturbancesView.ApplyFilters | src/pages/Disturbances.tsx:41-57 | the shown list becomes the filtered loaded list; nothing else changes |
| Disturbances.DisturbancesView.SetSearchArea | src/pages/Disturbances.tsx:41-57 | the area term changes and the shown list follows it; the loaded list is untouched |
| Disturbances.DisturbancesView.SetSearchComment | src/pages/Disturbances.tsx:41-57 | the comment term changes and the shown list follows it; the loaded list is untouched |
| Disturbances.DisturbancesView.FetchDisturbances | src/pages/Disturbances.tsx:59-103 | when `.single()` finds no row or several rows for the machine number, the query is skipped, the list kept and "Maskin hittades inte" shown; otherwise the query is for that row's id, a failed query keeps the list and shows the load error, and a successful one gives the mapped rows, none for `null`; loading ends with the filter invariant restored |
| Keypad.HandleKeyPress | src/components/Keypad.tsx:13-22 | clear emits ""; backspace emits the value without its last character ("" stays ""); any other key is ignored if and only if a non-zero limit is reached, and otherwise appends the key |
| Keypad.KeypadKeepsLimit | src/components/Keypad.tsx:12-29 | a press of any of the pad's twelve keys keeps a value within a positive limit |
| Keypad.AtLimit | src/components/Keypad.tsx:13-22 | at the limit a digit is ignored, while clear and backspace still act |
| Keypad.ZeroDisablesLimit | src/components/Keypad.tsx:19 | a limit of 0 is falsy and lets every character key through |
| Keypad.DefaultLimitIsTen | src/components/Keypad.tsx:12 | with the default limit a digit is appended below ten characters and refused from ten on |
| LastOrders.OrderIn | src/hooks/useLastManufacturingOrder.ts:23-25 | the stored order of a machine, or "" for a machine without an entry |
| LastOrders.InitialOrdersEmpty | src/hooks/useLastManufacturingOrder.ts:6-14 | the hook starts with exactly seven machines and every lookup gives "" |
| LastOrders.StoreThenRead | src/hooks/useLastManufacturingOrder.ts:16-25 | after storing an order for a machine, reading it gives that order and every other machine keeps its own |
| LastOrders.StoreTwice | src/hooks/useLastManufacturingOrder.ts:16-21 | a later order for the same machine replaces the earlier one |
| LastOrders.LastOrderStore.constructor | src/hooks/useLastManufacturingOrder.ts:6-14 | the store starts with the seven empty orders |
| LastOrders.LastOrderStore.GetLastOrder | src/hooks/useLastManufacturingOrder.ts:23-25 | `getLastOrder` agrees with the lookup `OrderIn` on the current record |
| LastOrders.LastOrderStore.SetLastOrder | src/hooks/useLastManufacturingOrder.ts:16-21 | one key is replaced: that machine reads back the new order and every other machine reads what it read before |
| MachineFromUrl.PathParts | src/hooks/useMachineFromUrl.ts:12 | `split('/').filter(Boolean)` keeps only non-empty segments |
| MachineFromUrl.FindMachinePattern | src/hooks/useMachineFromUrl.ts:15 | nothing is found if and only if no segment matches `^\d{4}(-\d{4})*$`; what is found is a matching segment of the path |
| MachineFromUrl.FindMachinePatternIsFirst | src/hooks/useMachineFromUrl.ts:15 | what `find` returns is the first matching segment |
| MachineFromUrl.MachinesOf | src/hooks/useMachineFromUrl.ts:19-23 | one machine per hyphen-separated group, in order, each "<group> Fanuc Robodrill" |
| MachineFromUrl.Resolve | src/hooks/useMachineFromUrl.ts:10-40 | a valid result has at least one machine and the first one is active; an invalid one is no machines, "0000 Fanuc Robodrill" and not valid |
| MachineFromUrl.ResolveFound | src/hooks/useMachineFromUrl.ts:15-39 | the URL is invalid when no segment matches, and otherwise valid with the matched segment's machines |
| MachineFromUrl.PatternGroups | src/hooks/useMachineFromUrl.ts:15-19 | a matching segment splits into groups of exactly four digits, one more group than it has hyphens |
| MachineFromUrl.GroupsMakePattern | src/hooks/useMachineFromUrl.ts:15-19 | conversely, text whose hyphen-separated groups are all four digits matches the pattern |
| MachineFromUrl.ValidIffSomeSegmentMatches | src/hooks/useMachineFromUrl.ts:12-39 | the URL is valid if and only if some `/`-separated segment matches the pattern |
| MachineFromUrl.ResolveUsesFirstMatch | src/hooks/useMachineFromUrl.ts:15-31 | when valid, the machines are those of the first matching segment, one per group, and later matches are ignored |
| MachineFromUrl.MachinesAreRobodrills | src/hooks/useMachineFromUrl.ts:22-23 | every offered machine is "<four digits> Fanuc Robodrill" |
| MachineFromUrl.NumbersRejoinSegment | src/hooks/useMachineFromUrl.ts:19-23 | the numbers of the offered machines, joined with hyphens, give back the matched segment |
| MachineFromUrl.SingleSegmentPath | src/hooks/useMachineFromUrl.ts:12-39 | a one-segment path is valid if and only if that segment matches the pattern |
| MachineFromUrl.NotFoundValidExample | src/pages/NotFound.tsx:28 | "/5503" is a valid address |
| MachineFromUrl.NotFoundPairExample | src/pages/NotFound.tsx:27 | "/5701-5704" is a valid address |
| MachineFromUrl.NotFoundTripleExample | src/pages/NotFound.tsx:26 | "/5401-5402-5403" is a valid address |
| MachineFromUrl.NotFoundInvalidExamples | src/pages/NotFound.tsx:32-33 | "/" and "/570" are not valid |
| MachineFromUrl.NotFoundMalformedExamples | src/pages/NotFound.tsx:34-35 | "/5701-570" and "/abc-5701" are not valid |
| MachineIds.FullMachineId | src/lib/adambox.ts:66-69 | the full identifier starts with the number and continues with exactly " Fanuc Robodrill" |
| MachineIds.MachineNumber | src/components/AppSidebar.tsx:28 | `split(' ')[0]` is the text before the first space and holds no space: the whole identifier without a space, and otherwise the identifier starts with it and a space |
| MachineIds.MachineName | src/components/AppSidebar.tsx:29 | `split(' ').slice(1).join(' ')` is everything after the first space, later spaces kept, or "" without a space |
| MachineIds.NumberAndNameRebuildId | src/components/AppSidebar.tsx:28-29 | number, a space and name give back an identifier that holds a space |
| MachineIds.NumberOfFullMachineId | src/lib/adambox.ts:66-69 | the number of a full identifier built from a number without spaces is that number |
| MachineIds.RowsNumbered | src/hooks/useMachines.ts:27-30 | the rows selected by `eq("maskiner_nummer", number)` are exactly the table's rows with that number |
| MachineIds.MachineByNumber | src/hooks/useMachines.ts:27-31 | `.single()` and `.maybeSingle()` give a row if and only if exactly one row has the number, and it is then the only such row |
| MachineIds.DuplicateNumberNotFound | src/pages/Disturbances.tsx:66-75 | two machine rows with the same number give no data, so the page reports the machine as not found |
| MachineStatus.LeadingDigits | src/lib/machinestatus.ts:49 | the longest run of ASCII digits at the start: a digit-only prefix not followed by a digit |
| MachineStatus.ExtractWorkCenter | src/lib/machinestatus.ts:46-51 | an identifier starting with a digit gives its whole leading digit run; any other identifier is returned unchanged |
| MachineStatus.ExtractWorkCenterIdempotent | src/lib/machinestatus.ts:46-51 | extracting from an extracted work centre changes nothing |
| MachineStatus.AllDigitsAreLeading | src/lib/machinestatus.ts:49 | a text of digits only is its own leading digit run |
| MachineStatus.WorkCenterOfFullMachineId | src/lib/machinestatus.ts:46-51 | the full identifier of a digit number maps back to that number |
| MachineStatus.RobodrillWorkCenter | src/lib/machinestatus.ts:48 | "5701 Fanuc Robodrill" maps to "5701" |
| Matrixkod.SchemaAndButton | src/pages/Matrixkod.tsx:19-45 | values the schema accepts enable saving; the schema holds if and only if the button is enabled and the date has six characters; a one-character date enables the button but fails the schema; six letters pass as a date; the defaults do not enable saving |
| Matrixkod.PrefillOrder | src/pages/Matrixkod.tsx:57-68 | the prefilled order is the active order's number when the status has one, and "" when the request failed or there is no active order |
| Matrixkod.MatrixkodForm.constructor | src/pages/Matrixkod.tsx:30-39 | no active order and the default values |
| Matrixkod.MatrixkodForm.FetchManufacturingOrder | src/pages/Matrixkod.tsx:52-69 | the status is requested for the machine's work centre, and both the page's order and the form's order field become the prefilled order; the other fields are unchanged |
| Matrixkod.MatrixkodForm.OnSubmit | src/pages/Matrixkod.tsx:71-74 | submitting valid values only logs them: the page's order and the form values are unchanged and nothing is stored |
| MatrixkodHistorik.FiltersAreConjunctive | src/pages/MatrixkodHistorik.tsx:40-56 | the order filter followed by the code-date filter, each only for a non-empty term, is one filter by both tests |
| MatrixkodHistorik.FilterMatrixkoder | src/pages/MatrixkodHistorik.tsx:40-56 | every shown code was loaded and matches both terms, and every loaded code matching both is shown |
| MatrixkodHistorik.ShownIffBothMatch | src/pages/MatrixkodHistorik.tsx:40-56 | a code is shown if and only if it was loaded and matches both terms case-insensitively; the shown list keeps the query's latest-first order |
| MatrixkodHistorik.MatrixkodHistorikView.constructor | src/pages/MatrixkodHistorik.tsx:28-33 | empty lists, loading, no error, empty terms, the given machine, and the filter invariant holds |
| MatrixkodHistorik.MatrixkodHistorikView.ApplyFilters | src/pages/MatrixkodHistorik.tsx:40-56 | the shown list becomes the filtered loaded list; nothing else changes |
| MatrixkodHistorik.MatrixkodHistorikView.SetSearchOrder | src/pages/MatrixkodHistorik.tsx:40-56 | the order term changes and the shown list follows it |
| MatrixkodHistorik.MatrixkodHistorikView.SetSearchMatrixkod | src/pages/MatrixkodHistorik.tsx:40-56 | the code-date term changes and the shown list follows it |
| MatrixkodHistorik.MatrixkodHistorikView.FetchMatrixkoder | src/pages/MatrixkodHistorik.tsx:58-78 | a failed query keeps the list and shows "Ett fel uppstod vid laddning av matrixkoder"; otherwise the list is the whole table, none for `null`; loading ends with the filter invariant restored |
| MatrixkodHistorik.MatrixkodHistorikView.SetActiveMachine | src/pages/MatrixkodHistorik.tsx:35-37 | a new active machine refetches, and the result does not depend on which machine it is |
| Modbus.WordBytes | backend/app.py:44-52 | `struct.pack('>H', x)` writes two bytes that read back, high byte first, as x |
| Modbus.EncodeRequest | backend/app.py:39-52 | the request is 12 bytes: transaction 1, protocol 0, length 6 (the bytes after the length field), the unit, function 3, the register address and a quantity of 1 |
| Modbus.DecodeRequest | backend/app.py:44-52 | only a 12-byte read of holding registers is read back as a request |
| Modbus.RequestRoundTrip | backend/app.py:44-52 | reading an encoded request back gives its unit and register address |
| Modbus.DefaultRequest | backend/app.py:39-52 | with the defaults the request is 00 01 00 00 00 06 01 03 00 02 00 01 |
| Modbus.BaseFunctionCode | backend/app.py:73 | `f_code & 0x7F` lies in 0..127: the code less 128 for codes from 128, the code itself below |
| Modbus.ExceptionBit | backend/app.py:70 | `f_code & 0x80` is set exactly for codes from 128 |
| Modbus.DecodeReply | backend/app.py:60-99 | under 8 bytes is "too short"; a code from 128 is an exception with the base code and the ninth byte (0 when missing); another code than 3 is unexpected; with code 3, exactly 8 bytes is "too short for data", fewer bytes than 9 plus the count is "too short" with both lengths, and 9 or 10 bytes that satisfy the count fail to unpack; a value is read if and only if the reply has 11 bytes, function 3 and as many bytes as its count says, and it is the word in bytes 9 and 10 |
| Modbus.EncodeReply | backend/app.py:90-99 | a normal reply to a one-register read is 11 bytes |
| Modbus.EncodeExceptionReply | backend/app.py:70-75 | an exception reply is 9 bytes |
| Modbus.ReplyRoundTrip | backend/app.py:60-99 | a conforming reply decodes to the value it carries, whatever its transaction and unit fields |
| Modbus.ExceptionReplyReported | backend/app.py:70-75 | an exception reply is reported with the original function code and its exception code |
| Modbus.ShortReplyFailsInUnpack | backend/app.py:90-99 | a 9- or 10-byte reply with function 3 and a small byte count passes every length check and still fails in `struct.unpack` |
| Modbus.ReplyErrorMessage | backend/app.py:60-99 | each failed reply's error text: "Response too short: <n> bytes", "Modbus exception: function code <f>, exception <x>", "Unexpected function code: <f>", "Response too short for data", "Response too short: expected <n> bytes, got <m>", and Python's unpack message for a reply without two value bytes; none is empty |
| Modbus.ReadAdamBoxValue | backend/app.py:17-126 | a read succeeds if and only if the box replied and the reply decodes, and then carries the address, register 2 and the decoded value; a timeout is "Connection timeout", a refused connection "Connection refused - check if AdamBox is running", any other exception its own message, and a reply that does not decode the error text of that reply |
| Modbus.AdamBoxRoute | backend/app.py:130-151 | status 400 if and only if the `ip` parameter is missing or empty, and then no read; 500 exactly for a failed read; 200 exactly for a successful one; the result is the read of that address |
| Modbus.RouteServesConformingReply | backend/app.py:130-151 | a box answering with a conforming reply is served with status 200 and the register's value |
| NewCompensation.FormSchemaRules | src/pages/NewCompensation.tsx:28-43 | the schema accepts exactly: a non-empty order, a direction among X, Y, Z, R and L, a value matching the number pattern, a non-empty signature, and at least one non-empty location field |
| NewCompensation.DefaultValues | src/pages/NewCompensation.tsx:51-63 | the default order is the machine's last order (or ""), and the defaults never pass the schema |
| NewCompensation.CompensationOf | src/pages/NewCompensation.tsx:66-78 | the record is for the page's machine with the given id and timestamp, the form's order, value and signature, the chosen direction, each location field absent exactly when it was missing or empty and otherwise the entered text, and the comment or "" |
| NewCompensation.StoredRow | src/pages/NewCompensation.tsx:81-93 | each location column is null exactly when its field was absent or empty and otherwise carries it; a missing comment is stored as ""; machine, order, direction, value and signature are the form's |
| NewCompensation.RowOf | src/pages/NewCompensation.tsx:81-93 | the row is for the record's machine and id, with its order ("" when absent) and the given creation date; the direction column reads back as the record's direction; a location column is null exactly when the field is absent or empty and otherwise carries it; value, comment and signature are the record's |
| NewCompensation.Render | src/pages/NewCompensation.tsx:45-110 | without a non-empty `machine` parameter only "Maskin-ID saknas" is shown; otherwise the form for that machine, its order prefilled with "" because the page's last-order state starts empty on every mount |
| NewCompensation.NewCompensationPage.constructor | src/pages/NewCompensation.tsx:45-63 | the page for a machine owns a fresh last-order store with the seven empty orders, so its default order is ""; nothing inserted, no notice and no navigation |
| NewCompensation.NewCompensationPage.HandleSubmit | src/pages/NewCompensation.tsx:65-106 | a failed insert only shows "Kunde inte spara verktygskompensation"; a successful one appends the row, stores the order as the machine's last order in the page's own store, shows "Verktygskompensation sparad" and navigates to "/<machine>?tab=kompensering" |
| NewToolChange.StoredCount | src/pages/NewToolChange.tsx:109 | `adamBoxValue \|\| null` stores a reading if and only if there is one and it is not 0 |
| NewToolChange.RowOf | src/pages/NewToolChange.tsx:113-123 | the row is for the record's machine, id and tool, with the reason's text as cause and the given creation date; a missing order is stored as ""; the counter column is null exactly when there was no non-zero reading and otherwise holds it; comment and signature are the record's |
| NewToolChange.ToolChangeOf | src/pages/NewToolChange.tsx:100-110 | the record carries the given id and timestamp, the machine, step 1's tool and reason, step 2's order, signature and comment ("" when missing), the stored counter, and no count since the last change |
| NewToolChange.StoredRow | src/pages/NewToolChange.tsx:113-123 | the stored row's machine column is the full id built from the number in the URL, whose number part is that number again when it has no space; step 1's tool and cause, step 2's order, and a counter that is null exactly when there was no non-zero reading |
| NewToolChange.MachineIdOf | src/pages/NewToolChange.tsx:47-48 | without a non-empty `machine` parameter only "Maskin-ID saknas" is shown; otherwise the machine is the full id of that number |
| NewToolChange.ToolChangeWizard.constructor | src/pages/NewToolChange.tsx:44-70 | the wizard starts on step 1 with no step-1 data and no reading, for the machine's full id, with a fresh last-order store of seven empty orders, so step 2's default order is "" |
| NewToolChange.ToolChangeWizard.FetchAdamBoxValue | src/pages/NewToolChange.tsx:72-90 | the reading becomes what `getAdamBoxValue` gives for the machine, loading ends, the steps are unchanged |
| NewToolChange.ToolChangeWizard.HandleStep1Submit | src/pages/NewToolChange.tsx:92-95 | step 1's tool and reason are kept and the wizard moves to step 2 |
| NewToolChange.ToolChangeWizard.Back | src/pages/NewToolChange.tsx:265 | back on step 1 with what step 1 stored kept |
| NewToolChange.ToolChangeWizard.HandleStep2Submit | src/pages/NewToolChange.tsx:97-136 | nothing happens without step-1 data; a failed insert only shows "Kunde inte spara verktygsbyte"; a successful one appends the row, stores the order as the machine's last order in the page's own store, shows "Verktygsbyte sparat" and navigates to "/<number>"; the wizard invariant is kept |
| NumericInput.DropLast | src/hooks/useNumericInput.tsx:18 | `slice(0, -1)` removes exactly the last character, and "" stays "" |
| NumericInput.Next | src/hooks/useNumericInput.tsx:16-35 | backspace drops the last character; a sign on an empty buffer becomes the buffer; a sign on a buffer that already holds one is ignored; anything else is appended |
| NumericInput.SignCount | src/hooks/useNumericInput.tsx:29 | the number of sign characters is at most the length, and 0 exactly when the buffer has no sign |
| NumericInput.NextKeepsOneSign | src/hooks/useNumericInput.tsx:22-34 | a keypad token never brings the buffer to more than one sign |
| NumericInput.KeypadBufferHoldsOneSign | src/hooks/useNumericInput.tsx:16-39 | any sequence of keypad tokens and clears keeps a buffer with at most one sign |
| NumericInput.Replay | src/hooks/useNumericInput.tsx:16-39 | no actions leave the buffer as it was, and a run ending in a clear leaves it empty |
| NumericInput.ReplayAppend | src/hooks/useNumericInput.tsx:16-39 | replaying two runs of actions equals replaying the first and then the second from where it ended |
| NumericInput.NumericInputBuffer.constructor | src/hooks/useNumericInput.tsx:14 | the buffer starts empty |
| NumericInput.NumericInputBuffer.HandleInput | src/hooks/useNumericInput.tsx:16-35 | the buffer becomes the next value for the input, and keeps at most one sign under keypad tokens |
| NumericInput.NumericInputBuffer.ClearValue | src/hooks/useNumericInput.tsx:37-39 | the buffer is emptied |
| NumericInput.UseNumericInput | src/hooks/useNumericInput.tsx:48-54 | outside a provider the call fails with its fixed message; inside one it returns that provider's buffer |
| Records.ParseDirection | src/types/index.ts:36 | a text is read as a direction if and only if it is one of X, Y, Z, R and L, and the direction's text is that text |
| Records.ParseDirectionText | src/types/index.ts:36 | every direction is read back from its own text |
| Records.ParseArea | src/types/index.ts:58 | a text read as an area is that area's text |
| Records.ParseAreaText | src/types/index.ts:58 | every area is read back from its own text |
| Records.ParseSignature | src/components/ToolCompensationForm.tsx:42 | a text is read as a signature if and only if it is Fredrik, Joel or Per, and the signature's text is that text |
| Records.OrEmpty | src/pages/NewCompensation.tsx:75 | `text \|\| ""` is the text when there is one and "" when it is absent |
| Records.PresentOrAbsent | src/pages/NewCompensation.tsx:70-72 | `text \|\| undefined` is present if and only if the text is present and non-empty, and is then the text |
| StopCodes.GetStopCodeInfo | src/lib/stopcodes.ts:21-24 | a code finds a table entry if and only if it is exactly "300", and that entry is 300, "Order saknas" |
| StopCodes.GetStopCodeDisplayName | src/lib/stopcodes.ts:26-37 | a blank code shows the running label, code 300 shows "300 Order saknas", any other code shows itself |
| StopCodes.GetStatusBarColor | src/lib/stopcodes.ts:42-55 | green if and only if the code is blank or the status contains "running" in any case; otherwise blue if and only if the code is 300, and red for every other code |
| StopCodes.PaddedCodeNotFound | src/lib/stopcodes.ts:21-55 | " 300" is not trimmed before the lookup: it finds no entry, is shown as it is and is painted red |
| StopCodes.BlankCodeIsRunning | src/lib/stopcodes.ts:26-46 | a blank code is shown as running and painted green whatever the status |
| StopCodes.RunningStatusWins | src/lib/stopcodes.ts:44-50 | a status of "RUNNING" paints stop code 300 green rather than blue |
| Seqs.Filter | src/components/ToolChangeList.tsx:28-36 | `filter` keeps exactly the elements that pass the test, as a subsequence of the input in its order |
| Seqs.FilterAppend | src/pages/ToolChange.tsx:40 | filtering a concatenation is the concatenation of the filtered parts |
| Seqs.FilterKeepsAll | src/pages/Disturbances.tsx:44-48 | a filter every element passes leaves the list unchanged |
| Seqs.FilterTwice | src/pages/Disturbances.tsx:42-55 | two filters in a row equal one filter with the conjunction of both tests |
| Seqs.FilterKeepsOrder | src/pages/Disturbances.tsx:42-55 | any order relation holding along the list still holds after filtering |
| Seqs.FirstIndex | src/components/CompensationTable.tsx:85-87 | `findIndex` finds nothing if and only if no element passes; otherwise the position it finds passes and no earlier one does |
| Seqs.AfterFirst | src/components/CompensationTable.tsx:89 | the rows after the header are the slice past the first header, or all rows when there is none |
| Seqs.AroundFirst | src/components/ToolCompensationTable.tsx:62-67 | the rows before and after the first header, which together with the header make up the input; nothing before and everything after without a header |
| Seqs.MarkerIsFirst | src/components/CompensationTable.tsx:85-89 | a header preceded only by non-header rows is the one `findIndex` finds, and the rows after it are what remains |
| Seqs.FilterAround | src/components/CompensationTable.tsx:81-89 | filtering around a kept element keeps that element between the filtered parts |
| Seqs.FilterMap | src/components/CompensationTable.tsx:91-111 | `map` then dropping nulls yields no more results than inputs, each the mapped value of some input, and every input mapped to a value contributes that value |
| Seqs.Map | src/components/ToolCompensationTable.tsx:69-73 | `map` keeps the length and puts the image of each element at its position |
| Seqs.FilterMapAppend | src/components/CompensationTable.tsx:91-111 | mapping and dropping a concatenation is the concatenation of the parts' results, so results keep the input order |
| Seqs.InsertNewest | src/components/ToolChangeList.tsx:38-40 | inserting adds exactly the one element and keeps a newest-first list newest first |
| Seqs.SortNewestFirst | src/components/ToolChangeList.tsx:38-40 | the copy sorted by descending timestamp is a permutation of the input and is newest first |
| Text.TrimStart | src/components/ToolCompensationTable.tsx:19 | the result is a suffix of the input, does not start with white space, and only white space was dropped |
| Text.TrimEnd | src/components/ToolCompensationTable.tsx:19 | the result is a prefix of the input, does not end with white space, and only white space was dropped |
| Text.Trim | src/components/ToolCompensationTable.tsx:19 | `trim` leaves no white space at either end and is empty if and only if the input is all white space |
| Text.TrimIsSlice | src/components/ToolCompensationTable.tsx:19 | `trim` is a contiguous slice of its input with only white space before and after it |
| Text.TrimIdempotent | src/components/ToolCompensationTable.tsx:19 | trimming twice is trimming once |
| Text.ToLower | src/components/ToolChangeList.tsx:29 | `toLowerCase` keeps the length and lower-cases each character on its own |
| Text.ToUpper | src/components/CompensationTable.tsx:24 | `toUpperCase` keeps the length and upper-cases each character on its own |
| Text.CapitalsAreNormalised | src/components/CompensationTable.tsx:86 | a word of capital letters is unchanged by `trim().toUpperCase()` |
| Text.ToLowerIdempotent | src/lib/stopcodes.ts:44 | lower-casing twice is lower-casing once |
| Text.ContainsAt | src/components/ToolChangeList.tsx:31-34 | `includes` holds if and only if the text occurs at some position |
| Text.EmptyIsContained | src/components/ToolChangeList.tsx:28-36 | every text includes the empty query |
| Text.IndexOf | src/hooks/useMachineFromUrl.ts:19 | the position of the first separator, or the length when there is none, with no separator before it |
| Text.SplitOn | src/hooks/useMachineFromUrl.ts:19 | `split` on one character gives at least one part, none containing the separator |
| Text.JoinSplit | src/hooks/useMachineFromUrl.ts:19 | joining the parts of a split with the separator gives the text back |
| Text.SplitAtFirst | src/hooks/useMachineFromUrl.ts:19 | the first part is the text before the first separator and the others are the split of the rest; no separator gives one part |
| Text.SplitHead | src/pages/CreateToolChange.tsx:14 | `split(' ')[0]` is the text before the first space, or all of it |
| Text.SplitNoSeparator | src/hooks/useMachineFromUrl.ts:19 | a text without the separator splits into itself alone |
| Text.SplitAppend | src/hooks/useMachineFromUrl.ts:19 | a separator-free part followed by the separator and a rest splits into that part and the parts of the rest |
| Text.NatToString | backend/app.py:60-64 | a natural number's decimal rendering is a non-empty digit string without a leading zero |
| Text.NatToStringValue | backend/app.py:60-64 | reading the decimal digits back gives the number |
| Text.IntToString | backend/app.py:70-75 | a negative number renders as a minus sign before digits, any other as digits |
| ToolChangeForm.ParseFormReason | src/components/ToolChangeForm.tsx:34-36 | the reason enum accepts exactly "Slitage" and "Verktygsbrott", never the record type's "Övrigt", and reads them back as their text |
| ToolChangeForm.FormSchemaRules | src/components/ToolChangeForm.tsx:32-41 | the schema holds if and only if the tool number is non-empty, the reason is Slitage or Verktygsbrott and the signature is Fredrik, Joel or Per; "Övrigt" and the default values are refused |
| ToolChangeForm.ToolChangeOf | src/components/ToolChangeForm.tsx:66-75 | the record carries the given id and timestamp, the dialog's machine, the entered tool number, reason and signature, the comment or "" when it is missing, and no order or part counts |
| ToolChangeForm.ToolChangeDialog.constructor | src/components/ToolChangeForm.tsx:56-64 | the dialog starts with the default values and has made no callbacks |
| ToolChangeForm.ToolChangeDialog.HandleSubmit | src/components/ToolChangeForm.tsx:66-80 | submitting hands the record to the parent, then resets the values to the defaults, then asks to be closed |
| ToolChangeList.FilterChanges | src/components/ToolChangeList.tsx:28-36 | the kept changes are a subsequence of the list holding exactly the changes whose tool number, reason, comment or signature contains the lower-cased query in any case |
| ToolChangeList.SortedChanges | src/components/ToolChangeList.tsx:38-40 | the shown list is a permutation of the kept changes, newest first |
| ToolChangeList.EmptyQueryKeepsAll | src/components/ToolChangeList.tsx:28-36 | an empty query keeps every change in its order |
| ToolChangeList.ShownIffMatches | src/components/ToolChangeList.tsx:28-40 | a change of the list is shown if and only if it matches the query |
| ToolChangePage.AddedChangeIsShownLast | src/pages/ToolChange.tsx:17-41 | appending a change adds it at the end of the shown list exactly when it is for the active machine, and leaves the rest of the shown list as it was |
| ToolChangePage.ShownChanges | src/pages/ToolChange.tsx:39-41 | every shown change is in the list and is for the active machine, every change for it is shown, and the list order is kept |
| ToolChangePage.DialogChangeIsShown | src/pages/ToolChange.tsx:39-48 | a change entered in the page's dialog carries the active machine and so is always shown, after the earlier ones |
| ToolChangePage.ToolChangeView.constructor | src/pages/ToolChange.tsx:14-15 | the page starts with no changes and the dialog closed |
| ToolChangePage.ToolChangeView.HandleAddToolChange | src/pages/ToolChange.tsx:17-19 | a change is appended after the earlier ones, which are untouched |
| ToolChangePage.ToolChangeView.SetShowDialog | src/pages/ToolChange.tsx:30-48 | opening or closing the dialog changes only whether it is shown, never the list |
| ToolCompensationForm.FormSchemaRules | src/components/ToolCompensationForm.tsx:31-47 | the schema holds if and only if the direction is X, Y, Z, R or L, the value is an optional sign, digits, an optional point and at least one digit, the signature is Fredrik, Joel or Per, and at least one of coordinate system, tool and number is non-empty; the defaults are refused |
| ToolCompensationForm.CompensationOf | src/components/ToolCompensationForm.tsx:75-87 | each location field is absent if and only if it was missing or empty and is otherwise the entered text; the comment is the entered one or ""; the value is the entered one; the record carries the dialog's machine, the direction, the signature, the id and timestamp, and no order |
| ToolCompensationForm.ToolCompensationDialog.constructor | src/components/ToolCompensationForm.tsx:62-73 | the dialog starts with the default values and has made no callbacks |
| ToolCompensationForm.ToolCompensationDialog.HandleSubmit | src/components/ToolCompensationForm.tsx:75-92 | submitting hands the record to the parent, then resets the values to the defaults, then asks to be closed |
| ToolCompensationList.FilterCompensations | src/components/ToolCompensationList.tsx:29-40 | the kept entries are a subsequence of the list holding exactly those where one of the seven searched fields contains the lower-cased query; an absent optional field never matches |
| ToolCompensationList.SortedCompensations | src/components/ToolCompensationList.tsx:42-44 | the shown list is a permutation of the kept entries, newest first |
| ToolCompensationList.EmptyQueryKeepsAll | src/components/ToolCompensationList.tsx:29-40 | an empty query keeps every entry in its order |
| ToolCompensationList.OrderNotSearched | src/components/ToolCompensationList.tsx:31-39 | the manufacturing order plays no part in whether an entry matches |
| ToolCompensationList.ShownIffMatches | src/components/ToolCompensationList.tsx:29-44 | an entry of the list is shown if and only if it matches the query |
| ToolCompensationTable.Normalise | src/components/ToolCompensationTable.tsx:19 | a cell is trimmed, with no white space left at either end, and a missing cell is "" |
| ToolCompensationTable.DropTrailingColon | src/components/ToolCompensationTable.tsx:71 | the label loses exactly one trailing colon when it has one and is otherwise unchanged |
| ToolCompensationTable.MetadataItem | src/components/ToolCompensationTable.tsx:70-73 | the label is the trimmed first cell without its trailing colon, the value the other cells joined by a space and trimmed |
| ToolCompensationTable.MetadataItems | src/components/ToolCompensationTable.tsx:69-74 | no more items than rows, every item has a label or a value, and every row whose item has a label or a value contributes that item |
| ToolCompensationTable.ToolOf | src/components/ToolCompensationTable.tsx:77-92 | a row is a tool if and only if its trimmed location or name is non-empty, and the tool is its three trimmed cells |
| ToolCompensationTable.ToolRows | src/components/ToolCompensationTable.tsx:76-94 | no more tools than data rows; every tool has a location or a name and is the tool of some data row; every data row with a location or a name contributes its tool |
| ToolCompensationTable.ToolRowsSingle | src/components/ToolCompensationTable.tsx:76-94 | one data row yields exactly its tool, or nothing when its location and name are blank |
| ToolCompensationTable.ToolRowsSuffix | src/components/ToolCompensationTable.tsx:67-94 | every row after a given position with a location or a name has its tool among the tools read from the rows after that position |
| ToolCompensationTable.MetadataItemsPrefix | src/components/ToolCompensationTable.tsx:66-74 | every row before a given position whose item has a label or a value has that item among the items read from the rows before that position |
| ToolCompensationTable.CompensationAloneIsDropped | src/components/ToolCompensationTable.tsx:84-86 | a row whose location and name cells are blank (white space only) is dropped wherever it stands among the data rows, whatever its compensation cell holds |
| ToolCompensationTable.NoHeaderAllTools | src/components/ToolCompensationTable.tsx:60-67 | without a `Plats/koord` header there is no metadata and the tools are read from all non-blank rows, so every one of them with a location or a name becomes a tool |
| ToolCompensationTable.LoadSheet | src/components/ToolCompensationTable.tsx:60-94 | every metadata item has a label or a value, every tool a location or a name, together there are no more of them than parsed rows, and without a header there is no metadata; every non-blank row after the first header (every non-blank row when there is none) with a location or a name becomes a tool, and every non-blank row before the header with a label or a value becomes a metadata item |
| ToolCompensationTable.LoadSheetPartitions | src/components/ToolCompensationTable.tsx:60-94 | with a header, the metadata comes from the non-blank rows before the first header and the tools from those after it |
| ToolCompensationTable.BackendBase | src/components/ToolCompensationTable.tsx:31 | the base is "" without a backend URL; a URL ending in "/" loses exactly that one slash, and any other URL is kept as it is |
| ToolCompensationTable.ResolvedSource | src/components/ToolCompensationTable.tsx:30-39 | absolute and protocol-relative sources are used as they are, root-relative ones are put under the backend base, and any other source is used as it is |
| ToolCompensationTable.NoDoubleSlash | src/components/ToolCompensationTable.tsx:31-36 | a backend URL ending in a slash and a root-relative source meet in one slash |
| ToolCompensationTable.FilterRows | src/components/ToolCompensationTable.tsx:120-132 | a blank search shows all tools; otherwise a tool is shown if and only if its three columns joined by a space contain the trimmed, lower-cased query in any case, and the shown tools keep their order |
| ToolCompensationTable.ToolCompensationTableView.constructor | src/components/ToolCompensationTable.tsx:24-28 | the view starts with no metadata, no tools, an empty search, no error and loading |
| ToolCompensationTable.ToolCompensationTableView.Load | src/components/ToolCompensationTable.tsx:44-111 | a parsed file replaces metadata and tools with the loaded sheet and clears the error; a failed fetch keeps both lists and shows the HTTP status or the thrown message; loading ends either way and the search is kept |
| ToolCompensationTable.ToolCompensationTableView.ShowSheet | src/components/ToolCompensationTable.tsx:100-101 | both lists are replaced, no error is shown and loading is over |
| ToolCompensationTable.ToolCompensationTableView.ShowError | src/components/ToolCompensationTable.tsx:102-110 | the lists are kept, the message is shown and loading is over |
| ToolCompensationTable.ToolCompensationTableView.SetSearchTerm | src/components/ToolCompensationTable.tsx:26 | only the search term changes |
| ToolCompensationTable.ToolCompensationTableView.FilteredRows | src/components/ToolCompensationTable.tsx:120-132 | the shown tools are a subsequence of the loaded tools |

## Left out

- Socket connect, send and receive, the timeout and refused-connection exceptions, and the `datetime.now()` timestamp in backend/app.py: network I/O and the clock. The way the exchange ended is an input to `Modbus.ReadAdamBoxValue`, and the timestamp is not part of the result.
- Modbus.EncodeRequest: the unit and register are typed as a byte and a 16-bit word, so the `struct.error` that `struct.pack` raises for out-of-range arguments is not modelled; the route always passes the defaults.
- backend/api.py, backend/start_api.py and backend/test.py: a second copy of the route, a process launcher and an ODBC polling script. They are not part of this model.
- Database queries and inserts, toasts, `navigate`, `crypto.randomUUID` and `new Date()`: foreign calls and the clock. Their results are inputs, and only the branch taken and what was recorded are modelled.
- `fetch`, `Papa.parse` and the `isActive` guard against stale results in the two CSV table components: I/O, CSV tokenising and async cancellation. Loading starts from the split rows or from the way the fetch failed.
- zod and react-hook-form: each schema is written out as a predicate over the submitted values. Field-level error messages are not modelled.
- Matrixkod.FormSchema and the other schemas' `.min`/`.max` rules: zod and JavaScript count a string's length in UTF-16 code units, while the model counts characters. The two differ only for characters outside the Basic Multilingual Plane, so a six-character date containing one such character fails `|date| == 6` in JavaScript but passes in the model.
- `getProgress` in src/pages/CMM.tsx: a floating-point percentage. The `setInterval` tick takes the current time as a parameter.
- Date formatting in the lists and history views (`Intl.DateTimeFormat`, date-fns). Timestamps are whole milliseconds since the epoch.
- `getMachineStatus` in src/lib/machinestatus.ts, and the request part of `getAdamBoxValue` in src/lib/adambox.ts beyond the no-mapping early return: network calls.
- src/hooks/useModbusValue.ts, src/hooks/useMachines.ts apart from the lookup in `useMachineByNumber`, src/hooks/useTools.ts, src/pages/ToolHistory.tsx, src/pages/AuthPage.tsx, src/components/AdminCreateUserForm.tsx and the layout-only components and pages: random simulation, query wrappers and rendering with no logic of their own.
- Text.ToLower: case mapping covers ASCII and Latin-1 letters only. Other scripts' capitals are left as they are, where JavaScript would lower-case them.
- Text.ToUpper: case mapping covers ASCII and Latin-1 letters only. `µ`, `ÿ` and `ß`, which JavaScript maps outside Latin-1 (`ß` to the two characters "SS"), are left as they are.
- Seqs.SortNewestFirst: the contract states a permutation in descending timestamp order only. It says nothing about the relative order of entries with equal timestamps, which the engine's stable sort keeps as they were.
- Lookups in plain JavaScript objects (`lastOrders[machineId] || ""` at src/hooks/useLastManufacturingOrder.ts:24, `MACHINE_IP_MAPPING[machineId] || null` at src/lib/adambox.ts:58, `STOP_CODES[code] || null` at src/lib/stopcodes.ts:23) also find keys inherited from `Object.prototype`, such as "constructor" or "toString". The model's maps hold only their own keys, so for such a key it gives the empty or missing result where JavaScript would give the inherited value.
- Admin.Before: the default `sort()` in src/pages/Admin.tsx:56 compares UTF-16 code units, while `Admin.Before` compares whole characters. The two orders differ only for characters outside the Basic Multilingual Plane.
- Each page's last-order store lives as long as the page: navigating away after a save drops it, so the order stored by `HandleSubmit` and `HandleStep2Submit` is never read back. The model keeps the store as a field of the page and does not model the unmount.
- Seqs.FilterMap: states that every result comes from an input, that every present value is among the results, and that results keep input order (through `Seqs.FilterMapAppend`); the exact result for a whole table follows row by row from `CompensationTable.CleanRowsSingle` and `Seqs.FilterMapAppend`.
- MachineFromUrl.NotFoundPairExample and MachineFromUrl.NotFoundTripleExample state only that the multi-machine examples are valid; the machines they produce follow from `MachineFromUrl.ResolveFound`.
