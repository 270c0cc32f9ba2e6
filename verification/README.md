# InnoHacks 2.0 portal — a Dafny model

This project models the logic of the InnoHacks 2.0 hackathon web app, a React single-page
site, as immutable Dafny datatypes and pure functions, and proves properties of them.

**The embedded terminal.** The main part is the terminal in the navigation bar. It has:

- a session in a context provider: open and minimised flags, the scrollback of typed lines, and the command history;
- a per-mount view: the input line and a history cursor, `-1` while typing live;
- `handleCommand`, which trims the input, records it, echoes it after the prompt and dispatches case-insensitively over seven commands;
- `handleKeyDown`, which recalls history with the arrow keys;
- the welcome banner, shown only when the scrollback is empty.

The host module replays the navigation bar's mounting rule. The widget exists only while the terminal is open, and it is remounted when it is minimised or maximised. The module turns the widget's requests, closing and the deferred close-and-navigate of `register`, into explicit effects.

**Portal pages.** Around the terminal are the pages' list rules:

- the case-insensitive search filters of the mentor, participant, resource and problem-statement pages;
- the leaderboard's track filter and stable comparator sort;
- the team page's create, join, leave, invite and remove actions, with leader protection and the four-member invite gate;
- the submission page's file list, upload progress and version numbering;
- the profile page's field edits, notification switches and name-only save.

**Authentication.** The mock provider signs in, signs up, signs out and updates the profile over an abstract key/value storage, and restores the session on mount. The route guard decides between the loader, the redirect to the login page and the protected page.

**Modules.** One module per source file, plus three shared ones:

- `Results`: `Option` and `Result`.
- `Text`:
  - JavaScript's `trim` with its whitespace set;
  - an ASCII `toLowerCase`;
  - `includes`;
  - `split('@')[0]`;
  - decimal rendering, with its inverse.
- `Seqs`: `filter`, the subsequence order, and a stable insertion sort.

Scores and ratings are integer tenths. The clock, and the formatted date strings, are parameters.

## Model

| member | source | states |
|---|---|---|
| Text.Trim | src/components/Terminal.jsx:39-40 | The result is the slice of the input left after removing white space at both ends: it is empty exactly when the input is all white space, and otherwise neither starts nor ends with white space |
| Text.TrimIdempotent | src/components/Terminal.jsx:39 | Trimming a trimmed command changes nothing |
| Text.Lower | src/components/Terminal.jsx:46 | Lower-casing keeps the length and maps each character, leaving no upper-case ASCII letter |
| Text.LowerIdempotent | src/components/Terminal.jsx:46 | Lower-casing twice equals lower-casing once |
| Text.Includes | src/pages/portal/MentorBooking.jsx:105-106 | The recursive scan answers true exactly when the query occurs at some offset of the text |
| Text.EmptyQueryMatches | src/pages/portal/Resources.jsx:27-28 | The empty search string is contained in every text, so an empty search filters nothing |
| Text.BeforeFirst | src/context/AuthContext.jsx:35 | The result is a prefix without `@`, followed in the input by `@` unless it is the whole input |
| Text.Decimal | src/pages/portal/Submission.jsx:59 | A number renders as a non-empty string of decimal digits |
| Text.DecimalRoundTrip | src/pages/portal/Submission.jsx:59 | Reading a rendered number back gives the number |
| Text.DecimalInjective | src/context/AuthContext.jsx:43 | Distinct numbers render as distinct strings |
| Seqs.FilterSpec | src/pages/portal/Leaderboard.jsx:38 | The filter result is an order-preserving subsequence holding exactly the passing elements, each as often as in the input |
| Seqs.FilterKeepsAll | src/pages/portal/Networking.jsx:25-31 | The filter returns its input unchanged exactly when every element passes |
| Seqs.FilterShrinks | src/pages/portal/TeamManagement.jsx:63 | One failing element makes the result strictly shorter |
| Seqs.StableSort | src/pages/portal/Leaderboard.jsx:40-44 | The sorted copy is a permutation of its input, ordered by ascending key |
| Seqs.StableSortStable | src/pages/portal/Leaderboard.jsx:40-44 | Elements with equal keys keep their relative order |
| Seqs.StableSortOfSorted | src/pages/portal/Leaderboard.jsx:40 | Sorting an already sorted list returns it unchanged |
| TerminalContext.Toggle | src/context/TerminalContext.jsx:19 | Toggling flips the open flag and changes nothing else |
| TerminalContext.Open | src/context/TerminalContext.jsx:21 | Opening sets the open flag and keeps the minimised flag, scrollback and history |
| TerminalContext.Close | src/context/TerminalContext.jsx:20 | Closing clears the open flag and keeps the minimised flag, scrollback and history |
| TerminalContext.Minimize | src/context/TerminalContext.jsx:22 | Minimising sets the minimised flag whether or not the terminal is open, and changes nothing else |
| TerminalContext.Maximize | src/context/TerminalContext.jsx:23 | Maximising clears the minimised flag, and changes nothing else |
| TerminalContext.ToggleIsOpenOrClose | src/context/TerminalContext.jsx:19-21 | Toggling is closing an open terminal and opening a closed one; toggling twice is the identity |
| TerminalContext.SettersIdempotent | src/context/TerminalContext.jsx:20-23 | Open, close, minimise and maximise are each idempotent |
| TerminalContext.ReopenRestores | src/context/TerminalContext.jsx:14-21 | Closing then reopening an open terminal restores the session exactly |
| TerminalContext.UseTerminal | src/context/TerminalContext.jsx:5-11 | The hook returns the provider's value, or fails with the provider error outside one |
| Terminal.Name | src/components/Terminal.jsx:48-93 | Every known command has a name among the seven command words |
| Terminal.Parse | src/components/Terminal.jsx:48-96 | The dispatch is unknown exactly for words outside the seven; otherwise the command's name is the word |
| Terminal.ParseName | src/components/Terminal.jsx:48-93 | Each command's name dispatches back to that command |
| Terminal.Submit | src/components/Terminal.jsx:38-100 | Blank input changes nothing. Otherwise the trimmed text joins the history and the view resets. `clear` empties the scrollback. Any other command appends its echo then its reply and yields its effects. The flags never change |
| Terminal.BlankSubmitIsNoOp | src/components/Terminal.jsx:39-40 | Enter on all-white-space input leaves session, history, cursor and input as they were |
| Terminal.UnknownCommand | src/components/Terminal.jsx:42-45 | An unknown command adds exactly the echo and an error line quoting the command as typed, and records it in the history |
| Terminal.CaseInsensitiveDispatch | src/components/Terminal.jsx:45-48 | Two inputs equal up to case run the same command, with the same effects; only the echo keeps each input's own casing |
| Terminal.KnownCommandOutput | src/components/Terminal.jsx:49-93 | `help`, `about`, `tracks`, `whoami` and `register` append one line of kind success, info, info, info and warning. `exit` appends only the echo and closes. `register` requests one deferred close-and-navigate |
| Terminal.ClearWipesEverything | src/components/Terminal.jsx:84-87 | `clear` leaves no scrollback line, not even its echo, empties the input and is still recorded in the history |
| Terminal.RecallPrevious | src/components/Terminal.jsx:105-111 | ArrowUp does nothing on an empty history. It moves a live cursor to the newest entry and any other cursor one step older, stopping at 0. The input shows the entry under the cursor |
| Terminal.RecallNext | src/components/Terminal.jsx:112-124 | ArrowDown does nothing while live. It steps to the next newer entry, or past the newest back to a live, empty line |
| Terminal.DownUndoesUp | src/components/Terminal.jsx:105-124 | ArrowDown after ArrowUp returns to the entry under the cursor, when the cursor was past the oldest entry |
| Terminal.UpThenDownFromLive | src/components/Terminal.jsx:105-124 | From live typing, ArrowUp then ArrowDown returns to an empty live line |
| Terminal.RecallWalk | src/components/Terminal.jsx:105-124 | The up-up-down-down walk through a three-entry history shows the expected entries |
| Terminal.KeyDown | src/components/Terminal.jsx:102-125 | Every key keeps the cursor live or inside the history; arrow and other keys never touch the session; the history only grows |
| Terminal.Mount | src/components/Terminal.jsx:28-36 | A mount starts a fresh input line and adds the welcome banner exactly when the scrollback is empty |
| TerminalHost.Render | src/components/Navbar.jsx:189-231 | An open terminal gets a freshly mounted widget, so the banner rule runs again: an empty scrollback becomes the banner, any other stays as it is; a closed one has no widget |
| TerminalHost.Apply | src/components/Terminal.jsx:79-82 | Carrying out effects keeps the invariant, never touches history or scrollback, and queues exactly the deferred effects, in order, after the timers already pending |
| TerminalHost.Next | src/components/Navbar.jsx:189-231 | Every event keeps the invariant and never shrinks the history; only Enter can change the session's history |
| TerminalHost.Run | src/components/Terminal.jsx:38-125 | Over any run of events, the invariant holds and the history grows as a prefix |
| TerminalHost.ReachableCursorOk | src/components/Terminal.jsx:105-124 | In every reachable state the cursor is live or indexes the history |
| TerminalHost.ReopenDoesNotReseed | src/context/TerminalContext.jsx:16-21 | Reopening after activity keeps scrollback and history, so the banner is not shown again |
| TerminalHost.FirstOpenSeeds | src/components/Terminal.jsx:28-36 | The first opening shows exactly the two banner lines |
| TerminalHost.MinimizeAfterClearReseeds | src/components/Terminal.jsx:28-36 | After `clear`, minimising remounts the widget on an empty scrollback and the banner appears again |
| TerminalHost.RegisterStartsOneTimer | src/components/Terminal.jsx:77-83 | `register` leaves the terminal open and queues exactly one 1000 ms close-and-navigate to `/register` |
| TerminalHost.PressEnter | src/components/Terminal.jsx:103-104 | Enter submits the input line, then the effects are carried out |
| TerminalHost.ApplyOne | src/components/Terminal.jsx:79-82 | A close effect closes at once and drops the widget; a deferred effect is only queued |
| TerminalHost.ExitCloses | src/components/Terminal.jsx:91-93 | `exit` closes the terminal at once; only its echo is added to the scrollback |
| TerminalHost.TimerClosesAndNavigates | src/components/Terminal.jsx:79-82 | The timer, when it fires, closes the terminal and navigates to `/register` |
| MentorBooking.FilteredMentorsSpec | src/pages/portal/MentorBooking.jsx:104-109 | A mentor is shown iff the name or a tag contains the query ignoring case and the selected tag is `all` or one of theirs; the list keeps directory order |
| MentorBooking.NoFilterShowsAll | src/pages/portal/MentorBooking.jsx:104-108 | No query and `all` show the whole directory |
| MentorBooking.AreasAllStaffed | src/pages/portal/MentorBooking.jsx:27-102 | Every area in the menu other than `all` is carried by some mentor of the directory |
| MentorBooking.OneBusyMentor | src/pages/portal/MentorBooking.jsx:29-102 | Exactly one directory mentor, Priya Sharma, has a disabled book button |
| MentorBooking.ExpertiseFilterIsCaseSensitive | src/pages/portal/MentorBooking.jsx:107 | The tag filter is exact: `ai/ml` finds an `AI/ML` mentor by search but not by tag |
| MentorBooking.BookButton | src/pages/portal/MentorBooking.jsx:216-219 | The book button is disabled, and reads Unavailable, exactly when the mentor is busy |
| MentorBooking.ClickBook | src/pages/portal/MentorBooking.jsx:212-218 | Clicking an enabled button records the mentor and opens that card's dialog; a disabled one does nothing |
| MentorBooking.ConfirmBooking | src/pages/portal/MentorBooking.jsx:111-114 | Confirming clears the recorded mentor, leaves the dialog open and announces the booking by name |
| MentorBooking.CloseDialog | src/pages/portal/MentorBooking.jsx:212 | Closing the dialog (its close button, Escape or a click outside) clears it; nothing else changes |
| MentorBooking.ConfirmKeepsDialogOpen | src/pages/portal/MentorBooking.jsx:212-273 | Booking then confirming leaves the dialog showing that mentor; closing it takes a separate step |
| MentorBooking.Step | src/pages/portal/MentorBooking.jsx:212-273 | Every action keeps open dialogs and recorded mentors to available ones, confirming books the mentor of the open dialog, and while a dialog shows the page behind it takes no input |
| MentorBooking.Run | src/pages/portal/MentorBooking.jsx:212-273 | Over any run of actions, every booked mentor is available |
| MentorBooking.NeverBooksBusyMentor | src/pages/portal/MentorBooking.jsx:214-218 | From the initial page, no sequence of clicks books a busy mentor, whatever the directory |
| Networking.StrLessTotal | src/pages/portal/Networking.jsx:23 | Two different strings are ordered exactly one way |
| Networking.StrLessTransitive | src/pages/portal/Networking.jsx:23 | The string order is transitive |
| Networking.InsertUnique | src/pages/portal/Networking.jsx:23 | Inserting into a strictly sorted list keeps it strictly sorted and adds exactly that string |
| Networking.AllSkillsListedSpec | src/pages/portal/Networking.jsx:23 | The flattened list holds exactly the skills some participant lists |
| Networking.SortedUnique | src/pages/portal/Networking.jsx:23 | Deduplicating and sorting gives a strictly sorted list with the same members |
| Networking.AllSkills | src/pages/portal/Networking.jsx:23 | The skill options are strictly sorted, free of repeats, and exactly the skills some participant has |
| Networking.FilteredParticipantsSpec | src/pages/portal/Networking.jsx:25-31 | A participant is shown iff name or college contains the query ignoring case, the skill filter is `all` or theirs, and the status filter is `all` or theirs; order is kept |
| Networking.ClearedFiltersShowAll | src/pages/portal/Networking.jsx:25-31 | Cleared filters show every participant |
| Networking.ClearFilters | src/pages/portal/Networking.jsx:168 | Clear Filters resets query, skill and status |
| Networking.SkillChips | src/pages/portal/Networking.jsx:126-135 | A card shows the first min(3, n) skills, and a `+(n-3)` chip exactly when n > 3 |
| Networking.InviteToast | src/pages/portal/Networking.jsx:33-35 | Inviting announces the participant's name after the fixed prefix |
| Networking.CardAction | src/pages/portal/Networking.jsx:148-159 | Invite shows exactly for `looking`, Joined exactly for `team`, never both |
| Resources.CategoryIcon | src/pages/portal/Resources.jsx:15-23 | The four named categories have their own icons; every other category, `Dev Tools` included, gets the book |
| Resources.CategoryButtonsIcons | src/pages/portal/Resources.jsx:13-23 | Of the offered categories after `All`, only `Dev Tools` lacks an icon of its own |
| Resources.FilteredResourcesSpec | src/pages/portal/Resources.jsx:25-30 | A resource is shown iff the category matches or is `All` and the title or description contains the query ignoring case; order is kept |
| Resources.NoFiltersShowAll | src/pages/portal/Resources.jsx:25-30 | `All` and an empty query show the whole library |
| Resources.ShowsEmptyState | src/pages/portal/Resources.jsx:123-126 | The empty state shows exactly when no resource matches |
| Resources.ClearFilters | src/pages/portal/Resources.jsx:126-127 | Clear Filters resets to `All` and the empty query |
| Leaderboard.FixtureTracksOffered | src/pages/portal/Leaderboard.jsx:21-34 | Every row's track is one the track menu offers |
| Leaderboard.OpenInnovationIsEmpty | src/pages/portal/Leaderboard.jsx:21-38 | Choosing the menu's `Open Innovation` track empties the table |
| Leaderboard.FilteredData | src/pages/portal/Leaderboard.jsx:36-38 | `all` keeps every row; any other track keeps exactly its rows, each as often as it occurs, in order |
| Leaderboard.SortedDataSpec | src/pages/portal/Leaderboard.jsx:40-44 | The table is a permutation of the filtered rows: by descending score, descending submissions or ascending rank, with ties kept in order |
| Leaderboard.FixtureInScoreOrder | src/pages/portal/Leaderboard.jsx:21-32 | Sorting the whole fixture by score leaves it in its own order |
| Leaderboard.GetRankIcon | src/pages/portal/Leaderboard.jsx:46-51 | Ranks 1, 2 and 3 get their icons; every other rank is shown as its number |
| Leaderboard.GetTrendIcon | src/pages/portal/Leaderboard.jsx:53-57 | `up` and `down` get arrows, everything else the flat mark |
| Leaderboard.View | src/pages/portal/Leaderboard.jsx:84-118 | The podium is the first three fixture rows; the table is a permutation of the filtered rows |
| Leaderboard.PodiumIgnoresFilters | src/pages/portal/Leaderboard.jsx:84-118 | The podium is the same for every filter and sort, with Code Warriors, Tech Titans and Innovators |
| ProblemStatements.FilteredProblems | src/pages/portal/ProblemStatements.jsx:89-91 | `all` keeps every problem; another track keeps exactly its problems, each as often as it occurs, in order |
| ProblemStatements.OpenTrackIsEmpty | src/pages/portal/ProblemStatements.jsx:22-87 | The menu's last track is `open` (Open Innovation), and no problem of the fixture is on it |
| ProblemStatements.Select | src/pages/portal/ProblemStatements.jsx:93-96 | Selecting remembers the problem, keeps the track and announces the title |
| ProblemStatements.ChangeSelection | src/pages/portal/ProblemStatements.jsx:137 | Change forgets the selection and keeps the track |
| ProblemStatements.ChooseTrack | src/pages/portal/ProblemStatements.jsx:157 | Choosing a track never changes the selection |
| ProblemStatements.SelectDisabled | src/pages/portal/ProblemStatements.jsx:211-212 | A select button is disabled exactly when its problem has the selected id |
| ProblemStatements.SelectDisablesOnlyItself | src/pages/portal/ProblemStatements.jsx:93-96 | After selecting a problem, exactly the buttons with its id are disabled |
| ProblemStatements.DifficultyColor | src/pages/portal/ProblemStatements.jsx:98-105 | Medium and Hard get their classes; every other value gets the Easy class |
| TeamManagement.CreateTeam | src/pages/portal/TeamManagement.jsx:36-43 | A name that is not blank after trimming creates the team under the untrimmed name, keeping the members, the invite code, the copied tick and the typed address; a blank one changes nothing |
| TeamManagement.CreateLeaveCreate | src/pages/portal/TeamManagement.jsx:36-72 | Creating, leaving and creating again under the same typed name returns the same page and toast |
| TeamManagement.JoinTeam | src/pages/portal/TeamManagement.jsx:148-153 | Joining sets the team flag without reading any code; the team, the typed name, the invite code, the copied tick and the typed address stay |
| TeamManagement.CopyCode | src/pages/portal/TeamManagement.jsx:45-50 | Copying raises the copied tick and asks for a 2000 ms reset; the team flag, team, code, typed name and typed address stay |
| TeamManagement.CopyTimerFired | src/pages/portal/TeamManagement.jsx:49 | The reset lowers the tick; the team flag, team, code, typed name and typed address stay |
| TeamManagement.CopyThenTimer | src/pages/portal/TeamManagement.jsx:45-50 | Copy followed by the reset leaves the page as before, tick lowered |
| TeamManagement.ValidEmailNotBlank | src/pages/portal/TeamManagement.jsx:52-58 | An address the browser accepts is never blank after trimming, so the handler's own check always passes |
| TeamManagement.WellFormedAddressAccepted | src/pages/portal/TeamManagement.jsx:287-291 | A well-formed address passes the email input's check |
| TeamManagement.MalformedAddressRefused | src/pages/portal/TeamManagement.jsx:287-291 | An address without `@`, and the empty field, fail the email input's check |
| TeamManagement.InviteMember | src/pages/portal/TeamManagement.jsx:52-58 | A valid address is announced as typed and the field cleared; an empty or malformed one is refused by the browser and changes nothing; members never change |
| TeamManagement.InviteTwiceSendsOnce | src/pages/portal/TeamManagement.jsx:52-58 | Submitting twice sends at most one invitation, since the cleared field is refused |
| TeamManagement.RemoveMember | src/pages/portal/TeamManagement.jsx:60-66 | Removing never adds members and touches only the member list: the team name and flag, code, copied tick, typed name and typed address stay |
| TeamManagement.RemoveMemberSpec | src/pages/portal/TeamManagement.jsx:60-66 | Exactly the members with that id go; the rest stay, in order and with their multiplicity |
| TeamManagement.LeaveTeam | src/pages/portal/TeamManagement.jsx:68-72 | Leaving clears the flag and the typed name; the team record, code, copied tick and typed address stay |
| TeamManagement.LeaveThenJoin | src/pages/portal/TeamManagement.jsx:68-72 | Leaving then joining returns to the same team with the same members |
| TeamManagement.LeaderNeverRemoved | src/pages/portal/TeamManagement.jsx:261-268 | With unique ids, removing through a member's remove control keeps every leader |
| TeamManagement.SeedTeamIdsUnique | src/pages/portal/TeamManagement.jsx:27-34 | The seed team's ids are unique |
| TeamManagement.RemovalReopensInvites | src/pages/portal/TeamManagement.jsx:275 | Removing a member of a full team shows the invite form again |
| TeamManagement.FilterKeepsUniqueIds | src/pages/portal/TeamManagement.jsx:60-66 | Removal keeps member ids unique |
| TeamManagement.Step | src/pages/portal/TeamManagement.jsx:36-299 | No action the page offers adds a member |
| TeamManagement.Run | src/pages/portal/TeamManagement.jsx:36-299 | Every run of actions keeps the team under four members, with unique ids and the leader on it |
| TeamManagement.InviteFormAlwaysShown | src/pages/portal/TeamManagement.jsx:275 | From the initial page, whatever the user does, the invite form shows and the leader stays |
| Submission.VersionLabelInjective | src/pages/portal/Submission.jsx:59 | Different minor numbers give different version labels |
| Submission.AddFiles | src/pages/portal/Submission.jsx:38-41 | New files follow the existing list, both in order |
| Submission.RemoveFile | src/pages/portal/Submission.jsx:43-45 | Exactly the file at the index goes, the rest keep their order; an index outside the list changes nothing |
| Submission.StartSubmit | src/pages/portal/Submission.jsx:47-49 | Submitting starts exactly when nothing is running and the required fields are filled, and then captures the form as it is; a refused press changes nothing |
| Submission.ProgressSteps | src/pages/portal/Submission.jsx:52-55 | Progress takes the values 0, 10, …, 100 in order |
| Submission.NewEntry | src/pages/portal/Submission.jsx:57-63 | With n entries, the new one has id n+1 and version `v1.n` |
| Submission.FinishSubmit | src/pages/portal/Submission.jsx:57-68 | The new entry, named from the form captured at submit time, goes on top; the older entries follow unchanged, and progress and the running flag reset |
| Submission.SubmitRun | src/pages/portal/Submission.jsx:47-68 | A second press during the upload is refused, edits made meanwhile do not reach the entry, and exactly one entry is added with the name from the moment of submitting |
| Submission.SeedWellNumbered | src/pages/portal/Submission.jsx:28-36 | The seed history is numbered from the bottom |
| Submission.FinishSubmitKeepsNumbering | src/pages/portal/Submission.jsx:57-65 | Each submission keeps the history numbered from the bottom |
| Submission.WellNumberedDistinct | src/pages/portal/Submission.jsx:57-65 | In such a history no two entries share an id or a version |
| Submission.FirstSubmissionAfterSeed | src/pages/portal/Submission.jsx:28-65 | The first new submission is id 2, `v1.1`, under the submitted name |
| AuthContext.Initial | src/context/AuthContext.jsx:15-17 | The provider starts signed out and loading |
| AuthContext.Restore | src/context/AuthContext.jsx:19-27 | On mount the session is signed in with the stored user exactly when both keys hold truthy values; loading ends |
| AuthContext.Mount | src/context/AuthContext.jsx:19-27 | Mounting ends loading and keeps storage as it was |
| AuthContext.Token | src/context/AuthContext.jsx:43 | The token is the fixed prefix followed by the clock's digits |
| AuthContext.TokenInjective | src/context/AuthContext.jsx:43 | Different instants give different tokens |
| AuthContext.SignIn | src/context/AuthContext.jsx:45-49 | Signing in stores the user and the token and sets the user |
| AuthContext.Login | src/context/AuthContext.jsx:29-56 | Login signs in, whatever the password, exactly the mock user: id `1`, the email, the text before the first `@` as name, `Tech University`, the avatar URL seeded by the email, `participant`, no team and the current ISO time; both keys are stored and loading is untouched |
| AuthContext.Signup | src/context/AuthContext.jsx:58-84 | Signup signs in exactly the mock user with the given name, email and college: id `1`, the avatar URL seeded by the email, `participant`, no team and the current ISO time; both keys are stored and loading is untouched |
| AuthContext.Logout | src/context/AuthContext.jsx:86-92 | Logout removes both keys, keeps every other key, signs out and leaves the loading flag alone |
| AuthContext.UpdateProfile | src/context/AuthContext.jsx:94-99 | The updates overwrite their fields, all other fields stay, no field appears from nowhere, and the result is stored; signed-in and loading flags stay |
| AuthContext.MountPersisted | src/context/AuthContext.jsx:19-27 | A freshly mounted provider agrees with what a reload would restore |
| AuthContext.LoginSurvivesReload | src/context/AuthContext.jsx:19-49 | A reload after login restores the same user, signed in |
| AuthContext.SignupSurvivesReload | src/context/AuthContext.jsx:19-27 | A reload after signup restores the same user, signed in |
| AuthContext.LogoutSurvivesReload | src/context/AuthContext.jsx:86-92 | A reload after logout restores nobody |
| AuthContext.UpdateProfileKeepsPersisted | src/context/AuthContext.jsx:94-99 | While signed in, a reload after an update restores the updated user |
| AuthContext.UseAuth | src/context/AuthContext.jsx:6-12 | The hook returns the provider, or fails with its message outside one |
| ProtectedRoute.Guard | src/components/ProtectedRoute.jsx:6-32 | Loading shows the loader; otherwise signed out redirects to `/login`, replacing history, and signed in renders the page; exactly one applies |
| ProtectedRoute.LoaderBeforeRestore | src/components/ProtectedRoute.jsx:9-25 | Before the session is restored the loader shows, so nothing redirects early |
| ProtectedRoute.ReloadAfterLoginRendersPage | src/components/ProtectedRoute.jsx:27-31 | After login and a reload the page renders |
| ProtectedRoute.ReloadAfterLogoutRedirects | src/components/ProtectedRoute.jsx:27-29 | After logout and a reload the guard redirects |
| ProtectedRoute.FirstVisitRedirects | src/components/ProtectedRoute.jsx:27-29 | Empty storage ends in the redirect |
| ProfileSettings.HandleChange | src/pages/portal/ProfileSettings.jsx:41-44 | Only the named field takes the typed value; the email, whose input is disabled (line 139), is never edited |
| ProfileSettings.HandleChangeLaws | src/pages/portal/ProfileSettings.jsx:41-44 | Retyping a field's value changes nothing; the last edit of a field wins |
| ProfileSettings.UserText | src/pages/portal/ProfileSettings.jsx:22-25 | A present, non-empty string field of the user, else the fallback |
| ProfileSettings.InitialProfile | src/pages/portal/ProfileSettings.jsx:21-31 | Name, email and college come from the user with their fallbacks; phone, branch, year, GitHub, LinkedIn and bio start at their fixed literals |
| ProfileSettings.InitialProfileAfterLogin | src/pages/portal/ProfileSettings.jsx:21-31 | After login the form starts with the login's name, email and college |
| ProfileSettings.Save | src/pages/portal/ProfileSettings.jsx:46-51 | Saving sets the user's name to the form's and does not change whether one is signed in |
| ProfileSettings.SaveChangesOnlyName | src/pages/portal/ProfileSettings.jsx:49 | Saving changes only the name; every other user field stays |
| ProfileSettings.SaveKeepsPersisted | src/pages/portal/ProfileSettings.jsx:46-51 | While signed in, a saved name survives a reload |
| ProfileSettings.ToggleNotification | src/pages/portal/ProfileSettings.jsx:53-56 | Only the chosen switch flips, an unset one turning on |
| ProfileSettings.ToggleTwiceRestores | src/pages/portal/ProfileSettings.jsx:53-56 | Flipping a switch twice restores every switch |
| ProfileSettings.InitialNotificationsOnExceptMarketing | src/pages/portal/ProfileSettings.jsx:33-39 | Every switch starts on except marketing mail |

## Left out

- Rendering, styling, animation, scrolling and focus are not modelled. They do not change state.
- The three timer delays (the upload pause, the save pause and the register delay) are not timed. The register delay and the copy-tick reset are requests the host carries out. The upload is the list of progress values. Saving is one step, without the `isSaving` spinner.
- The clipboard write, the browser clock, `toISOString` and `toLocaleString` are not modelled. Each becomes a parameter or is dropped.
- Text.Lower: lower-cases ASCII letters only. Other letters that JavaScript's `toLowerCase` maps, such as accented capitals or the Kelvin sign, are left as they are.
- Networking.StrLess: compares code points. JavaScript's default sort compares UTF-16 code units, and the two orders differ only above U+FFFF.
- AuthContext.Restore: stored user text this provider did not write is reported as an error rather than parsed. JSON parsing of foreign text is not modelled. Text written by the provider is treated as an exact round trip of the record.
- AuthContext.Login and AuthContext.Signup: the catch branch (a storage write failing) is not modelled. It would need a failing storage model.
- AuthContext.UpdateProfileKeepsPersisted: proved only while signed in, which is when the profile page is reachable behind the route guard.
- ProblemStatements.DifficultyColor: a difficulty naming a built-in object property, such as `constructor`, would look up the prototype in the source. The model gives such values the Easy class.
- Submission.StartSubmit: models the browser's `required` check as non-empty text. The URL fields are plain text inputs, so the browser checks only that they are filled.
- The submission form's per-field `onChange` setters are plain field updates. Submission.EditForm stands for any run of them.
- TeamManagement.TypeInviteEmail: keeps the typed text as is. The browser's removal of line breaks and surrounding ASCII white space from an email input's value is not modelled.
- The booking dialog's date and time buttons and its topic input have no handlers in the source and are not modelled.
- The file sizes shown in megabytes are floating-point display only and are not modelled.
- The participant directory and the resource library come from fixture modules that are not part of this model. Their lemmas hold for any list.
- The navigation bar's menus and routing, the theme provider, the certificate page, the registration pages and the static public pages are not part of this model.
