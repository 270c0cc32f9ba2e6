TestResult.DisplayName,TestResult.Outcome,TestResult.Duration,TestResult.ResourceCount,RandomSeed
TerminalHost.MinimizeAfterClearReseeds (correctness),Failed,00:00:00.8245294,2511479,0
Terminal.KnownCommandOutput (correctness),Failed,00:00:00.7649682,2416794,0
Seqs.Insert (well-formedness),Passed,00:00:00.5442200,1267357,0
MentorBooking.AreasAllStaffed (correctness),Passed,00:00:00.3395697,625965,0
TerminalHost.PressEnter (correctness),Passed,00:00:00.3113982,949066,0
MentorBooking.ExpertiseFilterIsCaseSensitive (correctness),Passed,00:00:00.3102597,589471,0
TerminalHost.Next (well-formedness),Passed,00:00:00.3072732,777971,0
Terminal.SameReplyAfterEcho (correctness),Passed,00:00:00.3068850,700843,0
AuthContext.Signup (well-formedness),Passed,00:00:00.2701579,364934,0
AuthContext.Login (well-formedness),Passed,00:00:00.2575250,247779,0
TerminalHost.ReopenDoesNotReseed (well-formedness),Passed,00:00:00.2409121,511360,0
ProblemStatements.OpenTrackIsEmpty (correctness),Passed,00:00:00.2321216,1006445,0
TeamManagement.ValidEmailNotBlank (correctness),Passed,00:00:00.2259750,486169,0
TerminalHost.Run (well-formedness),Passed,00:00:00.2160931,531222,0
Terminal.Submit (well-formedness),Passed,00:00:00.2121125,628468,0
TerminalHost.MinimizeAfterClearReseeds (well-formedness),Passed,00:00:00.2014068,522392,0
TerminalHost.TimerClosesAndNavigates (correctness),Passed,00:00:00.2000865,531906,0
Terminal.UnknownCommand (correctness),Passed,00:00:00.1963229,647453,0
Terminal.CaseInsensitiveDispatch (well-formedness),Passed,00:00:00.1961170,445446,0
TerminalHost.PressEnter (well-formedness),Passed,00:00:00.1919991,518977,0
TerminalHost.Render (well-formedness),Passed,00:00:00.1870191,97790,0
TerminalHost.ReachableCursorOk (correctness),Passed,00:00:00.1826208,521167,0
TerminalHost.ExitCloses (well-formedness),Passed,00:00:00.1793067,512543,0
TeamManagement.Run (well-formedness),Passed,00:00:00.1788077,357661,0
TerminalHost.FirstOpenSeeds (correctness),Passed,00:00:00.1779130,511627,0
TerminalHost.ExitCloses (correctness),Passed,00:00:00.1753380,581386,0
TerminalHost.ReopenDoesNotReseed (correctness),Passed,00:00:00.1724473,521746,0
MentorBooking.AreasAllStaffed (well-formedness),Passed,00:00:00.1712292,264644,0
TerminalHost.FirstOpenSeeds (well-formedness),Passed,00:00:00.1696206,520840,0
TerminalHost.TimerClosesAndNavigates (well-formedness),Passed,00:00:00.1689682,522477,0
TerminalHost.ReachableCursorOk (well-formedness),Passed,00:00:00.1579241,519474,0
Submission.FinishSubmitKeepsNumbering (correctness),Passed,00:00:00.1550351,207114,0
Terminal.CaseInsensitiveDispatch (correctness),Passed,00:00:00.1528818,466115,0
TerminalHost.Inv (well-formedness),Passed,00:00:00.1473125,33870,0
Terminal.ClearWipesEverything (correctness),Passed,00:00:00.1453264,553954,0
Leaderboard.SortedDataSpec (well-formedness),Passed,00:00:00.1452355,88297,0
ProtectedRoute.ReloadAfterLogoutRedirects (correctness),Passed,00:00:00.1442791,88841,0
TerminalHost.RegisterStartsOneTimer (correctness),Passed,00:00:00.1410625,569103,0
MentorBooking.NoFilterShowsAll (correctness),Passed,00:00:00.1366869,93122,0
MentorBooking.OneBusyMentor (well-formedness),Passed,00:00:00.1337059,266843,0
AuthContext.LoginSurvivesReload (correctness),Passed,00:00:00.1335859,190981,0
Terminal.KnownCommandOutput (well-formedness),Passed,00:00:00.1304669,449081,0
Terminal.KeyDown (well-formedness),Passed,00:00:00.1287237,478254,0
Leaderboard.OpenInnovationIsEmpty (correctness),Passed,00:00:00.1277482,347647,0
TeamManagement.CreateLeaveCreate (correctness),Passed,00:00:00.1271122,92268,0
TeamManagement.LeaderNeverRemoved (correctness),Passed,00:00:00.1230820,240903,0
TeamManagement.InviteFormAlwaysShown (well-formedness),Passed,00:00:00.1224667,285099,0
MentorBooking.OneBusyMentor (correctness),Passed,00:00:00.1203121,299524,0
ProtectedRoute.ReloadAfterLoginRendersPage (correctness),Passed,00:00:00.1202167,176565,0
Networking.AllSkillsListedSpec (correctness),Passed,00:00:00.1200232,112542,0
TerminalHost.Apply (well-formedness),Passed,00:00:00.1178148,216121,0
Terminal.BlankSubmitIsNoOp (correctness),Passed,00:00:00.1176420,426922,0
TeamManagement.JoinTeam (well-formedness),Passed,00:00:00.1169166,35774,0
Terminal.ParseName (correctness),Passed,00:00:00.1148819,51492,0
TerminalHost.RegisterStartsOneTimer (well-formedness),Passed,00:00:00.1143546,516166,0
Terminal.BlankSubmitIsNoOp (well-formedness),Passed,00:00:00.1136288,417628,0
ProtectedRoute.Guard (well-formedness),Passed,00:00:00.1107572,27902,0
TeamManagement.FilterKeepsUniqueIds (correctness),Passed,00:00:00.1073532,239950,0
Leaderboard.PodiumIgnoresFilters (correctness),Passed,00:00:00.1068472,186726,0
Terminal.SameReplyAfterEcho (well-formedness),Passed,00:00:00.1045663,420330,0
Leaderboard.FixtureInScoreOrder (correctness),Passed,00:00:00.1008589,232152,0
MentorBooking.Step (well-formedness),Passed,00:00:00.1007099,223970,0
ProfileSettings.SaveKeepsPersisted (correctness),Passed,00:00:00.0999582,98134,0
TeamManagement.InviteFormAlwaysShown (correctness),Passed,00:00:00.0989181,270911,0
MentorBooking.FilteredMentorsSpec (correctness),Passed,00:00:00.0988095,101088,0
ProtectedRoute.ReloadAfterLoginRendersPage (well-formedness),Passed,00:00:00.0987702,133944,0
AuthContext.SignupSurvivesReload (correctness),Passed,00:00:00.0987412,173244,0
TeamManagement.RemoveMemberSpec (correctness),Passed,00:00:00.0981301,100207,0
ProfileSettings.InitialProfileAfterLogin (correctness),Passed,00:00:00.0966340,332455,0
Terminal.ParseName (well-formedness),Passed,00:00:00.0963640,33739,0
Submission.WellNumberedDistinct (correctness),Passed,00:00:00.0937894,66323,0
Leaderboard.OpenInnovationIsEmpty (well-formedness),Passed,00:00:00.0927271,122415,0
ProtectedRoute.LoaderBeforeRestore (correctness),Passed,00:00:00.0923109,41138,0
MentorBooking.Run (well-formedness),Passed,00:00:00.0921857,139349,0
Submission.AddFiles (well-formedness),Passed,00:00:00.0904410,12087,0
TeamManagement.Step (well-formedness),Passed,00:00:00.0888729,213191,0
Networking.SomeoneHas (well-formedness),Passed,00:00:00.0871762,16202,0
Submission.RemoveFile (well-formedness),Passed,00:00:00.0846112,12522,0
ProfileSettings.ToggleNotification (well-formedness),Passed,00:00:00.0840418,46974,0
Leaderboard.PodiumOf (well-formedness),Passed,00:00:00.0826490,70201,0
TeamManagement.WellFormedAddressAccepted (correctness),Passed,00:00:00.0784592,217040,0
Leaderboard.PodiumIgnoresFilters (well-formedness),Passed,00:00:00.0774917,176531,0
Leaderboard.SortedDataSpec (correctness),Passed,00:00:00.0756436,116778,0
Seqs.InsertStable (correctness),Passed,00:00:00.0739755,134176,0
Text.Includes (well-formedness),Passed,00:00:00.0729477,100152,0
AuthContext.UpdateProfile (well-formedness),Passed,00:00:00.0724676,125246,0
ProfileSettings.SaveChangesOnlyName (correctness),Passed,00:00:00.0714980,135417,0
Seqs.FilterSpec (correctness),Passed,00:00:00.0709475,110310,0
Seqs.IsSubseq (well-formedness),Passed,00:00:00.0705896,15075,0
Resources.CategoryButtonsIcons (correctness),Passed,00:00:00.0700035,42313,0
Leaderboard.FilteredData (well-formedness),Passed,00:00:00.0696982,80454,0
AuthContext.UpdateProfileKeepsPersisted (correctness),Passed,00:00:00.0696627,152433,0
Text.BeforeFirst (well-formedness),Passed,00:00:00.0691967,51331,0
MentorBooking.NeverBooksBusyMentor (well-formedness),Passed,00:00:00.0685694,107527,0
AuthContext.MockUser (well-formedness),Passed,00:00:00.0645990,156308,0
MentorBooking.NeverBooksBusyMentor (correctness),Passed,00:00:00.0639296,111938,0
Seqs.StableSortOfSorted (correctness),Passed,00:00:00.0626550,134757,0
Networking.ClearedFiltersShowAll (correctness),Passed,00:00:00.0615065,95512,0
TeamManagement.InviteTwiceSendsOnce (correctness),Passed,00:00:00.0606439,98336,0
Networking.InsertUnique (well-formedness),Passed,00:00:00.0605424,157539,0
MentorBooking.FilteredMentorsSpec (well-formedness),Passed,00:00:00.0591083,57959,0
Submission.SubmitRun (well-formedness),Passed,00:00:00.0583172,95190,0
ProblemStatements.FilteredProblems (well-formedness),Passed,00:00:00.0582648,82429,0
Seqs.FilterKeepsAll (correctness),Passed,00:00:00.0546371,89642,0
MentorBooking.FilteredMentors (well-formedness),Passed,00:00:00.0545306,60199,0
ProtectedRoute.FirstVisitRedirects (well-formedness),Passed,00:00:00.0543131,63632,0
ProfileSettings.InitialProfile (well-formedness),Passed,00:00:00.0534828,200727,0
MentorBooking.ClickBook (well-formedness),Passed,00:00:00.0534435,57540,0
Submission.FirstSubmissionAfterSeed (well-formedness),Passed,00:00:00.0527360,95846,0
ProfileSettings.ToggleTwiceRestores (correctness),Passed,00:00:00.0525449,108250,0
Networking.FilteredParticipantsSpec (correctness),Passed,00:00:00.0521553,97242,0
Submission.FirstSubmissionAfterSeed (correctness),Passed,00:00:00.0516234,112688,0
Text.Trim (well-formedness),Passed,00:00:00.0510161,196725,0
ProfileSettings.HandleChange (well-formedness),Passed,00:00:00.0507436,99523,0
Submission.FinishSubmit (well-formedness),Passed,00:00:00.0500804,88952,0
MentorBooking.ConfirmKeepsDialogOpen (correctness),Passed,00:00:00.0497986,93216,0
ProfileSettings.Save (well-formedness),Passed,00:00:00.0492434,86833,0
Text.TrailingSpaceStart (well-formedness),Passed,00:00:00.0492019,117398,0
Resources.FilteredResourcesSpec (correctness),Passed,00:00:00.0489020,82285,0
Submission.StartSubmit (well-formedness),Passed,00:00:00.0487764,36743,0
Resources.NoFiltersShowAll (correctness),Passed,00:00:00.0485623,78562,0
Leaderboard.View (well-formedness),Passed,00:00:00.0477946,72561,0
TeamManagement.RemovalReopensInvites (correctness),Passed,00:00:00.0474515,80498,0
MentorBooking.MatchesSearch (well-formedness),Passed,00:00:00.0473978,35477,0
Leaderboard.FixtureTracksOffered (correctness),Passed,00:00:00.0471808,102282,0
ProtectedRoute.ReloadAfterLogoutRedirects (well-formedness),Passed,00:00:00.0466783,75707,0
Submission.SubmitRun (correctness),Passed,00:00:00.0459816,82013,0
Resources.ShowsEmptyState (well-formedness),Passed,00:00:00.0458620,78142,0
ProfileSettings.SaveChangesOnlyName (well-formedness),Passed,00:00:00.0446917,86752,0
MentorBooking.ConfirmBooking (well-formedness),Passed,00:00:00.0437755,73567,0
ProtectedRoute.FirstVisitRedirects (correctness),Passed,00:00:00.0428145,180373,0
Leaderboard.PodiumOf (correctness),Passed,00:00:00.0427788,66384,0
Leaderboard.FixtureTracksOffered (well-formedness),Passed,00:00:00.0427053,89023,0
Submission.SeedWellNumbered (correctness),Passed,00:00:00.0403874,78511,0
Seqs.StableSortStable (correctness),Passed,00:00:00.0402575,61221,0
AuthContext.LogoutSurvivesReload (correctness),Passed,00:00:00.0399008,76508,0
Resources.FilteredResources (well-formedness),Passed,00:00:00.0396508,55109,0
TeamManagement.CreateTeam (well-formedness),Passed,00:00:00.0393142,71084,0
Seqs.StableSort (well-formedness),Passed,00:00:00.0392468,67475,0
Networking.FilteredParticipants (well-formedness),Passed,00:00:00.0373209,61487,0
Submission.FinishSubmitKeepsNumbering (well-formedness),Passed,00:00:00.0362543,62153,0
Terminal.RecallWalk (correctness),Passed,00:00:00.0356578,28507,0
TeamManagement.SeedTeamIdsUnique (correctness),Passed,00:00:00.0356475,104241,0
Text.LeadingSpace (well-formedness),Passed,00:00:00.0351240,84864,0
ProfileSettings.HandleChangeLaws (correctness),Passed,00:00:00.0349892,67259,0
AuthContext.Restore (well-formedness),Passed,00:00:00.0343387,159349,0
Resources.CategoryIcon (well-formedness),Passed,00:00:00.0328022,70839,0
MentorBooking.BookButton (well-formedness),Passed,00:00:00.0322733,30689,0
Terminal.Parse (well-formedness),Passed,00:00:00.0322070,79448,0
Submission.RemoveFile (correctness),Passed,00:00:00.0314709,56796,0
Seqs.FilterShrinks (correctness),Passed,00:00:00.0313767,45211,0
TeamManagement.RemoveMember (well-formedness),Passed,00:00:00.0312047,68306,0
TeamManagement.LeaveThenJoin (correctness),Passed,00:00:00.0310378,43472,0
TeamManagement.InviteMember (well-formedness),Passed,00:00:00.0305689,73749,0
AuthContext.Logout (well-formedness),Passed,00:00:00.0304798,69984,0
Networking.AllSkills (well-formedness),Passed,00:00:00.0301921,48555,0
AuthContext.Mount (well-formedness),Passed,00:00:00.0292170,147994,0
Networking.SortedUnique (well-formedness),Passed,00:00:00.0291657,38607,0
Text.DecimalRoundTrip (correctness),Passed,00:00:00.0284662,105291,0
Terminal.Mount (well-formedness),Passed,00:00:00.0277485,63315,0
TerminalHost.ApplyOne (correctness),Passed,00:00:00.0275216,67739,0
Seqs.FilterKeepsAll (well-formedness),Passed,00:00:00.0265012,21416,0
AuthContext.UseAuth (well-formedness),Passed,00:00:00.0264164,137310,0
AuthContext.MountPersisted (well-formedness),Passed,00:00:00.0263920,57953,0
AuthContext.SignIn (well-formedness),Passed,00:00:00.0255999,63753,0
Text.TrimIdempotent (correctness),Passed,00:00:00.0255422,63919,0
Terminal.Name (well-formedness),Passed,00:00:00.0255250,59824,0
Submission.WellNumberedDistinct (well-formedness),Passed,00:00:00.0253737,40377,0
TeamManagement.FilterMember (correctness),Passed,00:00:00.0243596,47603,0
AuthContext.MountPersisted (correctness),Passed,00:00:00.0242966,63706,0
ProblemStatements.SelectDisablesOnlyItself (correctness),Passed,00:00:00.0241209,39986,0
Terminal.EffectsOf (well-formedness),Passed,00:00:00.0235897,20361,0
TerminalContext.SettersIdempotent (correctness),Passed,00:00:00.0231732,32156,0
TeamManagement.CopyCode (well-formedness),Passed,00:00:00.0226071,36391,0
Networking.StrLessTotal (correctness),Passed,00:00:00.0223107,49061,0
Submission.ProgressSteps (correctness),Passed,00:00:00.0222818,40177,0
TeamManagement.TailUniqueIds (well-formedness),Passed,00:00:00.0221405,21909,0
TerminalHost.ApplyOne (well-formedness),Passed,00:00:00.0217862,49485,0
ProblemStatements.DifficultyColor (well-formedness),Passed,00:00:00.0217443,52102,0
Submission.NewEntry (well-formedness),Passed,00:00:00.0210685,37960,0
TeamManagement.TailUniqueIds (correctness),Passed,00:00:00.0208466,36685,0
TeamManagement.TypeTeamName (well-formedness),Passed,00:00:00.0201019,15559,0
Text.Decimal (well-formedness),Passed,00:00:00.0196261,32693,0
TeamManagement.Domain (well-formedness),Passed,00:00:00.0195566,22590,0
AuthContext.Token (well-formedness),Passed,00:00:00.0195352,27663,0
Submission.VersionLabel (well-formedness),Passed,00:00:00.0194722,23615,0
MentorBooking.OnlyAvailable (well-formedness),Passed,00:00:00.0194005,19620,0
Seqs.Filter (well-formedness),Passed,00:00:00.0188636,30539,0
AuthContext.Truthy (well-formedness),Passed,00:00:00.0188299,16834,0
TerminalContext.UseTerminal (well-formedness),Passed,00:00:00.0186881,206129,0
MentorBooking.CloseDialog (well-formedness),Passed,00:00:00.0183596,18792,0
TeamManagement.Leader (well-formedness),Passed,00:00:00.0183465,40699,0
ProfileSettings.UserText (well-formedness),Passed,00:00:00.0180153,27674,0
Submission.EditForm (well-formedness),Passed,00:00:00.0179160,22027,0
Networking.InviteToast (well-formedness),Passed,00:00:00.0178600,32042,0
Submission.WellNumbered (well-formedness),Passed,00:00:00.0177150,28607,0
ProfileSettings.InitialNotificationsOnExceptMarketing (well-formedness),Passed,00:00:00.0174980,35121,0
TerminalHost.Timers (well-formedness),Passed,00:00:00.0174217,19673,0
TerminalContext.ToggleIsOpenOrClose (correctness),Passed,00:00:00.0171547,23964,0
TerminalContext.ReopenRestores (correctness),Passed,00:00:00.0170470,19325,0
Networking.StrictlySortedDistinct (correctness),Passed,00:00:00.0170303,21806,0
Submission.VersionLabelInjective (correctness),Passed,00:00:00.0170127,23277,0
Resources.CategoryButtonsIcons (well-formedness),Passed,00:00:00.0166960,31197,0
TeamManagement.CopyThenTimer (correctness),Passed,00:00:00.0166956,43730,0
ProblemStatements.Select (well-formedness),Passed,00:00:00.0164443,32985,0
Text.LowerIdempotent (correctness),Passed,00:00:00.0162874,38980,0
Terminal.DownUndoesUp (correctness),Passed,00:00:00.0161757,26313,0
TeamManagement.ValidEmail (well-formedness),Passed,00:00:00.0160471,28726,0
AuthContext.Initial (well-formedness),Passed,00:00:00.0160137,24111,0
Networking.SkillChips (well-formedness),Passed,00:00:00.0158167,18303,0
Networking.CardAction (well-formedness),Passed,00:00:00.0157400,28048,0
Seqs.SortedBy (well-formedness),Passed,00:00:00.0155811,17334,0
Terminal.RecallWalk (well-formedness),Passed,00:00:00.0155774,38623,0
Networking.AllSkillsListed (well-formedness),Passed,00:00:00.0153272,24328,0
ProblemStatements.SelectDisabled (well-formedness),Passed,00:00:00.0152739,22811,0
Text.EmptyQueryMatches (correctness),Passed,00:00:00.0151804,29303,0
Seqs.IsSubseqRefl (correctness),Passed,00:00:00.0146243,12760,0
Seqs.FilterShrinks (well-formedness),Passed,00:00:00.0143626,20697,0
TeamManagement.LeaveTeam (well-formedness),Passed,00:00:00.0142379,32459,0
ProfileSettings.InitialNotificationsOnExceptMarketing (correctness),Passed,00:00:00.0142254,38941,0
Submission.ProgressSteps (well-formedness),Passed,00:00:00.0135660,10068,0
AuthContext.TokenInjective (correctness),Passed,00:00:00.0135162,23611,0
Text.Lower (well-formedness),Passed,00:00:00.0134495,34224,0
Leaderboard.GetRankIcon (well-formedness),Passed,00:00:00.0132268,12175,0
TerminalContext.Minimize (well-formedness),Passed,00:00:00.0131374,17662,0
Terminal.RecallPrevious (well-formedness),Passed,00:00:00.0131127,29089,0
Terminal.RecallNext (well-formedness),Passed,00:00:00.0127968,21797,0
TeamManagement.MalformedAddressRefused (correctness),Passed,00:00:00.0126237,33340,0
ProblemStatements.ChangeSelection (well-formedness),Passed,00:00:00.0124638,15193,0
TeamManagement.UniqueIds (well-formedness),Passed,00:00:00.0123598,14841,0
Resources.ClearFilters (well-formedness),Passed,00:00:00.0122870,13667,0
Leaderboard.GetTrendIcon (well-formedness),Passed,00:00:00.0122784,18401,0
TerminalContext.Open (well-formedness),Passed,00:00:00.0122581,17661,0
TeamManagement.DomainLabel (well-formedness),Passed,00:00:00.0122048,15162,0
Networking.StrLess (well-formedness),Passed,00:00:00.0121845,15491,0
Networking.StrLessTransitive (correctness),Passed,00:00:00.0118425,23248,0
Text.DecimalInjective (correctness),Passed,00:00:00.0115206,20056,0
TerminalContext.Maximize (well-formedness),Passed,00:00:00.0114484,17692,0
Terminal.DownUndoesUp (well-formedness),Passed,00:00:00.0114283,20689,0
ProblemStatements.Problems (well-formedness),Passed,00:00:00.0113108,7817,0
Terminal.UpThenDownFromLive (correctness),Passed,00:00:00.0111826,19314,0
Terminal.UpThenDownFromLive (well-formedness),Passed,00:00:00.0110834,19672,0
TerminalContext.Close (well-formedness),Passed,00:00:00.0109423,17685,0
TeamManagement.CopyTimerFired (well-formedness),Passed,00:00:00.0108306,21039,0
TeamManagement.TypeInviteEmail (well-formedness),Passed,00:00:00.0105261,15559,0
Networking.StrLessIrreflexive (correctness),Passed,00:00:00.0099781,13527,0
Networking.ClearFilters (well-formedness),Passed,00:00:00.0098523,14718,0
TerminalContext.Toggle (well-formedness),Passed,00:00:00.0096960,16425,0
MentorBooking.Mentors (well-formedness),Passed,00:00:00.0095664,9588,0
ProblemStatements.ChooseTrack (well-formedness),Passed,00:00:00.0093553,14795,0
Submission.SeedEntry (well-formedness),Passed,00:00:00.0091798,3664,0
Text.ParseDecimal (well-formedness),Passed,00:00:00.0089951,14711,0
Networking.StrictlySorted (well-formedness),Passed,00:00:00.0087117,15789,0
Networking.StrictlySortedDistinct (well-formedness),Passed,00:00:00.0081394,15766,0
Text.DigitValue (well-formedness),Passed,00:00:00.0080624,7706,0
Text.LowerChar (well-formedness),Passed,00:00:00.0078238,10240,0
Text.DigitChar (well-formedness),Passed,00:00:00.0077186,7775,0
Text.AllSpace (well-formedness),Passed,00:00:00.0071982,11533,0
Text.OccursAt (well-formedness),Passed,00:00:00.0068649,10325,0
