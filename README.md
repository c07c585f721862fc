# My Eye Passport — a verified model of the app's decision logic

My Eye Passport is a single-page web app that helps parents manage a child's
myopia risk. This project models its state and decision logic in Dafny:

- **Navigation** (`navigation.dfy`): the page navigator. After navigating to a
  known page, exactly one page is active. `lastPage` remembers one page for the back button. The bottom bar is
  hidden on the landing page. Nav buttons are highlighted by a rule that treats
  every `passport*` page and `add-record` as one group. A passport button leads
  to the records page when logged in and to the login page otherwise.
  Entering a page also decides what happens to the camera and to the outdoor
  tracker's refresh loop.
- **RiskAssessment** (`risk_assessment.dfy`): the questionnaire. It adds up
  three 0/1 risk flags. A 2×2 table on (recent eye test, at least two risk
  factors) then picks one of four recommendations and decides whether to offer
  the optometrist finder.
- **OutdoorTimer** (`outdoor_timer.dfy`): the outdoor-time tracker. Its stored
  record holds `isTracking`, an optional `startTime` and a total per day.
  Stopping adds `now - startTime` to today's total. The display shows today's
  total plus the live session, as minutes and seconds, with progress towards
  a 90-minute goal capped at 100%.
- **RecordsLedger** (`records_ledger.dfy`): the exam records. They are
  appended, then sorted newest first by a stable sort. Each entry gets a
  progression badge by comparing its mean sphere with the next older entry.
- **DistanceGame** (`distance_game.dfy`): the picture index of the
  viewing-distance game. It steps round six pictures.
- **MyopiaApp** (`app.dfy`): the global state (`isLoggedIn`, the picture
  index, the navigator, the ledger). It also holds the event handlers that
  connect the components.

The state the source changes in place is modelled as classes:
- The pages' and nav buttons' `active` classes are arrays, updated by the
  same `forEach` loops as in the source.
- The records list is a `seq` field, sorted and appended to in place.
- The tracker's storage entry and the app's globals are also fields.

Each mutating method is tied to a pure specification function (`Navigate`,
`Back`, `Toggled`, `SortNewestFirst`, `NextImageIndex`). The lemmas state what
the app promises about those functions.

Inputs from outside the program are parameters:
- the clock (`now`) and today's date key;
- the value of each segmented control (an `Answer`, possibly `Unanswered`);
- the parse of a sphere field (`None` standing for NaN);
- the ids of the pages and the `data-page` of the nav buttons in the markup,
  plus which pages start active.

Behaviours of the code that the model keeps as they are, though a reader
might expect otherwise:
- **Which entry is always Stable.** The entry with no neighbour to compare
  with is the *oldest* entry, the last one after sorting newest first. It is
  not the most recent one.
- **Navigating to an unknown page id.** This is not excluded by a
  precondition. The source records `lastPage` and deactivates every page. It
  then fails on the missing element, before the bottom bar, the highlighting
  or the hooks are touched. `Navigate` models this as the outcome
  `UnknownPage` with exactly those partial effects.
- **`startTime` and `isTracking`.** The code never checks that `startTime` is
  present while tracking. Every record it writes has one exactly while
  tracking (`WellFormed`, kept by `Toggled` and by `Load` of a missing or
  unreadable entry), but a stored record from elsewhere may not. Stopping then
  computes NaN, which is stored as `null` and read back as 0. So that path resets today's total to
  0, as `Toggled` states. The display counts a live session only when
  `startTime` is truthy, which means present and not 0.
- **The highlighting rule.** The source's extra rule for `home` is implied by
  the general rule, and `ButtonActive`'s contract shows this.

## Model

| member | source | states |
|---|---|---|
| Navigation.ButtonActive | js/app.js:54-68 | on landing no button is highlighted; otherwise, on a passport page or add-record, a button is highlighted iff it is a passport button or its page is the shown page; on any other page iff its page is the shown page |
| Navigation.FirstActiveIndex | js/app.js:24 | the index found is an active page and every page before it is inactive; none is found iff no page is active |
| Navigation.CurrentPage | js/app.js:24-25 | the current page is the first page in document order whose flag is active (querySelector's match), and there is none iff no page is active |
| Navigation.IndexOf | js/app.js:28 | the element found carries the requested id and is the first such; none is found iff no page has that id |
| Navigation.PageHooks | js/app.js:38-49 | the camera starts iff the page is close-tool (user-facing) or myopia-simulator (environment-facing) and is stopped otherwise; the tracker is initialised iff the page is passport-records, otherwise its refresh is cancelled |
| Navigation.Navigate | js/app.js:23-52 | navigateTo as a function of the prior state; keeps one flag per page and per button (its behaviour is stated by NavigateShowsOnlyTarget) |
| Navigation.Back | js/app.js:21 | goBack as navigation to the remembered page; keeps the shape of the state |
| Navigation.ClickTarget | js/app.js:70-76 | a passport button leads to passport-records when logged in and to passport-login otherwise; any other button leads to its own page |
| Navigation.NoneActive | js/app.js:27 | with every page deactivated, no page is active |
| Navigation.SingleActive | js/app.js:27-29 | when only page k is flagged, exactly one page is active and the lookup of the active page finds k |
| Navigation.NavigateShowsOnlyTarget | js/app.js:23-36 | after navigateTo(p), exactly one page is active and it is p, or none is when no page is p; lastPage is the page that was active before, or is unchanged if none was; the bar is hidden iff p is landing; highlighting follows updateNav; the camera and tracker effects are exactly PageHooks(p) |
| Navigation.GoBackReturns | js/app.js:21-25 | goBack after navigateTo(p) shows the page that was active before and remembers p, and a second goBack shows p again: one level of memory |
| Navigation.LandingHidesNav | js/app.js:31-36 | on landing the bottom nav is hidden and no nav button is highlighted |
| Navigation.RecordsOnlyWhenLoggedIn | js/app.js:73 | a nav click reaches passport-records only when logged in, and a passport button always leads to a passport page |
| Navigation.Navigator.constructor | js/app.js:3-7 | pages and buttons from the markup, lastPage starts as landing |
| Navigation.Navigator.NavigateTo | js/app.js:23-52 | the new state and outcome are exactly Navigate of the old state |
| Navigation.Navigator.UpdateNav | js/app.js:54-68 | every button's highlight is ButtonActive of its page |
| Navigation.Navigator.GoBack | js/app.js:21 | the new state and outcome are exactly Back of the old state |
| RiskAssessment.RiskFactors | js/app.js:121-123 | the score is at most 3; it is 0 iff family history is 'nil', near work is not 'more' and outdoor time is not 'less'; it is 3 iff all three are risks |
| RiskAssessment.Recommend | js/app.js:126-151 | "Action Recommended" iff eye test 'no' and risk ≥ 2; "Good to Know" iff 'no' and risk < 2; "Stay Vigilant" iff 'yes' and risk ≥ 2; "Looking Good" otherwise; the finder button is shown iff the answer is 'no' |
| RiskAssessment.SubmitAnswers | js/app.js:120-153 | the outcome is urgent (Action Recommended or Stay Vigilant) iff the eye test was answered 'no' or 'yes' and at least two flags are set; any other eye-test value gives Looking Good |
| RiskAssessment.UrgentIffTwoRisks | js/app.js:121-151 | an unanswered eye test always gives "Looking Good" without the finder; with 'no', "Action Recommended" iff at least two of the three habits are risks |
| RiskAssessment.TableExamples | js/app.js:128-151 | the four example cells of the table, and an unanswered family history counting as a risk |
| OutdoorTimer.Load | js/app.js:218-224 | a stored record reads back as itself; a missing or corrupt one reads as not tracking, no start time, no day totals, so it is well formed |
| OutdoorTimer.JsRem60 | js/app.js:233 | JavaScript's `% 60`: the remainder left by the quotient truncated towards zero, so in [0, 60) for non-negative operands and in (-60, 0] for negative ones |
| OutdoorTimer.FormatTime | js/app.js:230-235 | for ms ≥ 0, seconds < 60 and minutes·60 + seconds = floor(ms/1000); for negative ms the minutes are negative, the seconds in (-60, 0], and when those seconds are nonzero the sum is a minute short of floor(ms/1000) |
| OutdoorTimer.Progress | js/app.js:247 | progress never exceeds 100; it is 100 iff the total reaches the 90-minute goal; below the goal it is total/goal·100, and it is non-negative for a non-negative total |
| OutdoorTimer.Toggled | js/app.js:251-275 | tracking flips, and the new record has a start time exactly while tracking; starting sets startTime to now and leaves the days alone; stopping removes startTime, adds today's key, leaves every other day alone and makes today's total old total + (now - startTime), or 0 when there was no start time |
| OutdoorTimer.DisplayTotal | js/app.js:239-244 | with no session open (not tracking, or startTime missing or 0) the display total is today's stored total; with one open it is the total that stopping now would save for today (also LiveDisplayMatchesStop, StartThenStop) |
| OutdoorTimer.Show | js/app.js:237-248 | the rendered minutes and seconds make up the displayed total's whole seconds when it is non-negative, and fall a minute short when a negative total has nonzero truncated seconds; the bar never exceeds 100, is full iff the total reaches the goal, is total/goal·100 below the goal (a negative total included) and is non-negative for a non-negative total |
| OutdoorTimer.LiveDisplayMatchesStop | js/app.js:237-266 | during an open session the displayed total equals the total that stopping now records for today |
| OutdoorTimer.StartThenStop | js/app.js:251-266 | start at t0, stop at t1: today's total grows by exactly t1 - t0, other days are unchanged, tracking is off with no start time; meanwhile the display shows the old total + (t - t0) |
| OutdoorTimer.StopNeverLowersTotal | js/app.js:262-265 | with a clock that does not go back, closing a session never lowers today's total |
| OutdoorTimer.ProgressMonotone | js/app.js:247 | a larger total never shows less progress |
| OutdoorTimer.FormatTimeExamples | js/app.js:230-235 | 60000 ms is 1m 0s, 5399999 ms is 89m 59s, -1500 ms is -1m -2s |
| OutdoorTimer.OutdoorStore.constructor | js/app.js:226-228 | the store starts with the given blob |
| OutdoorTimer.OutdoorStore.Refresh | js/app.js:237-249 | the display is Show of the loaded record |
| OutdoorTimer.OutdoorStore.Toggle | js/app.js:251-275 | the stored record becomes Toggled of the loaded one; the button says Stop Timer iff now tracking; the display is refreshed from the saved record |
| OutdoorTimer.OutdoorStore.Initialize | js/app.js:277-291 | the button label and the restart of the refresh follow the stored tracking flag; the display is refreshed |
| RecordsLedger.Classify | js/app.js:168-174 | with no older neighbour the badge is Stable; otherwise Increased iff the mean sphere is below the neighbour's, Improved iff above, Stable iff equal |
| RecordsLedger.Insert | js/app.js:165 | inserting into a newest-first list keeps it newest first and adds exactly the one record |
| RecordsLedger.SortNewestFirst | js/app.js:165 | the sorted list is newest first and a permutation of the input |
| RecordsLedger.NewestFirstPairwise | js/app.js:165 | in a newest-first list every record is at least as new as every later one |
| RecordsLedger.InsertKeepsDateOrder | js/app.js:165 | insertion puts the new record ahead of the existing records of its date and keeps their order |
| RecordsLedger.SortKeepsDateOrder | js/app.js:165 | the sort is stable: records of one date keep their input order |
| RecordsLedger.BuildCards | js/app.js:166-194 | one card per record, in order, each carrying the badge from its older neighbour |
| RecordsLedger.SphereOrZero | js/app.js:200-201 | a sphere that does not parse becomes 0, any parsed value is kept |
| RecordsLedger.NoImprovementMeansNoBetter | js/app.js:166-174 | if no badge from entry k down to the oldest says Improved, entry k's mean is not above the oldest's |
| RecordsLedger.NoIncreaseMeansNoWorse | js/app.js:166-174 | if no badge from entry k down to the oldest says Increased, entry k's mean is not below the oldest's |
| RecordsLedger.SeedProgression | js/app.js:8-11 | the seeded list sorts to the 2025 exam first, badged Increased (-1.375 against -0.75), and the 2024 exam badged Stable |
| RecordsLedger.Ledger.Seeded | js/app.js:8-11 | the list starts with the two seeded exams |
| RecordsLedger.Ledger.Add | js/app.js:204 | exactly one record is appended |
| RecordsLedger.Ledger.Render | js/app.js:159-195 | an empty list shows the no-records message and is left alone; otherwise the list is sorted newest first in place and each record gets a card with its progression |
| DistanceGame.NextImageIndex | js/app.js:318 | the next index is below 6; it is the following index, or 0 after the last |
| DistanceGame.AdvancedByIsModular | js/app.js:318 | n clicks move the index from i to (i + n) mod 6 |
| DistanceGame.FullCycle | js/app.js:307-318 | the picture comes back after six clicks and after no fewer |
| MyopiaApp.App.constructor | js/app.js:5-11 | logged out, first picture (`currentGameImageIndex` starts at 0, declared at js/app.js:315), the seeded records, lastPage landing |
| MyopiaApp.App.Start | js/app.js:505-512 | the records are rendered: an empty list shows the no-records message, otherwise the list is sorted newest first and there is one card per record, in order, with its progression against the next-older record; the navigator then shows landing |
| MyopiaApp.App.ClickNavButton | js/app.js:70-76 | the navigator moves to ClickTarget of the button's page and the login flag |
| MyopiaApp.App.Login | js/app.js:156 | logged in; records rendered (no-records message for an empty list, else sorted newest first with one card per record, in order, with its progression); navigator on passport-records |
| MyopiaApp.App.Logout | js/app.js:157 | logged out, navigator on passport-login |
| MyopiaApp.App.SaveRecord | js/app.js:196-207 | the records become the sorted list of the old records plus exactly one new record, whose unparsable spheres are 0; one card per record; navigator on passport-records |
| MyopiaApp.App.FindOptometrist | js/app.js:110-113 | the navigator moves to optometrist-finder |
| MyopiaApp.App.NextImage | js/app.js:317-318 | the picture index advances by NextImageIndex and stays below 6 |

## Left out

- HTML rendering (`innerHTML`, the record cards' text and colours, the dialog text), CSS class changes other than the pages' and nav buttons' `active` and the bottom bar's `hidden` (modelled as `navHidden`), the segmented-control glider, and the dialog fade animations: presentation only. The model returns the chosen outcome, badge or display values instead.
- Camera acquisition and release, face-detection model loading, the distance-estimation loop and its classification, the blur slider, and the mocked optometrist search: these are browser or library calls, or floating-point work. Navigation only reports whether a page entry starts or stops the camera.
- `localStorage`, JSON parsing and `Date.now`/`toISOString`: storage is the `Stored` value of `OutdoorStore`, and the clock and day key are parameters. Stored fields of unexpected JSON types are not modelled.
- `setInterval`/`clearInterval` handles and the splash timeout: the model reports only whether a refresh loop is started or cancelled (`TrackerEffect`, `resumeRefresh`).
- Floating point: spheres, means and progress are exact `real`s, so double rounding is not modelled.
- Record dates are integers that order like the dates. A record saved with an empty or invalid date makes the sort comparator return NaN in the source, so the resulting order is implementation-defined; that case is not modelled.
- `parseFloat` itself is a parameter; only its `|| 0` fallback is modelled.
- The markup, which sets the initial page and button classes and the initial bar visibility, is not part of this model. The constructors take the initially active pages and start with no button highlighted and the bar visible.
- Navigation targets are assumed to be page ids: an id that belongs to some other element of the markup is treated as an unknown page, whereas `getElementById` would find that element and navigation would run to its end. Every call site in the app passes a page id.
- Navigation.Navigate: its own contract states only the shape of the new state; what navigateTo promises is proved separately in NavigateShowsOnlyTarget and GoBackReturns.
- Navigation.Back: its own contract states only the shape of the new state; GoBackReturns states what going back does.
