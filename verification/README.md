# TutorMate, modelled in Dafny

TutorMate is a tutoring marketplace front end: a React single-page app over a
static in-memory dataset of tutors, sessions, conversations, group classes and
recordings. It has no server and no persistence. What it has is a set of
small, pure rules, and this project models those rules and proves
properties about them:

- **the tutor discovery engine**: the Browse Tutors page's department toggle,
  its seven-way filter, the keyed stable sort, the "filters applied" counter,
  reset, and the filter side panel that edits the criteria;
- **the navigator**: the shell's current page, its single "back" slot and its
  payload, the view each page id resolves to, and the navigation bar;
- **the booking wizard**: a four-step state machine with its progress bubbles,
  charges and not-found fallback;
- **the secondary pages**: the dashboard previews, the tutor profile, the
  tutor card, the calendar month grid, messages, wallet, group classes and
  recordings;
- **the seed dataset**, as constants, with checkable facts about it.

Everything is a pure function over immutable datatypes. Each page's state is
a record, and each button is a transition function on that record. A
navigation request is carried out by the shell's `Navigate`/`Back`.

Modules, one per file:

- `Seqs`: `filter`, `find`, `slice` and their lemmas.
- `Text`: ASCII `toLowerCase`, `includes`, `trim`.
- `Dates`: proleptic Gregorian month lengths and weekdays.
- `MockData`: the record types and the seed.
- `StableSort`: `Array.prototype.sort`. Its stability is required since ECMAScript 2019.
- `TutorsPage`, `TutorsSeed`, `FilterPanel`: discovery.
- `App`, `Navigation`: the navigator.
- `BookingPage`, `CalendarPage`, `MessagesPage`, `WalletPage`, `DashboardPage`, `TutorProfilePage`, `TutorCard`, `GroupClassesPage`, `RecordingsPage`: one module per page or component.
- `Chips`: the "first n badges plus +k" preview that several cards share.

JavaScript semantics are written out where they matter:

- a comparison with NaN is false;
- `x || '1'` replaces an empty string;
- `page as Page` checks nothing, so the shell stores raw page ids;
- ratings and amounts are exact `real`s.

Where the wall clock, `parseFloat` or a date picker supplies a value, the model takes it as a parameter.

The "verified" switch tests `rating >= 4.5`
(src/components/pages/TutorsPage.tsx:61), so a tutor rated 4.6 passes it;
`TutorsSeed.VerifiedSeedKeepsAll` proves that the switch keeps all six seeded
tutors, Alex Martinez at 4.6 included.

## Model

| member | source | states |
|---|---|---|
| TutorsPage.ToggleDepartment | src/components/pages/TutorsPage.tsx:31-37 | a department not in the selection is appended at the end; a selected one is removed, all its copies included; either way the other departments keep their order and their number of copies |
| TutorsPage.ToggleTwiceSameSet | src/components/pages/TutorsPage.tsx:31-37 | toggling the same department twice gives back the same set of departments |
| TutorsPage.ToggleTwiceAbsent | src/components/pages/TutorsPage.tsx:31-37 | when the department was not selected, two toggles give back the very same array |
| TutorsPage.TogglePreservesNoDup | src/components/pages/TutorsPage.tsx:31-37 | toggling never introduces a duplicate department |
| TutorsPage.Reset | src/components/pages/TutorsPage.tsx:39-47 | reset puts every filter back to its initial value: no departments, price 0..50, rating 0, empty query, all three switches off; the sort key and the grid/list view are kept |
| TutorsPage.ActiveFiltersCountMeaning | src/components/pages/TutorsPage.tsx:82-87 | the counter ignores price, query, sort and view; it is zero exactly when no department, rating threshold or switch is set; it is zero after reset |
| TutorsPage.ActiveFiltersCountDistinct | src/components/pages/TutorsPage.tsx:82-87 | with a duplicate-free selection, the counter is the number of distinct selected departments plus one per active flag |
| TutorsPage.SearchMeaning | src/components/pages/TutorsPage.tsx:55-58 | an empty query passes every tutor; otherwise a tutor passes exactly when the lower-cased query occurs in the lower-cased name or in some lower-cased skill |
| TutorsPage.ProxyFilterMeaning | src/components/pages/TutorsPage.tsx:60-63 | "verified" and "recordings" need a rating of at least 4.5, and "group classes" more than 200 sessions (200 fails); a switch that is off passes everyone |
| TutorsPage.PriceRangeInclusive | src/components/pages/TutorsPage.tsx:52-53 | the price test includes both ends of the range |
| TutorsPage.Discover | src/components/pages/TutorsPage.tsx:49-80 | a tutor is in the result exactly when all seven tests pass; the result is no longer than the input and a sub-multiset of it; it is sorted by the chosen key; tutors with equal keys keep their filtered order |
| TutorsPage.DiscoverOrdered | src/components/pages/TutorsPage.tsx:67-80 | price-low gives non-decreasing rates; price-high, rating and sessions give non-increasing values of their key |
| TutorsPage.RecommendedKeepsOrder | src/components/pages/TutorsPage.tsx:77-78 | "recommended" returns the filtered tutors in dataset order |
| TutorsPage.DiscoverStable | src/components/pages/TutorsPage.tsx:67-80 | for every key value, the tutors with that value come out in the order the filter left them |
| TutorsPage.NeutralKeepsAll | src/components/pages/TutorsPage.tsx:21-29 | the initial criteria keep every tutor whose rate lies in 0..50 and whose rating is at least 0, in dataset order |
| TutorsPage.ResetThenDiscover | src/components/pages/TutorsPage.tsx:39-47 | after reset, the list is what the initial criteria give under the sort key already chosen |
| StableSort.SortBy | src/components/pages/TutorsPage.tsx:67-80 | the sort returns a sorted permutation of its input, and each equal-rank subsequence is unchanged |
| StableSort.InsertStable | src/components/pages/TutorsPage.tsx:67-80 | inserting an element adds it in front of the elements of its rank and leaves the order of every rank class alone |
| StableSort.SortByConstant | src/components/pages/TutorsPage.tsx:77-78 | a comparator that always answers 0 reorders nothing |
| TutorsSeed.MathematicsOnlyMichael | src/lib/mockData.ts:84-100 | selecting only Mathematics leaves exactly Michael Chen, tutor "2" |
| TutorsSeed.NeutralSeed | src/lib/mockData.ts:64-173 | the initial criteria show all six seeded tutors in dataset order |
| TutorsSeed.VerifiedSeedKeepsAll | src/components/pages/TutorsPage.tsx:61 | the "verified" switch alone hides none of the seeded tutors |
| FilterPanel.OfferedDepartments | src/components/FilterPanel.tsx:96 | the panel offers exactly the first six departments of the dataset |
| FilterPanel.DepartmentBoxFlips | src/components/FilterPanel.tsx:100-101 | a department box is ticked exactly when its department is selected; ticking it flips that box and no other |
| FilterPanel.RatingBoxSets | src/components/FilterPanel.tsx:133-138 | clicking a rating option sets the threshold to it even when it is already ticked; afterwards it is the only ticked option |
| FilterPanel.AtMostOneRatingChecked | src/components/FilterPanel.tsx:133-138 | at most one of the four rating options is ticked |
| FilterPanel.UnofferedDepartments | src/components/FilterPanel.tsx:96 | Economics and Business are in the dataset but have no box |
| FilterPanel.SwitchRowsFollowHandlers | src/components/FilterPanel.tsx:53-87 | a switch row is offered exactly when the host passes its change handler |
| FilterPanel.ApplyKeepsReachable | src/components/FilterPanel.tsx:96-138 | every offered control keeps the criteria inside the reachable set: offered departments only, no duplicates, a threshold from the option list, prices on the 0..50 grid in steps of 5 |
| FilterPanel.PanelRunBounds | src/components/FilterPanel.tsx:96-138 | whatever is done on the panel, Economics and Business are never selected and the counter never exceeds ten |
| App.PageOf | src/App.tsx:16-27 | the page an id names, if any; the result's id is the input |
| App.PageIdRoundTrip | src/App.tsx:16-27 | each page's id resolves back to that page, and to no other |
| App.NavigateThenBack | src/App.tsx:39-49 | back after a navigation returns to the page shown before it and keeps the payload that navigation left |
| App.BackTwice | src/App.tsx:47-49 | a second back changes nothing; back changes neither the back target nor the payload |
| App.SingleSlotHistory | src/App.tsx:39-49 | two navigations and a back land on the middle page |
| App.PayloadSticks | src/App.tsx:39-45 | a navigation without a payload keeps the old one, tutor id included; a payload replaces it whole |
| App.TutorIdOf | src/App.tsx:65-74 | the tutor id handed to a page is the payload's id when it is present and non-empty, and "1" otherwise |
| App.RenderFallbacks | src/App.tsx:62-99 | an unknown id shows the dashboard; the profile and the booking page fall back to tutor "1" |
| App.RenderDashboardIff | src/App.tsx:56-99 | the dashboard is shown exactly for the dashboard id and for unknown ids |
| App.LogIn | src/App.tsx:54 | logging in shows the dashboard with the navigation bar and keeps the payload |
| App.OpeningSequence | src/App.tsx:35-37 | the app opens on login without the bar; back from there goes to the dashboard; back after logging in returns to login |
| Navigation.NavIdsDistinct | src/components/Navigation.tsx:18-26 | seven links with pairwise distinct ids |
| Navigation.AtMostOneActive | src/components/Navigation.tsx:42-43 | at most one link is highlighted, and one is exactly when the current id has a link |
| Navigation.NoneActiveOffBar | src/components/Navigation.tsx:18-43 | on the profile, booking, settings and login pages nothing is highlighted |
| Navigation.ClickOutcome | src/components/Navigation.tsx:34-84 | every control of the bar lands on a known page without touching the payload; only Logout hides the bar |
| Navigation.ClickHighlights | src/components/Navigation.tsx:43-47 | after a link is clicked, that link is the one highlighted |
| BookingPage.StepTransitions | src/components/pages/BookingPage.tsx:85-213 | the step moves only 1→2, 2→3, 3→4 forward and 2→1, 3→2 back, and stays in 1..4 |
| BookingPage.RunKeepsStepInRange | src/components/pages/BookingPage.tsx:85-213 | every run of presses keeps the step in 1..4 |
| BookingPage.ConfirmNeedsThreeSteps | src/components/pages/BookingPage.tsx:85-213 | reaching the confirmation from step s takes at least 4 - s presses |
| BookingPage.ConfirmationIsTerminal | src/components/pages/BookingPage.tsx:286-299 | step 4 changes no state; its only exits are the calendar and the dashboard |
| BookingPage.StraightThrough | src/components/pages/BookingPage.tsx:14-16 | Continue, Proceed and Confirm reach confirmation with the opening date and time, whatever the tutor's availability |
| BookingPage.PickDateKeepsTime | src/components/pages/BookingPage.tsx:38-42 | picking a date keeps the selected time |
| BookingPage.TimesForMeaning | src/components/pages/BookingPage.tsx:66-68 | the times listed are those of the first entry for the selected date, and none when there is no entry |
| BookingPage.PageBackIffChrome | src/components/pages/BookingPage.tsx:312-324 | the back link is available exactly while the progress bar is shown, before step 4 |
| BookingPage.MarkerOf | src/components/pages/BookingPage.tsx:329-334 | bubble s is current when s equals the step, done below it, and still to come above it |
| BookingPage.ProgressBar | src/components/pages/BookingPage.tsx:326-334 | on steps 1..3 exactly one bubble is current |
| BookingPage.ChargesAgree | src/components/pages/BookingPage.tsx:158-192 | fee, total and amount to pay are all the tutor's hourly rate |
| BookingPage.ScreenFor | src/components/pages/BookingPage.tsx:18-22 | the not-found placeholder shows exactly for ids other than "1".."6"; otherwise the tutor with that id |
| CalendarPage.MonthGrid | src/components/pages/CalendarPage.tsx:15-36 | the grid is the weekday of the first as blanks, then days 1..n of the month in order |
| CalendarPage.GridCoversMonth | src/components/pages/CalendarPage.tsx:23-35 | every day cell is a valid date of the month shown, and every day of the month has its cell |
| CalendarPage.DayUnderItsWeekday | src/components/pages/CalendarPage.tsx:21-33 | each day sits in the column of its own weekday |
| CalendarPage.SessionsForMeaning | src/components/pages/CalendarPage.tsx:38-44 | a blank cell has no sessions; a day cell has exactly the sessions on that day |
| CalendarPage.StepsReturn | src/components/pages/CalendarPage.tsx:49-55 | next then previous (and previous then next) returns to day 1 of the month; December and January roll the year |
| CalendarPage.OpeningMonth | src/components/pages/CalendarPage.tsx:11-36 | the page opens on 24 November 2025; that month starts on a Saturday, and its grid has 36 cells with today in cell 29 |
| CalendarPage.PressKeepsValid | src/components/pages/CalendarPage.tsx:49-59 | every month button leads to a valid date; Today returns to the opening date |
| Dates.DaysInMonth | src/components/pages/CalendarPage.tsx:19-20 | month lengths of the Gregorian calendar: 28 or 29 in February by the leap-year rule, 30 in April, June, September, November, 31 otherwise |
| Dates.DayOfWeekNextDay | src/components/pages/CalendarPage.tsx:21 | the weekday advances by one, modulo 7, from one day to the next |
| Dates.FirstOfNextMonth | src/components/pages/CalendarPage.tsx:18-21 | the first of the next month falls the month's length in days after the first of this one |
| MessagesPage.SelectShowsThread | src/components/pages/MessagesPage.tsx:12-52 | clicking a seeded conversation shows a non-empty thread ending with the message its preview line quotes; the draft and the search are kept |
| MessagesPage.SeedThreads | src/lib/mockData.ts:288-364 | every seeded conversation opens on a non-empty thread whose last message is its preview line |
| MessagesPage.VisibleMeaning | src/components/pages/MessagesPage.tsx:18-20 | a conversation is listed exactly when its name contains the query, ignoring case; an empty query lists all, in order |
| MessagesPage.SendMeaning | src/components/pages/MessagesPage.tsx:22-27 | sending clears the draft exactly when the button is enabled, which is when the draft has a character other than white space; a second send does nothing |
| MessagesPage.SidePanelTargets | src/components/pages/MessagesPage.tsx:181-195 | "Book Another Session" always opens booking for tutor "1"; "View in Calendar" keeps the payload |
| WalletPage.GuardsMeaning | src/components/pages/WalletPage.tsx:106-169 | Add needs a non-empty amount that is not a number at most 0; Withdraw also needs it not to exceed the balance of 150, so the whole balance can be withdrawn; text that parses to NaN enables both |
| WalletPage.HandlersReset | src/components/pages/WalletPage.tsx:19-31 | each handler closes its own dialog and clears the amount, which disables both buttons |
| WalletPage.QuickAmountsGuarded | src/components/pages/WalletPage.tsx:75-78 | every quick amount enables Add; only 200 would exceed the balance in the withdraw dialog |
| WalletPage.SignsSplitByKind | src/components/pages/WalletPage.tsx:249 | credits are marked '+' and debits '-' |
| DashboardPage.TopRatedMeaning | src/components/pages/DashboardPage.tsx:28 | at most four tutors, each rated 4.8 or more, forming a prefix of the highly rated tutors in dataset order; the row has four entries unless fewer qualify |
| DashboardPage.TopRatedSeed | src/components/pages/DashboardPage.tsx:28 | with the seed, the row is Sarah, Michael, David and Jessica |
| DashboardPage.PreviewsArePrefixes | src/components/pages/DashboardPage.tsx:29-30 | the verified row is the first min(4, n) tutors and the class row the first min(3, n) classes |
| DashboardPage.SearchForwardsNothing | src/components/pages/DashboardPage.tsx:32-38 | search and skill chips land on the unfiltered tutor list: the query and the skill are not passed on, and the old payload stays |
| DashboardPage.CardOpensProfile | src/components/pages/DashboardPage.tsx:139-151 | a tutor card opens that tutor's profile; the other buttons keep the payload and land on known pages |
| DashboardPage.CardChipsAccount | src/components/pages/DashboardPage.tsx:179-191 | two badges and a "+k" exactly when there are more than two, with shown plus k equal to the total |
| Chips.ChipPreviewAccounts | src/components/TutorCard.tsx:163-172 | the badges are a prefix of at most n entries; "+k" appears exactly when the list is longer, and shown plus k is the length |
| TutorCard.SkillChipsAccount | src/components/TutorCard.tsx:163-172 | three badges on the default card and two on the modern one, with the "+k" accounting for the rest |
| TutorCard.BadgesMeaning | src/components/TutorCard.tsx:17-21 | the shield shows only on the modern card (rating at least 4.8); the "available today" mark only on the default card, and exactly when today is one of the tutor's dates |
| TutorCard.ApplyMeaning | src/components/TutorCard.tsx:23-36 | only the bookmark changes the card; every other press makes one request; both profile actions pass the tutor's id; Message uses the callback when given and shows a notice otherwise |
| TutorCard.SaveTwice | src/components/TutorCard.tsx:16-27 | two bookmark presses restore the card |
| TutorCard.CardOpensItsTutor | src/components/pages/TutorsPage.tsx:189-195 | on the list's default card for a seeded tutor, "View Profile" opens that tutor's profile, which looks up that same tutor; "Message" opens the messages page; the bookmark leaves the app where it was |
| TutorCard.MessageForgetsTutor | src/components/pages/TutorsPage.tsx:194 | the list's message callback opens the messages page without passing the tutor |
| TutorProfilePage.TutorFor | src/components/pages/TutorProfilePage.tsx:19-26 | the profile finds a tutor exactly for ids "1".."6", the one with that id |
| TutorProfilePage.SameTutorAsBooking | src/components/pages/TutorProfilePage.tsx:19-26 | the profile and the booking wizard agree on which tutor an id names and on when it names none |
| TutorProfilePage.TimesShownIffEnabled | src/components/pages/TutorProfilePage.tsx:29-31 | the times block shows exactly when a selected day is not disabled in the picker, and lists that day's entry |
| TutorProfilePage.OpeningTimes | src/components/pages/TutorProfilePage.tsx:20-31 | the page opens on today's date, and shows times only when the tutor lists today |
| TutorProfilePage.PickedDayShowsTimes | src/components/pages/TutorProfilePage.tsx:300-311 | picking an enabled day always brings up its times |
| TutorProfilePage.TimeNotForwarded | src/components/pages/TutorProfilePage.tsx:318-329 | every time button does what "Book Session" does: go to booking with the tutor's id, and nothing about the time |
| TutorProfilePage.TabsAndBookmark | src/components/pages/TutorProfilePage.tsx:21-36 | "View all" is the Reviews tab; the bookmark flips, and two flips restore the page |
| TutorProfilePage.BookingKeepsTutor | src/components/pages/TutorProfilePage.tsx:329 | booking from a seeded tutor's profile opens the wizard for that tutor; the back link returns to where the profile was opened from |
| GroupClassesPage.ClassesInMeaning | src/components/pages/GroupClassesPage.tsx:27-29 | "all" lists every class; otherwise exactly the classes of the department; the count never exceeds the total |
| GroupClassesPage.SeedEmptyDepartments | src/components/pages/GroupClassesPage.tsx:240-247 | the seeded departments without a class show the empty state |
| GroupClassesPage.SpotsLeftMeaning | src/components/pages/GroupClassesPage.tsx:229-233 | a class is full exactly when no spot is left; the spots left plus the enrolled make the class size |
| GroupClassesPage.SeedClassesOpen | src/lib/mockData.ts:418-515 | every seeded class has room |
| GroupClassesPage.TopicChipsAccount | src/components/pages/GroupClassesPage.tsx:176-187 | three topic badges and a "+k more" that accounts for the rest |
| GroupClassesPage.ApplyMeaning | src/components/pages/GroupClassesPage.tsx:31-44 | clearing the filters lists every class; enrolling closes the dialog and heads for the calendar exactly when a class is selected |
| GroupClassesPage.FilterPanelSwitch | src/components/pages/GroupClassesPage.tsx:59-122 | the "All Departments" and department buttons are on screen exactly while the filter panel is shown; the header switch flips the panel and nothing else, and two presses restore the page |
| GroupClassesPage.FullClassEnrolled | src/components/pages/GroupClassesPage.tsx:146-229 | a full class can be clicked and enrolled in |
| GroupClassesPage.GuardedEnrolsOnlyOpen | src/components/pages/GroupClassesPage.tsx:229-233 | with a capacity check on the card, no run of presses enrols in a full class |
| GroupClassesPage.GuardAgrees | src/components/pages/GroupClassesPage.tsx:146-229 | the guarded page differs from the page only on a click on a full class |
| RecordingsPage.VisibleMeaning | src/components/pages/RecordingsPage.tsx:27-38 | a recording is listed exactly when it passes the department test and the search test over title, subject and topics |
| RecordingsPage.NeutralShowsAll | src/components/pages/RecordingsPage.tsx:28-31 | "all" with an empty query lists every recording, in order |
| RecordingsPage.DepartmentNarrows | src/components/pages/RecordingsPage.tsx:28-29 | choosing a department only removes recordings from the "all" list |
| RecordingsPage.VisibleViewsBounded | src/components/pages/RecordingsPage.tsx:99 | the total-views header is over the whole list, so the listed recordings never account for more |
| RecordingsPage.SeedTotalViews | src/components/pages/RecordingsPage.tsx:99 | the seeded recordings have 1682 views between them |
| RecordingsPage.ApplyMeaning | src/components/pages/RecordingsPage.tsx:221-233 | Clear Filters lists every recording; "All Departments" keeps the query; playing and closing do not change the list |
| RecordingsPage.FilterPanelSwitch | src/components/pages/RecordingsPage.tsx:57-136 | the "All Departments" and department buttons are on screen exactly while the filter panel is shown; the header switch flips the panel and leaves the list as it was |
| RecordingsPage.OpensOnAll | src/components/pages/RecordingsPage.tsx:22-23 | the page opens listing every recording |
| RecordingsPage.TopicChipsAccount | src/components/pages/RecordingsPage.tsx:205-214 | two topic badges and a "+k" for the rest |
| MockData.TutorIdsDistinct | src/lib/mockData.ts:64-173 | the seeded tutor ids are pairwise distinct |
| MockData.TutorRanges | src/lib/mockData.ts:64-173 | every seeded tutor is rated 4.5 to 5 and charges 0 to 50 an hour |
| MockData.TutorDepartmentsKnown | src/lib/mockData.ts:64-173 | every seeded tutor's department is in the department list |
| MockData.GroupClassesWithinCapacity | src/lib/mockData.ts:418-515 | no seeded class has more enrolled than places |
| MockData.ConversationsMatchThreads | src/lib/mockData.ts:288-364 | every conversation has a thread, and its preview line is the thread's last message |
| MockData.TutorById | src/components/pages/TutorProfilePage.tsx:19 | the lookup finds a tutor with the id when one exists, and reports none exactly when no tutor has it |
| MockData.LookupOwnId | src/components/pages/BookingPage.tsx:18 | with distinct ids, looking a tutor up by its own id finds that tutor |
| MockData.SeedLookup | src/lib/mockData.ts:64-173 | the seed ids are exactly "1" to "6" |
| MockData.AvailabilityOn | src/components/pages/TutorProfilePage.tsx:29-31 | the entry found is the tutor's and has the date; none is found exactly when no entry has it |
| MockData.AvailabilityOnFirst | src/components/pages/TutorProfilePage.tsx:29-31 | the entry found is the first one for the date |
| Text.Includes | src/components/pages/TutorsPage.tsx:57 | `includes` holds exactly when the needle occurs at some position |
| Text.TrimEmptyIffBlank | src/components/pages/MessagesPage.tsx:160 | a string trims to empty exactly when every character is white space |

## Left out

- Markup and styling: layout, icons, hover effects and the internals of the Tabs, Dialog, Slider and Checkbox components are not modelled. The model keeps only what a control does to the page state.
- Toasts, and the 1.5-second delay before the group-class enrolment moves to the calendar, are not modelled. The model performs the navigation at once.
- Date handling: JavaScript `Date` parsing, `toDateString`, `toLocaleDateString` and time zones are not modelled. Dates are abstract (year, month, day) values. Month length and weekday come from the Gregorian rules.
- CalendarPage.Prev, CalendarPage.Next, CalendarPage.StepsReturn: dates follow the proleptic Gregorian calendar for every integer year. The page builds each date with `new Date(y, m, d)`, which reads a year of 0..99 as 1900 + y and is limited to ±8.64e15 ms around 1970. Neither rule is modelled. So the model's weekdays, month grid and month round trip hold for the page only from January 100 on, and within the `Date` range. Reaching year 99 takes about 23,000 presses of the previous-month button.
- The wall clock: "today" on the tutor card and the profile's first selected date are parameters.
- `parseFloat`: the wallet guards take the parsed value, a number or NaN, as a parameter.
- Floating-point display arithmetic is not modelled: the ×0.9 and ×0.85 package prices, the enrolment progress bar, `toFixed`, and the "₦{150 × rate}" balance line of the booking payment step. Ratings and amounts are exact reals.
- `toLowerCase` is ASCII only. Unicode case mapping is not modelled.
- The login page, the settings page and the review card hold no rule worth stating. Logging in appears as `App.LogIn`.
- Reviews, skill categories and the other page-data keys are not modelled; nothing reads them. The payload keeps only `tutorId`.
- Fixed display figures are not modelled: the rating breakdown, "500+ tutors", and the weekly availability grid of the profile.
- App.Navigate, App.Back: no contract of their own, because they are the transitions. Their properties are stated by `NavigateThenBack`, `BackTwice`, `SingleSlotHistory` and `PayloadSticks`.
- TutorProfilePage.Apply: the date picker's choice is a parameter. Whether clicking the selected day again clears it is the picker's behaviour, which is not part of this model, so `PickDay(None)` is allowed at any time.
- GroupClassesPage.Apply: clicking the greyed-out "Class Full" button itself does nothing in a browser. Only a click elsewhere on the card is modelled, and that click reaches the card's handler.

## Findings

| source | as written | input that shows it | evidently intended | confidence | as-written member | corrected member |
|---|---|---|---|---|---|---|
| src/components/pages/GroupClassesPage.tsx:146-229 | the "Class Full" rule only disables the inner button; the card's own click selects any class, and "Enroll & Pay" does not check capacity | a listed class with enrolled = maxStudents (15 of 15): click the card, then "Enroll & Pay"; the page enrols and moves to the calendar | a full class cannot be enrolled in | medium, not executed | GroupClassesPage.FullClassEnrolled | GroupClassesPage.GuardedEnrolsOnlyOpen |
