/** A tutor's profile page: the tutor found by id (or "Tutor not found"),
    three tabs, a date picker that enables only the tutor's listed dates,
    the times of the selected date, and buttons to book, message and save.
    The page's first selected date is the clock's day, a parameter here. */
module TutorProfilePage {
  import opened Seqs
  import opened Dates
  import opened MockData
  import opened App
  import BookingPage

  datatype Tab = Overview | Reviews | AvailabilityTab

  /** `selectedDate`, `isSaved`, `selectedTab`. */
  datatype Profile = Profile(selected: Option<Date>, saved: bool, tab: Tab)

  /** The page opens with today selected, not saved, on the overview. */
  function Init(today: Date): Profile
  {
    Profile(Some(today), false, Overview)
  }

  /** The tutor the page shows, if the id names one. */
  function TutorFor(id: string): (r: Option<Tutor>)
    ensures r.None? <==> id !in {"1", "2", "3", "4", "5", "6"}
    ensures r.Some? ==> r.value in MockData.Tutors && r.value.id == id
  {
    SeedLookup(id);
    TutorById(MockData.Tutors, id)
  }

  /** The profile and the booking wizard look the id up the same way: both
      find a tutor, the same one, or both show their not-found screen. */
  lemma SameTutorAsBooking(id: string)
    ensures TutorFor(id).None? <==> BookingPage.ScreenFor(id).NotFound?
    ensures TutorFor(id).Some? ==> BookingPage.ScreenFor(id) == BookingPage.Shown(TutorFor(id).value)
  {
  }

  // ---------------------------------------------------------------------
  // Date picker

  /** The picker greys out every day the tutor does not list. */
  predicate Disabled(t: Tutor, d: Date)
  {
    !AvailableOn(t, d)
  }

  /** The availability entry of the selected day: none when no day is
      selected, otherwise the first entry for that day. */
  function SelectedAvailability(t: Tutor, selected: Option<Date>): Option<Availability>
  {
    match selected
    case None => None
    case Some(d) => AvailabilityOn(t, d)
  }

  /** The "Available Times" block shows exactly when an enabled day is
      selected, and lists that day's times. */
  lemma TimesShownIffEnabled(t: Tutor, selected: Option<Date>)
    ensures SelectedAvailability(t, selected).Some? <==> selected.Some? && !Disabled(t, selected.value)
    ensures SelectedAvailability(t, selected).Some? ==>
      SelectedAvailability(t, selected).value in t.availability
      && SelectedAvailability(t, selected).value.date == selected.value
  {
    if selected.Some? {
      AvailableOnIff(t, selected.value);
    }
  }

  /** The opening selection is not checked against the picker: when the
      tutor does not list today, the page opens with no times shown. */
  lemma OpeningTimes(t: Tutor, today: Date)
    ensures SelectedAvailability(t, Init(today).selected).Some? <==> AvailableOn(t, today)
  {
    TimesShownIffEnabled(t, Some(today));
  }

  // ---------------------------------------------------------------------
  // Buttons

  datatype Action =
    | PickDay(day: Option<Date>)  // the picker's choice; `None` clears it
    | SelectTab(tab: Tab)
    | ViewAllReviews              // "View all" under the recent reviews
    | TimeSlot(time: string)      // one of the listed times
    | BookSession
    | MessageTutor
    | Save
    | BackLink

  datatype Outcome = Stay(p: Profile) | Go(page: string, data: Option<PageData>) | GoBack

  /** The controls on screen: enabled days only, listed times only. */
  predicate Offered(t: Tutor, p: Profile, a: Action)
  {
    match a
    case PickDay(d) => d.None? || !Disabled(t, d.value)
    case TimeSlot(x) =>
      SelectedAvailability(t, p.selected).Some? && x in SelectedAvailability(t, p.selected).value.times
    case _ => true
  }

  function Apply(t: Tutor, p: Profile, a: Action): Outcome
  {
    match a
    case PickDay(d) => Stay(p.(selected := d))
    case SelectTab(tab) => Stay(p.(tab := tab))
    case ViewAllReviews => Stay(p.(tab := Reviews))
    case TimeSlot(_) => Go(Id(Booking), Some(PageData(Some(t.id))))
    case BookSession => Go(Id(Booking), Some(PageData(Some(t.id))))
    case MessageTutor => Go(Id(Page.Messages), None)
    case Save => Stay(p.(saved := !p.saved))
    case BackLink => GoBack
  }

  /** Picking an offered day always brings up its times. */
  lemma PickedDayShowsTimes(t: Tutor, p: Profile, d: Date)
    requires Offered(t, p, PickDay(Some(d)))
    ensures Apply(t, p, PickDay(Some(d))).Stay?
    ensures SelectedAvailability(t, Apply(t, p, PickDay(Some(d))).p.selected) == AvailabilityOn(t, d)
    ensures SelectedAvailability(t, Apply(t, p, PickDay(Some(d))).p.selected).Some?
  {
    AvailableOnIff(t, d);
  }

  /** A time button books with the tutor only: the time clicked is not
      passed on, so every time button does what "Book Session" does. */
  lemma TimeNotForwarded(t: Tutor, p: Profile, x: string)
    ensures Apply(t, p, TimeSlot(x)) == Apply(t, p, BookSession)
    ensures Apply(t, p, BookSession).Go? && Apply(t, p, BookSession).data == Some(PageData(Some(t.id)))
  {
  }

  /** "View all" is the Reviews tab; the bookmark flips and flips back. */
  lemma TabsAndBookmark(t: Tutor, p: Profile)
    ensures Apply(t, p, ViewAllReviews) == Apply(t, p, SelectTab(Reviews))
    ensures Apply(t, p, Save).p.saved != p.saved
    ensures Apply(t, Apply(t, p, Save).p, Save) == Stay(p)
  {
  }

  /** The shell carries an outcome out. */
  function Follow(s: State, o: Outcome): State
  {
    match o
    case Stay(_) => s
    case Go(page, data) => Navigate(s, page, data)
    case GoBack => Back(s)
  }

  /** Booking from the profile of a seeded tutor opens the wizard for the
      same tutor; the back link returns to wherever the profile was opened
      from. */
  lemma BookingKeepsTutor(s: State, t: Tutor, p: Profile)
    requires t in MockData.Tutors
    ensures Render(Follow(s, Apply(t, p, BookSession))) == BookingView(t.id)
    ensures BookingPage.ScreenFor(t.id) == BookingPage.Shown(t)
    ensures Follow(s, Apply(t, p, BackLink)).current == s.previous
  {
    SeedLookupOwn(t);
  }
}
