/** The application shell: which page is on screen, the one page "back"
    returns to, and the payload the last navigation carried. Pages ask for
    navigation by id; the id is taken as given (no check that it names a
    page), and rendering falls back to the dashboard for an unknown id. */
module App {
  import opened Seqs

  /** The page identifiers the shell knows. */
  datatype Page =
    | Login | Dashboard | Tutors | TutorProfile | Booking | Calendar
    | Messages | Wallet | Settings | GroupClasses | Recordings

  function Id(p: Page): string
  {
    match p
    case Login => "login"
    case Dashboard => "dashboard"
    case Tutors => "tutors"
    case TutorProfile => "tutor-profile"
    case Booking => "booking"
    case Calendar => "calendar"
    case Messages => "messages"
    case Wallet => "wallet"
    case Settings => "settings"
    case GroupClasses => "group-classes"
    case Recordings => "recordings"
  }

  /** The page an identifier names, if any. */
  function PageOf(id: string): (r: Option<Page>)
    ensures r.Some? ==> Id(r.value) == id
  {
    if id == "login" then Some(Login)
    else if id == "dashboard" then Some(Dashboard)
    else if id == "tutors" then Some(Tutors)
    else if id == "tutor-profile" then Some(TutorProfile)
    else if id == "booking" then Some(Booking)
    else if id == "calendar" then Some(Calendar)
    else if id == "messages" then Some(Messages)
    else if id == "wallet" then Some(Wallet)
    else if id == "settings" then Some(Settings)
    else if id == "group-classes" then Some(GroupClasses)
    else if id == "recordings" then Some(Recordings)
    else None
  }

  /** Every page is named by its identifier and by no other. */
  lemma PageIdRoundTrip(p: Page, id: string)
    ensures PageOf(Id(p)) == Some(p)
    ensures PageOf(id) == Some(p) <==> id == Id(p)
  {
  }

  /** The navigation payload. Only `tutorId` is ever passed; `{}` is the
      payload without it. */
  datatype PageData = PageData(tutorId: Option<string>)

  const EmptyData: PageData := PageData(None)

  /** `currentPage`, `previousPage` and `pageData`. The page slots hold raw
      identifiers, since navigation does not check them. */
  datatype State = State(current: string, previous: string, data: PageData)

  /** The shell opens on the login page, with "back" pointing at the
      dashboard and no payload. */
  const Init: State := State(Id(Login), Id(Dashboard), EmptyData)

  /** `handleNavigate(page, data)`: the old page becomes the back target;
      the payload is replaced only when one is supplied. */
  function Navigate(s: State, page: string, data: Option<PageData>): State
  {
    State(page, s.current, if data.Some? then data.value else s.data)
  }

  /** `handleBack`: return to the back target, which stays where it is. */
  function Back(s: State): State
  {
    s.(current := s.previous)
  }

  /** Back undoes the last navigation's page change, whatever came before,
      and keeps the payload that navigation left. */
  lemma NavigateThenBack(s: State, page: string, data: Option<PageData>)
    ensures Back(Navigate(s, page, data)).current == s.current
    ensures Back(Navigate(s, page, data)).previous == s.current
    ensures Back(Navigate(s, page, data)).data == Navigate(s, page, data).data
  {
  }

  /** There is only one slot of history: a second back stays put. */
  lemma BackTwice(s: State)
    ensures Back(Back(s)) == Back(s)
    ensures Back(s).previous == s.previous && Back(s).data == s.data
  {
  }

  /** Two navigations and a back land on the middle page, not the first. */
  lemma SingleSlotHistory(s: State, p: string, q: string, d: Option<PageData>, e: Option<PageData>)
    ensures Back(Navigate(Navigate(s, p, d), q, e)).current == p
  {
  }

  /** A navigation without payload keeps the previous one, tutor id
      included; one with a payload replaces it whole, so `{}` clears the id. */
  lemma PayloadSticks(s: State, p: string, q: string, id: string)
    ensures Navigate(Navigate(s, p, Some(PageData(Some(id)))), q, None).data.tutorId == Some(id)
    ensures Navigate(s, q, None).data == s.data
    ensures Navigate(s, q, Some(EmptyData)).data.tutorId == None
  {
  }

  // ---------------------------------------------------------------------
  // Rendering

  /** What `renderPage` puts on screen. */
  datatype View =
    | LoginView | DashboardView | TutorsView
    | TutorProfileView(tutorId: string) | BookingView(tutorId: string)
    | CalendarView | MessagesView | WalletView | SettingsView
    | GroupClassesView | RecordingsView

  /** `pageData.tutorId || '1'`: the id when present and non-empty. */
  function TutorIdOf(d: PageData): (r: string)
    ensures r != ""
    ensures d.tutorId.Some? && d.tutorId.value != "" ==> r == d.tutorId.value
    ensures d.tutorId.None? || d.tutorId == Some("") ==> r == "1"
  {
    if d.tutorId.Some? && d.tutorId.value != "" then d.tutorId.value else "1"
  }

  function Render(s: State): View
  {
    match PageOf(s.current)
    case None => DashboardView
    case Some(p) =>
      match p
      case Login => LoginView
      case Dashboard => DashboardView
      case Tutors => TutorsView
      case TutorProfile => TutorProfileView(TutorIdOf(s.data))
      case Booking => BookingView(TutorIdOf(s.data))
      case Calendar => CalendarView
      case Messages => MessagesView
      case Wallet => WalletView
      case Settings => SettingsView
      case GroupClasses => GroupClassesView
      case Recordings => RecordingsView
  }

  /** Unknown identifiers show the dashboard; the two tutor pages fall back
      to tutor "1" when the payload has no usable id. */
  lemma RenderFallbacks(s: State)
    ensures PageOf(s.current).None? ==> Render(s) == DashboardView
    ensures s.current == Id(TutorProfile) ==>
      Render(s) == TutorProfileView(if s.data.tutorId == None || s.data.tutorId == Some("") then "1" else s.data.tutorId.value)
    ensures s.current == Id(Booking) ==>
      Render(s) == BookingView(if s.data.tutorId == None || s.data.tutorId == Some("") then "1" else s.data.tutorId.value)
  {
  }

  /** The shell renders each known page as its own view, and the dashboard
      view for the dashboard id and for unknown ids only. */
  lemma RenderDashboardIff(s: State)
    ensures Render(s) == DashboardView <==> PageOf(s.current) == Some(Dashboard) || PageOf(s.current).None?
  {
  }

  /** The navigation bar is drawn on every page but login. */
  predicate NavBarShown(s: State)
  {
    s.current != Id(Login)
  }

  /** The login page's only action: go to the dashboard. */
  function LogIn(s: State): (r: State)
    ensures NavBarShown(r) && Render(r) == DashboardView
    ensures r.data == s.data
  {
    Navigate(s, Id(Dashboard), None)
  }

  /** From the opening state, logging in shows the dashboard with the bar,
      and back returns to the login page. */
  lemma OpeningSequence()
    ensures !NavBarShown(Init) && Render(Init) == LoginView
    ensures Back(LogIn(Init)).current == Id(Login)
    ensures Back(Init).current == Id(Dashboard)
  {
  }
}
