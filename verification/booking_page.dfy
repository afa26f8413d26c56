/** The four-step booking wizard: pick a date and time, review, pay, and
    the confirmation screen. The page state is the step number plus the
    selected date and time; every button either moves the step, changes the
    selection, or leaves the page. */
module BookingPage {
  import opened Seqs
  import opened Dates
  import opened MockData

  /** `step`, `selectedDate`, `selectedTime`. */
  datatype Wizard = Wizard(step: int, date: Date, time: string)

  /** The wizard opens on step 1 with 26 November 2025 at 2:00 PM selected,
      whatever the tutor's availability. */
  const Init: Wizard := Wizard(1, Date(2025, 11, 26), "2:00 PM")

  /** The buttons of the page. */
  datatype Action =
    | PickDate(date: Date)   // an available-date button (step 1)
    | PickTime(time: string) // an available-time button (step 1)
    | Continue               // step 1
    | ReviewBack             // step 2
    | ProceedToPayment       // step 2
    | PaymentBack            // step 3
    | Confirm                // step 3
    | ViewCalendar           // step 4
    | BackToHome             // step 4
    | PageBack               // the page-level back link (steps 1 to 3)

  /** What a button press leads to: a new wizard state, a navigation to
      another page, or the shell's back. */
  datatype Outcome = Stay(w: Wizard) | Leave(page: string) | GoBack

  /** The times listed for a date: those of the first availability entry
      for that date, none when the tutor has no entry for it. */
  function TimesFor(t: Tutor, d: Date): seq<string>
  {
    match AvailabilityOn(t, d)
    case None => []
    case Some(a) => a.times
  }

  /** The listed times are exactly the times of the first entry for the
      date; a date without an entry lists none. */
  lemma TimesForMeaning(t: Tutor, d: Date, i: int)
    ensures (forall j :: 0 <= j < |t.availability| ==> t.availability[j].date != d) ==> TimesFor(t, d) == []
    ensures 0 <= i < |t.availability| && t.availability[i].date == d
            && (forall j :: 0 <= j < i ==> t.availability[j].date != d)
            ==> TimesFor(t, d) == t.availability[i].times
  {
    if 0 <= i < |t.availability| && t.availability[i].date == d
       && (forall j :: 0 <= j < i ==> t.availability[j].date != d) {
      AvailabilityOnFirst(t, d, i);
    }
  }

  /** The step transition of one button, `None` when the button is not on
      screen at the current step. */
  function Apply(t: Tutor, w: Wizard, a: Action): Option<Outcome>
  {
    match a
    case PickDate(d) =>
      if w.step == 1 && AvailableOn(t, d) then Some(Stay(w.(date := d))) else None
    case PickTime(tm) =>
      if w.step == 1 && tm in TimesFor(t, w.date) then Some(Stay(w.(time := tm))) else None
    case Continue => if w.step == 1 then Some(Stay(w.(step := 2))) else None
    case ReviewBack => if w.step == 2 then Some(Stay(w.(step := 1))) else None
    case ProceedToPayment => if w.step == 2 then Some(Stay(w.(step := 3))) else None
    case PaymentBack => if w.step == 3 then Some(Stay(w.(step := 2))) else None
    case Confirm => if w.step == 3 then Some(Stay(w.(step := 4))) else None
    case ViewCalendar => if w.step == 4 then Some(Leave("calendar")) else None
    case BackToHome => if w.step == 4 then Some(Leave("dashboard")) else None
    case PageBack => if w.step < 4 then Some(GoBack) else None
  }

  /** The step moves only along 1→2, 2→3, 3→4 forwards and 2→1, 3→2
      backwards, and stays in 1..4. */
  lemma StepTransitions(t: Tutor, w: Wizard, a: Action)
    requires 1 <= w.step <= 4
    ensures match Apply(t, w, a)
      case Some(Stay(w')) =>
        && 1 <= w'.step <= 4
        && (w'.step == w.step || (w.step, w'.step) in {(1, 2), (2, 3), (3, 4), (2, 1), (3, 2)})
      case _ => true
  {
  }

  /** The confirmation step is terminal: it changes no state and can only
      be left for the calendar or the dashboard. */
  lemma ConfirmationIsTerminal(t: Tutor, w: Wizard, a: Action)
    requires w.step == 4
    ensures Apply(t, w, a).Some? ==> Apply(t, w, a) in {Some(Leave("calendar")), Some(Leave("dashboard"))}
    ensures Apply(t, w, a).Some? <==> a in {ViewCalendar, BackToHome}
  {
  }

  /** Choosing a date keeps the chosen time, even one the new date does not
      list. */
  lemma PickDateKeepsTime(t: Tutor, w: Wizard, d: Date)
    requires w.step == 1 && AvailableOn(t, d)
    ensures Apply(t, w, PickDate(d)) == Some(Stay(Wizard(1, d, w.time)))
  {
  }

  /** A run of button presses that stays on the page. */
  function Run(t: Tutor, w: Wizard, acts: seq<Action>): Option<Wizard>
    decreases |acts|
  {
    if |acts| == 0 then Some(w)
    else match Apply(t, w, acts[0])
      case Some(Stay(w')) => Run(t, w', acts[1..])
      case _ => None
  }

  /** Every state reachable from the opening one has its step in 1..4. */
  lemma {:induction false} RunKeepsStepInRange(t: Tutor, w: Wizard, acts: seq<Action>)
    requires 1 <= w.step <= 4
    ensures Run(t, w, acts).Some? ==> 1 <= Run(t, w, acts).value.step <= 4
    decreases |acts|
  {
    if |acts| > 0 {
      StepTransitions(t, w, acts[0]);
      match Apply(t, w, acts[0])
      case Some(Stay(w')) => RunKeepsStepInRange(t, w', acts[1..]);
      case _ =>
    }
  }

  /** Reaching confirmation takes at least the three forward presses. */
  lemma {:induction false} ConfirmNeedsThreeSteps(t: Tutor, w: Wizard, acts: seq<Action>)
    requires 1 <= w.step <= 4
    ensures Run(t, w, acts).Some? && Run(t, w, acts).value.step == 4 ==> w.step + |acts| >= 4
    decreases |acts|
  {
    if |acts| > 0 {
      StepTransitions(t, w, acts[0]);
      match Apply(t, w, acts[0])
      case Some(Stay(w')) => ConfirmNeedsThreeSteps(t, w', acts[1..]);
      case _ =>
    }
  }

  /** Continue, Proceed and Confirm take the opening state to the
      confirmation with the opening selection, with no check that the
      tutor is free at that date and time. */
  lemma StraightThrough(t: Tutor)
    ensures Run(t, Init, [Continue, ProceedToPayment, Confirm]) == Some(Init.(step := 4))
  {
    assert [Continue, ProceedToPayment, Confirm][1..] == [ProceedToPayment, Confirm];
    assert [ProceedToPayment, Confirm][1..] == [Confirm];
  }

  /** The back link and the progress bar are shown before confirmation. */
  predicate ChromeShown(w: Wizard)
  {
    w.step < 4
  }

  /** The back link is available exactly when it is shown. */
  lemma PageBackIffChrome(t: Tutor, w: Wizard)
    ensures Apply(t, w, PageBack).Some? <==> ChromeShown(w)
  {
  }

  datatype Marker = Current | Done | Ahead

  /** The colour of progress bubble `s`. */
  function MarkerOf(s: int, step: int): (r: Marker)
    ensures r == Current <==> s == step
    ensures r == Done <==> s < step
    ensures r == Ahead <==> s > step
  {
    if s == step then Current else if s < step then Done else Ahead
  }

  /** On steps 1..3 exactly one of the bubbles 1, 2, 3 is current; the ones
      to its left are done and the ones to its right still to come. */
  lemma ProgressBar(step: int)
    requires 1 <= step <= 3
    ensures |Filter([1, 2, 3], IsCurrentAt(step))| == 1
    ensures forall s :: 1 <= s <= 3 ==> (MarkerOf(s, step) == Done <==> s < step)
  {
    FilterAtMostOne([1, 2, 3], IsCurrentAt(step));
    assert step in Filter([1, 2, 3], IsCurrentAt(step));
  }

  function IsCurrentAt(step: int): int -> bool
  {
    s => MarkerOf(s, step) == Current
  }

  /** The session fee, the total and the amount to pay. */
  function SessionFee(t: Tutor): real { t.hourlyRate }
  function Total(t: Tutor): real { t.hourlyRate }
  function AmountToPay(t: Tutor): real { t.hourlyRate }

  /** One hour at the tutor's rate, with nothing added: fee, total and
      amount to pay are one and the same figure. */
  lemma ChargesAgree(t: Tutor)
    ensures SessionFee(t) == Total(t) == AmountToPay(t) == t.hourlyRate
  {
  }

  /** What the page shows for a tutor id: the wizard, or the not-found
      placeholder. */
  datatype Screen = NotFound | Shown(tutor: Tutor)

  function ScreenFor(id: string): (r: Screen)
    ensures r.NotFound? <==> id !in {"1", "2", "3", "4", "5", "6"}
    ensures r.Shown? ==> r.tutor in Tutors && r.tutor.id == id
  {
    SeedLookup(id);
    match TutorById(Tutors, id)
    case None => NotFound
    case Some(t) => Shown(t)
  }
}
