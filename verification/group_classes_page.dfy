/** The group classes page: a department filter over the class list, one
    card per class, and an enrolment dialog for the class picked. Enrolling
    closes the dialog and moves on to the calendar. */
module GroupClassesPage {
  import opened Seqs
  import opened MockData
  import opened Chips

  /** The filter value that keeps every class. */
  const All: string := "all"

  /** `selectedDepartment`, `selectedClass` (the dialog is open exactly
      when a class is selected) and `showFilters` (the department panel is
      drawn). */
  datatype Listing = Listing(department: string, selected: Option<GroupClass>, showFilters: bool)

  const Init: Listing := Listing(All, None, true)

  function InDepartment(d: string): GroupClass -> bool
  {
    (g: GroupClass) => g.department == d
  }

  /** `filteredClasses`: the whole list for "all", otherwise the classes of
      the department, in list order. */
  function ClassesIn(dept: string, gs: seq<GroupClass>): seq<GroupClass>
  {
    if dept == All then gs else Filter(gs, InDepartment(dept))
  }

  /** A class is listed exactly when "all" is chosen or it belongs to the
      chosen department; the count above the list never exceeds the total. */
  lemma ClassesInMeaning(dept: string, gs: seq<GroupClass>)
    ensures forall g :: g in ClassesIn(dept, gs) <==> g in gs && (dept == All || g.department == dept)
    ensures |ClassesIn(dept, gs)| <= |gs|
    ensures dept == All ==> ClassesIn(dept, gs) == gs
  {
  }

  /** The five departments without a seeded class (Chemistry, Engineering,
      Biology, Economics, Business) show the empty state. */
  lemma SeedEmptyDepartments(d: string)
    requires d != All && d !in {"Computer Science", "Mathematics", "Physics"}
    ensures ClassesIn(d, GroupClasses) == []
  {
    SeedClassDepartments();
    FilterNone(GroupClasses, InDepartment(d));
  }

  lemma SeedClassDepartments()
    ensures forall i :: 0 <= i < |GroupClasses| ==>
      GroupClasses[i].department in {"Computer Science", "Mathematics", "Physics"}
  {
  }

  // ---------------------------------------------------------------------
  // A card

  /** The card's button greys out once the class has no room. */
  predicate IsFull(g: GroupClass)
  {
    g.enrolled >= g.maxStudents
  }

  /** The dialog's "spots left"; negative for an over-full class. */
  function SpotsLeft(g: GroupClass): int
  {
    g.maxStudents - g.enrolled
  }

  /** A class is full exactly when it has no spot left, and the spots left
      plus the enrolled make up the class size. */
  lemma SpotsLeftMeaning(g: GroupClass)
    ensures IsFull(g) <==> SpotsLeft(g) <= 0
    ensures SpotsLeft(g) + g.enrolled == g.maxStudents
  {
  }

  /** The seeded classes all have room. */
  lemma SeedClassesOpen()
    ensures forall i :: 0 <= i < |GroupClasses| ==> !IsFull(GroupClasses[i]) && SpotsLeft(GroupClasses[i]) > 0
  {
  }

  /** Three topic badges and a "+k more". */
  function TopicChips(g: GroupClass): Preview<string>
  {
    ChipPreview(g.topics, 3)
  }

  lemma TopicChipsAccount(g: GroupClass)
    ensures Count(TopicChips(g)) == |g.topics| && |TopicChips(g).shown| <= 3
    ensures TopicChips(g).more.Some? <==> |g.topics| > 3
  {
    ChipPreviewAccounts(g.topics, 3);
  }

  // ---------------------------------------------------------------------
  // Buttons

  datatype Action =
    | AllButton                       // "All Departments"
    | DepartmentButton(dept: string)  // one per department of the dataset
    | ClearFilters                    // the empty state's button
    | CardClick(g: GroupClass)        // anywhere on a class card
    | CloseDialog                     // Cancel, or dismissing the dialog
    | EnrollAndPay
    | ToggleFilters                   // the header's filter switch

  /** The page after a press, and the page it then moves to, if any. */
  datatype Step = Step(listing: Listing, go: Option<string>)

  /** The controls on screen over the class list `gs`: the department
      buttons live in the filter panel, which is drawn only while it is
      shown. */
  predicate Offered(l: Listing, gs: seq<GroupClass>, a: Action)
  {
    match a
    case DepartmentButton(d) => l.showFilters && d in Departments
    case ClearFilters => |ClassesIn(l.department, gs)| == 0
    case CardClick(g) => g in ClassesIn(l.department, gs)
    case CloseDialog => l.selected.Some?
    case EnrollAndPay => l.selected.Some?
    case AllButton => l.showFilters
    case ToggleFilters => true
  }

  /** The handlers as the page has them. The card's own click selects the
      class, with no look at its capacity; the greyed-out button inside it
      has no handler of its own. */
  function Apply(l: Listing, a: Action): Step
  {
    match a
    case AllButton => Step(l.(department := All), None)
    case DepartmentButton(d) => Step(l.(department := d), None)
    case ClearFilters => Step(l.(department := All), None)
    case CardClick(g) => Step(l.(selected := Some(g)), None)
    case CloseDialog => Step(l.(selected := None), None)
    case EnrollAndPay =>
      if l.selected.Some? then Step(l.(selected := None), Some("calendar"))
      else Step(l, None)
    case ToggleFilters => Step(l.(showFilters := !l.showFilters), None)
  }

  /** The department buttons are on screen exactly while the panel is; the
      switch hides or shows the panel, changes nothing else, and two presses
      restore the page. */
  lemma FilterPanelSwitch(l: Listing, gs: seq<GroupClass>, d: string)
    ensures Offered(l, gs, AllButton) <==> l.showFilters
    ensures Offered(l, gs, DepartmentButton(d)) <==> l.showFilters && d in Departments
    ensures Apply(l, ToggleFilters) == Step(l.(showFilters := !l.showFilters), None)
    ensures Apply(Apply(l, ToggleFilters).listing, ToggleFilters).listing == l
  {
  }

  /** Clearing the filters shows every class; the department buttons leave
      the dialog alone; enrolling closes the dialog and heads for the
      calendar exactly when a class is selected. */
  lemma ApplyMeaning(l: Listing, gs: seq<GroupClass>, a: Action)
    ensures a in {AllButton, ClearFilters} ==> ClassesIn(Apply(l, a).listing.department, gs) == gs
    ensures a.AllButton? || a.DepartmentButton? || a.ClearFilters? ==> Apply(l, a).listing.selected == l.selected
    ensures a == EnrollAndPay ==> (Apply(l, a).go == Some("calendar") <==> l.selected.Some?)
    ensures a == EnrollAndPay ==> Apply(l, a).listing.selected.None?
    ensures a != EnrollAndPay ==> Apply(l, a).go.None?
  {
  }

  /** A run of presses: the classes enrolled in, in order. */
  function Enrolments(l: Listing, acts: seq<Action>): seq<GroupClass>
    decreases |acts|
  {
    if |acts| == 0 then []
    else
      var st := Apply(l, acts[0]);
      (if st.go.Some? then [l.selected.value] else []) + Enrolments(st.listing, acts[1..])
  }

  /** A full class, listed and clicked, is enrolled in: clicking the card
      body opens the dialog even when its button is greyed out, and the
      dialog does not check capacity. */
  lemma FullClassEnrolled()
    ensures var g := GroupClasses[0].(enrolled := 15);
      && IsFull(g)
      && Offered(Init, [g], CardClick(g))
      && Offered(Apply(Init, CardClick(g)).listing, [g], EnrollAndPay)
      && Enrolments(Init, [CardClick(g), EnrollAndPay]) == [g]
  {
    var g := GroupClasses[0].(enrolled := 15);
    var acts := [CardClick(g), EnrollAndPay];
    var dialog := Listing(All, Some(g), true);
    assert Apply(Init, CardClick(g)) == Step(dialog, None);
    assert acts[1..] == [EnrollAndPay];
    assert Apply(dialog, EnrollAndPay) == Step(Init, Some("calendar"));
    assert Enrolments(Init, []) == [];
    assert Enrolments(dialog, [EnrollAndPay]) == [g] + Enrolments(Init, []);
  }

  /** The page with the capacity check the greyed-out button stands for:
      clicking a full class's card does nothing. */
  function ApplyGuarded(l: Listing, a: Action): Step
  {
    match a
    case CardClick(g) => if IsFull(g) then Step(l, None) else Apply(l, a)
    case _ => Apply(l, a)
  }

  function EnrolmentsGuarded(l: Listing, acts: seq<Action>): seq<GroupClass>
    decreases |acts|
  {
    if |acts| == 0 then []
    else
      var st := ApplyGuarded(l, acts[0]);
      (if st.go.Some? then [l.selected.value] else []) + EnrolmentsGuarded(st.listing, acts[1..])
  }

  /** No class in the dialog is full. */
  predicate DialogOpenOnly(l: Listing)
  {
    l.selected.Some? ==> !IsFull(l.selected.value)
  }

  /** With the check, whatever is pressed, only classes with room are ever
      enrolled in, and the guarded page agrees with the page on every class
      that has room. */
  lemma {:induction false} GuardedEnrolsOnlyOpen(l: Listing, acts: seq<Action>)
    requires DialogOpenOnly(l)
    ensures forall i :: 0 <= i < |EnrolmentsGuarded(l, acts)| ==> !IsFull(EnrolmentsGuarded(l, acts)[i])
    decreases |acts|
  {
    if |acts| > 0 {
      var st := ApplyGuarded(l, acts[0]);
      assert DialogOpenOnly(st.listing);
      GuardedEnrolsOnlyOpen(st.listing, acts[1..]);
    }
  }

  lemma GuardAgrees(l: Listing, a: Action)
    ensures !(a.CardClick? && IsFull(a.g)) ==> ApplyGuarded(l, a) == Apply(l, a)
    ensures a.CardClick? && IsFull(a.g) ==> ApplyGuarded(l, a) == Step(l, None)
  {
  }

  /** From the opening page, no full class is enrolled in. */
  lemma GuardedFromInit(acts: seq<Action>, g: GroupClass)
    requires IsFull(g)
    ensures g !in EnrolmentsGuarded(Init, acts)
  {
    GuardedEnrolsOnlyOpen(Init, acts);
  }
}
