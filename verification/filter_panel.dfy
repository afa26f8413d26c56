/** The filter side panel of the Browse Tutors page: which controls it offers
    and what each control does to the page's criteria. Everything the panel
    can reach from the initial criteria stays inside a small, checkable set:
    offered departments only, no duplicates, a rating from the option list,
    prices on the slider grid. */
module FilterPanel {
  import opened Seqs
  import opened MockData
  import opened TutorsPage

  /** The minimum-rating options, in display order. */
  const RatingOptions: seq<real> := [4.5, 4.0, 3.5, 3.0]

  /** The price slider: 0 to 50 in steps of 5. */
  const SliderMin: real := 0.0
  const SliderMax: real := 50.0
  const SliderStep: int := 5

  /** The department checkboxes: the first six departments of the dataset. */
  function OfferedDepartments(): (r: seq<string>)
    ensures |r| == 6
    ensures forall i :: 0 <= i < 6 ==> r[i] == Departments[i]
  {
    Take(Departments, 6)
  }

  /** Which optional change handlers the host page passed; a switch row is
      rendered only when its handler is present. */
  datatype Handlers = Handlers(verified: bool, groupClasses: bool, recordings: bool)

  /** The Browse Tutors page passes all three. */
  const TutorsPageHandlers: Handlers := Handlers(true, true, true)

  /** One user action on the panel. */
  datatype Control =
    | DepartmentBox(department: string)
    | RatingBox(rating: real)
    | VerifiedSwitch(on: bool)
    | GroupClassesSwitch(on: bool)
    | RecordingsSwitch(on: bool)
    | PriceSlider(lo: real, hi: real)
    | ResetButton

  /** A value the slider can produce. */
  predicate OnGrid(x: real)
  {
    SliderMin <= x <= SliderMax && x.Floor as real == x && x.Floor % SliderStep == 0
  }

  /** The action is available on the rendered panel. */
  predicate Offered(h: Handlers, ctl: Control)
  {
    match ctl
    case DepartmentBox(d) => d in OfferedDepartments()
    case RatingBox(v) => v in RatingOptions
    case VerifiedSwitch(_) => h.verified
    case GroupClassesSwitch(_) => h.groupClasses
    case RecordingsSwitch(_) => h.recordings
    case PriceSlider(lo, hi) => OnGrid(lo) && OnGrid(hi) && lo <= hi
    case ResetButton => true
  }

  /** What the page's handler does with the action. */
  function Apply(c: Criteria, ctl: Control): Criteria
  {
    match ctl
    case DepartmentBox(d) => HandleDepartmentChange(c, d)
    case RatingBox(v) => c.(minRating := v)
    case VerifiedSwitch(b) => c.(verifiedOnly := b)
    case GroupClassesSwitch(b) => c.(groupClassesOnly := b)
    case RecordingsSwitch(b) => c.(recordingsAvailable := b)
    case PriceSlider(lo, hi) => c.(priceMin := lo, priceMax := hi)
    case ResetButton => Reset(c)
  }

  /** A department checkbox shows a tick exactly when the department is
      selected. */
  predicate DepartmentChecked(c: Criteria, d: string)
  {
    d in c.selectedDepartments
  }

  /** A rating checkbox shows a tick exactly when it equals the threshold. */
  predicate RatingChecked(c: Criteria, v: real)
  {
    c.minRating == v
  }

  /** Ticking a department box flips that box and no other. */
  lemma DepartmentBoxFlips(c: Criteria, d: string, e: string)
    ensures DepartmentChecked(Apply(c, DepartmentBox(d)), d) <==> !DepartmentChecked(c, d)
    ensures e != d ==> (DepartmentChecked(Apply(c, DepartmentBox(d)), e) <==> DepartmentChecked(c, e))
  {
  }

  /** Clicking a rating option always sets the threshold to it, even when it
      is already ticked; afterwards it is the one ticked option. */
  lemma RatingBoxSets(c: Criteria, v: real)
    ensures Apply(Apply(c, RatingBox(v)), RatingBox(v)) == Apply(c, RatingBox(v))
    ensures forall w :: w in RatingOptions ==> (RatingChecked(Apply(c, RatingBox(v)), w) <==> w == v)
  {
  }

  /** At most one rating option is ticked at a time. */
  lemma AtMostOneRatingChecked(c: Criteria)
    ensures |Filter(RatingOptions, CheckedOf(c))| <= 1
  {
    assert NoDup(RatingOptions);
    FilterAtMostOne(RatingOptions, CheckedOf(c));
  }

  function CheckedOf(c: Criteria): real -> bool
  {
    v => RatingChecked(c, v)
  }

  /** The Economics and Business departments exist in the dataset but have no
      checkbox. */
  lemma UnofferedDepartments()
    ensures "Economics" in Departments && "Business" in Departments
    ensures "Economics" !in OfferedDepartments() && "Business" !in OfferedDepartments()
    ensures forall d :: d in OfferedDepartments() ==> d in Departments
  {
    var o := OfferedDepartments();
    assert Departments[6] == "Economics" && Departments[7] == "Business";
    assert o == ["Computer Science", "Mathematics", "Physics", "Chemistry", "Engineering", "Biology"];
  }

  /** A switch row is on the panel exactly when its handler is. */
  lemma SwitchRowsFollowHandlers(h: Handlers, b: bool)
    ensures Offered(h, VerifiedSwitch(b)) <==> h.verified
    ensures Offered(h, GroupClassesSwitch(b)) <==> h.groupClasses
    ensures Offered(h, RecordingsSwitch(b)) <==> h.recordings
    ensures !h.verified ==> forall ctl :: Offered(h, ctl) ==> !ctl.VerifiedSwitch?
  {
  }

  // ---------------------------------------------------------------------
  // What the panel can reach

  /** The criteria the panel can produce from the initial ones. */
  predicate Reachable(c: Criteria)
  {
    && (forall i :: 0 <= i < |c.selectedDepartments| ==> c.selectedDepartments[i] in OfferedDepartments())
    && NoDup(c.selectedDepartments)
    && (c.minRating == 0.0 || c.minRating in RatingOptions)
    && OnGrid(c.priceMin) && OnGrid(c.priceMax) && c.priceMin <= c.priceMax
  }

  /** A run of panel actions, applied left to right. */
  function ApplyAll(c: Criteria, ctls: seq<Control>): Criteria
    decreases |ctls|
  {
    if |ctls| == 0 then c else ApplyAll(Apply(c, ctls[0]), ctls[1..])
  }

  lemma InitialReachable()
    ensures Reachable(Initial)
  {
    assert (0.0).Floor == 0 && (50.0).Floor == 50;
  }

  /** Every offered action keeps the criteria reachable. */
  lemma ApplyKeepsReachable(h: Handlers, c: Criteria, ctl: Control)
    requires Reachable(c) && Offered(h, ctl)
    ensures Reachable(Apply(c, ctl))
  {
    match ctl
    case DepartmentBox(d) =>
      TogglePreservesNoDup(c.selectedDepartments, d);
      var r := ToggleDepartment(c.selectedDepartments, d);
      forall i | 0 <= i < |r| ensures r[i] in OfferedDepartments() {
        assert r[i] in r;
        assert r[i] == d || r[i] in c.selectedDepartments;
      }
    case ResetButton =>
      InitialReachable();
    case _ =>
  }

  /** Runs of offered actions keep the criteria reachable. */
  lemma {:induction false} ApplyAllKeepsReachable(h: Handlers, c: Criteria, ctls: seq<Control>)
    requires Reachable(c)
    requires forall i :: 0 <= i < |ctls| ==> Offered(h, ctls[i])
    ensures Reachable(ApplyAll(c, ctls))
    decreases |ctls|
  {
    if |ctls| > 0 {
      ApplyKeepsReachable(h, c, ctls[0]);
      ApplyAllKeepsReachable(h, Apply(c, ctls[0]), ctls[1..]);
    }
  }

  /** Whatever the user does on the panel, Economics and Business are never
      selected and the filter badge never shows more than ten. */
  lemma PanelRunBounds(h: Handlers, ctls: seq<Control>)
    requires forall i :: 0 <= i < |ctls| ==> Offered(h, ctls[i])
    ensures var c := ApplyAll(Initial, ctls);
      && "Economics" !in c.selectedDepartments
      && "Business" !in c.selectedDepartments
      && ActiveFiltersCount(c) <= 10
  {
    InitialReachable();
    ApplyAllKeepsReachable(h, Initial, ctls);
    var c := ApplyAll(Initial, ctls);
    UnofferedDepartments();
    ReachableDepartmentsBounded(c);
  }

  /** A reachable selection has at most six departments. */
  lemma ReachableDepartmentsBounded(c: Criteria)
    requires Reachable(c)
    ensures |c.selectedDepartments| <= 6
  {
    var sel := c.selectedDepartments;
    var o := OfferedDepartments();
    NoDupCardinality(sel);
    var a := set x | x in sel;
    var b := set x | x in o;
    assert a <= b;
    assert b == a + (b - a);
    SetOfSeqBounded(o);
  }

  /** A list has no more distinct elements than positions. */
  lemma {:induction false} SetOfSeqBounded<T>(xs: seq<T>)
    ensures |set x | x in xs| <= |xs|
  {
    if |xs| > 0 {
      SetOfSeqBounded(xs[1..]);
      assert (set x | x in xs) == {xs[0]} + (set x | x in xs[1..]);
    }
  }
}
