/** The session recordings page: a department filter and a search box over
    the recording list, a header with the number shown and the total views,
    and a player dialog for the recording picked. */
module RecordingsPage {
  import opened Seqs
  import opened Text
  import opened MockData
  import opened Chips

  /** The department value that keeps every recording. */
  const All: string := "all"

  /** `selectedDepartment`, `searchQuery`, `selectedRecording`,
      `showFilters`. */
  datatype Browser = Browser(department: string, query: string, playing: Option<Recording>, showFilters: bool)

  const Init: Browser := Browser(All, "", None, true)

  predicate MatchesDepartment(dept: string, r: Recording)
  {
    dept == All || r.department == dept
  }

  /** An empty query passes everything; otherwise the query, ignoring case,
      must occur in the title, the subject or one of the topics. */
  predicate MatchesSearch(q: string, r: Recording)
  {
    q == ""
      || ContainsIgnoringCase(r.title, q)
      || ContainsIgnoringCase(r.subject, q)
      || Any(r.topics, (topic: string) => ContainsIgnoringCase(topic, q))
  }

  function Shows(b: Browser): Recording -> bool
  {
    (r: Recording) => MatchesDepartment(b.department, r) && MatchesSearch(b.query, r)
  }

  /** `filteredRecordings`. */
  function Visible(b: Browser, rs: seq<Recording>): seq<Recording>
  {
    Filter(rs, Shows(b))
  }

  /** A recording is listed exactly when both tests pass. */
  lemma VisibleMeaning(b: Browser, rs: seq<Recording>)
    ensures forall r :: r in Visible(b, rs) <==> r in rs && MatchesDepartment(b.department, r) && MatchesSearch(b.query, r)
    ensures |Visible(b, rs)| <= |rs|
  {
  }

  /** With "all" and an empty query, everything is listed, in order. */
  lemma NeutralShowsAll(b: Browser, rs: seq<Recording>)
    requires b.department == All && b.query == ""
    ensures Visible(b, rs) == rs
  {
    FilterAll(rs, Shows(b));
  }

  /** Choosing a department only narrows the "all" list. */
  lemma DepartmentNarrows(b: Browser, rs: seq<Recording>, d: string)
    ensures forall r :: r in Visible(b.(department := d), rs) ==> r in Visible(b.(department := All), rs)
  {
  }

  /** The header's total views: the sum over the whole list. */
  function TotalViews(rs: seq<Recording>): nat
  {
    if |rs| == 0 then 0 else rs[0].views + TotalViews(rs[1..])
  }

  /** The listed recordings never account for more views than the header
      total, which is taken over the unfiltered list. */
  lemma {:induction false} VisibleViewsBounded(rs: seq<Recording>, p: Recording -> bool)
    ensures TotalViews(Filter(rs, p)) <= TotalViews(rs)
  {
    if |rs| > 0 {
      VisibleViewsBounded(rs[1..], p);
      FilterCons(rs[0], rs[1..], p);
      assert rs == [rs[0]] + rs[1..];
      if p(rs[0]) {
        assert ([rs[0]] + Filter(rs[1..], p))[1..] == Filter(rs[1..], p);
      }
    }
  }

  /** The seeded recordings have 1682 views between them. */
  lemma SeedTotalViews()
    ensures TotalViews(Recordings) == 1682
  {
    var v := Recordings;
    assert v[1..][1..][1..][1..][1..][1..][1..][1..] == [];
  }

  /** Two topic badges and a "+k". */
  function TopicChips(r: Recording): Preview<string>
  {
    ChipPreview(r.topics, 2)
  }

  lemma TopicChipsAccount(r: Recording)
    ensures Count(TopicChips(r)) == |r.topics| && |TopicChips(r).shown| <= 2
    ensures TopicChips(r).more.Some? <==> |r.topics| > 2
  {
    ChipPreviewAccounts(r.topics, 2);
  }

  // ---------------------------------------------------------------------
  // Buttons

  datatype Action =
    | Type(query: string)             // the search box
    | AllButton                       // "All Departments"
    | DepartmentButton(dept: string)  // one per department of the dataset
    | ClearFilters                    // the empty state's button
    | Play(r: Recording)              // a recording card
    | ClosePlayer
    | ToggleFilters                   // the header's filter switch

  /** The controls on screen over the list `rs`: every department of the
      dataset has a button in the filter panel, which is drawn only while it
      is shown; the empty state's button shows only when nothing is listed. */
  predicate Offered(b: Browser, rs: seq<Recording>, a: Action)
  {
    match a
    case DepartmentButton(d) => b.showFilters && d in Departments
    case AllButton => b.showFilters
    case ClearFilters => |Visible(b, rs)| == 0
    case Play(r) => r in Visible(b, rs)
    case ClosePlayer => b.playing.Some?
    case _ => true
  }

  function Apply(b: Browser, a: Action): Browser
  {
    match a
    case Type(q) => b.(query := q)
    case AllButton => b.(department := All)
    case DepartmentButton(d) => b.(department := d)
    case ClearFilters => b.(department := All, query := "")
    case Play(r) => b.(playing := Some(r))
    case ClosePlayer => b.(playing := None)
    case ToggleFilters => b.(showFilters := !b.showFilters)
  }

  /** Clearing the filters lists every recording; "All Departments" keeps
      the query; playing, closing and toggling do not change the list. */
  lemma ApplyMeaning(b: Browser, rs: seq<Recording>, a: Action)
    ensures a == ClearFilters ==> Visible(Apply(b, a), rs) == rs
    ensures a == AllButton ==> Apply(b, a).query == b.query
    ensures a.Play? || a == ClosePlayer || a == ToggleFilters ==> Visible(Apply(b, a), rs) == Visible(b, rs)
    ensures a.Play? ==> Apply(b, a).playing == Some(a.r)
    ensures a == ToggleFilters ==> Apply(Apply(b, a), a) == b
  {
    if a == ClearFilters {
      NeutralShowsAll(Apply(b, a), rs);
    }
  }

  /** The department buttons are on screen exactly while the panel is; the
      switch hides or shows the panel and leaves the list as it was. */
  lemma FilterPanelSwitch(b: Browser, rs: seq<Recording>, d: string)
    ensures Offered(b, rs, AllButton) <==> b.showFilters
    ensures Offered(b, rs, DepartmentButton(d)) <==> b.showFilters && d in Departments
    ensures Apply(b, ToggleFilters) == b.(showFilters := !b.showFilters)
    ensures Visible(Apply(b, ToggleFilters), rs) == Visible(b, rs)
  {
  }

  /** The page opens listing every recording. */
  lemma OpensOnAll(rs: seq<Recording>)
    ensures Visible(Init, rs) == rs
  {
    NeutralShowsAll(Init, rs);
  }
}
