/** The tutor discovery engine of the Browse Tutors page: the filter criteria
    the page holds, the department toggle, the reset, the seven-way filter
    followed by the keyed stable sort, and the "filters applied" counter. */
module TutorsPage {
  import opened Seqs
  import opened Text
  import opened MockData
  import opened StableSort

  datatype SortKey = Recommended | PriceLow | PriceHigh | Rating | Sessions

  datatype ViewMode = Grid | List

  /** Everything the page keeps in local state. `selectedDepartments` is an
      array used as a set; an empty array means "all departments". */
  datatype Criteria = Criteria(
    selectedDepartments: seq<string>,
    priceMin: real,
    priceMax: real,
    minRating: real,
    searchQuery: string,
    verifiedOnly: bool,
    groupClassesOnly: bool,
    recordingsAvailable: bool,
    viewMode: ViewMode,
    sortBy: SortKey)

  /** The state the page starts in. */
  const Initial: Criteria :=
    Criteria([], 0.0, 50.0, 0.0, "", false, false, false, Grid, Recommended)

  /** Rating threshold standing in for "verified" and for "has recordings". */
  const ProxyRating: real := 4.5

  /** Session count a tutor must exceed to count as offering group classes. */
  const ProxySessions: nat := 200

  // ---------------------------------------------------------------------
  // Department toggle

  /** Removes every copy of `d` when present, appends it when absent. Either
      way the other departments keep their order and their copies: read
      without `d`, the result is the input read without `d`. */
  function ToggleDepartment(ds: seq<string>, d: string): (r: seq<string>)
    ensures d in r <==> d !in ds
    ensures forall x :: x != d ==> (x in r <==> x in ds)
    ensures d !in ds ==> r == ds + [d]
    ensures d in ds ==> |r| < |ds|
    ensures d in ds ==> multiset(r) == multiset(ds)[d := 0]
    ensures Filter(r, Except(d)) == Filter(ds, Except(d))
  {
    if d in ds then
      var i :| 0 <= i < |ds| && ds[i] == d;
      FilterShorter(ds, Except(d), i);
      ExceptMultiset(ds, d);
      FilterIdempotent(ds, Except(d));
      Filter(ds, Except(d))
    else
      FilterAppend(ds, [d], Except(d));
      assert Filter([d], Except(d)) == [];
      ds + [d]
  }

  function HandleDepartmentChange(c: Criteria, d: string): Criteria
  {
    c.(selectedDepartments := ToggleDepartment(c.selectedDepartments, d))
  }

  /** Toggling the same department twice gives back the same set. */
  lemma ToggleTwiceSameSet(ds: seq<string>, d: string)
    ensures forall x :: x in ToggleDepartment(ToggleDepartment(ds, d), d) <==> x in ds
  {
  }

  /** When the department was not selected, toggling twice restores the very
      same array; when it was, it comes back at the end of the array. */
  lemma ToggleTwiceAbsent(ds: seq<string>, d: string)
    requires d !in ds
    ensures ToggleDepartment(ToggleDepartment(ds, d), d) == ds
  {
    FilterAppend(ds, [d], Except(d));
    FilterAll(ds, Except(d));
  }

  /** Toggling keeps the array free of duplicates, so its length is the
      number of selected departments. */
  lemma TogglePreservesNoDup(ds: seq<string>, d: string)
    requires NoDup(ds)
    ensures NoDup(ToggleDepartment(ds, d))
  {
    if d in ds {
      FilterNoDup(ds, Except(d));
    }
  }

  // ---------------------------------------------------------------------
  // Reset and the filters-applied counter

  /** "Reset" / "Clear all filters": every filter back to neutral; the sort
      key and the grid/list view are left as they were. */
  function Reset(c: Criteria): (r: Criteria)
    ensures r.sortBy == c.sortBy && r.viewMode == c.viewMode
    ensures r.(sortBy := Initial.sortBy, viewMode := Initial.viewMode) == Initial
  {
    Initial.(sortBy := c.sortBy, viewMode := c.viewMode)
  }

  /** Number of selected departments, plus one for a minimum rating, plus one
      per quick-filter switch that is on. The price range and the search text
      never count. */
  function ActiveFiltersCount(c: Criteria): nat
  {
    |c.selectedDepartments|
      + (if c.minRating > 0.0 then 1 else 0)
      + (if c.verifiedOnly then 1 else 0)
      + (if c.groupClassesOnly then 1 else 0)
      + (if c.recordingsAvailable then 1 else 0)
  }

  /** The counter is blind to price, query, sort and view, and is zero exactly
      when no department, no rating threshold and no switch is set. */
  lemma ActiveFiltersCountMeaning(c: Criteria, lo: real, hi: real, q: string, key: SortKey, vm: ViewMode)
    ensures ActiveFiltersCount(c.(priceMin := lo, priceMax := hi, searchQuery := q, sortBy := key, viewMode := vm))
      == ActiveFiltersCount(c)
    ensures ActiveFiltersCount(c) == 0 <==>
      c.selectedDepartments == [] && c.minRating <= 0.0 && !c.verifiedOnly && !c.groupClassesOnly && !c.recordingsAvailable
    ensures ActiveFiltersCount(Reset(c)) == 0
  {
  }

  /** With a duplicate-free department array the counter counts distinct
      departments. */
  lemma ActiveFiltersCountDistinct(c: Criteria)
    requires NoDup(c.selectedDepartments)
    ensures ActiveFiltersCount(c) ==
      |set d | d in c.selectedDepartments|
        + (if c.minRating > 0.0 then 1 else 0)
        + (if c.verifiedOnly then 1 else 0)
        + (if c.groupClassesOnly then 1 else 0)
        + (if c.recordingsAvailable then 1 else 0)
  {
    NoDupCardinality(c.selectedDepartments);
  }

  // ---------------------------------------------------------------------
  // The seven filter predicates

  predicate MatchesDepartment(c: Criteria, t: Tutor)
  {
    |c.selectedDepartments| == 0 || t.department in c.selectedDepartments
  }

  predicate MatchesPrice(c: Criteria, t: Tutor)
  {
    t.hourlyRate >= c.priceMin && t.hourlyRate <= c.priceMax
  }

  predicate MatchesRating(c: Criteria, t: Tutor)
  {
    t.rating >= c.minRating
  }

  predicate MatchesSearch(c: Criteria, t: Tutor)
  {
    c.searchQuery == ""
      || ContainsIgnoringCase(t.name, c.searchQuery)
      || Any(t.skills, skill => ContainsIgnoringCase(skill, c.searchQuery))
  }

  predicate MatchesVerified(c: Criteria, t: Tutor)
  {
    !c.verifiedOnly || t.rating >= ProxyRating
  }

  predicate MatchesGroupClasses(c: Criteria, t: Tutor)
  {
    !c.groupClassesOnly || t.totalSessions > ProxySessions
  }

  predicate MatchesRecordings(c: Criteria, t: Tutor)
  {
    !c.recordingsAvailable || t.rating >= ProxyRating
  }

  predicate Matches(c: Criteria, t: Tutor)
  {
    && MatchesDepartment(c, t)
    && MatchesPrice(c, t)
    && MatchesRating(c, t)
    && MatchesSearch(c, t)
    && MatchesVerified(c, t)
    && MatchesGroupClasses(c, t)
    && MatchesRecordings(c, t)
  }

  function MatchesOf(c: Criteria): Tutor -> bool
  {
    t => Matches(c, t)
  }

  /** The search predicate: an empty query passes everyone; otherwise the
      lower-cased query must occur in the lower-cased name or in some
      lower-cased skill. The explicit empty test is redundant, since every
      string includes "". */
  lemma SearchMeaning(c: Criteria, t: Tutor)
    ensures c.searchQuery == "" ==> MatchesSearch(c, t)
    ensures c.searchQuery != "" ==>
      (MatchesSearch(c, t) <==>
        Includes(LowerStr(t.name), LowerStr(c.searchQuery))
        || exists i :: 0 <= i < |t.skills| && Includes(LowerStr(t.skills[i]), LowerStr(c.searchQuery)))
    ensures MatchesSearch(c, t) <==>
      ContainsIgnoringCase(t.name, c.searchQuery)
      || exists i :: 0 <= i < |t.skills| && ContainsIgnoringCase(t.skills[i], c.searchQuery)
  {
    if c.searchQuery == "" {
      EmptyQueryMatches(t.name);
    }
  }

  /** The proxy switches: "verified" and "recordings" both demand a rating of
      at least 4.5, "group classes" more than 200 sessions; switched off, each
      passes every tutor. */
  lemma ProxyFilterMeaning(c: Criteria, t: Tutor)
    ensures MatchesVerified(c, t) <==> !c.verifiedOnly || t.rating >= 4.5
    ensures MatchesRecordings(c, t) <==> !c.recordingsAvailable || t.rating >= 4.5
    ensures MatchesGroupClasses(c, t) <==> !c.groupClassesOnly || t.totalSessions > 200
    ensures c.groupClassesOnly && t.totalSessions == 200 ==> !MatchesGroupClasses(c, t)
  {
  }

  /** The price test includes both ends of the range. */
  lemma PriceRangeInclusive(c: Criteria, t: Tutor)
    ensures MatchesPrice(c, t) <==> c.priceMin <= t.hourlyRate <= c.priceMax
    ensures t.hourlyRate == c.priceMin <= c.priceMax ==> MatchesPrice(c, t)
    ensures c.priceMin <= c.priceMax == t.hourlyRate ==> MatchesPrice(c, t)
  {
  }

  // ---------------------------------------------------------------------
  // Sorting and the full pipeline

  /** The comparator `(a, b) => Rank(a) - Rank(b)` is exactly the page's
      `a.hourlyRate - b.hourlyRate`, `b.hourlyRate - a.hourlyRate`,
      `b.rating - a.rating`, `b.totalSessions - a.totalSessions` or `0`. */
  function Rank(key: SortKey, t: Tutor): real
  {
    match key
    case Recommended => 0.0
    case PriceLow => t.hourlyRate
    case PriceHigh => -t.hourlyRate
    case Rating => -t.rating
    case Sessions => -(t.totalSessions as real)
  }

  function RankOf(key: SortKey): Tutor -> real
  {
    t => Rank(key, t)
  }

  function FilterTutors(c: Criteria, ts: seq<Tutor>): seq<Tutor>
  {
    Filter(ts, MatchesOf(c))
  }

  /** `filteredTutors`: filter, then stable sort by the selected key. */
  function Discover(c: Criteria, ts: seq<Tutor>): (r: seq<Tutor>)
    ensures forall t :: t in r <==> t in ts && Matches(c, t)
    ensures |r| <= |ts|
    ensures multiset(r) <= multiset(ts)
    ensures Sorted(r, RankOf(c.sortBy))
    ensures forall v :: WithRank(r, RankOf(c.sortBy), v) == WithRank(FilterTutors(c, ts), RankOf(c.sortBy), v)
  {
    var f := FilterTutors(c, ts);
    var r := SortBy(f, RankOf(c.sortBy));
    assert forall t :: t in r <==> t in multiset(r);
    assert forall t :: t in f <==> t in multiset(f);
    r
  }

  /** What the sort keys promise of the output order. */
  lemma DiscoverOrdered(c: Criteria, ts: seq<Tutor>, i: int, j: int)
    requires 0 <= i < j < |Discover(c, ts)|
    ensures var r := Discover(c, ts);
      && (c.sortBy == PriceLow ==> r[i].hourlyRate <= r[j].hourlyRate)
      && (c.sortBy == PriceHigh ==> r[i].hourlyRate >= r[j].hourlyRate)
      && (c.sortBy == Rating ==> r[i].rating >= r[j].rating)
      && (c.sortBy == Sessions ==> r[i].totalSessions >= r[j].totalSessions)
  {
    var r := Discover(c, ts);
    assert RankOf(c.sortBy)(r[i]) <= RankOf(c.sortBy)(r[j]);
  }

  /** "Recommended" keeps the order of the dataset. */
  lemma RecommendedKeepsOrder(c: Criteria, ts: seq<Tutor>)
    requires c.sortBy == Recommended
    ensures Discover(c, ts) == FilterTutors(c, ts)
  {
    SortByConstant(FilterTutors(c, ts), RankOf(Recommended), 0.0);
  }

  /** Tutors with the same key come out in the order the filter left them:
      stability of the sort, expressed per key value. */
  lemma DiscoverStable(c: Criteria, ts: seq<Tutor>, v: real)
    ensures Filter(Discover(c, ts), t => Rank(c.sortBy, t) == v)
         == Filter(FilterTutors(c, ts), t => Rank(c.sortBy, t) == v)
  {
    var p := HasRank(RankOf(c.sortBy), v);
    assert WithRank(Discover(c, ts), RankOf(c.sortBy), v) == WithRank(FilterTutors(c, ts), RankOf(c.sortBy), v);
    FilterCongruent(Discover(c, ts), p, t => Rank(c.sortBy, t) == v);
    FilterCongruent(FilterTutors(c, ts), p, t => Rank(c.sortBy, t) == v);
  }

  /** Neutral criteria keep every tutor whose rate lies in 0..50 and whose
      rating is not negative, in dataset order. */
  lemma NeutralKeepsAll(ts: seq<Tutor>)
    requires forall i :: 0 <= i < |ts| ==> 0.0 <= ts[i].hourlyRate <= 50.0 && ts[i].rating >= 0.0
    ensures Discover(Initial, ts) == ts
  {
    FilterAll(ts, MatchesOf(Initial));
    RecommendedKeepsOrder(Initial, ts);
  }

  /** Resetting and then filtering is filtering with the initial criteria
      under the sort key the page already had. */
  lemma ResetThenDiscover(c: Criteria, ts: seq<Tutor>)
    ensures Discover(Reset(c), ts) == Discover(Initial.(sortBy := c.sortBy), ts)
  {
    FilterCongruent(ts, MatchesOf(Reset(c)), MatchesOf(Initial.(sortBy := c.sortBy)));
  }
}
