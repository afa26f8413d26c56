/** The home dashboard: three short previews of the dataset and the buttons
    that lead to the other pages. The search box and the skill chips lead to
    the tutor list but pass nothing along. */
module DashboardPage {
  import opened Seqs
  import opened MockData
  import opened App
  import opened Chips

  /** The survey-based skill chips, in display order. */
  const PopularSkills: seq<string> := [
    "Java", "Calculus", "C++", "CSC Courses", "Web Development",
    "Financial Modelling", "Linear Algebra", "AI & Machine Learning"
  ]

  /** The rating a tutor needs for the top-rated row. */
  const TopRatingBar: real := 4.8

  function RatedAtLeast(v: real): Tutor -> bool
  {
    (t: Tutor) => t.rating >= v
  }

  /** `mockTutors.filter((t) => t.rating >= 4.8).slice(0, 4)`. */
  function TopRated(ts: seq<Tutor>): seq<Tutor>
  {
    Take(Filter(ts, RatedAtLeast(TopRatingBar)), 4)
  }

  /** At most four, each rated 4.8 or more, taken in dataset order: the
      result is a prefix of the highly rated tutors, and it is four long
      whenever four such tutors exist. */
  lemma TopRatedMeaning(ts: seq<Tutor>)
    ensures |TopRated(ts)| <= 4
    ensures forall i :: 0 <= i < |TopRated(ts)| ==> TopRated(ts)[i].rating >= 4.8 && TopRated(ts)[i] in ts
    ensures TopRated(ts) == Filter(ts, RatedAtLeast(TopRatingBar))[..|TopRated(ts)|]
    ensures |TopRated(ts)| == 4 || TopRated(ts) == Filter(ts, RatedAtLeast(TopRatingBar))
  {
    var f := Filter(ts, RatedAtLeast(TopRatingBar));
    forall i | 0 <= i < |TopRated(ts)| ensures TopRated(ts)[i].rating >= 4.8 && TopRated(ts)[i] in ts {
      assert TopRated(ts)[i] == f[i];
      assert f[i] in f;
    }
  }

  /** `mockTutors.slice(0, 4)` and `mockGroupClasses.slice(0, 3)`. */
  function VerifiedPreview(ts: seq<Tutor>): seq<Tutor>
  {
    Take(ts, 4)
  }

  function ClassesPreview(gs: seq<GroupClass>): seq<GroupClass>
  {
    Take(gs, 3)
  }

  lemma PreviewsArePrefixes(ts: seq<Tutor>, gs: seq<GroupClass>)
    ensures VerifiedPreview(ts) == ts[..if |ts| < 4 then |ts| else 4]
    ensures ClassesPreview(gs) == gs[..if |gs| < 3 then |gs| else 3]
  {
  }

  /** With the seed, the top-rated row is Sarah, Michael, David and
      Jessica; Emily (4.7) and Alex (4.6) fall below the bar. */
  lemma TopRatedSeed()
    ensures TopRated(MockData.Tutors) == [Tutor1, Tutor2, Tutor4, Tutor5]
  {
    TopRatedFiltered();
  }

  lemma TopRatedFiltered()
    ensures Filter(MockData.Tutors, RatedAtLeast(TopRatingBar)) == [Tutor1, Tutor2, Tutor4, Tutor5]
  {
    var p := RatedAtLeast(TopRatingBar);
    SeedHalves(p);
    JoinHalves(Tutor1, Tutor2, Tutor3, Tutor4, Tutor5, Tutor6, p);
  }

  /** Each half of the seed keeps its first two tutors. */
  lemma SeedHalves(p: Tutor -> bool)
    requires p == RatedAtLeast(TopRatingBar)
    ensures Filter([Tutor1, Tutor2, Tutor3], p) == [Tutor1, Tutor2]
    ensures Filter([Tutor4, Tutor5, Tutor6], p) == [Tutor4, Tutor5]
  {
    SeedRatings();
    KeepKeepDrop(Tutor1, Tutor2, Tutor3, p);
    KeepKeepDrop(Tutor4, Tutor5, Tutor6, p);
  }

  /** Which seeded tutors clear the 4.8 bar. */
  lemma SeedRatings()
    ensures RatedAtLeast(TopRatingBar)(Tutor1) && RatedAtLeast(TopRatingBar)(Tutor2) && !RatedAtLeast(TopRatingBar)(Tutor3)
    ensures RatedAtLeast(TopRatingBar)(Tutor4) && RatedAtLeast(TopRatingBar)(Tutor5) && !RatedAtLeast(TopRatingBar)(Tutor6)
  {
  }

  lemma KeepKeepDrop<T(!new)>(a: T, b: T, c: T, p: T -> bool)
    requires p(a) && p(b) && !p(c)
    ensures Filter([a, b, c], p) == [a, b]
  {
    KeepDrop(b, c, p);
    FilterCons(a, [b, c], p);
    assert [a, b, c] == [a] + [b, c];
  }

  lemma KeepDrop<T(!new)>(b: T, c: T, p: T -> bool)
    requires p(b) && !p(c)
    ensures Filter([b, c], p) == [b]
  {
    FilterCons(b, [c], p);
    assert [b, c] == [b] + [c];
  }

  lemma JoinHalves<T(!new)>(a: T, b: T, c: T, d: T, e: T, f: T, p: T -> bool)
    requires Filter([a, b, c], p) == [a, b] && Filter([d, e, f], p) == [d, e]
    ensures Filter([a, b, c, d, e, f], p) == [a, b, d, e]
  {
    SixIsTwoThrees(a, b, c, d, e, f);
    FilterAppend([a, b, c], [d, e, f], p);
  }

  lemma SixIsTwoThrees<T>(a: T, b: T, c: T, d: T, e: T, f: T)
    ensures [a, b, c, d, e, f] == [a, b, c] + [d, e, f]
  {
  }

  // ---------------------------------------------------------------------
  // Buttons

  datatype Action =
    | Search(query: string)      // the search box (Enter or the button)
    | SkillChip(skill: string)   // one of the popular-skill chips
    | BrowseTutors               // "View all" and the browse quick link
    | TutorCard(tutor: Tutor)    // a top-rated or verified tutor card
    | ClassCard                  // a group-class card or its button
    | BrowseClasses              // "View all" classes and the quick link
    | BrowseRecordings           // the recordings quick link

  function Apply(s: State, a: Action): State
  {
    match a
    case Search(_) => Navigate(s, Id(Page.Tutors), None)
    case SkillChip(_) => Navigate(s, Id(Page.Tutors), None)
    case BrowseTutors => Navigate(s, Id(Page.Tutors), None)
    case TutorCard(t) => Navigate(s, Id(TutorProfile), Some(PageData(Some(t.id))))
    case ClassCard => Navigate(s, Id(GroupClasses), None)
    case BrowseClasses => Navigate(s, Id(GroupClasses), None)
    case BrowseRecordings => Navigate(s, Id(Recordings), None)
  }

  /** The query and the chip's skill are not forwarded: every search and
      chip lands on the same unfiltered tutor list, and the old payload
      (a stale tutor id included) is kept. */
  lemma SearchForwardsNothing(s: State, q: string, skill: string)
    ensures Apply(s, Search(q)) == Apply(s, SkillChip(skill)) == Apply(s, BrowseTutors)
    ensures Render(Apply(s, Search(q))) == TutorsView
    ensures Apply(s, Search(q)).data == s.data
  {
  }

  /** A tutor card opens that tutor's profile; only tutor cards replace the
      payload. */
  lemma CardOpensProfile(s: State, a: Action)
    ensures a.TutorCard? && a.tutor.id != "" ==> Render(Apply(s, a)) == TutorProfileView(a.tutor.id)
    ensures !a.TutorCard? ==> Apply(s, a).data == s.data
    ensures PageOf(Apply(s, a).current).Some?
    ensures Apply(s, a).previous == s.current
  {
  }

  /** The dashboard cards preview two skills (or topics) and a "+k" badge. */
  function CardSkills(t: Tutor): Preview<string>
  {
    ChipPreview(t.skills, 2)
  }

  function ClassTopics(g: GroupClass): Preview<string>
  {
    ChipPreview(g.topics, 2)
  }

  lemma CardChipsAccount(t: Tutor, g: GroupClass)
    ensures Count(CardSkills(t)) == |t.skills| && |CardSkills(t).shown| <= 2
    ensures CardSkills(t).more.Some? <==> |t.skills| > 2
    ensures Count(ClassTopics(g)) == |g.topics| && |ClassTopics(g).shown| <= 2
    ensures ClassTopics(g).more.Some? <==> |g.topics| > 2
  {
    ChipPreviewAccounts(t.skills, 2);
    ChipPreviewAccounts(g.topics, 2);
  }
}
