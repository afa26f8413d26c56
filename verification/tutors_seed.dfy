/** What the discovery engine does on the seeded tutor list: concrete
    consequences of the filter and sort rules for the six mock tutors. */
module TutorsSeed {
  import opened Seqs
  import opened MockData
  import opened TutorsPage

  /** One step of `filter` over the seeded list, from position `k` on. */
  lemma FilterStep(p: Tutor -> bool, k: nat)
    requires k < |Tutors|
    ensures Filter(Tutors[k..], p) == (if p(Tutors[k]) then [Tutors[k]] else []) + Filter(Tutors[k + 1..], p)
  {
    assert Tutors[k..][0] == Tutors[k];
    assert Tutors[k..][1..] == Tutors[k + 1..];
  }

  const MathOnly: Criteria := Initial.(selectedDepartments := ["Mathematics"])

  lemma MathFrom4()
    ensures Filter(Tutors[3..], MatchesOf(MathOnly)) == []
  {
    var p := MatchesOf(MathOnly);
    assert !p(Tutor4) && !p(Tutor5) && !p(Tutor6);
    FilterStep(p, 5);
    assert Tutors[6..] == [];
    FilterStep(p, 4);
    FilterStep(p, 3);
  }

  lemma MathFrom2()
    ensures Filter(Tutors[1..], MatchesOf(MathOnly)) == [Tutor2]
  {
    var p := MatchesOf(MathOnly);
    MathFrom4();
    assert !p(Tutor3) && p(Tutor2);
    FilterStep(p, 2);
    FilterStep(p, 1);
  }

  lemma Math1() ensures !MatchesOf(MathOnly)(Tutor1) {}

  lemma MathFiltered()
    ensures FilterTutors(MathOnly, Tutors) == [Tutor2]
  {
    var p := MatchesOf(MathOnly);
    MathFrom2();
    Math1();
    FilterStep(p, 0);
    assert Tutors[0..] == Tutors;
  }

  /** Choosing only "Mathematics" leaves Michael Chen, the one mathematics
      tutor of the dataset. */
  lemma MathematicsOnlyMichael()
    ensures Discover(MathOnly, Tutors) == [Tutor2]
  {
    MathFiltered();
    RecommendedKeepsOrder(MathOnly, Tutors);
  }

  /** The initial criteria show all six tutors in dataset order. */
  lemma NeutralSeed()
    ensures Discover(Initial, Tutors) == Tutors
  {
    TutorRanges();
    NeutralKeepsAll(Tutors);
  }

  /** Every seeded tutor is rated at least 4.5, so the "verified" switch, whose
      test is that rating, hides none of them (Alex Martinez at 4.6 included). */
  lemma VerifiedSeedKeepsAll()
    ensures Discover(Initial.(verifiedOnly := true), Tutors) == Tutors
  {
    var c := Initial.(verifiedOnly := true);
    TutorRanges();
    assert forall i :: 0 <= i < |Tutors| ==> MatchesOf(c)(Tutors[i]);
    FilterAll(Tutors, MatchesOf(c));
    RecommendedKeepsOrder(c, Tutors);
  }
}
