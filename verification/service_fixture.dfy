/**
 * The data set of the service's unit tests: three members (the third
 * inactive), three surveys, the four statuses and eight participations,
 * with the answers the tests expect from each query.
 */
module ServiceFixture {
  import opened Wrappers
  import opened Streams
  import opened SurveyModel
  import opened SurveyQueries
  import opened Statistics

  const Member1 := Member(1, "Test Member1", "test1@test.com", Some(true))
  const Member2 := Member(2, "Test Member2", "test2@test.com", Some(true))
  const Member3 := Member(3, "Test Member3", "test3@test.com", Some(false))

  const Survey1 := Survey(1, "Test Survey1", 10, 12, 5)
  const Survey2 := Survey(2, "Test Survey2", 25, 20, 10)
  const Survey3 := Survey(3, "Test Survey3", 3, 7, 1)

  const NotAskedStatus := Status(1, "Not asked")
  const RejectedStatus := Status(2, "Rejected")
  const FilteredStatus := Status(3, "Filtered")
  const CompletedStatus := Status(4, "Completed")

  const Participations := [
    Participation(Member1, Survey1, CompletedStatus, Some(10)),
    Participation(Member2, Survey1, CompletedStatus, Some(5)),
    Participation(Member3, Survey1, NotAskedStatus, None),
    Participation(Member1, Survey2, FilteredStatus, Some(15)),
    Participation(Member2, Survey2, CompletedStatus, Some(30)),
    Participation(Member3, Survey2, RejectedStatus, None),
    Participation(Member1, Survey3, RejectedStatus, None),
    Participation(Member3, Survey3, RejectedStatus, None)
  ]

  const StatusTable := map[1 := NotAskedStatus, 2 := RejectedStatus, 3 := FilteredStatus, 4 := CompletedStatus]
  const MemberTable := map[1 := Member1, 2 := Member2, 3 := Member3]
  const SurveyTable := map[1 := Survey1, 2 := Survey2, 3 := Survey3]

  /** Every participation names one of the three members, surveys and four statuses. */
  lemma ParticipationsResolved()
    ensures forall p :: p in Participations ==> Tables(StatusTable, MemberTable, SurveyTable, Participations).Resolved(p)
  {
    var t := Tables(StatusTable, MemberTable, SurveyTable, Participations);
    forall p | p in Participations
      ensures t.Resolved(p)
    {
      var i :| 0 <= i < |Participations| && Participations[i] == p;
      assert p.member == Member1 || p.member == Member2 || p.member == Member3 by {
        assert i == 0 || i == 1 || i == 2 || i == 3 || i == 4 || i == 5 || i == 6 || i == 7;
      }
      assert p.survey == Survey1 || p.survey == Survey2 || p.survey == Survey3 by {
        assert i == 0 || i == 1 || i == 2 || i == 3 || i == 4 || i == 5 || i == 6 || i == 7;
      }
      assert p.status == NotAskedStatus || p.status == RejectedStatus || p.status == FilteredStatus
          || p.status == CompletedStatus by {
        assert i == 0 || i == 1 || i == 2 || i == 3 || i == 4 || i == 5 || i == 6 || i == 7;
      }
    }
  }

  /** The tables the service builds from the test rows. */
  function Fixture(): (t: Tables)
    ensures t.Valid()
  {
    ParticipationsResolved();
    Tables(StatusTable, MemberTable, SurveyTable, Participations)
  }

  /** What a filter keeps of one element. */
  function Kept<T>(x: T, keep: T -> bool): seq<T> {
    if keep(x) then [x] else []
  }

  /** Filtering one more element of a prefix adds what is kept of it. */
  lemma FilterStep<T(!new)>(xs: seq<T>, n: nat, keep: T -> bool)
    requires 0 < n <= |xs|
    ensures Filter(xs[..n], keep) == Filter(xs[..n - 1], keep) + Kept(xs[n - 1], keep)
  {
    assert xs[..n][..n - 1] == xs[..n - 1];
  }

  /** A filter over the eight participations, element by element. */
  lemma FilterOfEight(xs: seq<Participation>, keep: Participation -> bool)
    requires |xs| == 8
    ensures Filter(xs, keep) ==
      Kept(xs[0], keep) + Kept(xs[1], keep) + Kept(xs[2], keep) + Kept(xs[3], keep)
      + Kept(xs[4], keep) + Kept(xs[5], keep) + Kept(xs[6], keep) + Kept(xs[7], keep)
  {
    assert xs[..0] == [];
    FilterStep(xs, 1, keep);
    var k0 := Kept(xs[0], keep);
    assert Filter(xs[..1], keep) == k0;
    FilterStep(xs, 2, keep);
    var k1 := k0 + Kept(xs[1], keep);
    assert Filter(xs[..2], keep) == k1;
    FilterStep(xs, 3, keep);
    var k2 := k1 + Kept(xs[2], keep);
    assert Filter(xs[..3], keep) == k2;
    FilterStep(xs, 4, keep);
    var k3 := k2 + Kept(xs[3], keep);
    assert Filter(xs[..4], keep) == k3;
    FilterStep(xs, 5, keep);
    var k4 := k3 + Kept(xs[4], keep);
    assert Filter(xs[..5], keep) == k4;
    FilterStep(xs, 6, keep);
    var k5 := k4 + Kept(xs[5], keep);
    assert Filter(xs[..6], keep) == k5;
    FilterStep(xs, 7, keep);
    var k6 := k5 + Kept(xs[6], keep);
    assert Filter(xs[..7], keep) == k6;
    FilterStep(xs, 8, keep);
    assert xs[..8] == xs;
  }

  lemma CompletedOnSurvey1()
    ensures Filter(Participations, CompletedOn(1)) == [Participations[0], Participations[1]]
  {
    FilterOfEight(Participations, CompletedOn(1));
  }

  lemma CompletedOnSurvey2()
    ensures Filter(Participations, CompletedOn(2)) == [Participations[4]]
  {
    FilterOfEight(Participations, CompletedOn(2));
  }

  lemma CompletedOnSurvey3()
    ensures Filter(Participations, CompletedOn(3)) == []
  {
    FilterOfEight(Participations, CompletedOn(3));
  }

  lemma FixtureSurveyMembers()
    ensures SurveyMembers(Fixture(), 0) == Failure(NotFound)
    ensures SurveyMembers(Fixture(), 1) == Success([ToMemberDTO(Member1), ToMemberDTO(Member2)])
    ensures SurveyMembers(Fixture(), 2) == Success([ToMemberDTO(Member2)])
    ensures SurveyMembers(Fixture(), 3) == Success([])
  {
    CompletedOnSurvey1();
    var r1 := SurveyMembers(Fixture(), 1).value;
    assert |r1| == 2 && r1[0] == ToMemberDTO(Member1) && r1[1] == ToMemberDTO(Member2);
    assert r1 == [ToMemberDTO(Member1), ToMemberDTO(Member2)];
    CompletedOnSurvey2();
    var r2 := SurveyMembers(Fixture(), 2).value;
    assert |r2| == 1 && r2[0] == ToMemberDTO(Member2);
    assert r2 == [ToMemberDTO(Member2)];
    CompletedOnSurvey3();
  }

  lemma CompletedByMember1()
    ensures Filter(Participations, CompletedBy(1)) == [Participations[0]]
  {
    FilterOfEight(Participations, CompletedBy(1));
  }

  lemma CompletedByMember2()
    ensures Filter(Participations, CompletedBy(2)) == [Participations[1], Participations[4]]
  {
    FilterOfEight(Participations, CompletedBy(2));
  }

  lemma CompletedByMember3()
    ensures Filter(Participations, CompletedBy(3)) == []
  {
    FilterOfEight(Participations, CompletedBy(3));
  }

  lemma FixtureCompletedSurveys()
    ensures CompletedSurveysForMember(Fixture(), 0) == Failure(NotFound)
    ensures CompletedSurveysForMember(Fixture(), 1) == Success([ToSurveyDTO(Survey1)])
    ensures CompletedSurveysForMember(Fixture(), 2) == Success([ToSurveyDTO(Survey1), ToSurveyDTO(Survey2)])
    ensures CompletedSurveysForMember(Fixture(), 3) == Success([])
  {
    CompletedByMember1();
    var r1 := CompletedSurveysForMember(Fixture(), 1).value;
    assert |r1| == 1 && r1[0] == ToSurveyDTO(Survey1);
    assert r1 == [ToSurveyDTO(Survey1)];
    CompletedByMember2();
    var r2 := CompletedSurveysForMember(Fixture(), 2).value;
    assert |r2| == 2 && r2[0] == ToSurveyDTO(Survey1) && r2[1] == ToSurveyDTO(Survey2);
    assert r2 == [ToSurveyDTO(Survey1), ToSurveyDTO(Survey2)];
    CompletedByMember3();
  }

  lemma RewardedToMember1()
    ensures Filter(Participations, RewardedTo(1)) == [Participations[0], Participations[3]]
  {
    FilterOfEight(Participations, RewardedTo(1));
  }

  lemma RewardedToMember2()
    ensures Filter(Participations, RewardedTo(2)) == [Participations[1], Participations[4]]
  {
    FilterOfEight(Participations, RewardedTo(2));
  }

  lemma RewardedToMember3()
    ensures Filter(Participations, RewardedTo(3)) == []
  {
    FilterOfEight(Participations, RewardedTo(3));
  }

  /** Member 1 collects 12 for completing survey 1 and 10 for being filtered on survey 2. */
  lemma FixturePoints()
    ensures PointsForMember(Fixture(), 0) == Failure(NotFound)
    ensures PointsForMember(Fixture(), 1) == Success([CollectedPointsDTO(1, 12), CollectedPointsDTO(2, 10)])
    ensures PointsForMember(Fixture(), 2) == Success([CollectedPointsDTO(1, 12), CollectedPointsDTO(2, 20)])
    ensures PointsForMember(Fixture(), 3) == Success([])
  {
    RewardedToMember1();
    var r1 := PointsForMember(Fixture(), 1).value;
    assert |r1| == 2 && r1[0] == CollectedPointsDTO(1, 12) && r1[1] == CollectedPointsDTO(2, 10);
    assert r1 == [CollectedPointsDTO(1, 12), CollectedPointsDTO(2, 10)];
    RewardedToMember2();
    var r2 := PointsForMember(Fixture(), 2).value;
    assert |r2| == 2 && r2[0] == CollectedPointsDTO(1, 12) && r2[1] == CollectedPointsDTO(2, 20);
    assert r2 == [CollectedPointsDTO(1, 12), CollectedPointsDTO(2, 20)];
    RewardedToMember3();
  }

  lemma ExcludingSurvey1()
    ensures Filter(Participations, ExcludedFrom(1)) == [Participations[0], Participations[1], Participations[2]]
  {
    FilterOfEight(Participations, ExcludedFrom(1));
  }

  lemma ExcludedFromSurvey1()
    ensures AlreadyParticipated(Participations, 1) == [Member1, Member2, Member3]
  {
    ExcludingSurvey1();
    var r := AlreadyParticipated(Participations, 1);
    assert |r| == 3 && r[0] == Member1 && r[1] == Member2 && r[2] == Member3;
  }

  lemma ExcludingSurvey2()
    ensures Filter(Participations, ExcludedFrom(2))
         == [Participations[2], Participations[3], Participations[4], Participations[5]]
  {
    FilterOfEight(Participations, ExcludedFrom(2));
  }

  lemma ExcludedFromSurvey2()
    ensures AlreadyParticipated(Participations, 2) == [Member3, Member1, Member2, Member3]
  {
    ExcludingSurvey2();
    var r := AlreadyParticipated(Participations, 2);
    assert |r| == 4 && r[0] == Member3 && r[1] == Member1 && r[2] == Member2 && r[3] == Member3;
  }

  lemma ExcludingSurvey3()
    ensures Filter(Participations, ExcludedFrom(3)) == [Participations[2], Participations[6], Participations[7]]
  {
    FilterOfEight(Participations, ExcludedFrom(3));
  }

  lemma ExcludedFromSurvey3()
    ensures AlreadyParticipated(Participations, 3) == [Member3, Member1, Member3]
  {
    ExcludingSurvey3();
    var r := AlreadyParticipated(Participations, 3);
    assert |r| == 3 && r[0] == Member3 && r[1] == Member1 && r[2] == Member3;
  }

  /** Every member of the test data has a decoded activity flag. */
  lemma FixtureFlagsDecoded()
    ensures !HasUndecodedFlag(Fixture())
  {
    assert forall id :: id in MemberTable ==> id == 1 || id == 2 || id == 3;
  }

  /** Members 1 and 2 are active and member 3 is not. */
  lemma FixtureActivity()
    ensures forall id :: id in MemberTable && MemberTable[id].active == Some(true) ==> id == 1 || id == 2
  {
    assert forall id :: id in MemberTable ==> id == 1 || id == 2 || id == 3;
  }

  lemma NobodyInvitableToSurvey1()
    ensures InvitableMembers(Fixture(), 1) == Success({})
  {
    FixtureFlagsDecoded();
    FixtureActivity();
    ExcludedFromSurvey1();
    var already := AlreadyParticipated(Participations, 1);
    assert forall id :: id in MemberTable && MemberTable[id].active == Some(true) ==> MemberTable[id] in already;
    assert InvitableMembers(Fixture(), 1).value == {};
  }

  lemma NobodyInvitableToSurvey2()
    ensures InvitableMembers(Fixture(), 2) == Success({})
  {
    FixtureFlagsDecoded();
    FixtureActivity();
    ExcludedFromSurvey2();
    var already := AlreadyParticipated(Participations, 2);
    assert forall id :: id in MemberTable && MemberTable[id].active == Some(true) ==> MemberTable[id] in already;
    assert InvitableMembers(Fixture(), 2).value == {};
  }

  /** Member 1 took part in survey 3, member 3 is inactive, so only member 2 is left. */
  lemma Member2InvitableToSurvey3()
    ensures InvitableMembers(Fixture(), 3) == Success({ToMemberDTO(Member2)})
  {
    FixtureFlagsDecoded();
    FixtureActivity();
    ExcludedFromSurvey3();
    var already := AlreadyParticipated(Participations, 3);
    assert Member1 in already && Member2 !in already;
    var r := InvitableMembers(Fixture(), 3).value;
    forall d | d in r
      ensures d == ToMemberDTO(Member2)
    {
      var id :| id in MemberTable && MemberTable[id].active == Some(true) && MemberTable[id] !in already
             && ToMemberDTO(MemberTable[id]) == d;
      assert id == 2;
    }
    assert ToMemberDTO(Member2) in r by {
      assert 2 in MemberTable && MemberTable[2] == Member2;
    }
    assert r == {ToMemberDTO(Member2)};
  }

  /** Nobody can be invited to surveys 1 and 2; only member 2 to survey 3. */
  lemma FixtureInvitable()
    ensures InvitableMembers(Fixture(), 0) == Failure(NotFound)
    ensures InvitableMembers(Fixture(), 1) == Success({})
    ensures InvitableMembers(Fixture(), 2) == Success({})
    ensures InvitableMembers(Fixture(), 3) == Success({ToMemberDTO(Member2)})
  {
    NobodyInvitableToSurvey1();
    NobodyInvitableToSurvey2();
    Member2InvitableToSurvey3();
  }

  /** A filter over three elements, element by element. */
  lemma FilterOfThree(xs: seq<Participation>, keep: Participation -> bool)
    requires |xs| == 3
    ensures Filter(xs, keep) == Kept(xs[0], keep) + Kept(xs[1], keep) + Kept(xs[2], keep)
  {
    assert xs[..0] == [];
    FilterStep(xs, 1, keep);
    FilterStep(xs, 2, keep);
    FilterStep(xs, 3, keep);
    assert xs[..3] == xs;
  }

  lemma FixtureSurveyIds()
    ensures SurveyIds(Participations) == {1, 2, 3}
  {
    var ps := Participations;
    assert forall i :: 0 <= i < |ps| ==> ps[i].survey.id in {1, 2, 3} by {
      forall i | 0 <= i < |ps| ensures ps[i].survey.id in {1, 2, 3} {
        assert i == 0 || i == 1 || i == 2 || i == 3 || i == 4 || i == 5 || i == 6 || i == 7;
      }
    }
    assert ps[0].survey.id == 1 && ps[3].survey.id == 2 && ps[6].survey.id == 3;
  }

  lemma GroupOfSurvey1()
    ensures Group(Participations, 1) == [Participations[0], Participations[1], Participations[2]]
  {
    FilterOfEight(Participations, OnSurvey(1));
  }

  lemma GroupOfSurvey2()
    ensures Group(Participations, 2) == [Participations[3], Participations[4], Participations[5]]
  {
    FilterOfEight(Participations, OnSurvey(2));
  }

  lemma GroupOfSurvey3()
    ensures Group(Participations, 3) == [Participations[6], Participations[7]]
  {
    FilterOfEight(Participations, OnSurvey(3));
  }

  /** Survey 1: two completes and one NOT_ASKED. */
  lemma Survey1Counts(g: seq<Participation>)
    requires g == [Participations[0], Participations[1], Participations[2]]
    ensures |Filter(g, HasStatus(Completed))| == 2
    ensures |Filter(g, HasStatus(Filtered))| == 0
    ensures |Filter(g, HasStatus(Rejected))| == 0
  {
    FilterOfThree(g, HasStatus(Completed));
    FilterOfThree(g, HasStatus(Filtered));
    FilterOfThree(g, HasStatus(Rejected));
  }

  /** Survey 1: lengths 10 and 5, and none for the NOT_ASKED one. */
  lemma Survey1Average(g: seq<Participation>)
    requires g == [Participations[0], Participations[1], Participations[2]]
    ensures AverageLength(g) == Mean(7.5)
  {
    assert g[..1] == [g[0]] && g[..2] == [g[0], g[1]];
    assert Lengths(g[..1]) == [10];
    assert Lengths(g[..2]) == [10, 5];
    assert Lengths(g) == [10, 5];
    assert [10, 5][..1] == [10];
    assert Sum([10, 5]) == 15;
  }

  /** Survey 2: one filtered, one complete, one rejected. */
  lemma Survey2Counts(g: seq<Participation>)
    requires g == [Participations[3], Participations[4], Participations[5]]
    ensures |Filter(g, HasStatus(Completed))| == 1
    ensures |Filter(g, HasStatus(Filtered))| == 1
    ensures |Filter(g, HasStatus(Rejected))| == 1
  {
    FilterOfThree(g, HasStatus(Completed));
    FilterOfThree(g, HasStatus(Filtered));
    FilterOfThree(g, HasStatus(Rejected));
  }

  /** Survey 2: lengths 15 and 30, and none for the rejection. */
  lemma Survey2Average(g: seq<Participation>)
    requires g == [Participations[3], Participations[4], Participations[5]]
    ensures AverageLength(g) == Mean(22.5)
  {
    assert g[..1] == [g[0]] && g[..2] == [g[0], g[1]];
    assert Lengths(g[..1]) == [15];
    assert Lengths(g[..2]) == [15, 30];
    assert Lengths(g) == [15, 30];
    assert [15, 30][..1] == [15];
    assert Sum([15, 30]) == 45;
  }

  /** Survey 3: two rejections. */
  lemma Survey3Counts(g: seq<Participation>)
    requires g == [Participations[6], Participations[7]]
    ensures |Filter(g, HasStatus(Completed))| == 0
    ensures |Filter(g, HasStatus(Filtered))| == 0
    ensures |Filter(g, HasStatus(Rejected))| == 2
  {
    assert g[..0] == [] && g[..1] == [g[0]] && g[..2] == g;
    FilterStep(g, 1, HasStatus(Completed));
    FilterStep(g, 2, HasStatus(Completed));
    FilterStep(g, 1, HasStatus(Filtered));
    FilterStep(g, 2, HasStatus(Filtered));
    FilterStep(g, 1, HasStatus(Rejected));
    FilterStep(g, 2, HasStatus(Rejected));
  }

  lemma Survey1Entry()
    ensures 1 in SurveyStatistics(Participations)
    ensures SurveyStatistics(Participations)[1] == SurveyStatisticsDTO(1, "Test Survey1", 2, 0, 0, Mean(7.5))
  {
    FixtureSurveyIds();
    GroupOfSurvey1();
    var g := Group(Participations, 1);
    Survey1Counts(g);
    Survey1Average(g);
    assert SurveyStatistics(Participations)[1] == StatisticsOf(g);
  }

  lemma Survey2Entry()
    ensures 2 in SurveyStatistics(Participations)
    ensures SurveyStatistics(Participations)[2] == SurveyStatisticsDTO(2, "Test Survey2", 1, 1, 1, Mean(22.5))
  {
    FixtureSurveyIds();
    GroupOfSurvey2();
    var g := Group(Participations, 2);
    Survey2Counts(g);
    Survey2Average(g);
    assert SurveyStatistics(Participations)[2] == StatisticsOf(g);
  }

  /** Survey 3 has no recorded length, so its average is NaN. */
  lemma Survey3Entry()
    ensures 3 in SurveyStatistics(Participations)
    ensures SurveyStatistics(Participations)[3] == SurveyStatisticsDTO(3, "Test Survey3", 0, 0, 2, NaN)
  {
    FixtureSurveyIds();
    GroupOfSurvey3();
    var g := Group(Participations, 3);
    Survey3Counts(g);
    assert AverageLength(g).NaN?;
    assert SurveyStatistics(Participations)[3] == StatisticsOf(g);
  }

  /** A map with three keys is the display of its three entries. */
  lemma MapOfThree<V>(m: map<int, V>, a: V, b: V, c: V)
    requires m.Keys == {1, 2, 3} && m[1] == a && m[2] == b && m[3] == c
    ensures m == map[1 := a, 2 := b, 3 := c]
  {
  }

  /** One entry per survey, each with the counts and mean length of its participations. */
  lemma FixtureStatistics()
    ensures SurveyStatistics(Participations) == map[
      1 := SurveyStatisticsDTO(1, "Test Survey1", 2, 0, 0, Mean(7.5)),
      2 := SurveyStatisticsDTO(2, "Test Survey2", 1, 1, 1, Mean(22.5)),
      3 := SurveyStatisticsDTO(3, "Test Survey3", 0, 0, 2, NaN)]
  {
    FixtureSurveyIds();
    Survey1Entry();
    Survey2Entry();
    Survey3Entry();
    MapOfThree(SurveyStatistics(Participations),
      SurveyStatisticsDTO(1, "Test Survey1", 2, 0, 0, Mean(7.5)),
      SurveyStatisticsDTO(2, "Test Survey2", 1, 1, 1, Mean(22.5)),
      SurveyStatisticsDTO(3, "Test Survey3", 0, 0, 2, NaN));
  }
}
