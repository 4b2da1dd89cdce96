/**
 * The per-survey statistics: participations grouped by survey id, each
 * group reduced to its status counts and its mean recorded length. The
 * grouping is a map from survey id to statistics, as the grouping
 * collector builds it; the list the service returns is that map's values
 * in the map's own, unspecified, order.
 */
module Statistics {
  import opened Wrappers
  import opened Streams
  import opened SurveyModel
  import opened SurveyQueries

  function OnSurvey(surveyId: int): Participation -> bool {
    (p: Participation) => p.survey.id == surveyId
  }

  function HasStatus(code: StatusCode): Participation -> bool {
    (p: Participation) => p.status.id == code.Id()
  }

  /** Participations whose status id is none of the four known codes. */
  function HasUnknownStatus(): Participation -> bool {
    (p: Participation) => p.status.id < NotAsked.Id() || Completed.Id() < p.status.id
  }

  /** The participations on one survey, in list order. */
  function Group(participations: seq<Participation>, surveyId: int): seq<Participation> {
    Filter(participations, OnSurvey(surveyId))
  }

  /** The recorded lengths of a group, in order, skipping the unrecorded ones. */
  function Lengths(group: seq<Participation>): (r: seq<int>)
    ensures |r| <= |group|
    ensures |r| == 0 <==> forall p :: p in group ==> p.length.None?
  {
    if group == [] then []
    else
      var init := group[..|group| - 1];
      assert forall p :: p in group ==> p in init || p == group[|group| - 1];
      Lengths(init) + (match group[|group| - 1].length case Some(n) => [n] case None => [])
  }

  /** Participations whose length was recorded. */
  function Recorded(): Participation -> bool {
    (p: Participation) => p.length.Some?
  }

  /**
   * The lengths are those of the participations with a recorded length, one
   * for each, in group order.
   */
  lemma {:induction false} LengthsAreRecorded(group: seq<Participation>)
    ensures var lengths, pos := Lengths(group), Positions(group, Recorded());
      && |lengths| == |pos|
      && forall k :: 0 <= k < |pos| ==> lengths[k] == group[pos[k]].length.value
  {
    if group != [] {
      LengthsAreRecorded(group[..|group| - 1]);
    }
  }

  function Sum(xs: seq<int>): int {
    if xs == [] then 0 else Sum(xs[..|xs| - 1]) + xs[|xs| - 1]
  }

  /** The mean of the recorded lengths, or NaN exactly when the group has no recorded length. */
  function AverageLength(group: seq<Participation>): (r: Average)
    ensures r.NaN? <==> forall p :: p in group ==> p.length.None?
    ensures r.Mean? ==> |Lengths(group)| > 0 && r.value * (|Lengths(group)| as real) == Sum(Lengths(group)) as real
  {
    var lengths := Lengths(group);
    if |lengths| == 0 then NaN else Mean(Sum(lengths) as real / |lengths| as real)
  }

  /** Every participation has exactly one status: one of the four codes, or an unknown one. */
  lemma {:induction false} StatusCountsPartition(group: seq<Participation>)
    ensures |Filter(group, HasStatus(Completed))| + |Filter(group, HasStatus(Filtered))|
          + |Filter(group, HasStatus(Rejected))| + |Filter(group, HasStatus(NotAsked))|
          + |Filter(group, HasUnknownStatus())| == |group|
  {
    if group != [] {
      StatusCountsPartition(group[..|group| - 1]);
    }
  }

  /**
   * The statistics of one non-empty group: id and name of its first
   * participation's survey; as counts, the number of positions holding a
   * COMPLETED, a FILTERED and a REJECTED participation, which together never
   * exceed the group; and the mean length.
   */
  function StatisticsOf(group: seq<Participation>): (r: SurveyStatisticsDTO)
    requires |group| > 0
    ensures r.surveyId == group[0].survey.id && r.surveyName == group[0].survey.name
    ensures r.numberOfCompletes == |Positions(group, HasStatus(Completed))|
    ensures r.numberOfFiltered == |Positions(group, HasStatus(Filtered))|
    ensures r.numberOfRejected == |Positions(group, HasStatus(Rejected))|
    ensures r.numberOfCompletes + r.numberOfFiltered + r.numberOfRejected <= |group|
    ensures r.averageLengthSpent == AverageLength(group)
  {
    StatusCountsPartition(group);
    FilterAtPositions(group, HasStatus(Completed));
    FilterAtPositions(group, HasStatus(Filtered));
    FilterAtPositions(group, HasStatus(Rejected));
    var first := group[0].survey;
    SurveyStatisticsDTO(
      first.id,
      first.name,
      |Filter(group, HasStatus(Completed))|,
      |Filter(group, HasStatus(Filtered))|,
      |Filter(group, HasStatus(Rejected))|,
      AverageLength(group))
  }

  /** The survey ids that occur in the participations. */
  function SurveyIds(participations: seq<Participation>): (ids: set<int>)
    ensures forall id :: id in ids <==> exists i :: 0 <= i < |participations| && participations[i].survey.id == id
  {
    set p | p in participations :: p.survey.id
  }

  /** The group of a survey id that occurs is non-empty and holds only that survey's participations. */
  lemma GroupOfOccurringId(participations: seq<Participation>, surveyId: int)
    requires surveyId in SurveyIds(participations)
    ensures |Group(participations, surveyId)| > 0
    ensures forall p :: p in Group(participations, surveyId) ==> p.survey.id == surveyId
  {
    var i :| 0 <= i < |participations| && participations[i].survey.id == surveyId;
    assert participations[i] in Group(participations, surveyId);
  }

  /** The statistics of the group of a survey id that occurs, which names that survey. */
  function EntryFor(participations: seq<Participation>, surveyId: int): (r: SurveyStatisticsDTO)
    requires surveyId in SurveyIds(participations)
    ensures r.surveyId == surveyId
  {
    GroupOfOccurringId(participations, surveyId);
    StatisticsOf(Group(participations, surveyId))
  }

  /**
   * One entry per survey id that occurs in the participations, and no
   * other: a survey nobody participated in has no entry. Each entry is
   * keyed by its own survey id.
   */
  function SurveyStatistics(participations: seq<Participation>): (r: map<int, SurveyStatisticsDTO>)
    ensures r.Keys == SurveyIds(participations)
    ensures forall id :: id in r ==> r[id].surveyId == id
  {
    map id | id in SurveyIds(participations) :: EntryFor(participations, id)
  }

  /**
   * The entry of a survey summarises exactly that survey's participations:
   * the counts of COMPLETED, FILTERED and REJECTED add up to the group size
   * less the NOT_ASKED and unknown ones, and the average is NaN exactly when
   * no participation on the survey has a recorded length.
   */
  lemma StatisticsEntry(participations: seq<Participation>, surveyId: int)
    requires surveyId in SurveyIds(participations)
    ensures var e, g := SurveyStatistics(participations)[surveyId], Group(participations, surveyId);
      && e == StatisticsOf(g)
      && e.numberOfCompletes + e.numberOfFiltered + e.numberOfRejected
         == |g| - |Filter(g, HasStatus(NotAsked))| - |Filter(g, HasUnknownStatus())|
      && (e.averageLengthSpent.NaN? <==>
            forall i :: 0 <= i < |participations| && participations[i].survey.id == surveyId ==>
              participations[i].length.None?)
  {
    var g := Group(participations, surveyId);
    EntryIsReduction(participations, surveyId);
    StatusCountsPartition(g);
    NoLengthInGroup(participations, surveyId);
  }

  /** The entry of an occurring survey id is the reduction of its group. */
  lemma EntryIsReduction(participations: seq<Participation>, surveyId: int)
    requires surveyId in SurveyIds(participations)
    ensures |Group(participations, surveyId)| > 0
    ensures SurveyStatistics(participations)[surveyId] == StatisticsOf(Group(participations, surveyId))
  {
    GroupOfOccurringId(participations, surveyId);
    assert SurveyStatistics(participations)[surveyId] == EntryFor(participations, surveyId);
  }

  /** A group lacks recorded lengths exactly when every participation on its survey does. */
  lemma NoLengthInGroup(participations: seq<Participation>, surveyId: int)
    ensures (forall p :: p in Group(participations, surveyId) ==> p.length.None?) <==>
            forall i :: 0 <= i < |participations| && participations[i].survey.id == surveyId ==>
              participations[i].length.None?
  {
    var g := Group(participations, surveyId);
    if forall p :: p in g ==> p.length.None? {
      forall i | 0 <= i < |participations| && participations[i].survey.id == surveyId
        ensures participations[i].length.None?
      {
        assert participations[i] in g;
      }
    }
  }

  /**
   * With resolved references, the name an entry reports is the survey table's
   * name for that id, whichever participation came first.
   */
  lemma StatisticsNameFromTable(t: Tables, surveyId: int)
    requires t.Valid() && surveyId in SurveyIds(t.participationList)
    ensures surveyId in t.surveyMap
    ensures SurveyStatistics(t.participationList)[surveyId].surveyName == t.surveyMap[surveyId].name
  {
    var g := Group(t.participationList, surveyId);
    GroupOfOccurringId(t.participationList, surveyId);
    assert g[0] in t.participationList && t.Resolved(g[0]);
  }

  /**
   * For a survey that has participations, the completes count equals the
   * number of members listed as having completed it: the two queries agree.
   */
  lemma CompletesAgreeWithSurveyMembers(t: Tables, surveyId: int)
    requires surveyId in t.surveyMap && surveyId in SurveyIds(t.participationList)
    ensures |SurveyMembers(t, surveyId).value| == SurveyStatistics(t.participationList)[surveyId].numberOfCompletes
  {
    var ps := t.participationList;
    StatisticsEntry(ps, surveyId);
    FilterOfFilter(ps, OnSurvey(surveyId), HasStatus(Completed), CompletedOn(surveyId));
  }
}
