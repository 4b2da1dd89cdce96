/**
 * The in-memory query engine of the survey service: the four tables it
 * holds and the four queries that join participations with them by id.
 * Each query is a filter and a projection over the participation list;
 * the lemmas describe each result by the positions of the participations
 * it was built from.
 */
module SurveyQueries {
  import opened Wrappers
  import opened Streams
  import opened SurveyModel

  /** NotFound is the service's 404; NullPointer is the crash on a member whose flag is absent. */
  datatype Error = NotFound | NullPointer

  /** The three keyed tables and the participation list, as loaded. */
  datatype Tables = Tables(
    statusMap: map<int, Status>,
    memberMap: map<int, Member>,
    surveyMap: map<int, Survey>,
    participationList: seq<Participation>)
  {
    /** Every participation refers to exactly the rows the tables hold under its ids. */
    predicate Resolved(p: Participation) {
      && p.member.id in memberMap && memberMap[p.member.id] == p.member
      && p.survey.id in surveyMap && surveyMap[p.survey.id] == p.survey
      && p.status.id in statusMap && statusMap[p.status.id] == p.status
    }

    /** The tables are keyed by their rows' own ids and no participation reference dangles. */
    predicate Valid() {
      && (forall id :: id in statusMap ==> statusMap[id].id == id)
      && (forall id :: id in memberMap ==> memberMap[id].id == id)
      && (forall id :: id in surveyMap ==> surveyMap[id].id == id)
      && (forall p :: p in participationList ==> Resolved(p))
    }
  }

  /** Participations of any member that completed the given survey. */
  function CompletedOn(surveyId: int): Participation -> bool {
    (p: Participation) => p.survey.id == surveyId && p.status.id == Completed.Id()
  }

  /** Participations of the given member that completed any survey. */
  function CompletedBy(memberId: int): Participation -> bool {
    (p: Participation) => p.member.id == memberId && p.status.id == Completed.Id()
  }

  /** Participations of the given member that earned points: completed or filtered. */
  function RewardedTo(memberId: int): Participation -> bool {
    (p: Participation) => p.member.id == memberId && (p.status.id == Completed.Id() || p.status.id == Filtered.Id())
  }

  /** Participations that rule their member out: on the given survey, or not asked on any survey. */
  function ExcludedFrom(surveyId: int): Participation -> bool {
    (p: Participation) => p.survey.id == surveyId || p.status.id == NotAsked.Id()
  }

  /** The members who completed the survey, one entry per completing participation, in list order. */
  function SurveyMembers(t: Tables, surveyId: int): (r: Result<seq<MemberDTO>, Error>)
    ensures r.Failure? <==> surveyId !in t.surveyMap
    ensures r.Failure? ==> r.error == NotFound
  {
    if surveyId !in t.surveyMap then Failure(NotFound)
    else Success(Map(Filter(t.participationList, CompletedOn(surveyId)), (p: Participation) => ToMemberDTO(p.member)))
  }

  /** The surveys the member completed, one entry per completing participation, in list order. */
  function CompletedSurveysForMember(t: Tables, memberId: int): (r: Result<seq<SurveyDTO>, Error>)
    ensures r.Failure? <==> memberId !in t.memberMap
    ensures r.Failure? ==> r.error == NotFound
  {
    if memberId !in t.memberMap then Failure(NotFound)
    else Success(Map(Filter(t.participationList, CompletedBy(memberId)), (p: Participation) => ToSurveyDTO(p.survey)))
  }

  /** The points one participation earns: the survey's filtered points or its completion points. */
  function CollectedPoints(p: Participation): (r: CollectedPointsDTO)
    ensures r.surveyId == p.survey.id
    ensures p.status.id == Filtered.Id() ==> r.collectedPoints == p.survey.filteredPoints
    ensures p.status.id == Completed.Id() ==> r.collectedPoints == p.survey.completionPoints
    ensures p.status.id != Filtered.Id() && p.status.id != Completed.Id() ==> r.collectedPoints == 0
  {
    var points :=
      if p.status.id == Filtered.Id() then p.survey.filteredPoints
      else if p.status.id == Completed.Id() then p.survey.completionPoints
      else 0;
    CollectedPointsDTO(p.survey.id, points)
  }

  /** One entry per completed or filtered participation of the member, in list order. */
  function PointsForMember(t: Tables, memberId: int): (r: Result<seq<CollectedPointsDTO>, Error>)
    ensures r.Failure? <==> memberId !in t.memberMap
    ensures r.Failure? ==> r.error == NotFound
  {
    if memberId !in t.memberMap then Failure(NotFound)
    else Success(Map(Filter(t.participationList, RewardedTo(memberId)), CollectedPoints))
  }

  /** The members of the participations that rule them out of the survey, with repetitions. */
  function AlreadyParticipated(participations: seq<Participation>, surveyId: int): seq<Member> {
    Map(Filter(participations, ExcludedFrom(surveyId)), (p: Participation) => p.member)
  }

  /** Some member's activity flag is absent, so unboxing it while filtering the members fails. */
  predicate HasUndecodedFlag(t: Tables) {
    exists id :: id in t.memberMap && t.memberMap[id].active.None?
  }

  /**
   * The members who can be invited to the survey, as a set: the table's order
   * of members is not specified, and the table holds each member once.
   */
  function InvitableMembers(t: Tables, surveyId: int): (r: Result<set<MemberDTO>, Error>)
    ensures r.Failure? <==> surveyId !in t.surveyMap || HasUndecodedFlag(t)
    ensures r.Failure? ==> (r.error == NotFound <==> surveyId !in t.surveyMap)
  {
    if surveyId !in t.surveyMap then Failure(NotFound)
    else if HasUndecodedFlag(t) then Failure(NullPointer)
    else
      var already := AlreadyParticipated(t.participationList, surveyId);
      Success(set id | id in t.memberMap && t.memberMap[id].active == Some(true) && t.memberMap[id] !in already
                :: ToMemberDTO(t.memberMap[id]))
  }

  // ----- What each query returns, stated by the participations it selects -----

  /**
   * For a known survey, the k-th member returned is the member of the k-th
   * participation (in list order) that completed that survey, and there is
   * one entry per such participation: nothing is merged or dropped.
   */
  lemma SurveyMembersSelects(t: Tables, surveyId: int)
    requires surveyId in t.surveyMap
    ensures var r, pos := SurveyMembers(t, surveyId), Positions(t.participationList, CompletedOn(surveyId));
      && r.Success? && |r.value| == |pos|
      && forall k :: 0 <= k < |pos| ==> r.value[k] == ToMemberDTO(t.participationList[pos[k]].member)
  {
    FilterAtPositions(t.participationList, CompletedOn(surveyId));
  }

  /**
   * A member is returned exactly when some participation of theirs completed
   * the survey, and what is returned is that member's row of the member table.
   */
  lemma SurveyMembersExactly(t: Tables, surveyId: int, d: MemberDTO)
    requires t.Valid() && surveyId in t.surveyMap
    ensures var r, ps := SurveyMembers(t, surveyId), t.participationList;
      d in r.value <==>
        exists i :: 0 <= i < |ps| && ps[i].survey.id == surveyId && ps[i].status.id == Completed.Id()
                    && ToMemberDTO(ps[i].member) == d
    ensures d in SurveyMembers(t, surveyId).value ==> d.id in t.memberMap && ToMemberDTO(t.memberMap[d.id]) == d
  {
    var ps := t.participationList;
    MapFilterMembership(ps, CompletedOn(surveyId), (p: Participation) => ToMemberDTO(p.member), d);
    if d in SurveyMembers(t, surveyId).value {
      var i :| 0 <= i < |ps| && CompletedOn(surveyId)(ps[i]) && ToMemberDTO(ps[i].member) == d;
      assert t.Resolved(ps[i]);
    }
  }

  /**
   * For a known member, the k-th survey returned is the survey of the k-th
   * participation of that member with status COMPLETED, one entry each.
   */
  lemma CompletedSurveysSelects(t: Tables, memberId: int)
    requires memberId in t.memberMap
    ensures var r, pos := CompletedSurveysForMember(t, memberId), Positions(t.participationList, CompletedBy(memberId));
      && r.Success? && |r.value| == |pos|
      && forall k :: 0 <= k < |pos| ==> r.value[k] == ToSurveyDTO(t.participationList[pos[k]].survey)
  {
    FilterAtPositions(t.participationList, CompletedBy(memberId));
  }

  /**
   * A survey is returned exactly when the member has a completing participation
   * on it, and what is returned is that survey's row of the survey table.
   */
  lemma CompletedSurveysExactly(t: Tables, memberId: int, d: SurveyDTO)
    requires t.Valid() && memberId in t.memberMap
    ensures var r, ps := CompletedSurveysForMember(t, memberId), t.participationList;
      d in r.value <==>
        exists i :: 0 <= i < |ps| && ps[i].member.id == memberId && ps[i].status.id == Completed.Id()
                    && ToSurveyDTO(ps[i].survey) == d
    ensures d in CompletedSurveysForMember(t, memberId).value ==> d.id in t.surveyMap && ToSurveyDTO(t.surveyMap[d.id]) == d
  {
    var ps := t.participationList;
    MapFilterMembership(ps, CompletedBy(memberId), (p: Participation) => ToSurveyDTO(p.survey), d);
    if d in CompletedSurveysForMember(t, memberId).value {
      var i :| 0 <= i < |ps| && CompletedBy(memberId)(ps[i]) && ToSurveyDTO(ps[i].survey) == d;
      assert t.Resolved(ps[i]);
    }
  }

  /**
   * For a known member, the k-th entry comes from the k-th participation of
   * that member that was completed or filtered: it names that participation's
   * survey and carries the survey's completion points when completed and its
   * filtered points when filtered, never the other.
   */
  lemma PointsForMemberSelects(t: Tables, memberId: int)
    requires memberId in t.memberMap
    ensures var r, ps, pos := PointsForMember(t, memberId), t.participationList, Positions(t.participationList, RewardedTo(memberId));
      && r.Success? && |r.value| == |pos|
      && forall k :: 0 <= k < |pos| ==>
           var p := ps[pos[k]];
           && p.member.id == memberId
           && r.value[k].surveyId == p.survey.id
           && (p.status.id == Completed.Id() || p.status.id == Filtered.Id())
           && r.value[k].collectedPoints ==
                (if p.status.id == Completed.Id() then p.survey.completionPoints else p.survey.filteredPoints)
  {
    FilterAtPositions(t.participationList, RewardedTo(memberId));
  }

  /**
   * A member can be invited exactly when they are an active member of the
   * table and none of their participations is on this survey or has status
   * NOT_ASKED on any survey.
   */
  lemma InvitableMembersExactly(t: Tables, surveyId: int, m: Member)
    requires t.Valid() && surveyId in t.surveyMap && !HasUndecodedFlag(t)
    ensures var r, ps := InvitableMembers(t, surveyId), t.participationList;
      ToMemberDTO(m) in r.value <==>
        && m.id in t.memberMap && t.memberMap[m.id] == m
        && m.active == Some(true)
        && forall i :: 0 <= i < |ps| && ps[i].member == m ==>
             ps[i].survey.id != surveyId && ps[i].status.id != NotAsked.Id()
  {
    var ps := t.participationList;
    MapFilterMembership(ps, ExcludedFrom(surveyId), (p: Participation) => p.member, m);
    ProjectionsInjective(m, m, Survey(0, "", 0, 0, 0), Survey(0, "", 0, 0, 0));
    var r := InvitableMembers(t, surveyId).value;
    if ToMemberDTO(m) in r {
      var id :| id in t.memberMap && t.memberMap[id].active == Some(true)
                && t.memberMap[id] !in AlreadyParticipated(ps, surveyId)
                && ToMemberDTO(t.memberMap[id]) == ToMemberDTO(m);
      ProjectionsInjective(t.memberMap[id], m, Survey(0, "", 0, 0, 0), Survey(0, "", 0, 0, 0));
    }
  }
}
