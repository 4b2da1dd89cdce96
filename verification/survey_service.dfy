/**
 * The survey service object: it owns the four tables, fills them once from
 * the decoded rows, and answers the invitable-members query by collecting
 * the active members in the member table's own order and then removing, in
 * place, every member an excluding participation names. The other queries
 * are the functions of SurveyQueries and Statistics applied to
 * `State()`.
 */
module Service {
  import opened Wrappers
  import opened Streams
  import opened SurveyModel
  import opened SurveyQueries

  /** A set that is not empty has an element to pick. */
  lemma NonEmptyHasElement(ids: set<int>)
    requires ids != {}
    ensures exists id :: id in ids
  {
    assert (forall id :: id !in ids) ==> ids == {};
  }

  function StatusKey(s: Status): int { s.id }
  function MemberKey(m: Member): int { m.id }
  function SurveyKey(s: Survey): int { s.id }

  class SurveyService {
    var statusMap: map<int, Status>
    var memberMap: map<int, Member>
    var surveyMap: map<int, Survey>
    var participationList: seq<Participation>

    /** The tables as a value, for the query functions. */
    function State(): Tables
      reads this
    {
      Tables(statusMap, memberMap, surveyMap, participationList)
    }

    ghost predicate Valid()
      reads this
    {
      State().Valid()
    }

    /**
     * Fills the tables from the decoded rows: each keyed table maps every
     * row's id to that row, and the participation list is kept as given.
     * Duplicate ids make the map collector throw, and participations are
     * expected to refer to rows of the tables.
     */
    constructor ConstructMaps(statuses: seq<Status>, members: seq<Member>, surveys: seq<Survey>, participations: seq<Participation>)
      requires UniqueKeys(statuses, StatusKey) && UniqueKeys(members, MemberKey) && UniqueKeys(surveys, SurveyKey)
      requires forall p :: p in participations ==> p.member in members && p.survey in surveys && p.status in statuses
      ensures statusMap == ToMap(statuses, StatusKey)
      ensures memberMap == ToMap(members, MemberKey)
      ensures surveyMap == ToMap(surveys, SurveyKey)
      ensures participationList == participations
      ensures Valid()
    {
      statusMap := ToMap(statuses, StatusKey);
      memberMap := ToMap(members, MemberKey);
      surveyMap := ToMap(surveys, SurveyKey);
      participationList := participations;
      new;
      assert forall p :: p in participations ==> State().Resolved(p);
    }

    /**
     * The members whose flag is true, each once, in whatever order the
     * member table yields them; unboxing an absent flag fails. The walk goes
     * over the keys and looks each row up, which visits the same rows as a
     * walk over the values.
     */
    method ActiveMembers() returns (r: Result<seq<Member>, Error>)
      requires Valid()
      ensures r.Failure? <==> HasUndecodedFlag(State())
      ensures r.Failure? ==> r.error == NullPointer
      ensures r.Success? ==> Distinct(r.value)
      ensures r.Success? ==> forall m :: m in r.value ==> m.id in memberMap && memberMap[m.id] == m && m.active == Some(true)
      ensures r.Success? ==> forall id :: id in memberMap && memberMap[id].active == Some(true) ==> memberMap[id] in r.value
    {
      var active: seq<Member> := [];
      var unvisited := memberMap.Keys;
      while unvisited != {}
        invariant unvisited <= memberMap.Keys
        invariant forall id :: id in memberMap && id !in unvisited ==> memberMap[id].active.Some?
        invariant forall m :: m in active ==>
          m.id in memberMap && m.id !in unvisited && memberMap[m.id] == m && m.active == Some(true)
        invariant forall id :: id in memberMap && id !in unvisited && memberMap[id].active == Some(true) ==> memberMap[id] in active
        invariant Distinct(active)
        decreases unvisited
      {
        NonEmptyHasElement(unvisited);
        var id :| id in unvisited;
        var m := memberMap[id];
        if m.active.None? {
          return Failure(NullPointer);
        }
        if m.active.value {
          active := active + [m];
        }
        unvisited := unvisited - {id};
      }
      r := Success(active);
    }

    /**
     * The active members who can be invited to the survey, in the member
     * table's iteration order, which is not specified: the result holds each
     * member of `InvitableMembers` exactly once, and fails as it does.
     */
    method GetInvitableMemberForSurvey(surveyId: int) returns (r: Result<seq<MemberDTO>, Error>)
      requires Valid()
      ensures var spec := InvitableMembers(State(), surveyId);
        && r.Failure? == spec.Failure?
        && (r.Failure? ==> r.error == spec.error)
        && (r.Success? ==> Distinct(r.value) && forall d :: d in r.value <==> d in spec.value)
    {
      if surveyId !in surveyMap {
        return Failure(NotFound);
      }
      var alreadyParticipated := AlreadyParticipated(participationList, surveyId);
      var activeMembers := ActiveMembers();
      if activeMembers.Failure? {
        return Failure(activeMembers.error);
      }
      var invitable := RemoveAll(activeMembers.value, alreadyParticipated);
      r := Success(Map(invitable, ToMemberDTO));

      ghost var spec := InvitableMembers(State(), surveyId).value;
      forall d | d in r.value
        ensures d in spec
      {
        var k :| 0 <= k < |invitable| && r.value[k] == d;
        var m := invitable[k];
        assert m in activeMembers.value && m.id in memberMap && memberMap[m.id] == m;
      }
      forall d | d in spec
        ensures d in r.value
      {
        var id :| id in memberMap && memberMap[id].active == Some(true) && memberMap[id] !in alreadyParticipated
                  && ToMemberDTO(memberMap[id]) == d;
        assert memberMap[id] in invitable;
        var k :| 0 <= k < |invitable| && invitable[k] == memberMap[id];
        assert r.value[k] == d;
      }
    }
  }

  /** Members that are not among the given ones. */
  function NotAmong(others: seq<Member>): Member -> bool {
    (m: Member) => m !in others
  }

  /**
   * Removes from the list, one position at a time and keeping the order of
   * the rest, every element that occurs in `others`; the list holds no
   * element twice.
   */
  method RemoveAll(list: seq<Member>, others: seq<Member>) returns (kept: seq<Member>)
    requires Distinct(list)
    ensures kept == Filter(list, NotAmong(others))
    ensures Distinct(kept)
    ensures forall m :: m in kept <==> m in list && m !in others
  {
    kept := list;
    var i := 0;
    while i < |kept|
      invariant 0 <= i <= |kept|
      invariant Distinct(kept)
      invariant forall k :: 0 <= k < i ==> kept[k] !in others
      invariant Filter(kept, NotAmong(others)) == Filter(list, NotAmong(others))
      decreases |kept| - i
    {
      if kept[i] in others {
        assert kept == kept[..i] + [kept[i]] + kept[i + 1..];
        DropRejected(kept[..i], kept[i], kept[i + 1..], NotAmong(others));
        DistinctWithout(kept, i);
        kept := kept[..i] + kept[i + 1..];
      } else {
        i := i + 1;
      }
    }
    FilterKeepsAll(kept, NotAmong(others));
  }

  /**
   * Asking twice gives the same members: the query changes no table, so the
   * two answers differ at most in order.
   */
  method RepeatedInvitableQueries(service: SurveyService, surveyId: int)
    returns (first: Result<seq<MemberDTO>, Error>, second: Result<seq<MemberDTO>, Error>)
    requires service.Valid()
    ensures first.Success? == second.Success?
    ensures first.Failure? ==> first.error == second.error
    ensures first.Success? ==> forall d :: d in first.value <==> d in second.value
  {
    first := service.GetInvitableMemberForSurvey(surveyId);
    second := service.GetInvitableMemberForSurvey(surveyId);
  }
}
