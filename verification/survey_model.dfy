/**
 * The records the survey service works on: members, surveys, status codes
 * and participations, the fixed status enumeration, and the response
 * records the queries return.
 */
module SurveyModel {
  import opened Wrappers

  /** The four status codes the service knows, by the numeric id it compares against. */
  datatype StatusCode = NotAsked | Rejected | Filtered | Completed {
    function Id(): (id: int)
      ensures 1 <= id <= 4
    {
      match this
      case NotAsked => 1
      case Rejected => 2
      case Filtered => 3
      case Completed => 4
    }
  }

  /** Different codes carry different ids, so a status id names at most one code. */
  lemma StatusIdsDistinct(a: StatusCode, b: StatusCode)
    ensures a.Id() == b.Id() <==> a == b
  {
  }

  /** A panel member; `active` is absent when the flag could not be decoded. */
  datatype Member = Member(id: int, fullName: string, email: string, active: Option<bool>)

  /** A survey with the points it awards for a completion and for a filtered participation. */
  datatype Survey = Survey(id: int, name: string, expectedCompletes: int, completionPoints: int, filteredPoints: int)

  /** A row of the status table. */
  datatype Status = Status(id: int, name: string)

  /**
   * One member's participation in one survey, with its status and the time
   * spent, which may be unrecorded. The references are already resolved
   * against the tables.
   */
  datatype Participation = Participation(member: Member, survey: Survey, status: Status, length: Option<int>)

  datatype MemberDTO = MemberDTO(id: int, fullName: string, email: string, active: Option<bool>)

  datatype SurveyDTO = SurveyDTO(id: int, name: string, expectedCompletes: int, completionPoints: int, filteredPoints: int)

  datatype CollectedPointsDTO = CollectedPointsDTO(surveyId: int, collectedPoints: int)

  /** A mean over the recorded lengths, or NaN when there is none to average. */
  datatype Average = NaN | Mean(value: real)

  datatype SurveyStatisticsDTO = SurveyStatisticsDTO(
    surveyId: int,
    surveyName: string,
    numberOfCompletes: nat,
    numberOfFiltered: nat,
    numberOfRejected: nat,
    averageLengthSpent: Average)

  /** The response record of a member: every field copied by name. */
  function ToMemberDTO(m: Member): (d: MemberDTO)
    ensures d.id == m.id && d.fullName == m.fullName && d.email == m.email && d.active == m.active
  {
    MemberDTO(m.id, m.fullName, m.email, m.active)
  }

  /** The response record of a survey: every field copied by name. */
  function ToSurveyDTO(s: Survey): (d: SurveyDTO)
    ensures d.id == s.id && d.name == s.name && d.expectedCompletes == s.expectedCompletes
    ensures d.completionPoints == s.completionPoints && d.filteredPoints == s.filteredPoints
  {
    SurveyDTO(s.id, s.name, s.expectedCompletes, s.completionPoints, s.filteredPoints)
  }

  /** The projections lose nothing: different records give different response records. */
  lemma ProjectionsInjective(m1: Member, m2: Member, s1: Survey, s2: Survey)
    ensures ToMemberDTO(m1) == ToMemberDTO(m2) ==> m1 == m2
    ensures ToSurveyDTO(s1) == ToSurveyDTO(s2) ==> s1 == s2
  {
  }
}
