# Survey demo: the in-memory query engine

This project models the survey service of the survey-demo application.
The service holds four tables, filled once at start-up:

- statuses keyed by id;
- members keyed by id;
- surveys keyed by id;
- the list of participations, each naming a member, a survey, a status and an optional length.

It answers five read-only queries over these tables:

- the members who completed a survey;
- the surveys a member completed;
- the points a member collected, one entry per completed or filtered participation;
- the active members who can still be invited to a survey;
- per-survey statistics: counts of completed, filtered and rejected participations, and the mean recorded length, or NaN when no length is recorded.

The project also models the decoder of the members' numeric activity flag: `"1"` is true, `"0"` is false, any other text is absent.

Files:

- `wrappers.dfy`: `Option` and `Result`.
- `streams.dfy`: the stream operations the queries are built from.
  - `Filter`, `Map` and the `toMap` collector as `ToMap`.
  - `Positions`, which gives the indices of the kept elements, to state list order.
  - Lemmas about these operations.
- `survey_model.dfy`: the records, the four status codes with their fixed ids 1 to 4, and the response records with the field projections that stand for the object mapper.
- `numeric_boolean.dfy`: the flag decoder.
- `survey_queries.dfy`:
  - the tables as a value;
  - the member, survey and points queries as functions over a sequence;
  - the invitable query as a set, because the member table's iteration order is unspecified.
- `survey_statistics.dfy`: the grouping by survey id as a map from id to statistics entry, and the reduction of each group.
- `survey_service.dfy`: the service object.
  - Its four fields are filled by `ConstructMaps`.
  - `GetInvitableMemberForSurvey` is written as the source writes it. It walks the member table collecting the active members, then removes, one position at a time and keeping the order of the rest, every member named by an excluding participation.
  - That method is proved against `SurveyQueries.InvitableMembers`.
- `service_fixture.dfy`: the data set of the service's unit tests, with the answers the tests expect, proved for every query.

Errors:

- The not-found response is `Failure(NotFound)`.
- Filtering members on a flag that could not be decoded unboxes a null `Boolean`. That is `Failure(NullPointer)`.

Behaviour of the code that the model keeps:

- **Points.** A filtered participation earns its own survey's filtered points (src/main/java/com/demo/survey/service/SurveyService.java:152-153). Member 1 therefore gets 10 for survey 2, as src/test/java/com/demo/survey/service/SurveyServiceTest.java:146 expects; see `ServiceFixture.FixturePoints`.
- **Order of the statistics list.** The list is the values of a hash map (SurveyService.java:146-147), so its order is unspecified. The model returns the map keyed by survey id.
- **Unresolved references.** A participation whose member, survey or status is null makes the queries dereference null (for example SurveyService.java:79 and :164). The model requires every reference to resolve: `Tables.Valid` and the constructor's precondition.
- **Duplicates.** The queries do not deduplicate (SurveyService.java:79-81, :95-97). Two completing participations of the same member on the same survey give two entries, and the model returns one entry per completing participation.

## Model

| member | source | states |
|---|---|---|
| SurveyModel.StatusCode.Id | src/main/java/com/demo/survey/model/StatusEnum.java:7-10 | each status code has its fixed id, between 1 and 4 |
| SurveyModel.StatusIdsDistinct | src/main/java/com/demo/survey/model/StatusEnum.java:7-10 | two codes share an id exactly when they are the same code, so a status id names at most one code |
| SurveyModel.ToMemberDTO | src/main/java/com/demo/survey/service/SurveyService.java:190-192 | the member response copies id, name, e-mail and activity flag |
| SurveyModel.ToSurveyDTO | src/main/java/com/demo/survey/service/SurveyService.java:194-196 | the survey response copies id, name, expected completes and both point values |
| SurveyModel.ProjectionsInjective | src/main/java/com/demo/survey/service/SurveyService.java:190-196 | equal responses come only from equal records, so the projections lose nothing |
| NumericBoolean.Deserialize | src/main/java/com/demo/survey/util/NumericBooleanDeserializer.java:12-20 | true exactly for "1", false exactly for "0", absent exactly for every other text |
| NumericBoolean.DeserializeInvertsDigit | src/main/java/com/demo/survey/util/NumericBooleanDeserializer.java:12-20 | decoding yields a value b exactly for b's digit, so true and false are never confused |
| NumericBoolean.OtherTextsAreAbsent | src/main/java/com/demo/survey/util/NumericBooleanDeserializer.java:19 | the empty text, "2", " 1", "1 ", "true" and "false" decode to absent, not to an error |
| Streams.ToMap | src/main/java/com/demo/survey/service/SurveyService.java:59-64 | with unique keys, every row is stored under its own id and every stored row is a row of the list |
| Service.SurveyService.ConstructMaps | src/main/java/com/demo/survey/service/SurveyService.java:57-66 | the three tables are the rows keyed by id, the participation list is kept as given, and the tables are valid |
| SurveyQueries.SurveyMembers | src/main/java/com/demo/survey/service/SurveyService.java:75-82 | fails with NotFound exactly when the survey id is not in the survey table |
| SurveyQueries.SurveyMembersSelects | src/main/java/com/demo/survey/service/SurveyService.java:79-81 | for a known survey, the k-th member returned belongs to the k-th participation, in list order, that completed the survey; one entry per such participation |
| SurveyQueries.SurveyMembersExactly | src/main/java/com/demo/survey/service/SurveyService.java:79-81 | a member is returned iff some participation of theirs completed the survey, and it is that member's table row |
| SurveyQueries.CompletedSurveysForMember | src/main/java/com/demo/survey/service/SurveyService.java:91-98 | fails with NotFound exactly when the member id is not in the member table |
| SurveyQueries.CompletedSurveysSelects | src/main/java/com/demo/survey/service/SurveyService.java:95-97 | for a known member, the k-th survey returned belongs to the k-th participation, in list order, of that member with status COMPLETED |
| SurveyQueries.CompletedSurveysExactly | src/main/java/com/demo/survey/service/SurveyService.java:95-97 | a survey is returned iff the member completed it in some participation, and it is that survey's table row |
| SurveyQueries.CollectedPoints | src/main/java/com/demo/survey/service/SurveyService.java:150-161 | the entry names the participation's survey and carries its filtered points for FILTERED, its completion points for COMPLETED, and 0 otherwise |
| SurveyQueries.PointsForMember | src/main/java/com/demo/survey/service/SurveyService.java:108-111 | fails with NotFound exactly when the member id is not in the member table |
| SurveyQueries.PointsForMemberSelects | src/main/java/com/demo/survey/service/SurveyService.java:112-116 | for a known member, one entry per COMPLETED or FILTERED participation of the member, in list order, with completion points when completed and filtered points when filtered |
| SurveyQueries.InvitableMembers | src/main/java/com/demo/survey/service/SurveyService.java:127-138 | fails exactly when the survey is unknown (NotFound) or some activity flag is undecoded (NullPointer), NotFound taking precedence |
| SurveyQueries.InvitableMembersExactly | src/main/java/com/demo/survey/service/SurveyService.java:131-137 | a member is invitable iff they are an active member of the table and none of their participations is on this survey or NOT_ASKED on any survey |
| Service.SurveyService.ActiveMembers | src/main/java/com/demo/survey/service/SurveyService.java:135 | fails with NullPointer iff some flag is undecoded; otherwise holds each active member of the table exactly once, and no other |
| Service.RemoveAll | src/main/java/com/demo/survey/service/SurveyService.java:136 | the kept list is the list with every element among the others removed, the rest in their original order; each element once |
| Service.SurveyService.GetInvitableMemberForSurvey | src/main/java/com/demo/survey/service/SurveyService.java:127-138 | fails as InvitableMembers does, with the same error; otherwise returns each invitable member exactly once and nothing else |
| Service.RepeatedInvitableQueries | src/main/java/com/demo/survey/service/SurveyService.java:127-138 | two invitable queries in a row agree: same failure and error, or the same members |
| Statistics.Lengths | src/main/java/com/demo/survey/service/SurveyService.java:175-176 | no more lengths than participations, and none exactly when no participation has a recorded length |
| Statistics.LengthsAreRecorded | src/main/java/com/demo/survey/service/SurveyService.java:175-176 | the k-th length is the length of the k-th participation, in group order, that has a recorded length, and there is one per such participation |
| Statistics.AverageLength | src/main/java/com/demo/survey/service/SurveyService.java:174-176 | NaN exactly when no length is recorded; otherwise the mean times the number of recorded lengths is their sum (with LengthsAreRecorded, the mean of the non-null lengths) |
| Statistics.StatusCountsPartition | src/main/java/com/demo/survey/service/SurveyService.java:168-173 | the COMPLETED, FILTERED, REJECTED, NOT_ASKED and unknown-status counts of a group add up to its size |
| Statistics.StatisticsOf | src/main/java/com/demo/survey/service/SurveyService.java:163-178 | id and name of the first participation's survey; completes, filtered and rejected are the numbers of participations with status 4, 3 and 2, together at most the group size; the average of the group |
| Statistics.SurveyIds | src/main/java/com/demo/survey/service/SurveyService.java:146 | an id is a group key iff some participation is on that survey |
| Statistics.GroupOfOccurringId | src/main/java/com/demo/survey/service/SurveyService.java:146 | the group of an occurring id is non-empty and holds only that survey's participations |
| Statistics.SurveyStatistics | src/main/java/com/demo/survey/service/SurveyService.java:145-148 | one entry per survey id that occurs in the participations and no other, each keyed by its own survey id |
| Statistics.StatisticsEntry | src/main/java/com/demo/survey/service/SurveyService.java:163-178 | an entry is the reduction of its survey's group (so each count is that group's number of participations with its status); the three counts add up to the group size less NOT_ASKED and unknown statuses; NaN iff none of that survey's participations has a length |
| Statistics.EntryIsReduction | src/main/java/com/demo/survey/service/SurveyService.java:146-147 | the entry of an occurring survey id is the reduction of that id's non-empty group |
| Statistics.NoLengthInGroup | src/main/java/com/demo/survey/service/SurveyService.java:175-176 | a group has no recorded length iff no participation on that survey in the whole list has one |
| Statistics.StatisticsNameFromTable | src/main/java/com/demo/survey/service/SurveyService.java:164-167 | with resolved references, an entry's name is the survey table's name for that id |
| Statistics.CompletesAgreeWithSurveyMembers | src/main/java/com/demo/survey/service/SurveyService.java:168-169 | an entry's completes count equals the number of members the survey-members query returns for that survey |
| ServiceFixture.Fixture | src/test/java/com/demo/survey/service/SurveyServiceTest.java:31-60 | the test tables are valid: keyed by their rows' ids, every participation resolved |
| ServiceFixture.FixtureSurveyMembers | src/test/java/com/demo/survey/service/SurveyServiceTest.java:62-90 | survey 0 is not found; survey 1 gives members 1 and 2, survey 2 member 2, survey 3 nobody |
| ServiceFixture.FixtureCompletedSurveys | src/test/java/com/demo/survey/service/SurveyServiceTest.java:92-120 | member 0 is not found; member 1 completed survey 1, member 2 surveys 1 and 2, member 3 none |
| ServiceFixture.FixturePoints | src/test/java/com/demo/survey/service/SurveyServiceTest.java:122-155 | member 0 is not found; member 1 collects (1, 12) and (2, 10), member 2 (1, 12) and (2, 20), member 3 nothing |
| ServiceFixture.FixtureInvitable | src/test/java/com/demo/survey/service/SurveyServiceTest.java:157-183 | survey 0 is not found; nobody can be invited to surveys 1 and 2; only member 2 to survey 3 |
| ServiceFixture.FixtureStatistics | src/test/java/com/demo/survey/service/SurveyServiceTest.java:185-215 | three entries: 2/0/0 with mean 7.5, 1/1/1 with mean 22.5, 0/0/2 with NaN |

## Left out

- Loading the tables from the CSV files (`constructMaps` reading through `readCsvEntities`) is file I/O and is not modelled. The constructor takes the decoded rows as parameters. The empty list returned when a file cannot be read is not modelled either.
- The field deserializers that resolve a participation's member, survey and status ids against the tables are not part of this model. References are taken as already resolved.
- Service.SurveyService.ConstructMaps: requires unique ids in each row list. The map collector would throw on a duplicate id, and that exception is not modelled.
- SurveyQueries.Tables.Valid: requires every participation's references to resolve to table rows. A null reference would crash the queries with a null-pointer exception, and that crash is not reproduced.
- A query before the tables are filled is not modelled: the tables are filled by the constructor.
- Null values in other record fields are not modelled. Only the activity flag and the participation length may be absent. Examples of unmodelled nulls are a null id, a null status id and null points.
- The object mapper is a library call. It is modelled as copying the fields of the same name.
- The HTTP controller and the mapping of the not-found exception to an HTTP 404 response are framework behaviour and are not modelled.
- `Long` and `Integer` overflow in ids, points and length sums is not modelled; integers are unbounded.
- Statistics.AverageLength: the mean is an exact `real`, not a `double`. Rounding of the floating-point average is not modelled. The `NaN` case is its own constructor.
- Statistics.SurveyStatistics: returns the grouping map, not the list of its values. The list's order comes from hash-map iteration and is unspecified, so that order is not modelled.
- Service.SurveyService.GetInvitableMemberForSurvey: states which members are returned, each once, but not their order. The order is the member table's hash-map iteration order, which is unspecified. The loop in `ActiveMembers` visits the keys in an arbitrary order for the same reason.
- The four static fields are modelled as the fields of one service object. The unit tests assign the static fields directly; `ServiceFixture.Fixture` builds the same tables as a value.
- The member, completed-survey, points and statistics queries are functions of `SurveyService.State()` rather than methods of the class. They read the tables and change nothing.
