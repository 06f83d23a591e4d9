# Flight team provisioning, modelled in Dafny

This project models the core of a sample that provisions a collaboration space
for an airline flight crew against Microsoft Graph:

- `Provisioning/TeamProvisioning.cs`: the `TeamProvisioning` workflow. It
  creates a flight's unified group, team, channels, "Challenging Passengers"
  list and landing page. It keeps the team's membership in step with an
  updated roster, and it archives the team.
- `create-flight-team/Graph/GraphService.cs`: the `GraphService` client. It
  wraps one request per backend operation around `MakeGraphCall`, which
  serializes the body, sends it to the beta endpoint, and retries on failure
  with a fixed backoff.

The model has four modules:

- `Linq` (`linq.dfy`): `Except` and `Distinct` with their .NET semantics.
  Each walks the sequence once and yields an element the first time it is
  not in the set of elements already seen.
- `GraphTypes` (`graph_types.dfy`): request bodies, replies, requests and
  the events the client records.
- `Graph` (`graph_service.dfy`): the `GraphService` class.
- `Provisioning` (`team_provisioning.dfy`): the `TeamProvisioning` class,
  plus the plan functions and lemmas about the workflow.

**The backend is a reply script.** The client holds a `backend: seq<Response>`.
The n-th request it puts on the wire (counting from 0) receives `backend[n]`.
A request beyond the end of the script receives a failed reply. Every send
appends `Send(call)` to the client's `log`, and every backoff appends
`Sleep(3000)`. `sent` counts the sends.

**Failure ends a run.** In the source, a failed request throws an exception
and ends the whole async operation. In the model, every operation returns a
`Result`, and the first failure is passed straight back to the caller.

**Each operation has a plan.** A plan is a pure function giving the requests
the operation issues when every reply succeeds. The ids in those requests are
read from the replies the earlier requests got. For example, the group id
used by the team stage is the `id` of the reply to the group creation.

**Methods are proved against their plans.** Each method is proved to:

- issue its plan up to and including the first failed reply (`Issued`), and
- return what those replies determine (`Settled`, `TeamResult`,
  `ProvisionResult`).

The lemmas then state what the plans promise:

- the order of stages,
- membership deduplication,
- the admin swap,
- the roster differences,
- the app installation,
- the absence of planner calls,
- the list columns and tab URLs,
- the page's web parts.

The retry loop is specified by a function `Retry` of the replies. Its lemmas
cover the number of attempts, the sleeps, the first success and the
exhausted budget.

Where the code and its comments or log messages disagree, the model follows
the code:

- The backoff is `Thread.Sleep(3000)`, although the log message says 2
  seconds.
- `MakeGraphCall`'s guard `method != Get || method != Delete` is true for
  every method. A present body is therefore serialized whatever the verb
  (`Graph.PayloadOf`).
- The `General` channel is taken with `First()`, which throws on an empty
  list. The model returns `Fail(NoChannels)` in that case.
- `UpdateTeamAsync` compares each roster only with its own earlier
  version. A user who moves from the flight attendants to the pilots is
  added to the group and then removed from it, though still on the team
  (`Provisioning.UpdateMovesAttendantToPilots`). The model keeps this
  behaviour.
- `Distinct` compares the member reference strings. A roster entry is built
  from the id its lookup reply carries, and the admin's entry from the
  admin's name. An admin who is also on a roster is therefore listed twice
  among the group's members, under two references
  (`Provisioning.AdminOnRosterListedTwice`).
- `TeamProvisioning.cs` imports `CreateFlightTeam.Graph`, but the client
  file declares `create_flight_team.Graph`. The model treats the two as the
  same client.

## Model

| member | source | states |
|---|---|---|
| Linq.ExceptSpec | Provisioning/TeamProvisioning.cs:60-81 | `a.Except(b)` holds exactly the elements of `a` not in `b`, each once, in order of first occurrence in `a` |
| Linq.ExceptFromMembers | Provisioning/TeamProvisioning.cs:60-81 | the enumeration yields `x` iff `x` is in the source and not in the seen set |
| Linq.ExceptFromNoDuplicates | Provisioning/TeamProvisioning.cs:60-81 | the enumeration never yields an element twice |
| Linq.ExceptFromOrder | Provisioning/TeamProvisioning.cs:60-81 | the enumeration yields elements in the order of their first occurrence in the source |
| Linq.ExceptCovered | Provisioning/TeamProvisioning.cs:60-81 | `a.Except(b)` is empty when `b` holds every element of `a` |
| Linq.DistinctSpec | Provisioning/TeamProvisioning.cs:115-116 | `Distinct()` keeps every element exactly once, in first-occurrence order |
| Linq.NoDuplicatesCountOne | Provisioning/TeamProvisioning.cs:115 | an element of a duplicate-free sequence occurs in it exactly once |
| Graph.PayloadOf | create-flight-team/Graph/GraphService.cs:185-191 | the payload is the serialized body exactly when a body is given, whatever the HTTP method |
| Graph.RetryOutcome | create-flight-team/Graph/GraphService.cs:199-237 | a call sends the same request between 1 and retries+1 times, with a sleep between sends. It returns the first success reply. Otherwise, once the budget is spent, it fails with the last reply's body. It never returns without a result |
| Graph.RetryExhausted | create-flight-team/Graph/GraphService.cs:213-228 | when every reply fails, a budget of N makes N+1 sends and N sleeps, then fails with the body of the last reply; a budget of zero or less makes one send |
| Graph.RetryFirstSuccess | create-flight-team/Graph/GraphService.cs:230-233 | the first success within the budget is returned and nothing is sent after it |
| Graph.IssuedDetermined | create-flight-team/Graph/GraphService.cs:224-227 | a run of requests is determined by the replies: it ends right after the first failed reply, and it issues everything iff every reply succeeds |
| Graph.GraphService.constructor | create-flight-team/Graph/GraphService.cs:25-35 | a new client has sent nothing and logged nothing, and uses the given backend |
| Graph.GraphService.Transmit | create-flight-team/Graph/GraphService.cs:211 | one send: the request is logged and receives the next reply of the script |
| Graph.GraphService.MakeGraphCall | create-flight-team/Graph/GraphService.cs:183-238 | the log grows by exactly the events of `Retry` for the request `endpoint + path` with the serialized body, the send count by its attempts, and the result is `Retry`'s. The trailing `return null` is unreachable |
| Graph.GraphService.GetMe | create-flight-team/Graph/GraphService.cs:57-61 | one GET of `/me`; the reply's resource, or its error |
| Graph.GraphService.GetUserByUpn | create-flight-team/Graph/GraphService.cs:63-67 | one GET of `/users/{upn}`; the reply's resource, or its error |
| Graph.GraphService.GetUserIds | create-flight-team/Graph/GraphService.cs:37-55 | one lookup per pilot, then one per flight attendant, in order. The result is the user references built from the replies, one per lookup with no deduplication; the first failed lookup ends the run with its error |
| Graph.GraphService.CreateGroup | create-flight-team/Graph/GraphService.cs:69-73 | one POST of the group to `/groups`; the created group, or the error |
| Graph.GraphService.CreateTeam | create-flight-team/Graph/GraphService.cs:75-78 | one PUT of the team to `/groups/{id}/team`; success iff the reply succeeded |
| Graph.GraphService.CreateGuestInvitation | create-flight-team/Graph/GraphService.cs:80-84 | one POST of the invitation to `/invitations`; the created invitation, or the error |
| Graph.GraphService.AddMember | create-flight-team/Graph/GraphService.cs:86-96 | a POST to `members/$ref`, then, only for an owner and only after the first succeeded, a POST to `owners/$ref`, both with the same user reference |
| Graph.GraphService.GetTeamChannels | create-flight-team/Graph/GraphService.cs:98-102 | one GET of `/teams/{id}/channels`; the channel collection, or the error |
| Graph.GraphService.CreateChatThread | create-flight-team/Graph/GraphService.cs:104-107 | one POST of the thread to the channel's `chatThreads` |
| Graph.GraphService.CreateTeamChannel | create-flight-team/Graph/GraphService.cs:109-113 | one POST of the channel to `/teams/{id}/channels`; the created channel, or the error |
| Graph.GraphService.AddAppToTeam | create-flight-team/Graph/GraphService.cs:115-118 | one POST of the app to `/teams/{id}/apps` |
| Graph.GraphService.GetSharePointSite | create-flight-team/Graph/GraphService.cs:120-124 | one GET of `/sites/{path}` |
| Graph.GraphService.GetOneDriveItem | create-flight-team/Graph/GraphService.cs:126-130 | one GET of `/sites/{id}/drive/{path}` |
| Graph.GraphService.GetTeamOneDriveFolder | create-flight-team/Graph/GraphService.cs:132-139 | the one call with a retry budget of 2: between one and three sends of the same GET, with the outcome of `Retry` |
| Graph.GraphService.CopySharePointFile | create-flight-team/Graph/GraphService.cs:141-151 | one POST of the parent reference to the item's `copy` |
| Graph.GraphService.CreatePlan | create-flight-team/Graph/GraphService.cs:153-157 | one POST to `/planner/plans` |
| Graph.GraphService.CreateBucket | create-flight-team/Graph/GraphService.cs:159-163 | one POST to `/planner/buckets` |
| Graph.GraphService.CreatePlannerTask | create-flight-team/Graph/GraphService.cs:165-169 | one POST to `/planner/tasks` |
| Graph.GraphService.GetTeamSite | create-flight-team/Graph/GraphService.cs:171-175 | one GET of `/groups/{id}/sites/root`; the site, or the error |
| Graph.GraphService.CreateSharePointList | create-flight-team/Graph/GraphService.cs:177-181 | one POST of the list to `/sites/{id}/lists`; the created list, or the error |
| Graph.GraphService.RemoveMember | Provisioning/TeamProvisioning.cs:56 | one removal request naming the team, the user and the owner flag |
| Graph.GraphService.ArchiveTeam | Provisioning/TeamProvisioning.cs:91 | one archive request for the team id |
| Graph.GraphService.GetSiteLists | Provisioning/TeamProvisioning.cs:330 | one request for the site's lists; the list collection, or the error |
| Graph.GraphService.AddTeamChannelTab | Provisioning/TeamProvisioning.cs:319 | one request adding the tab to the team's channel |
| Graph.GraphService.CreateSharePointPage | Provisioning/TeamProvisioning.cs:362 | one request creating the page on the site; the created page, or the error |
| Graph.GraphService.PublishSharePointPage | Provisioning/TeamProvisioning.cs:365 | one request publishing the page with the given id |
| Provisioning.GroupMembership | Provisioning/TeamProvisioning.cs:96-117 | the group is private, mail-enabled, unified and not security-enabled, named "Flight N" with nickname "flightN" + timestamp. Its members are exactly the looked-up references and the admin's reference, without duplicates, in first-occurrence order. Its owners are exactly `[admin]` |
| Provisioning.AdminRefIsUserRef | Provisioning/TeamProvisioning.cs:100-103 | the admin's literal URL has the same form as the client's user reference: the endpoint, `/users/` and the given name |
| Provisioning.AdminOnRosterListedTwice | Provisioning/TeamProvisioning.cs:97-115 | an admin who is also the roster's only entry, whose lookup reply carries an id other than the admin's name, appears twice among the group's members: once by the looked-up id and once by the admin's name |
| Provisioning.GroupMembersOnce | Provisioning/TeamProvisioning.cs:99-115 | each looked-up reference and the admin's reference appear in the group's members exactly once |
| Provisioning.TeamPageParts | Provisioning/TeamProvisioning.cs:332-360 | the page "TeamPage.aspx", titled "Flight N", has one list web part per site list, in list order. Each part has data version "1.0", the list's id and height key 1, and is a document library iff the list is named "Documents" |
| Provisioning.GroupPlanShape | Provisioning/TeamProvisioning.cs:94-137 | the group stage is: the n lookups; the group creation with the looked-up members; the guest invitation; then the invited user added as a plain member of the created group |
| Provisioning.GroupRunLookups | Provisioning/TeamProvisioning.cs:97 | a failed lookup ends the group stage with its error; otherwise the lookups took exactly n sends and produced the references the group is created with |
| Provisioning.GroupRunCreate | Provisioning/TeamProvisioning.cs:106-119 | the group request carries the looked-up members; a failure ends the stage with its error, and a success yields the group whose id the stage returns |
| Provisioning.GroupRunInvite | Provisioning/TeamProvisioning.cs:123-130 | the invitation is sent only after the group was created; a failure ends the stage, and a success yields the invited user |
| Provisioning.GroupRunAddGuest | Provisioning/TeamProvisioning.cs:133-136 | the guest is added with the created group's id and the invited user's id, completing the group stage |
| Provisioning.TeamPlanShape | Provisioning/TeamProvisioning.cs:139-207 | the team stage is: the team with guests barred from channel changes; the channel listing; then, when a channel exists, the Pilots and Flight Attendants channels, then the app when configured |
| Provisioning.ProvisionPlanParts | Provisioning/TeamProvisioning.cs:25-45 | provisioning is the group stage, then the team stage on the created group's id; then, when a first channel exists, the list stage on that channel and the page stage |
| Provisioning.GroupPlanCalls | Provisioning/TeamProvisioning.cs:94-137 | the group stage installs no app and makes no planner request |
| Provisioning.TeamPlanCalls | Provisioning/TeamProvisioning.cs:193-202 | in the team stage's plan (its run when every reply succeeds) the app is installed exactly once when `TeamAppToInstall` is non-empty (after a non-empty channel listing), never otherwise, and makes no planner request |
| Provisioning.ListPagePlanCalls | Provisioning/TeamProvisioning.cs:276-366 | the list and page stages install no app and make no planner request |
| Provisioning.ProvisionPlanCalls | Provisioning/TeamProvisioning.cs:25-45 | in the provisioning plan (the run when every reply succeeds), the disabled planner stage leaves no trace: no plan, bucket, task or planner tab. The app is installed exactly once iff it is configured and the team got a channel |
| Provisioning.ProvisionRunCalls | Provisioning/TeamProvisioning.cs:25-45 | in every provisioning run, whichever reply fails, each logged event is a single send and none is a planner request. The app is installed at most once, and never when none is configured. A run that reaches the end installs it exactly once iff it is configured and the team got a channel |
| Provisioning.ListStage | Provisioning/TeamProvisioning.cs:276-322 | the list has exactly the text columns Name, SeatNumber and Notes, in order; the tab goes to the given team and channel, and its content and website URLs are the created list's web URL |
| Provisioning.AdminCallsShape | Provisioning/TeamProvisioning.cs:51-57 | no admin request without an admin change. With one: the new admin is added as member and owner, then one removal request for the old admin with the owner flag set, all on the original team |
| Provisioning.UpdatePlanParts | Provisioning/TeamProvisioning.cs:47-86 | the update is: the admin requests, then pilots added, pilots removed, attendants added, attendants removed |
| Provisioning.UpdateAdmin | Provisioning/TeamProvisioning.cs:51-57 | once the new admin is added, the removal of the old one completes the admin part; with no change the admin part is empty |
| Provisioning.UpdateAdminAddFails | Provisioning/TeamProvisioning.cs:54 | a failed addition of the new admin ends the whole update |
| Provisioning.RosterRun | Provisioning/TeamProvisioning.cs:59-71 | one roster's run is its additions and then, if they all went through, its removals; it stops where either stopped |
| Provisioning.AddsCalls | Provisioning/TeamProvisioning.cs:61-64 | adding users issues one member reference per user, in order, none as owner |
| Provisioning.RemovesCalls | Provisioning/TeamProvisioning.cs:68-71 | removing users issues one plain removal per user, in order |
| Provisioning.RosterDeltaMembers | Provisioning/TeamProvisioning.cs:59-71 | a roster's changes add exactly the users that are new and remove exactly the users that are gone, all as plain members |
| Provisioning.RosterDeltaOrder | Provisioning/TeamProvisioning.cs:59-71 | every change occurs once, and every addition comes before every removal |
| Provisioning.RosterDeltaApply | Provisioning/TeamProvisioning.cs:59-71 | applying a roster's changes to the original roster yields exactly the updated roster |
| Provisioning.RosterUnchanged | Provisioning/TeamProvisioning.cs:59-71 | a roster with the same members before and after yields no request |
| Provisioning.RosterDeltaPlain | Provisioning/TeamProvisioning.cs:63-70 | a roster's changes never touch ownership |
| Provisioning.AdminSwap | Provisioning/TeamProvisioning.cs:47-86 | ownership changes happen iff the admin changed. The new admin is then added as owner before the one removal request for the old admin with the owner flag set, and nothing after those two touches ownership |
| Provisioning.UpdateOnOriginalTeam | Provisioning/TeamProvisioning.cs:47-86 | every request of an update names the original team's id |
| Provisioning.UpdateMovesAttendantToPilots | Provisioning/TeamProvisioning.cs:59-85 | moving a user from the flight attendants to the pilots adds the user to the group and then removes the user from it, because each roster is compared only with itself |
| Provisioning.UpdateAddsOnePilot | Provisioning/TeamProvisioning.cs:59-64 | adding "eve" to the pilots ["bob"] issues exactly one member reference, for "eve" |
| Provisioning.ProvisionGroupFails | Provisioning/TeamProvisioning.cs:28 | a failed group stage ends provisioning with its error |
| Provisioning.ProvisionTeamFails | Provisioning/TeamProvisioning.cs:31-32 | a failed team stage, or one with no channel, ends provisioning with that error |
| Provisioning.ProvisionListFails | Provisioning/TeamProvisioning.cs:39 | a failed list stage ends provisioning with its error |
| Provisioning.ProvisionPageEnds | Provisioning/TeamProvisioning.cs:42-44 | after the page stage provisioning returns the created group's id, or the page stage's error |
| Provisioning.TeamProvisioning.Initialize | Provisioning/TeamProvisioning.cs:19-23 | the workflow uses the given client and app setting |
| Provisioning.TeamProvisioning.ProvisionTeam | Provisioning/TeamProvisioning.cs:25-45 | issues the provisioning plan up to the first failure; returns the created group's id, or the first error |
| Provisioning.TeamProvisioning.UpdateTeam | Provisioning/TeamProvisioning.cs:47-86 | issues the update plan up to the first failure, all against the original team; fails with the first error |
| Provisioning.TeamProvisioning.UpdateRoster | Provisioning/TeamProvisioning.cs:59-71 | one roster: the `Except` additions, then the `Except` removals, up to the first failure |
| Provisioning.TeamProvisioning.AddMembers | Provisioning/TeamProvisioning.cs:61-64 | one plain member addition per user, in order, up to the first failure |
| Provisioning.TeamProvisioning.RemoveMembers | Provisioning/TeamProvisioning.cs:68-71 | one plain removal per user, in order, up to the first failure |
| Provisioning.TeamProvisioning.ArchiveTeam | Provisioning/TeamProvisioning.cs:88-92 | exactly one archive request for the given id |
| Provisioning.TeamProvisioning.CreateUnifiedGroup | Provisioning/TeamProvisioning.cs:94-137 | issues the group stage up to the first failure; returns the created group, or the first error |
| Provisioning.TeamProvisioning.InitializeTeamInGroup | Provisioning/TeamProvisioning.cs:139-207 | issues the team stage up to the first failure. Returns the first listed channel; fails with `NoChannels` when the listing is empty, before any channel is created |
| Provisioning.TeamProvisioning.CreateChallengingPassengersList | Provisioning/TeamProvisioning.cs:276-322 | issues the list stage up to the first failure; returns the created list |
| Provisioning.TeamProvisioning.CreateSharePointPage | Provisioning/TeamProvisioning.cs:324-366 | issues the page stage up to the first failure; the page is published with the id the creation returned |
| Provisioning.TeamProvisioning.BuildTeamPage | Provisioning/TeamProvisioning.cs:332-360 | the loop builds exactly `TeamPage`: one web part per site list, in list order |

## Left out

- HTTP transport, the bearer token and the request headers (`GraphService.cs:25-35`). The transport is the reply script; a send cannot hang or be cancelled.
- JSON serialization and deserialization. Bodies and replies are structured values, and a reply carries the fields the workflow reads: `Id`, `WebUrl`, `InvitedUser.Id` and `Value`.
- Logging in both files, and the `ILogger`/`TraceWriter` parameters.
- Async execution. Each `await` is a sequential call.
- The real delay of `Thread.Sleep`. It is recorded as a `Sleep(3000)` event.
- `GetTimestamp` and the clock. The timestamp is a parameter of `ProvisionTeam` and `CreateUnifiedGroup`.
- The environment variables. `TeamAppToInstall` is given to the constructor, and `TenantName` is read only by the planner stage.
- The planner stage `CreatePreflightPlanAsync` (`TeamProvisioning.cs:209-274`). The source never calls it. `Provisioning.ProvisionPlanCalls` shows that no planner request is made.
- The commented-out welcome thread. The `welcomeMessage` argument of `InitializeTeamInGroupAsync` is therefore unused and is not a parameter of the model.
- The flight number is a `float` in the source. The model keeps it as the text it is formatted to, so number formatting is not modelled.
- The source of `RemoveMemberAsync`, `ArchiveTeamAsync`, `GetSiteListsAsync`, `AddTeamChannelTab`, `CreateSharePointPageAsync` and `PublishSharePointPageAsync` is not part of this model. Each is modelled as one abstract request that fails when its reply fails.
- Static state. The source's static class with a static client becomes a `TeamProvisioning` object holding the client.
- The exception types. Errors are a `GraphError` carrying the reply body, or `NoChannels` for `First()` on an empty list.
- Provisioning.TeamProvisioning.UpdateRoster: the source writes the add and remove loops of a roster inline in `UpdateTeamAsync`. The model groups each roster's two loops into one method and makes the same requests in the same order.
