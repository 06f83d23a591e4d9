/** The provisioning workflow (`TeamProvisioning`): create a flight team's
    group, team, channels, passenger list and page; keep its membership in
    step with an updated roster; archive it.

    Every request the workflow makes goes through one `GraphService`, whose
    replies come from its oracle. For each operation a pure "plan" function
    gives the requests the operation issues when every reply is a success,
    with the ids read from the replies it would get (reply `k + i` answers the
    `i`-th request of a plan started at send `k`). The methods are proved to
    issue their plan up to the first failed reply (`Issued`) and to return
    what the plan's replies determine; the lemmas then state what the plans
    promise. */
module Provisioning {
  import opened GraphTypes
  import opened Graph
  import Linq

  /** A flight team as the workflow receives it. The flight number is kept
      as the text it is formatted to. */
  datatype FlightTeam = FlightTeam(
    id: string,
    flightNumber: string,
    description: string,
    admin: string,
    pilots: seq<string>,
    flightAttendants: seq<string>,
    cateringLiaison: string)

  const WebTabApp: string := "com.microsoft.teamspace.tab.web"
  const PlannerTabApp: string := "com.microsoft.teamspace.tab.planner"

  /** The admin's user reference, written out as a literal URL. */
  function AdminRef(admin: string): string
  {
    "https://graph.microsoft.com/beta/users/" + admin
  }

  /** The literal has the same form as the client's own user reference:
      the endpoint, `/users/` and the given name. */
  lemma AdminRefIsUserRef(admin: string)
    ensures AdminRef(admin) == UserRef(admin)
  {
    assert GraphEndpoint + "/users/" == "https://graph.microsoft.com/beta/users/";
  }

  /** `Distinct` compares the reference strings. A roster entry is built
      from the id the lookup reply carries, and the admin's from the admin's
      name, so an admin who is also on a roster appears twice among the
      members, under two different references. */
  lemma AdminOnRosterListedTwice(team: FlightTeam, timestamp: string, b: Script)
    requires team.pilots + team.flightAttendants == [team.admin]
    requires Answer(b, 0).data.id != team.admin
    ensures var m := GroupPayload(team, timestamp, LookedUp(b, 0, 1)).members;
      m == [UserRef(Answer(b, 0).data.id), AdminRef(team.admin)] && m[0] != m[1]
  {
    var id := Answer(b, 0).data.id;
    var prefix := GraphEndpoint + "/users/";
    AdminRefIsUserRef(team.admin);
    assert UserRef(id) != UserRef(team.admin) by {
      assert UserRef(id)[|prefix|..] == id;
      assert UserRef(team.admin)[|prefix|..] == team.admin;
    }
    var refs := [UserRef(id), AdminRef(team.admin)];
    assert LookedUp(b, 0, 1) + [AdminRef(team.admin)] == refs;
    assert refs[1..] == [AdminRef(team.admin)];
    assert Linq.ExceptFrom(refs[1..], {refs[0]}) == [refs[1]] + Linq.ExceptFrom([], {refs[0], refs[1]});
    var none: set<string> := {};
    assert none + {refs[0]} == {refs[0]};
    assert Linq.Distinct(refs) == [refs[0]] + Linq.ExceptFrom(refs[1..], none + {refs[0]});
  }

  /** The number of user lookups the group stage makes. */
  function RosterSize(team: FlightTeam): nat
  {
    |team.pilots| + |team.flightAttendants|
  }

  // ---------------------------------------------------------------------
  // Request bodies

  /** The group to create: the looked-up references and the admin's as
      members, deduplicated by string, and the admin as the only owner. */
  function GroupPayload(team: FlightTeam, timestamp: string, userRefs: seq<string>): Body
  {
    var members := userRefs + [AdminRef(team.admin)];
    var owners := [AdminRef(team.admin)];
    Group("Flight " + team.flightNumber, team.description, "Private", true,
          "flight" + team.flightNumber + timestamp, ["Unified"], false,
          Linq.Distinct(members), Linq.Distinct(owners))
  }

  /** The group is a private, mail-enabled, non-security unified group named
      after the flight, with a nickname made unique by the timestamp; its
      members are the looked-up references and the admin's, each once, in
      first-occurrence order; its only owner is the admin. */
  lemma GroupMembership(team: FlightTeam, timestamp: string, userRefs: seq<string>)
    ensures var g := GroupPayload(team, timestamp, userRefs);
      && g.Group? && g.visibility == "Private" && g.mailEnabled && !g.securityEnabled
      && g.groupTypes == ["Unified"]
      && g.displayName == "Flight " + team.flightNumber
      && g.mailNickname == "flight" + team.flightNumber + timestamp
      && Linq.NoDuplicates(g.members)
      && (forall x :: x in g.members <==> x in userRefs || x == AdminRef(team.admin))
      && Linq.InFirstOccurrenceOrder(g.members, userRefs + [AdminRef(team.admin)])
      && g.owners == [AdminRef(team.admin)]
  {
    var owners := [AdminRef(team.admin)];
    Linq.DistinctSpec(userRefs + [AdminRef(team.admin)]);
    assert owners[1..] == [];
    assert Linq.ExceptFrom(owners[1..], {} + {owners[0]}) == [];
    assert Linq.Distinct(owners) == [owners[0]] + [];
  }

  /** Each looked-up reference and the admin's reference appear in the
      group's members exactly once. */
  lemma GroupMembersOnce(team: FlightTeam, timestamp: string, userRefs: seq<string>, x: string)
    requires x in userRefs || x == AdminRef(team.admin)
    ensures multiset(GroupPayload(team, timestamp, userRefs).members)[x] == 1
  {
    var g := GroupPayload(team, timestamp, userRefs);
    GroupMembership(team, timestamp, userRefs);
    Linq.NoDuplicatesCountOne(g.members, x);
  }

  function GuestInvitation(team: FlightTeam): Body
  {
    Invitation(team.cateringLiaison, "https://teams.microsoft.com", true)
  }

  /** Guests may neither create, update nor delete channels. */
  const GuestSettings: Body := Team(false, false)
  const PilotsChannel: Body := Channel("Pilots", "Discussion about flightpath, weather, etc.")
  const AttendantsChannel: Body := Channel("Flight Attendants", "Discussion about duty assignments, etc.")

  const PassengersList: Body :=
    SharePointList("Challenging Passengers",
                   [TextColumn("Name"), TextColumn("SeatNumber"), TextColumn("Notes")])

  /** The web tab showing the created list. */
  function ListTab(webUrl: string): Body
  {
    ChannelTab("Challenging Passengers", WebTabApp, webUrl, webUrl)
  }

  function ListPart(list: Entry): WebPart
  {
    WebPart(ListWebPart, "1.0", list.displayName == "Documents", list.id, 1)
  }

  /** The landing page: one list web part per site list, in list order. */
  function TeamPage(flightNumber: string, lists: seq<Entry>): Body
  {
    SharePointPage("TeamPage.aspx", "Flight " + flightNumber,
                   seq(|lists|, i requires 0 <= i < |lists| => ListPart(lists[i])))
  }

  /** The page is "TeamPage.aspx", titled after the flight, and holds one
      list web part per site list, in list order, each showing that list at
      height key 1 and marked as a document library exactly when the list is
      named "Documents". */
  lemma TeamPageParts(flightNumber: string, lists: seq<Entry>)
    ensures var page := TeamPage(flightNumber, lists);
      && page.SharePointPage? && page.name == "TeamPage.aspx"
      && page.title == "Flight " + flightNumber
      && |page.webParts| == |lists|
      && forall i :: 0 <= i < |lists| ==>
        && page.webParts[i].kind == ListWebPart
        && page.webParts[i].dataVersion == "1.0"
        && page.webParts[i].selectedListId == lists[i].id
        && page.webParts[i].webpartHeightKey == 1
        && (page.webParts[i].isDocumentLibrary <==> lists[i].displayName == "Documents")
  {
  }

  /** `TeamAppToInstall` was set to a non-empty value. */
  predicate AppConfigured(teamAppId: Option<string>)
  {
    teamAppId.Some? && teamAppId.value != ""
  }

  // ---------------------------------------------------------------------
  // Plans: the requests of each stage, as a function of the replies

  /** Look up the roster, create the group, invite the guest, add the guest
      to the created group. */
  function GroupPlan(team: FlightTeam, timestamp: string, backend: Script, k: nat): seq<Call>
  {
    var n := RosterSize(team);
    var group := GroupPayload(team, timestamp, LookedUp(backend, k, n));
    Lookups(team.pilots + team.flightAttendants)
      + [ CreateGroupCall(group),
          InvitationCall(GuestInvitation(team)),
          MemberRefCall(Answer(backend, k + n).data.id, Answer(backend, k + n + 1).data.invitedUserId) ]
  }

  /** The channels listed by the second request of a team stage started at send `k`. */
  function ChannelsOf(backend: Script, k: nat): seq<Entry>
  {
    Answer(backend, k + 1).data.value
  }

  /** Create the team, list its channels, and, when there is a first
      channel, create the two channels and install the configured app. */
  function TeamPlan(groupId: string, teamAppId: Option<string>, backend: Script, k: nat): seq<Call>
  {
    [CreateTeamCall(groupId, GuestSettings), ChannelsCall(groupId)]
      + if |ChannelsOf(backend, k)| == 0 then []
        else [CreateChannelCall(groupId, PilotsChannel), CreateChannelCall(groupId, AttendantsChannel)]
             + if AppConfigured(teamAppId) then [AddAppCall(groupId, TeamsApp(teamAppId.value))] else []
  }

  /** The result of the team stage once its run has ended at send `k1`. */
  function TeamResult(backend: Script, k0: nat, k1: nat): Result<Entry>
  {
    if Stopped(backend, k0, k1) then Fail(GraphError(Answer(backend, k1 - 1).body))
    else if |ChannelsOf(backend, k0)| == 0 then Fail(NoChannels)
    else Ok(ChannelsOf(backend, k0)[0])
  }

  /** Get the team site, create the list on it, add the list's tab to the channel. */
  function ListPlan(groupId: string, channelId: string, backend: Script, k: nat): seq<Call>
  {
    [ TeamSiteCall(groupId),
      CreateListCall(Answer(backend, k).data.id, PassengersList),
      AddTabCall(groupId, channelId, ListTab(Answer(backend, k + 1).data.webUrl)) ]
  }

  /** Get the team site and its lists, create the page, publish it. */
  function PagePlan(groupId: string, flightNumber: string, backend: Script, k: nat): seq<Call>
  {
    var siteId := Answer(backend, k).data.id;
    [ TeamSiteCall(groupId),
      SiteListsCall(siteId),
      CreatePageCall(siteId, TeamPage(flightNumber, Answer(backend, k + 1).data.value)),
      PublishPageCall(siteId, Answer(backend, k + 2).data.id) ]
  }

  /** The whole provisioning run: group, team, list, page. The team stage
      starts at send `k + n + 3`, after the `n` lookups and the three group
      requests; its channel listing is answered by the reply that follows. */
  function ProvisionPlan(team: FlightTeam, teamAppId: Option<string>, timestamp: string,
                         backend: Script, k: nat): seq<Call>
  {
    var n := RosterSize(team);
    var groupId := Answer(backend, k + n).data.id;
    var t := TeamPlan(groupId, teamAppId, backend, k + n + 3);
    var channels := ChannelsOf(backend, k + n + 3);
    var gt := GroupPlan(team, timestamp, backend, k) + t;
    if |channels| == 0 then gt
    else
      gt + ListPlan(groupId, channels[0].id, backend, k + n + 3 + |t|)
         + PagePlan(groupId, team.flightNumber, backend, k + n + 3 + |t| + 3)
  }

  /** The result of provisioning once its run has ended at send `k1`: the
      first error, or the id of the group created by the first stage. */
  function ProvisionResult(team: FlightTeam, backend: Script, k0: nat, k1: nat): Result<string>
  {
    var n := RosterSize(team);
    if Stopped(backend, k0, k1) then Fail(GraphError(Answer(backend, k1 - 1).body))
    else if |ChannelsOf(backend, k0 + n + 3)| == 0 then Fail(NoChannels)
    else Ok(Answer(backend, k0 + n).data.id)
  }

  // The stages within the plans.

  /** The group stage in four steps: the lookups, the group, the
      invitation, the guest added. */
  function GroupSteps(team: FlightTeam, timestamp: string, backend: Script, k: nat): seq<seq<Call>>
  {
    var n := RosterSize(team);
    [ Lookups(team.pilots + team.flightAttendants),
      [CreateGroupCall(GroupPayload(team, timestamp, LookedUp(backend, k, n)))],
      [InvitationCall(GuestInvitation(team))],
      AddMemberCalls(Answer(backend, k + n).data.id, Answer(backend, k + n + 1).data.invitedUserId, false) ]
  }

  lemma GroupStepsJoined(team: FlightTeam, timestamp: string, backend: Script, k: nat)
    ensures Joined(GroupSteps(team, timestamp, backend, k)) == GroupPlan(team, timestamp, backend, k)
  {
    var parts := GroupSteps(team, timestamp, backend, k);
    assert parts[..0] == [];
    JoinedNext(parts, 0);
    JoinedNext(parts, 1);
    JoinedNext(parts, 2);
    JoinedNext(parts, 3);
    assert parts[..4] == parts;
  }

  /** The first `i` steps of the group stage went through, without a failure,
      from send `k0` to send `k`. */
  predicate GroupRunSoFar(team: FlightTeam, timestamp: string, b: Script, k0: nat, i: nat,
                          k: nat, log0: seq<Event>, log: seq<Event>)
  {
    && i <= 4
    && Issued(Joined(GroupSteps(team, timestamp, b, k0)[..i]), b, k0, k, log0, log)
    && !Stopped(b, k0, k)
  }

  /** The step after `GroupRunSoFar(i)`: the run so far continues, or it
      stops and is then the group stage's whole run. */
  lemma GroupRunStep(team: FlightTeam, timestamp: string, b: Script, k0: nat, i: nat,
                     k1: nat, k2: nat, log0: seq<Event>, log1: seq<Event>, log2: seq<Event>)
    requires i < 4 && GroupRunSoFar(team, timestamp, b, k0, i, k1, log0, log1)
    requires Issued(GroupSteps(team, timestamp, b, k0)[i], b, k1, k2, log1, log2)
    ensures Stopped(b, k0, k2) <==> Stopped(b, k1, k2)
    ensures !Stopped(b, k1, k2) ==> GroupRunSoFar(team, timestamp, b, k0, i + 1, k2, log0, log2)
    ensures Stopped(b, k1, k2) || i == 3 ==>
              Issued(GroupPlan(team, timestamp, b, k0), b, k0, k2, log0, log2)
  {
    GroupStepsJoined(team, timestamp, b, k0);
    StageStep(GroupSteps(team, timestamp, b, k0), i, b, k0, k1, k2, log0, log1, log2);
  }

  /** The roster lookups, the first step of the group stage. */
  lemma GroupRunLookups(team: FlightTeam, timestamp: string, b: Script, k0: nat, k1: nat,
                        log0: seq<Event>, log1: seq<Event>, members: Result<seq<string>>)
    requires Issued(Lookups(team.pilots + team.flightAttendants), b, k0, k1, log0, log1)
    requires members == Settled(b, k0, k1, LookedUp(b, k0, |team.pilots| + |team.flightAttendants|))
    ensures members.Fail? ==>
              && Issued(GroupPlan(team, timestamp, b, k0), b, k0, k1, log0, log1)
              && Settled(b, k0, k1, Answer(b, k0 + RosterSize(team)).data) == Fail(members.error)
    ensures members.Ok? ==>
              && k1 == k0 + RosterSize(team) && GroupRunSoFar(team, timestamp, b, k0, 1, k1, log0, log1)
              && members.value == LookedUp(b, k0, RosterSize(team))
  {
    StagesStart(GroupSteps(team, timestamp, b, k0), b, k0, log0);
    GroupRunStep(team, timestamp, b, k0, 0, k0, k1, log0, log0, log1);
  }

  /** The group created from the looked-up members, the second step. */
  lemma GroupRunCreate(team: FlightTeam, timestamp: string, b: Script, k0: nat, k1: nat, k2: nat,
                       log0: seq<Event>, log1: seq<Event>, log2: seq<Event>,
                       members: seq<string>, group: Body, createdGroup: Result<Resource>)
    requires GroupRunSoFar(team, timestamp, b, k0, 1, k1, log0, log1) && k1 == k0 + RosterSize(team)
    requires members == LookedUp(b, k0, RosterSize(team)) && group == GroupPayload(team, timestamp, members)
    requires k2 == k1 + 1 && log2 == log1 + [Send(CreateGroupCall(group))]
    requires createdGroup == Reply(Answer(b, k1))
    ensures createdGroup.Fail? ==>
              && Issued(GroupPlan(team, timestamp, b, k0), b, k0, k2, log0, log2)
              && Settled(b, k0, k2, Answer(b, k0 + RosterSize(team)).data) == Fail(createdGroup.error)
    ensures createdGroup.Ok? ==>
              && GroupRunSoFar(team, timestamp, b, k0, 2, k2, log0, log2)
              && k2 == k0 + RosterSize(team) + 1
              && createdGroup.value == Answer(b, k0 + RosterSize(team)).data
  {
    IssuedSingle(CreateGroupCall(group), b, k1, k2, log1, log2);
    GroupRunStep(team, timestamp, b, k0, 1, k1, k2, log0, log1, log2);
  }

  /** The guest invited, the third step. */
  lemma GroupRunInvite(team: FlightTeam, timestamp: string, b: Script, k0: nat, k2: nat, k3: nat,
                       log0: seq<Event>, log2: seq<Event>, log3: seq<Event>,
                       createdInvite: Result<Resource>)
    requires GroupRunSoFar(team, timestamp, b, k0, 2, k2, log0, log2) && k2 == k0 + RosterSize(team) + 1
    requires k3 == k2 + 1 && log3 == log2 + [Send(InvitationCall(GuestInvitation(team)))]
    requires createdInvite == Reply(Answer(b, k2))
    ensures createdInvite.Fail? ==>
              && Issued(GroupPlan(team, timestamp, b, k0), b, k0, k3, log0, log3)
              && Settled(b, k0, k3, Answer(b, k0 + RosterSize(team)).data) == Fail(createdInvite.error)
    ensures createdInvite.Ok? ==>
              && GroupRunSoFar(team, timestamp, b, k0, 3, k3, log0, log3)
              && createdInvite.value == Answer(b, k0 + RosterSize(team) + 1).data
  {
    IssuedSingle(InvitationCall(GuestInvitation(team)), b, k2, k3, log2, log3);
    GroupRunStep(team, timestamp, b, k0, 2, k2, k3, log0, log2, log3);
  }

  /** The invited guest added to the created group, the last step. */
  lemma GroupRunAddGuest(team: FlightTeam, timestamp: string, b: Script, k0: nat, k3: nat, k4: nat,
                         log0: seq<Event>, log3: seq<Event>, log4: seq<Event>,
                         groupId: string, guestId: string, added: Result<()>)
    requires GroupRunSoFar(team, timestamp, b, k0, 3, k3, log0, log3)
    requires groupId == Answer(b, k0 + RosterSize(team)).data.id
    requires guestId == Answer(b, k0 + RosterSize(team) + 1).data.invitedUserId
    requires Issued(AddMemberCalls(groupId, guestId, false), b, k3, k4, log3, log4)
    requires added == Settled(b, k3, k4, ())
    ensures Issued(GroupPlan(team, timestamp, b, k0), b, k0, k4, log0, log4)
    ensures added.Fail? ==> Settled(b, k0, k4, Answer(b, k0 + RosterSize(team)).data) == Fail(added.error)
    ensures added.Ok? ==> Settled(b, k0, k4, Answer(b, k0 + RosterSize(team)).data)
                            == Ok(Answer(b, k0 + RosterSize(team)).data)
  {
    GroupRunStep(team, timestamp, b, k0, 3, k3, k4, log0, log3, log4);
  }

  /** The group stage: the roster lookups, then the group, the invitation and the guest. */
  lemma GroupPlanShape(team: FlightTeam, timestamp: string, backend: Script, k: nat)
    ensures var plan := GroupPlan(team, timestamp, backend, k);
      var n := RosterSize(team);
      && |plan| == n + 3
      && plan[0..n] == Lookups(team.pilots + team.flightAttendants)
      && plan[n] == CreateGroupCall(GroupPayload(team, timestamp, LookedUp(backend, k, n)))
      && plan[n + 1] == InvitationCall(GuestInvitation(team))
      && plan[n + 2..n + 3] == [MemberRefCall(Answer(backend, k + n).data.id, Answer(backend, k + n + 1).data.invitedUserId)]
  {
  }

  /** The team stage: the team, its channel listing, then the two channels
      and the app when there is a first channel. */
  lemma TeamPlanShape(groupId: string, teamAppId: Option<string>, backend: Script, k: nat)
    ensures var plan := TeamPlan(groupId, teamAppId, backend, k);
      var a := if AppConfigured(teamAppId) then 1 else 0;
      && |plan| >= 2
      && plan[0] == CreateTeamCall(groupId, GuestSettings)
      && plan[1] == ChannelsCall(groupId)
      && (|ChannelsOf(backend, k)| == 0 ==> |plan| == 2)
      && (|ChannelsOf(backend, k)| > 0 ==>
            && |plan| == 4 + a
            && plan[2] == CreateChannelCall(groupId, PilotsChannel)
            && plan[3] == CreateChannelCall(groupId, AttendantsChannel)
            && (a == 1 ==> plan[4] == AddAppCall(groupId, TeamsApp(teamAppId.value))))
  {
  }

  /** The plan is the group stage followed by the team stage, and by the
      list and page stages when there is a first channel. */
  lemma ProvisionPlanParts(team: FlightTeam, teamAppId: Option<string>, timestamp: string,
                           b: Script, k0: nat, groupId: string, k1: nat, k2: nat)
    requires groupId == Answer(b, k0 + RosterSize(team)).data.id
    requires k1 == k0 + |GroupPlan(team, timestamp, b, k0)|
    requires k2 == k1 + |TeamPlan(groupId, teamAppId, b, k1)|
    ensures k1 == k0 + RosterSize(team) + 3
    ensures var g, t := GroupPlan(team, timestamp, b, k0), TeamPlan(groupId, teamAppId, b, k1);
      var plan := ProvisionPlan(team, teamAppId, timestamp, b, k0);
      var channels := ChannelsOf(b, k1);
      && (|channels| == 0 ==> plan == g + t)
      && (|channels| > 0 ==>
            plan == (g + t) + ListPlan(groupId, channels[0].id, b, k2)
                            + PagePlan(groupId, team.flightNumber, b, k2 + 3))
  {
    GroupPlanShape(team, timestamp, b, k0);
  }

  // ---------------------------------------------------------------------
  // What the provisioning plan promises

  predicate IsPlannerCall(c: Call)
  {
    c.payload.Json? &&
    (c.payload.body.Plan? || c.payload.body.Bucket? || c.payload.body.PlannerTask? ||
     (c.payload.body.ChannelTab? && c.payload.body.teamsAppId == PlannerTabApp))
  }

  predicate IsAppInstall(c: Call)
  {
    c.payload.Json? && c.payload.body.TeamsApp?
  }

  function AppInstalls(calls: seq<Call>): nat
  {
    if calls == [] then 0
    else (if IsAppInstall(calls[0]) then 1 else 0) + AppInstalls(calls[1..])
  }

  lemma {:induction false} AppInstallsAppend(a: seq<Call>, b: seq<Call>)
    ensures AppInstalls(a + b) == AppInstalls(a) + AppInstalls(b)
    decreases |a|
  {
    if a == [] {
      assert a + b == b;
    } else {
      assert (a + b)[0] == a[0] && (a + b)[1..] == a[1..] + b;
      AppInstallsAppend(a[1..], b);
    }
  }

  lemma {:induction false} AppInstallsNone(calls: seq<Call>)
    requires forall i :: 0 <= i < |calls| ==> !IsAppInstall(calls[i])
    ensures AppInstalls(calls) == 0
    decreases |calls|
  {
    if calls != [] {
      AppInstallsNone(calls[1..]);
    }
  }

  /** No request of `calls` touches the planner. */
  predicate PlannerFree(calls: seq<Call>)
  {
    forall c :: c in calls ==> !IsPlannerCall(c)
  }

  /** The group stage neither installs an app nor touches the planner. */
  lemma GroupPlanCalls(team: FlightTeam, timestamp: string, backend: Script, k: nat)
    ensures var g := GroupPlan(team, timestamp, backend, k);
      PlannerFree(g) && AppInstalls(g) == 0
  {
    var upns := team.pilots + team.flightAttendants;
    var g := GroupPlan(team, timestamp, backend, k);
    assert forall i :: 0 <= i < |upns| ==> Lookups(upns)[i].payload == Empty;
    AppInstallsNone(g);
  }

  /** The team stage's plan, which is its run when every reply succeeds,
      installs the app once, after a non-empty channel listing, when one is
      configured; it never touches the planner. */
  lemma TeamPlanCalls(groupId: string, teamAppId: Option<string>, backend: Script, k: nat)
    ensures var t := TeamPlan(groupId, teamAppId, backend, k);
      && PlannerFree(t)
      && AppInstalls(t) == if AppConfigured(teamAppId) && |ChannelsOf(backend, k)| > 0 then 1 else 0
  {
    var t := TeamPlan(groupId, teamAppId, backend, k);
    var head := [CreateTeamCall(groupId, GuestSettings), ChannelsCall(groupId)];
    assert PlannerFree(head);
    if |ChannelsOf(backend, k)| == 0 {
      assert t == head;
      AppInstallsNone(head);
    } else {
      var channels := [CreateChannelCall(groupId, PilotsChannel), CreateChannelCall(groupId, AttendantsChannel)];
      assert PlannerFree(channels);
      var chans := head + channels;
      AppInstallsNone(chans);
      if AppConfigured(teamAppId) {
        var app := [AddAppCall(groupId, TeamsApp(teamAppId.value))];
        assert PlannerFree(app);
        assert t == chans + app;
        AppInstallsAppend(chans, app);
        assert app[1..] == [];
      } else {
        assert t == chans;
      }
    }
  }

  /** The list and page stages neither install an app nor touch the planner. */
  lemma ListPagePlanCalls(groupId: string, channelId: string, flightNumber: string,
                          backend: Script, k: nat, k': nat)
    ensures var l := ListPlan(groupId, channelId, backend, k);
      var p := PagePlan(groupId, flightNumber, backend, k');
      && PlannerFree(l) && AppInstalls(l) == 0
      && PlannerFree(p) && AppInstalls(p) == 0
  {
    AppInstallsNone(ListPlan(groupId, channelId, backend, k));
    AppInstallsNone(PagePlan(groupId, flightNumber, backend, k'));
  }

  /** The stages' counts add up over a run of two stages. */
  lemma PlanCallsFromTwo(g: seq<Call>, t: seq<Call>)
    requires PlannerFree(g) && PlannerFree(t) && AppInstalls(g) == 0
    ensures PlannerFree(g + t) && AppInstalls(g + t) == AppInstalls(t)
  {
    AppInstallsAppend(g, t);
  }

  /** The stages' counts add up over a run of four stages. */
  lemma PlanCallsFromFour(g: seq<Call>, t: seq<Call>, l: seq<Call>, p: seq<Call>)
    requires PlannerFree(g) && PlannerFree(t) && PlannerFree(l) && PlannerFree(p)
    requires AppInstalls(g) == 0 && AppInstalls(l) == 0 && AppInstalls(p) == 0
    ensures PlannerFree(g + t + l + p) && AppInstalls(g + t + l + p) == AppInstalls(t)
  {
    PlanCallsFromTwo(g, t);
    var gt := g + t;
    AppInstallsAppend(gt, l);
    var gtl := gt + l;
    AppInstallsAppend(gtl, p);
  }

  /** The counts over a plan that is either the first two stages or all four. */
  lemma PlanCallsFromStages(plan: seq<Call>, g: seq<Call>, t: seq<Call>, l: seq<Call>, p: seq<Call>, full: bool)
    requires !full ==> plan == g + t
    requires full ==> plan == g + t + l + p
    requires PlannerFree(g) && PlannerFree(t) && AppInstalls(g) == 0
    requires full ==> PlannerFree(l) && PlannerFree(p) && AppInstalls(l) == 0 && AppInstalls(p) == 0
    ensures PlannerFree(plan) && AppInstalls(plan) == AppInstalls(t)
  {
    if full {
      PlanCallsFromFour(g, t, l, p);
    } else {
      PlanCallsFromTwo(g, t);
    }
  }

  /** The provisioning plan, which is the run when every reply succeeds:
      the disabled planner stage leaves no trace in it (no planner plan,
      bucket, task or planner tab), and it installs the app exactly once
      when one is configured and the team has a channel, and never
      otherwise. `ProvisionRunCalls` carries this over to every run. */
  lemma ProvisionPlanCalls(team: FlightTeam, teamAppId: Option<string>, timestamp: string,
                           backend: Script, k: nat)
    ensures var plan := ProvisionPlan(team, teamAppId, timestamp, backend, k);
      && PlannerFree(plan)
      && AppInstalls(plan) ==
           if AppConfigured(teamAppId) && |ChannelsOf(backend, k + RosterSize(team) + 3)| > 0 then 1 else 0
  {
    var n := RosterSize(team);
    var g := GroupPlan(team, timestamp, backend, k);
    var groupId := Answer(backend, k + n).data.id;
    var t := TeamPlan(groupId, teamAppId, backend, k + n + 3);
    assert |g| == n + 3;
    ProvisionPlanParts(team, teamAppId, timestamp, backend, k, groupId, k + n + 3, k + n + 3 + |t|);
    GroupPlanCalls(team, timestamp, backend, k);
    TeamPlanCalls(groupId, teamAppId, backend, k + n + 3);
    var plan := ProvisionPlan(team, teamAppId, timestamp, backend, k);
    var channels := ChannelsOf(backend, k + n + 3);
    if |channels| > 0 {
      var l := ListPlan(groupId, channels[0].id, backend, k + n + 3 + |t|);
      var p := PagePlan(groupId, team.flightNumber, backend, k + n + 3 + |t| + 3);
      ListPagePlanCalls(groupId, channels[0].id, team.flightNumber, backend, k + n + 3 + |t|, k + n + 3 + |t| + 3);
      PlanCallsFromStages(plan, g, t, l, p, true);
    } else {
      PlanCallsFromStages(plan, g, t, [], [], false);
    }
  }

  lemma {:induction false} AppInstallsPrefix(calls: seq<Call>, j: nat)
    requires j <= |calls|
    ensures AppInstalls(calls[..j]) <= AppInstalls(calls)
  {
    assert calls == calls[..j] + calls[j..];
    AppInstallsAppend(calls[..j], calls[j..]);
  }

  /** Any provisioning run, whichever reply fails: every event it logs is a
      single send and none touches the planner; the app is installed at
      most once, never when none is configured, and, in a run that went
      through to the end, exactly once iff it is configured and the team
      has a channel. */
  lemma ProvisionRunCalls(team: FlightTeam, teamAppId: Option<string>, timestamp: string,
                          b: Script, k0: nat, k1: nat, log0: seq<Event>, log1: seq<Event>)
    requires Issued(ProvisionPlan(team, teamAppId, timestamp, b, k0), b, k0, k1, log0, log1)
    ensures forall e :: e in log1[|log0|..] ==> e.Send? && !IsPlannerCall(e.call)
    ensures var plan := ProvisionPlan(team, teamAppId, timestamp, b, k0);
      var issued := plan[..k1 - k0];
      && log1[|log0|..] == Sends(issued)
      && AppInstalls(issued) <= (if AppConfigured(teamAppId) then 1 else 0)
      && (k1 == k0 + |plan| ==>
            AppInstalls(issued) ==
              if AppConfigured(teamAppId) && |ChannelsOf(b, k0 + RosterSize(team) + 3)| > 0 then 1 else 0)
  {
    var plan := ProvisionPlan(team, teamAppId, timestamp, b, k0);
    var issued := plan[..k1 - k0];
    ProvisionPlanCalls(team, teamAppId, timestamp, b, k0);
    AppInstallsPrefix(plan, k1 - k0);
    assert log1[|log0|..] == Sends(issued);
    forall e | e in log1[|log0|..] ensures e.Send? && !IsPlannerCall(e.call) {
      var i :| 0 <= i < |issued| && Sends(issued)[i] == e;
      assert issued[i] in plan;
    }
    if k1 == k0 + |plan| {
      assert issued == plan;
    }
  }

  /** The passenger list has exactly the three text columns Name, SeatNumber
      and Notes, in that order, and the tab added to the given channel shows
      the web URL of the list the create call returned. */
  lemma ListStage(groupId: string, channelId: string, backend: Script, k: nat)
    ensures var plan := ListPlan(groupId, channelId, backend, k);
      && plan[1].payload.Json? && plan[1].payload.body.SharePointList?
      && plan[1].payload.body.columns == [TextColumn("Name"), TextColumn("SeatNumber"), TextColumn("Notes")]
      && plan[2].op == AddTeamChannelTab && plan[2].args == [groupId, channelId]
      && plan[2].payload.body.contentUrl == Answer(backend, k + 1).data.webUrl
      && plan[2].payload.body.websiteUrl == Answer(backend, k + 1).data.webUrl
  {
  }

  // ---------------------------------------------------------------------
  // Membership update

  /** One membership change of an update. */
  datatype MemberChange = Add(user: string, owner: bool) | Remove(user: string, owner: bool)

  function Adds(users: seq<string>): seq<MemberChange>
  {
    seq(|users|, i requires 0 <= i < |users| => Add(users[i], false))
  }

  function Removes(users: seq<string>): seq<MemberChange>
  {
    seq(|users|, i requires 0 <= i < |users| => Remove(users[i], false))
  }

  /** The changes for one roster: add who is new, then remove who has gone. */
  function RosterDelta(original: seq<string>, updated: seq<string>): seq<MemberChange>
  {
    Adds(Linq.Except(updated, original)) + Removes(Linq.Except(original, updated))
  }

  /** The admin swap: the new admin in, as member and owner, before the old
      admin out, by one removal request with the owner flag set. */
  function AdminDelta(original: FlightTeam, updated: FlightTeam): seq<MemberChange>
  {
    if updated.admin != original.admin
    then [Add(updated.admin, true), Remove(original.admin, true)] else []
  }

  /** The admin swap, then the pilots' changes, then the flight attendants'. */
  function MembershipDelta(original: FlightTeam, updated: FlightTeam): seq<MemberChange>
  {
    AdminDelta(original, updated)
      + RosterDelta(original.pilots, updated.pilots)
      + RosterDelta(original.flightAttendants, updated.flightAttendants)
  }

  function ChangeCalls(teamId: string, change: MemberChange): seq<Call>
  {
    match change
    case Add(user, owner) => AddMemberCalls(teamId, user, owner)
    case Remove(user, owner) => [RemoveMemberCall(teamId, user, owner)]
  }

  function DeltaCalls(teamId: string, changes: seq<MemberChange>): seq<Call>
  {
    if changes == [] then [] else ChangeCalls(teamId, changes[0]) + DeltaCalls(teamId, changes[1..])
  }

  function UpdatePlan(original: FlightTeam, updated: FlightTeam): seq<Call>
  {
    DeltaCalls(original.id, MembershipDelta(original, updated))
  }

  function AdminCalls(original: FlightTeam, updated: FlightTeam): seq<Call>
  {
    DeltaCalls(original.id, AdminDelta(original, updated))
  }

  /** The admin's requests: none without a change; otherwise the new admin
      added as member and owner, then one removal request for the old admin
      with the owner flag set. */
  lemma AdminCallsShape(original: FlightTeam, updated: FlightTeam)
    ensures var c0 := AdminCalls(original, updated);
      && (updated.admin == original.admin ==> c0 == [])
      && (updated.admin != original.admin ==>
            && |c0| == 3
            && c0 == AddMemberCalls(original.id, updated.admin, true)
                     + [RemoveMemberCall(original.id, original.admin, true)]
            && c0[0..2] == AddMemberCalls(original.id, updated.admin, true)
            && c0[2] == RemoveMemberCall(original.id, original.admin, true))
  {
    if updated.admin != original.admin {
      var id := original.id;
      var d0 := AdminDelta(original, updated);
      var add := AddMemberCalls(id, updated.admin, true);
      var remove := RemoveMemberCall(id, original.admin, true);
      assert d0[1..] == [Remove(original.admin, true)] && d0[1..][1..] == [];
      assert DeltaCalls(id, d0[1..]) == [remove] + DeltaCalls(id, d0[1..][1..]);
      assert AdminCalls(original, updated) == add + [remove];
    }
  }

  /** The update plan is the admin's requests followed by the four roster parts. */
  lemma UpdatePlanParts(original: FlightTeam, updated: FlightTeam)
    ensures var id := original.id;
      UpdatePlan(original, updated) ==
        AdminCalls(original, updated)
        + DeltaCalls(id, Adds(Linq.Except(updated.pilots, original.pilots)))
        + DeltaCalls(id, Removes(Linq.Except(original.pilots, updated.pilots)))
        + DeltaCalls(id, Adds(Linq.Except(updated.flightAttendants, original.flightAttendants)))
        + DeltaCalls(id, Removes(Linq.Except(original.flightAttendants, updated.flightAttendants)))
  {
    var id := original.id;
    var d0 := AdminDelta(original, updated);
    var d1 := Adds(Linq.Except(updated.pilots, original.pilots));
    var d2 := Removes(Linq.Except(original.pilots, updated.pilots));
    var d3 := Adds(Linq.Except(updated.flightAttendants, original.flightAttendants));
    var d4 := Removes(Linq.Except(original.flightAttendants, updated.flightAttendants));
    assert MembershipDelta(original, updated) == d0 + d1 + d2 + d3 + d4;
    DeltaCallsAppend(id, d0 + d1 + d2 + d3, d4);
    DeltaCallsAppend(id, d0 + d1 + d2, d3);
    DeltaCallsAppend(id, d0 + d1, d2);
    DeltaCallsAppend(id, d0, d1);
  }

  /** Part `j` of an update: the admin's requests, the pilots' requests,
      the flight attendants' requests. */
  function UpdatePart(original: FlightTeam, updated: FlightTeam, j: nat): seq<Call>
    requires j < 3
  {
    if j == 0 then AdminCalls(original, updated)
    else if j == 1 then DeltaCalls(original.id, RosterDelta(original.pilots, updated.pilots))
    else DeltaCalls(original.id, RosterDelta(original.flightAttendants, updated.flightAttendants))
  }

  /** The first `i` parts of an update, joined. */
  function UpdateUpTo(original: FlightTeam, updated: FlightTeam, i: nat): seq<Call>
    requires i <= 3
  {
    if i == 0 then [] else UpdateUpTo(original, updated, i - 1) + UpdatePart(original, updated, i - 1)
  }

  /** A run that stopped within the first `i` parts of an update is the run
      of the whole update. */
  lemma {:induction false} UpdateStops(original: FlightTeam, updated: FlightTeam, i: nat,
                                       b: Script, k0: nat, k: nat, log0: seq<Event>, log: seq<Event>)
    requires i <= 3
    requires Issued(UpdateUpTo(original, updated, i), b, k0, k, log0, log)
    requires i == 3 || Stopped(b, k0, k)
    ensures Issued(UpdatePlan(original, updated), b, k0, k, log0, log)
    decreases 3 - i
  {
    if i < 3 {
      IssuedStop(UpdateUpTo(original, updated, i), UpdatePart(original, updated, i), b, k0, k, log0, log);
      UpdateStops(original, updated, i + 1, b, k0, k, log0, log);
    } else {
      UpdateUpToAll(original, updated);
    }
  }

  /** The three parts joined are the update plan. */
  lemma UpdateUpToAll(original: FlightTeam, updated: FlightTeam)
    ensures UpdateUpTo(original, updated, 3) == UpdatePlan(original, updated)
  {
    var id := original.id;
    var d0 := AdminDelta(original, updated);
    var d1 := RosterDelta(original.pilots, updated.pilots);
    var d2 := RosterDelta(original.flightAttendants, updated.flightAttendants);
    var c0, c1, c2 := DeltaCalls(id, d0), DeltaCalls(id, d1), DeltaCalls(id, d2);
    assert UpdateUpTo(original, updated, 1) == [] + c0 == c0;
    assert UpdateUpTo(original, updated, 2) == c0 + c1;
    assert UpdateUpTo(original, updated, 3) == c0 + c1 + c2;
    DeltaCallsAppend(id, d0, d1);
    DeltaCallsAppend(id, d0 + d1, d2);
    assert MembershipDelta(original, updated) == d0 + d1 + d2;
  }

  /** Part `i` of an update, run after the first `i` parts went through:
      the run so far, and the whole run when it stopped or was the last part. */
  lemma UpdateStep(original: FlightTeam, updated: FlightTeam, i: nat, b: Script,
                   k0: nat, k1: nat, k2: nat, log0: seq<Event>, log1: seq<Event>, log2: seq<Event>)
    requires i < 3
    requires Issued(UpdateUpTo(original, updated, i), b, k0, k1, log0, log1) && !Stopped(b, k0, k1)
    requires Issued(UpdatePart(original, updated, i), b, k1, k2, log1, log2)
    ensures Issued(UpdateUpTo(original, updated, i + 1), b, k0, k2, log0, log2)
    ensures Stopped(b, k0, k2) <==> Stopped(b, k1, k2)
    ensures Stopped(b, k1, k2) || i == 2 ==> Issued(UpdatePlan(original, updated), b, k0, k2, log0, log2)
  {
    IssuedThen(UpdateUpTo(original, updated, i), UpdatePart(original, updated, i), b, k0, k1, k2, log0, log1, log2);
    if Stopped(b, k1, k2) || i == 2 {
      UpdateStops(original, updated, i + 1, b, k0, k2, log0, log2);
    }
  }

  /** One roster's requests: the additions, then, when they all went
      through, the removals. */
  lemma RosterRun(teamId: string, original: seq<string>, updated: seq<string>, b: Script,
                  k0: nat, k1: nat, k2: nat, log0: seq<Event>, log1: seq<Event>, log2: seq<Event>)
    requires Issued(DeltaCalls(teamId, Adds(Linq.Except(updated, original))), b, k0, k1, log0, log1)
    requires Stopped(b, k0, k1) ==> k2 == k1 && log2 == log1
    requires !Stopped(b, k0, k1) ==>
      Issued(DeltaCalls(teamId, Removes(Linq.Except(original, updated))), b, k1, k2, log1, log2)
    ensures Issued(DeltaCalls(teamId, RosterDelta(original, updated)), b, k0, k2, log0, log2)
    ensures Stopped(b, k0, k2) <==> Stopped(b, k0, k1) || Stopped(b, k1, k2)
  {
    var adds := Adds(Linq.Except(updated, original));
    var removes := Removes(Linq.Except(original, updated));
    DeltaCallsAppend(teamId, adds, removes);
    if Stopped(b, k0, k1) {
      IssuedStop(DeltaCalls(teamId, adds), DeltaCalls(teamId, removes), b, k0, k1, log0, log1);
    } else {
      IssuedThen(DeltaCalls(teamId, adds), DeltaCalls(teamId, removes), b, k0, k1, k2, log0, log1, log2);
    }
  }

  /** The admin's requests, once the new admin was added and the old one
      removed, or at once when the admin did not change. */
  lemma UpdateAdmin(original: FlightTeam, updated: FlightTeam, b: Script,
                    k0: nat, k1: nat, k2: nat, log0: seq<Event>, log1: seq<Event>, log2: seq<Event>)
    requires updated.admin == original.admin ==> k2 == k0 && log2 == log0
    requires updated.admin != original.admin ==>
      && Issued(AddMemberCalls(original.id, updated.admin, true), b, k0, k1, log0, log1)
      && !Stopped(b, k0, k1)
      && k2 == k1 + 1 && log2 == log1 + [Send(RemoveMemberCall(original.id, original.admin, true))]
    ensures Issued(UpdatePart(original, updated, 0), b, k0, k2, log0, log2)
    ensures UpdateUpTo(original, updated, 0) == []
    ensures Stopped(b, k0, k2) <==> updated.admin != original.admin && Stopped(b, k1, k2)
  {
    AdminCallsShape(original, updated);
    if updated.admin == original.admin {
      IssuedNothing(b, k0, log0);
    } else {
      var remove := RemoveMemberCall(original.id, original.admin, true);
      IssuedSingle(remove, b, k1, k2, log1, log2);
      IssuedThen(AddMemberCalls(original.id, updated.admin, true), [remove], b, k0, k1, k2, log0, log1, log2);
    }
  }

  /** The admin swap failed at its first request: the run of the whole update. */
  lemma UpdateAdminAddFails(original: FlightTeam, updated: FlightTeam, b: Script,
                            k0: nat, k1: nat, log0: seq<Event>, log1: seq<Event>)
    requires updated.admin != original.admin
    requires Issued(AddMemberCalls(original.id, updated.admin, true), b, k0, k1, log0, log1)
    requires Stopped(b, k0, k1)
    ensures Issued(UpdatePlan(original, updated), b, k0, k1, log0, log1)
  {
    AdminCallsShape(original, updated);
    var remove := RemoveMemberCall(original.id, original.admin, true);
    IssuedStop(AddMemberCalls(original.id, updated.admin, true), [remove], b, k0, k1, log0, log1);
    assert UpdateUpTo(original, updated, 1) == [] + AdminCalls(original, updated);
    UpdateStops(original, updated, 1, b, k0, k1, log0, log1);
  }

  /** The users a roster names. */
  function Members(users: seq<string>): set<string>
  {
    set x | x in users
  }

  /** The roster a set of members becomes once the changes are applied in order. */
  function Apply(roster: set<string>, changes: seq<MemberChange>): set<string>
    decreases |changes|
  {
    if changes == [] then roster
    else
      var next := match changes[0]
        case Add(user, _) => roster + {user}
        case Remove(user, _) => roster - {user};
      Apply(next, changes[1..])
  }

  lemma {:induction false} DeltaCallsAppend(teamId: string, a: seq<MemberChange>, b: seq<MemberChange>)
    ensures DeltaCalls(teamId, a + b) == DeltaCalls(teamId, a) + DeltaCalls(teamId, b)
    decreases |a|
  {
    if a == [] {
      assert a + b == b;
    } else {
      assert (a + b)[0] == a[0] && (a + b)[1..] == a[1..] + b;
      DeltaCallsAppend(teamId, a[1..], b);
    }
  }

  /** Plain additions issue one member reference each, in order. */
  lemma {:induction false} AddsCalls(teamId: string, users: seq<string>)
    ensures var calls := DeltaCalls(teamId, Adds(users));
      |calls| == |users| && forall i :: 0 <= i < |users| ==> calls[i] == MemberRefCall(teamId, users[i])
    decreases |users|
  {
    if users != [] {
      assert Adds(users)[1..] == Adds(users[1..]);
      AddsCalls(teamId, users[1..]);
    }
  }

  /** Plain removals issue one removal each, in order. */
  lemma {:induction false} RemovesCalls(teamId: string, users: seq<string>)
    ensures var calls := DeltaCalls(teamId, Removes(users));
      |calls| == |users| && forall i :: 0 <= i < |users| ==> calls[i] == RemoveMemberCall(teamId, users[i], false)
    decreases |users|
  {
    if users != [] {
      assert Removes(users)[1..] == Removes(users[1..]);
      RemovesCalls(teamId, users[1..]);
    }
  }

  lemma {:induction false} ApplyAppend(roster: set<string>, a: seq<MemberChange>, b: seq<MemberChange>)
    ensures Apply(roster, a + b) == Apply(Apply(roster, a), b)
    decreases |a|
  {
    if a == [] {
      assert a + b == b;
    } else {
      assert (a + b)[0] == a[0] && (a + b)[1..] == a[1..] + b;
      var next := match a[0] case Add(user, _) => roster + {user} case Remove(user, _) => roster - {user};
      ApplyAppend(next, a[1..], b);
    }
  }

  lemma {:induction false} ApplyAdds(roster: set<string>, users: seq<string>)
    ensures Apply(roster, Adds(users)) == roster + Members(users)
    decreases |users|
  {
    if users != [] {
      assert Adds(users)[1..] == Adds(users[1..]);
      ApplyAdds(roster + {users[0]}, users[1..]);
      assert Members(users) == {users[0]} + Members(users[1..]);
    }
  }

  lemma {:induction false} ApplyRemoves(roster: set<string>, users: seq<string>)
    ensures Apply(roster, Removes(users)) == roster - Members(users)
    decreases |users|
  {
    if users != [] {
      assert Removes(users)[1..] == Removes(users[1..]);
      ApplyRemoves(roster - {users[0]}, users[1..]);
      assert Members(users) == {users[0]} + Members(users[1..]);
    }
  }

  lemma AddsMembers(users: seq<string>, c: MemberChange)
    ensures c in Adds(users) <==> c.Add? && !c.owner && c.user in users
  {
    if c.Add? && !c.owner && c.user in users {
      var i :| 0 <= i < |users| && users[i] == c.user;
      assert Adds(users)[i] == c;
    }
  }

  lemma RemovesMembers(users: seq<string>, c: MemberChange)
    ensures c in Removes(users) <==> c.Remove? && !c.owner && c.user in users
  {
    if c.Remove? && !c.owner && c.user in users {
      var i :| 0 <= i < |users| && users[i] == c.user;
      assert Removes(users)[i] == c;
    }
  }

  /** One roster's changes add exactly the new members and remove exactly
      the departed ones, none as owner; no user is both added and removed. */
  lemma RosterDeltaMembers(original: seq<string>, updated: seq<string>)
    ensures var d := RosterDelta(original, updated);
      && (forall x :: Add(x, false) in d <==> x in updated && x !in original)
      && (forall x :: Remove(x, false) in d <==> x in original && x !in updated)
      && (forall x :: !(Add(x, false) in d && Remove(x, false) in d))
      && (forall c :: c in d ==> !c.owner)
  {
    var added := Linq.Except(updated, original);
    var removed := Linq.Except(original, updated);
    Linq.ExceptSpec(updated, original);
    Linq.ExceptSpec(original, updated);
    forall c ensures c in RosterDelta(original, updated) <==> c in Adds(added) || c in Removes(removed) {
    }
    forall c ensures c in Adds(added) <==> c.Add? && !c.owner && c.user in added {
      AddsMembers(added, c);
    }
    forall c ensures c in Removes(removed) <==> c.Remove? && !c.owner && c.user in removed {
      RemovesMembers(removed, c);
    }
  }

  /** Each change of a roster occurs once, and every addition comes before
      every removal. */
  lemma RosterDeltaOrder(original: seq<string>, updated: seq<string>)
    ensures var d := RosterDelta(original, updated);
      && Linq.NoDuplicates(d)
      && (forall i, j :: 0 <= i < j < |d| && d[j].Add? ==> d[i].Add?)
  {
    var added := Linq.Except(updated, original);
    var removed := Linq.Except(original, updated);
    Linq.ExceptSpec(updated, original);
    Linq.ExceptSpec(original, updated);
    var d := RosterDelta(original, updated);
    forall i, j | 0 <= i < j < |d| ensures d[i] != d[j] {
      if j < |added| {
        assert added[i] != added[j];
      } else if i >= |added| {
        assert removed[i - |added|] != removed[j - |added|];
      }
    }
  }

  /** Applying one roster's changes to the original roster yields exactly the
      updated one. */
  lemma RosterDeltaApply(original: seq<string>, updated: seq<string>)
    ensures Apply(Members(original), RosterDelta(original, updated)) == Members(updated)
  {
    var added := Linq.Except(updated, original);
    var removed := Linq.Except(original, updated);
    Linq.ExceptSpec(updated, original);
    Linq.ExceptSpec(original, updated);
    ApplyAppend(Members(original), Adds(added), Removes(removed));
    ApplyAdds(Members(original), added);
    ApplyRemoves(Members(original) + Members(added), removed);
  }

  /** A roster with the same members before and after yields no change. */
  lemma RosterUnchanged(original: seq<string>, updated: seq<string>)
    requires forall x :: x in original <==> x in updated
    ensures RosterDelta(original, updated) == []
  {
    Linq.ExceptCovered(updated, original);
    Linq.ExceptCovered(original, updated);
  }

  /** A roster's changes are all plain memberships. */
  lemma RosterDeltaPlain(original: seq<string>, updated: seq<string>)
    ensures forall c :: c in RosterDelta(original, updated) ==> !c.owner
  {
    var adds := Adds(Linq.Except(updated, original));
    var removes := Removes(Linq.Except(original, updated));
    assert forall c :: c in adds ==> !c.owner;
    assert forall c :: c in removes ==> !c.owner;
  }

  /** Changes made of `a` followed by plain changes have their owner
      changes in `a` only. */
  lemma OwnersOnlyFirst(a: seq<MemberChange>, r1: seq<MemberChange>, r2: seq<MemberChange>)
    requires forall c :: c in r1 ==> !c.owner
    requires forall c :: c in r2 ==> !c.owner
    ensures forall i :: |a| <= i < |a + r1 + r2| ==> !(a + r1 + r2)[i].owner
    ensures forall c :: c in a + r1 + r2 && c.owner ==> c in a
  {
    var d := a + r1 + r2;
    forall i | |a| <= i < |d| ensures !d[i].owner {
      if i < |a| + |r1| {
        assert d[i] == r1[i - |a|];
      } else {
        assert d[i] == r2[i - |a| - |r1|];
      }
    }
  }

  /** Owner changes happen exactly when the admin changed: then the new admin
      is added as member and owner before one removal request for the old
      admin with the owner flag set; every other change is a plain member
      change. */
  lemma AdminSwap(original: FlightTeam, updated: FlightTeam)
    ensures var d := MembershipDelta(original, updated);
      && (updated.admin == original.admin <==> forall c :: c in d ==> !c.owner)
      && (updated.admin != original.admin ==>
            |d| >= 2 && d[0] == Add(updated.admin, true) && d[1] == Remove(original.admin, true)
            && forall i :: 2 <= i < |d| ==> !d[i].owner)
  {
    var a := AdminDelta(original, updated);
    var r1 := RosterDelta(original.pilots, updated.pilots);
    var r2 := RosterDelta(original.flightAttendants, updated.flightAttendants);
    RosterDeltaPlain(original.pilots, updated.pilots);
    RosterDeltaPlain(original.flightAttendants, updated.flightAttendants);
    OwnersOnlyFirst(a, r1, r2);
  }

  /** The request of a membership change names the team it changes. */
  predicate OnTeam(c: Call, teamId: string)
  {
    match c
    case Http(_, uri, _) =>
      uri == GraphEndpoint + "/groups/" + teamId + "/members/$ref" ||
      uri == GraphEndpoint + "/groups/" + teamId + "/owners/$ref"
    case Abstract(op, args, _) => op.RemoveMember? && |args| == 2 && args[0] == teamId
  }

  lemma {:induction false} DeltaCallsOnTeam(teamId: string, changes: seq<MemberChange>)
    ensures forall c :: c in DeltaCalls(teamId, changes) ==> OnTeam(c, teamId)
    decreases |changes|
  {
    if changes != [] {
      var head := ChangeCalls(teamId, changes[0]);
      assert forall c :: c in head ==> OnTeam(c, teamId) by {
        match changes[0]
        case Add(user, owner) =>
        case Remove(user, owner) =>
      }
      DeltaCallsOnTeam(teamId, changes[1..]);
    }
  }

  /** Every request of an update targets the original team's id. */
  lemma UpdateOnOriginalTeam(original: FlightTeam, updated: FlightTeam)
    ensures forall c :: c in UpdatePlan(original, updated) ==> OnTeam(c, original.id)
  {
    DeltaCallsOnTeam(original.id, MembershipDelta(original, updated));
  }

  /** Adding "eve" to the pilots ["bob"] issues one member reference for
      "eve" and nothing else. */
  lemma UpdateAddsOnePilot(original: FlightTeam)
    requires original.pilots == ["bob"] && original.flightAttendants == []
    ensures UpdatePlan(original, original.(pilots := ["bob", "eve"])) == [MemberRefCall(original.id, "eve")]
  {
    var updated := original.(pilots := ["bob", "eve"]);
    assert "eve" != "bob";
    assert Linq.Except(["bob", "eve"], ["bob"]) == ["eve"] by {
      var seen := set x | x in ["bob"];
      assert seen == {"bob"};
      assert ["bob", "eve"][1..] == ["eve"];
    }
    assert Linq.Except(["bob"], ["bob", "eve"]) == [] by {
      assert "bob" in set x | x in ["bob", "eve"];
    }
    assert Linq.Except<string>([], []) == [];
    assert MembershipDelta(original, updated) == [Add("eve", false)];
    assert DeltaCalls(original.id, [Add("eve", false)]) == [MemberRefCall(original.id, "eve")] + DeltaCalls(original.id, []);
  }

  /** Rosters are compared one at a time: moving a user from the flight
      attendants to the pilots adds the user to the group and then removes
      the user from it, although the user is still on the team. */
  lemma UpdateMovesAttendantToPilots(original: FlightTeam, x: string)
    requires original.pilots == [] && original.flightAttendants == [x]
    ensures UpdatePlan(original, original.(pilots := [x], flightAttendants := []))
      == [MemberRefCall(original.id, x), RemoveMemberCall(original.id, x, false)]
  {
    var updated := original.(pilots := [x], flightAttendants := []);
    var none: seq<string> := [];
    assert Linq.Except([x], none) == [x] by {
      assert (set y | y in none) == {};
      assert [x][1..] == [];
      assert Linq.ExceptFrom([x], {}) == [x] + Linq.ExceptFrom([], {x});
    }
    assert Linq.Except(none, [x]) == [];
    assert Linq.Except(none, none) == [];
    assert RosterDelta(original.pilots, updated.pilots) == [Add(x, false)];
    assert RosterDelta(original.flightAttendants, updated.flightAttendants) == [Remove(x, false)];
    assert MembershipDelta(original, updated) == [Add(x, false), Remove(x, false)];
    assert AddMemberCalls(original.id, x, false) == [MemberRefCall(original.id, x)];
    assert DeltaCalls(original.id, [Remove(x, false)])
      == [RemoveMemberCall(original.id, x, false)] + DeltaCalls(original.id, []);
    assert DeltaCalls(original.id, [Add(x, false), Remove(x, false)])
      == [MemberRefCall(original.id, x)] + DeltaCalls(original.id, [Remove(x, false)]);
  }

  // ---------------------------------------------------------------------
  // The provisioning run, put together from the runs of its stages

  /** The group stage failed: the run ends with its error. */
  lemma ProvisionGroupFails(team: FlightTeam, teamAppId: Option<string>, timestamp: string,
                            b: Script, k0: nat, k1: nat, log0: seq<Event>, log1: seq<Event>)
    requires Issued(GroupPlan(team, timestamp, b, k0), b, k0, k1, log0, log1)
    requires Stopped(b, k0, k1)
    ensures Issued(ProvisionPlan(team, teamAppId, timestamp, b, k0), b, k0, k1, log0, log1)
    ensures ProvisionResult(team, b, k0, k1) == Fail(GraphError(Answer(b, k1 - 1).body))
  {
    var g := GroupPlan(team, timestamp, b, k0);
    var groupId := Answer(b, k0 + RosterSize(team)).data.id;
    var k1' := k0 + |g|;
    var t := TeamPlan(groupId, teamAppId, b, k1');
    ProvisionPlanParts(team, teamAppId, timestamp, b, k0, groupId, k1', k1' + |t|);
    var plan := ProvisionPlan(team, teamAppId, timestamp, b, k0);
    IssuedStop(g, plan[|g|..], b, k0, k1, log0, log1);
    assert g + plan[|g|..] == plan;
  }

  /** The group stage succeeded and the team stage ended the run, with a
      failed reply or with no channel. */
  lemma ProvisionTeamFails(team: FlightTeam, teamAppId: Option<string>, timestamp: string,
                           b: Script, k0: nat, groupId: string, k1: nat, k2: nat,
                           log0: seq<Event>, log1: seq<Event>, log2: seq<Event>)
    requires Issued(GroupPlan(team, timestamp, b, k0), b, k0, k1, log0, log1)
    requires !Stopped(b, k0, k1) && groupId == Answer(b, k0 + RosterSize(team)).data.id
    requires Issued(TeamPlan(groupId, teamAppId, b, k1), b, k1, k2, log1, log2)
    requires TeamResult(b, k1, k2).Fail?
    ensures Issued(ProvisionPlan(team, teamAppId, timestamp, b, k0), b, k0, k2, log0, log2)
    ensures ProvisionResult(team, b, k0, k2) == Fail(TeamResult(b, k1, k2).error)
  {
    var g := GroupPlan(team, timestamp, b, k0);
    var t := TeamPlan(groupId, teamAppId, b, k1);
    var k := k1 + |t|;
    ProvisionPlanParts(team, teamAppId, timestamp, b, k0, groupId, k1, k);
    IssuedThen(g, t, b, k0, k1, k2, log0, log1, log2);
    var channels := ChannelsOf(b, k1);
    if |channels| > 0 {
      var l := ListPlan(groupId, channels[0].id, b, k);
      IssuedStop(g + t, l, b, k0, k2, log0, log2);
      IssuedStop(g + t + l, PagePlan(groupId, team.flightNumber, b, k + 3), b, k0, k2, log0, log2);
    }
  }

  /** The group and team stages succeeded and the list stage failed. */
  lemma ProvisionListFails(team: FlightTeam, teamAppId: Option<string>, timestamp: string,
                           b: Script, k0: nat, groupId: string, channelId: string,
                           k1: nat, k2: nat, k3: nat,
                           log0: seq<Event>, log1: seq<Event>, log2: seq<Event>, log3: seq<Event>)
    requires Issued(GroupPlan(team, timestamp, b, k0), b, k0, k1, log0, log1)
    requires !Stopped(b, k0, k1) && groupId == Answer(b, k0 + RosterSize(team)).data.id
    requires Issued(TeamPlan(groupId, teamAppId, b, k1), b, k1, k2, log1, log2)
    requires TeamResult(b, k1, k2).Ok? && TeamResult(b, k1, k2).value.id == channelId
    requires Issued(ListPlan(groupId, channelId, b, k2), b, k2, k3, log2, log3)
    requires Stopped(b, k2, k3)
    ensures Issued(ProvisionPlan(team, teamAppId, timestamp, b, k0), b, k0, k3, log0, log3)
    ensures ProvisionResult(team, b, k0, k3) == Fail(GraphError(Answer(b, k3 - 1).body))
  {
    var g := GroupPlan(team, timestamp, b, k0);
    var t := TeamPlan(groupId, teamAppId, b, k1);
    var l := ListPlan(groupId, channelId, b, k2);
    var p := PagePlan(groupId, team.flightNumber, b, k2 + 3);
    assert k2 == k1 + |t|;
    ProvisionPlanParts(team, teamAppId, timestamp, b, k0, groupId, k1, k2);
    IssuedThen(g, t, b, k0, k1, k2, log0, log1, log2);
    IssuedThen(g + t, l, b, k0, k2, k3, log0, log2, log3);
    IssuedStop(g + t + l, p, b, k0, k3, log0, log3);
  }

  /** The first three stages succeeded: the run ends with the page stage,
      and returns the group id when that succeeds too. */
  lemma ProvisionPageEnds(team: FlightTeam, teamAppId: Option<string>, timestamp: string,
                          b: Script, k0: nat, groupId: string, channelId: string,
                          k1: nat, k2: nat, k3: nat, k4: nat,
                          log0: seq<Event>, log1: seq<Event>, log2: seq<Event>,
                          log3: seq<Event>, log4: seq<Event>)
    requires Issued(GroupPlan(team, timestamp, b, k0), b, k0, k1, log0, log1)
    requires !Stopped(b, k0, k1) && groupId == Answer(b, k0 + RosterSize(team)).data.id
    requires Issued(TeamPlan(groupId, teamAppId, b, k1), b, k1, k2, log1, log2)
    requires TeamResult(b, k1, k2).Ok? && TeamResult(b, k1, k2).value.id == channelId
    requires Issued(ListPlan(groupId, channelId, b, k2), b, k2, k3, log2, log3)
    requires !Stopped(b, k2, k3)
    requires Issued(PagePlan(groupId, team.flightNumber, b, k3), b, k3, k4, log3, log4)
    ensures Issued(ProvisionPlan(team, teamAppId, timestamp, b, k0), b, k0, k4, log0, log4)
    ensures ProvisionResult(team, b, k0, k4)
         == if Stopped(b, k3, k4) then Fail(GraphError(Answer(b, k4 - 1).body)) else Ok(groupId)
  {
    var g := GroupPlan(team, timestamp, b, k0);
    var t := TeamPlan(groupId, teamAppId, b, k1);
    var l := ListPlan(groupId, channelId, b, k2);
    var p := PagePlan(groupId, team.flightNumber, b, k3);
    assert k2 == k1 + |t| && k3 == k2 + 3;
    ProvisionPlanParts(team, teamAppId, timestamp, b, k0, groupId, k1, k2);
    IssuedThen(g, t, b, k0, k1, k2, log0, log1, log2);
    IssuedThen(g + t, l, b, k0, k2, k3, log0, log2, log3);
    IssuedThen(g + t + l, p, b, k0, k3, k4, log0, log3, log4);
  }

  // ---------------------------------------------------------------------

  class TeamProvisioning {
    const graphClient: GraphService
    /** The `TeamAppToInstall` setting: absent, or the app id. */
    const teamAppId: Option<string>

    constructor Initialize(client: GraphService, teamAppId: Option<string>)
      ensures graphClient == client && this.teamAppId == teamAppId
    {
      graphClient := client;
      this.teamAppId := teamAppId;
    }

    /** Runs the four stages in order and returns the id of the group the
        first stage created; the first failure ends the run. */
    method ProvisionTeam(team: FlightTeam, timestamp: string) returns (r: Result<string>)
      modifies graphClient
      ensures var b, k0 := graphClient.backend, old(graphClient.sent);
        Issued(ProvisionPlan(team, teamAppId, timestamp, b, k0), b, k0, graphClient.sent,
               old(graphClient.log), graphClient.log)
      ensures r == ProvisionResult(team, graphClient.backend, old(graphClient.sent), graphClient.sent)
    {
      ghost var b, k0, log0 := graphClient.backend, graphClient.sent, graphClient.log;

      var group := CreateUnifiedGroup(team, timestamp);
      ghost var k1, log1 := graphClient.sent, graphClient.log;
      if group.Fail? {
        ProvisionGroupFails(team, teamAppId, timestamp, b, k0, k1, log0, log1);
        return Fail(group.error);
      }

      var teamChannel := InitializeTeamInGroup(group.value.id);
      ghost var k2, log2 := graphClient.sent, graphClient.log;
      if teamChannel.Fail? {
        ProvisionTeamFails(team, teamAppId, timestamp, b, k0, group.value.id, k1, k2, log0, log1, log2);
        return Fail(teamChannel.error);
      }

      var list := CreateChallengingPassengersList(group.value.id, teamChannel.value.id);
      ghost var k3, log3 := graphClient.sent, graphClient.log;
      if list.Fail? {
        ProvisionListFails(team, teamAppId, timestamp, b, k0, group.value.id, teamChannel.value.id,
                           k1, k2, k3, log0, log1, log2, log3);
        return Fail(list.error);
      }

      var page := CreateSharePointPage(group.value.id, team.flightNumber);
      ProvisionPageEnds(team, teamAppId, timestamp, b, k0, group.value.id, teamChannel.value.id,
                        k1, k2, k3, graphClient.sent, log0, log1, log2, log3, graphClient.log);
      if page.Fail? {
        return Fail(page.error);
      }
      return Ok(group.value.id);
    }

    /** Admin swap (add the new admin as owner before removing the old one),
        then pilots added and removed, then flight attendants added and
        removed, all against the original team's id; the first failure ends
        the run. */
    method UpdateTeam(originalTeam: FlightTeam, updatedTeam: FlightTeam) returns (r: Result<()>)
      modifies graphClient
      ensures var b, k0 := graphClient.backend, old(graphClient.sent);
        && Issued(UpdatePlan(originalTeam, updatedTeam), b, k0, graphClient.sent,
                  old(graphClient.log), graphClient.log)
        && r == Settled(b, k0, graphClient.sent, ())
    {
      ghost var b, k0, log0 := graphClient.backend, graphClient.sent, graphClient.log;
      ghost var k1, log1 := k0, log0;

      if updatedTeam.admin != originalTeam.admin {
        var x := graphClient.AddMember(originalTeam.id, updatedTeam.admin, true);
        k1, log1 := graphClient.sent, graphClient.log;
        if x.Fail? {
          UpdateAdminAddFails(originalTeam, updatedTeam, b, k0, k1, log0, log1);
          return Fail(x.error);
        }
        x := graphClient.RemoveMember(originalTeam.id, originalTeam.admin, true);
        UpdateAdmin(originalTeam, updatedTeam, b, k0, k1, graphClient.sent, log0, log1, graphClient.log);
        UpdateStep(originalTeam, updatedTeam, 0, b, k0, k0, graphClient.sent, log0, log0, graphClient.log);
        if x.Fail? {
          return Fail(x.error);
        }
      } else {
        UpdateAdmin(originalTeam, updatedTeam, b, k0, k0, k0, log0, log0, log0);
        UpdateStep(originalTeam, updatedTeam, 0, b, k0, k0, k0, log0, log0, log0);
      }

      k1, log1 := graphClient.sent, graphClient.log;
      var x := UpdateRoster(originalTeam.id, originalTeam.pilots, updatedTeam.pilots);
      UpdateStep(originalTeam, updatedTeam, 1, b, k0, k1, graphClient.sent, log0, log1, graphClient.log);
      if x.Fail? {
        return Fail(x.error);
      }

      k1, log1 := graphClient.sent, graphClient.log;
      x := UpdateRoster(originalTeam.id, originalTeam.flightAttendants, updatedTeam.flightAttendants);
      UpdateStep(originalTeam, updatedTeam, 2, b, k0, k1, graphClient.sent, log0, log1, graphClient.log);
      if x.Fail? {
        return Fail(x.error);
      }
      return Ok(());
    }

    /** One roster of the update: add who is new, then remove who has gone,
        each as a plain member; the first failure ends the run. */
    method UpdateRoster(teamId: string, original: seq<string>, updated: seq<string>) returns (r: Result<()>)
      modifies graphClient
      ensures var b, k0 := graphClient.backend, old(graphClient.sent);
        && Issued(DeltaCalls(teamId, RosterDelta(original, updated)), b, k0, graphClient.sent,
                  old(graphClient.log), graphClient.log)
        && r == Settled(b, k0, graphClient.sent, ())
    {
      ghost var b, k0, log0 := graphClient.backend, graphClient.sent, graphClient.log;
      var added := Linq.Except(updated, original);
      var x := AddMembers(teamId, added);
      ghost var k1, log1 := graphClient.sent, graphClient.log;
      if x.Fail? {
        RosterRun(teamId, original, updated, b, k0, k1, k1, log0, log1, log1);
        return Fail(x.error);
      }

      var removed := Linq.Except(original, updated);
      x := RemoveMembers(teamId, removed);
      RosterRun(teamId, original, updated, b, k0, k1, graphClient.sent, log0, log1, graphClient.log);
      if x.Fail? {
        return Fail(x.error);
      }
      return Ok(());
    }

    /** One loop of the update: add each user as a plain member, in order. */
    method AddMembers(teamId: string, users: seq<string>) returns (r: Result<()>)
      modifies graphClient
      ensures var b, k0 := graphClient.backend, old(graphClient.sent);
        && Issued(DeltaCalls(teamId, Adds(users)), b, k0, graphClient.sent,
                  old(graphClient.log), graphClient.log)
        && r == Settled(b, k0, graphClient.sent, ())
    {
      ghost var b, k0, log0 := graphClient.backend, graphClient.sent, graphClient.log;
      ghost var calls := DeltaCalls(teamId, Adds(users));
      AddsCalls(teamId, users);
      ProgressStart(calls, b, k0, 0, log0);
      var i := 0;
      while i < |users|
        invariant i <= |users| && graphClient.sent == k0 + i
        invariant Progress(calls, b, k0, i, log0, graphClient.log)
      {
        ghost var log1 := graphClient.log;
        var x := graphClient.AddMember(teamId, users[i], false);
        assert AddMemberCalls(teamId, users[i], false) == [MemberRefCall(teamId, users[i])];
        IssuedOne(MemberRefCall(teamId, users[i]), b, k0 + i, graphClient.sent, log1, graphClient.log);
        ProgressStep(calls, b, k0, i, i + 1, MemberRefCall(teamId, users[i]), graphClient.sent,
                     log0, log1, graphClient.log);
        if x.Fail? {
          return Fail(x.error);
        }
        i := i + 1;
      }
      ProgressDone(calls, b, k0, |users|, graphClient.sent, log0, graphClient.log);
      return Ok(());
    }

    /** One loop of the update: remove each user as a plain member, in order. */
    method RemoveMembers(teamId: string, users: seq<string>) returns (r: Result<()>)
      modifies graphClient
      ensures var b, k0 := graphClient.backend, old(graphClient.sent);
        && Issued(DeltaCalls(teamId, Removes(users)), b, k0, graphClient.sent,
                  old(graphClient.log), graphClient.log)
        && r == Settled(b, k0, graphClient.sent, ())
    {
      ghost var b, k0, log0 := graphClient.backend, graphClient.sent, graphClient.log;
      ghost var calls := DeltaCalls(teamId, Removes(users));
      RemovesCalls(teamId, users);
      ProgressStart(calls, b, k0, 0, log0);
      var i := 0;
      while i < |users|
        invariant i <= |users| && graphClient.sent == k0 + i
        invariant Progress(calls, b, k0, i, log0, graphClient.log)
      {
        ghost var log1 := graphClient.log;
        var x := graphClient.RemoveMember(teamId, users[i], false);
        ProgressStep(calls, b, k0, i, i + 1, RemoveMemberCall(teamId, users[i], false), graphClient.sent,
                     log0, log1, graphClient.log);
        if x.Fail? {
          return Fail(x.error);
        }
        i := i + 1;
      }
      ProgressDone(calls, b, k0, |users|, graphClient.sent, log0, graphClient.log);
      return Ok(());
    }

    /** A single archive request for the given id, with no checks. */
    method ArchiveTeam(teamId: string) returns (r: Result<()>)
      modifies graphClient
      ensures graphClient.sent == old(graphClient.sent) + 1
      ensures graphClient.log == old(graphClient.log) + [Send(ArchiveTeamCall(teamId))]
      ensures r == Settled(graphClient.backend, old(graphClient.sent), graphClient.sent, ())
    {
      r := graphClient.ArchiveTeam(teamId);
    }

    method CreateUnifiedGroup(team: FlightTeam, timestamp: string) returns (r: Result<Resource>)
      modifies graphClient
      ensures var b, k0 := graphClient.backend, old(graphClient.sent);
        && Issued(GroupPlan(team, timestamp, b, k0), b, k0, graphClient.sent,
                  old(graphClient.log), graphClient.log)
        && r == Settled(b, k0, graphClient.sent, Answer(b, k0 + RosterSize(team)).data)
    {
      ghost var b, k0, log0 := graphClient.backend, graphClient.sent, graphClient.log;

      var members := graphClient.GetUserIds(team.pilots, team.flightAttendants);
      ghost var k1, log1 := graphClient.sent, graphClient.log;
      GroupRunLookups(team, timestamp, b, k0, k1, log0, log1, members);
      if members.Fail? {
        return Fail(members.error);
      }

      var flightGroup := GroupPayload(team, timestamp, members.value);
      var createdGroup := graphClient.CreateGroup(flightGroup);
      GroupRunCreate(team, timestamp, b, k0, k1, graphClient.sent, log0, log1, graphClient.log,
                     members.value, flightGroup, createdGroup);
      if createdGroup.Fail? {
        return Fail(createdGroup.error);
      }

      var guestInvite := GuestInvitation(team);
      ghost var k2, log2 := graphClient.sent, graphClient.log;
      var createdInvite := graphClient.CreateGuestInvitation(guestInvite);
      GroupRunInvite(team, timestamp, b, k0, k2, graphClient.sent, log0, log2, graphClient.log, createdInvite);
      if createdInvite.Fail? {
        return Fail(createdInvite.error);
      }

      ghost var k3, log3 := graphClient.sent, graphClient.log;
      var added := graphClient.AddMember(createdGroup.value.id, createdInvite.value.invitedUserId, false);
      GroupRunAddGuest(team, timestamp, b, k0, k3, graphClient.sent, log0, log3, graphClient.log,
                       createdGroup.value.id, createdInvite.value.invitedUserId, added);
      if added.Fail? {
        return Fail(added.error);
      }
      return Ok(createdGroup.value);
    }

    /** Creates the team, lists its channels and takes the first, creates
        the two channels and installs the configured app; the welcome
        message is not posted. */
    method InitializeTeamInGroup(groupId: string) returns (r: Result<Entry>)
      modifies graphClient
      ensures var b, k0 := graphClient.backend, old(graphClient.sent);
        && Issued(TeamPlan(groupId, teamAppId, b, k0), b, k0, graphClient.sent,
                  old(graphClient.log), graphClient.log)
        && r == TeamResult(b, k0, graphClient.sent)
    {
      ghost var b, k0, log0 := graphClient.backend, graphClient.sent, graphClient.log;
      ghost var plan := TeamPlan(groupId, teamAppId, b, k0);
      TeamPlanShape(groupId, teamAppId, b, k0);
      ProgressStart(plan, b, k0, 0, log0);

      var team := GuestSettings;
      var created := graphClient.CreateTeam(groupId, team);
      ProgressStep(plan, b, k0, 0, 1, CreateTeamCall(groupId, team), graphClient.sent,
                   log0, log0, graphClient.log);
      if created.Fail? {
        return Fail(created.error);
      }

      ghost var log1 := graphClient.log;
      var channels := graphClient.GetTeamChannels(groupId);
      ProgressStep(plan, b, k0, 1, 2, ChannelsCall(groupId), graphClient.sent,
                   log0, log1, graphClient.log);
      if channels.Fail? {
        return Fail(channels.error);
      }
      if |channels.value.value| == 0 {
        // `First()` on an empty sequence throws
        ProgressDone(plan, b, k0, 2, graphClient.sent, log0, graphClient.log);
        return Fail(NoChannels);
      }
      var generalChannel := channels.value.value[0];

      var pilotChannel := PilotsChannel;
      log1 := graphClient.log;
      var x := graphClient.CreateTeamChannel(groupId, pilotChannel);
      ProgressStep(plan, b, k0, 2, 3, CreateChannelCall(groupId, pilotChannel), graphClient.sent,
                   log0, log1, graphClient.log);
      if x.Fail? {
        return Fail(x.error);
      }

      var flightAttendantsChannel := AttendantsChannel;
      log1 := graphClient.log;
      x := graphClient.CreateTeamChannel(groupId, flightAttendantsChannel);
      ProgressStep(plan, b, k0, 3, 4, CreateChannelCall(groupId, flightAttendantsChannel), graphClient.sent,
                   log0, log1, graphClient.log);
      if x.Fail? {
        return Fail(x.error);
      }

      if teamAppId.Some? && teamAppId.value != "" {
        var teamsApp := TeamsApp(teamAppId.value);
        log1 := graphClient.log;
        var y := graphClient.AddAppToTeam(groupId, teamsApp);
        ProgressStep(plan, b, k0, 4, 5, AddAppCall(groupId, teamsApp), graphClient.sent,
                   log0, log1, graphClient.log);
        if y.Fail? {
          return Fail(y.error);
        }
      }
      ProgressDone(plan, b, k0, |plan|, graphClient.sent, log0, graphClient.log);
      return Ok(generalChannel);
    }

    method CreateChallengingPassengersList(groupId: string, channelId: string) returns (r: Result<Resource>)
      modifies graphClient
      ensures var b, k0 := graphClient.backend, old(graphClient.sent);
        && Issued(ListPlan(groupId, channelId, b, k0), b, k0, graphClient.sent,
                  old(graphClient.log), graphClient.log)
        && r == Settled(b, k0, graphClient.sent, Answer(b, k0 + 1).data)
    {
      ghost var b, k0, log0 := graphClient.backend, graphClient.sent, graphClient.log;
      ghost var plan := ListPlan(groupId, channelId, b, k0);
      ProgressStart(plan, b, k0, 0, log0);

      var teamSite := graphClient.GetTeamSite(groupId);
      ProgressStep(plan, b, k0, 0, 1, TeamSiteCall(groupId), graphClient.sent,
                   log0, log0, graphClient.log);
      if teamSite.Fail? {
        return Fail(teamSite.error);
      }

      var challengingPassengers := PassengersList;
      ghost var log1 := graphClient.log;
      var createdList := graphClient.CreateSharePointList(teamSite.value.id, challengingPassengers);
      ProgressStep(plan, b, k0, 1, 2, CreateListCall(teamSite.value.id, challengingPassengers), graphClient.sent,
                   log0, log1, graphClient.log);
      if createdList.Fail? {
        return Fail(createdList.error);
      }

      var listTab := ListTab(createdList.value.webUrl);
      log1 := graphClient.log;
      var x := graphClient.AddTeamChannelTab(groupId, channelId, listTab);
      ProgressStep(plan, b, k0, 2, 3, AddTabCall(groupId, channelId, listTab), graphClient.sent,
                   log0, log1, graphClient.log);
      if x.Fail? {
        return Fail(x.error);
      }
      ProgressDone(plan, b, k0, 3, graphClient.sent, log0, graphClient.log);
      return Ok(createdList.value);
    }

    method CreateSharePointPage(groupId: string, flightNumber: string) returns (r: Result<()>)
      modifies graphClient
      ensures var b, k0 := graphClient.backend, old(graphClient.sent);
        && Issued(PagePlan(groupId, flightNumber, b, k0), b, k0, graphClient.sent,
                  old(graphClient.log), graphClient.log)
        && r == Settled(b, k0, graphClient.sent, ())
    {
      ghost var b, k0, log0 := graphClient.backend, graphClient.sent, graphClient.log;
      ghost var plan := PagePlan(groupId, flightNumber, b, k0);
      ProgressStart(plan, b, k0, 0, log0);

      var teamSite := graphClient.GetTeamSite(groupId);
      ProgressStep(plan, b, k0, 0, 1, TeamSiteCall(groupId), graphClient.sent,
                   log0, log0, graphClient.log);
      if teamSite.Fail? {
        return Fail(teamSite.error);
      }

      ghost var log1 := graphClient.log;
      var siteLists := graphClient.GetSiteLists(teamSite.value.id);
      ProgressStep(plan, b, k0, 1, 2, SiteListsCall(teamSite.value.id), graphClient.sent,
                   log0, log1, graphClient.log);
      if siteLists.Fail? {
        return Fail(siteLists.error);
      }

      var sharePointPage := BuildTeamPage(flightNumber, siteLists.value.value);
      log1 := graphClient.log;
      var createdPage := graphClient.CreateSharePointPage(teamSite.value.id, sharePointPage);
      ProgressStep(plan, b, k0, 2, 3, CreatePageCall(teamSite.value.id, sharePointPage), graphClient.sent,
                   log0, log1, graphClient.log);
      if createdPage.Fail? {
        return Fail(createdPage.error);
      }

      log1 := graphClient.log;
      var x := graphClient.PublishSharePointPage(teamSite.value.id, createdPage.value.id);
      ProgressStep(plan, b, k0, 3, 4, PublishPageCall(teamSite.value.id, createdPage.value.id), graphClient.sent,
                   log0, log1, graphClient.log);
      if x.Fail? {
        return Fail(x.error);
      }
      ProgressDone(plan, b, k0, 4, graphClient.sent, log0, graphClient.log);
      return Ok(());
    }

    /** The page of `CreateSharePointPage`, its web parts appended one per
        site list. */
    method BuildTeamPage(flightNumber: string, lists: seq<Entry>) returns (page: Body)
      ensures page == TeamPage(flightNumber, lists)
    {
      var webParts: seq<WebPart> := [];
      for i := 0 to |lists|
        invariant |webParts| == i
        invariant forall j :: 0 <= j < i ==> webParts[j] == ListPart(lists[j])
      {
        var list := lists[i];
        var isDocLibrary := list.displayName == "Documents";
        var webPart := WebPart(ListWebPart, "1.0", isDocLibrary, list.id, 1);
        webParts := webParts + [webPart];
      }
      page := SharePointPage("TeamPage.aspx", "Flight " + flightNumber, webParts);
    }
  }
}
