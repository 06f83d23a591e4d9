/** The backend client (`GraphService`): one bearer credential, one base URL,
    and a bounded retry loop around each request.

    The transport is replaced by an oracle: the n-th request put on the wire
    (counting from 0 over the client's lifetime) receives `Answer(backend, n)`.
    Every request appends `Send(call)` to the client's log and every backoff
    appends `Sleep(3000)`. */
module Graph {
  import opened GraphTypes

  const GraphEndpoint: string := "https://graph.microsoft.com/beta"

  /** The backend's replies, in the order the requests go out. */
  type Script = seq<Response>

  /** The reply a request beyond the end of a script receives: a failure. */
  const Silence: Response := Response(false, "", Resource("", "", "", []))

  /** The reply to the `n`-th request. */
  function Answer(script: Script, n: nat): Response
  {
    if n < |script| then script[n] else Silence
  }

  /** The fixed backoff of the retry loop, in milliseconds. */
  const BackoffMillis: nat := 3000

  /** The reference to a user that membership requests carry. */
  function UserRef(userId: string): string
  {
    GraphEndpoint + "/users/" + userId
  }

  /** The payload `MakeGraphCall` serializes. Its guard
      `method != Get || method != Delete` is true of every method, so a
      present body is serialized whatever the method. */
  function PayloadOf(verb: HttpMethod, body: Option<Body>): (p: Payload)
    ensures p.Json? <==> body.Some?
    ensures body.Some? ==> p == Json(body.value)
  {
    if body.Some? && (verb != Get || verb != Delete) then Json(body.value) else Empty
  }

  /** The request `MakeGraphCall(method, path, body)` puts on the wire: the
      URI is the endpoint followed by the relative path, and the payload is
      attached as content exactly when it is not empty. */
  function Request(verb: HttpMethod, path: string, body: Option<Body>): Call
  {
    Http(verb, GraphEndpoint + path, PayloadOf(verb, body))
  }

  // ---------------------------------------------------------------------
  // The requests of the individual wrappers

  function GetMeCall(): Call { Request(Get, "/me", None) }
  function GetUserCall(upn: string): Call { Request(Get, "/users/" + upn, None) }
  function CreateGroupCall(group: Body): Call { Request(Post, "/groups", Some(group)) }
  function CreateTeamCall(groupId: string, team: Body): Call
  {
    Request(Put, "/groups/" + groupId + "/team", Some(team))
  }
  function InvitationCall(invite: Body): Call { Request(Post, "/invitations", Some(invite)) }
  function MemberRefCall(teamId: string, userId: string): Call
  {
    Request(Post, "/groups/" + teamId + "/members/$ref", Some(AddUserToGroup(UserRef(userId))))
  }
  function OwnerRefCall(teamId: string, userId: string): Call
  {
    Request(Post, "/groups/" + teamId + "/owners/$ref", Some(AddUserToGroup(UserRef(userId))))
  }
  function ChannelsCall(teamId: string): Call { Request(Get, "/teams/" + teamId + "/channels", None) }
  function ChatThreadCall(teamId: string, channelId: string, thread: Body): Call
  {
    Request(Post, "/teams/" + teamId + "/channels/" + channelId + "/chatThreads", Some(thread))
  }
  function CreateChannelCall(teamId: string, channel: Body): Call
  {
    Request(Post, "/teams/" + teamId + "/channels", Some(channel))
  }
  function AddAppCall(teamId: string, app: Body): Call
  {
    Request(Post, "/teams/" + teamId + "/apps", Some(app))
  }
  function SiteCall(sitePath: string): Call { Request(Get, "/sites/" + sitePath, None) }
  function DriveItemCall(siteId: string, itemPath: string): Call
  {
    Request(Get, "/sites/" + siteId + "/drive/" + itemPath, None)
  }
  function DriveFolderCall(teamId: string, folderName: string): Call
  {
    Request(Get, "/groups/" + teamId + "/drive/root:/" + folderName, None)
  }
  function CopyFileCall(siteId: string, itemId: string, target: string): Call
  {
    Request(Post, "/sites/" + siteId + "/drive/items/" + itemId + "/copy", Some(DriveItemCopy(target)))
  }
  function CreatePlanCall(plan: Body): Call { Request(Post, "/planner/plans", Some(plan)) }
  function CreateBucketCall(bucket: Body): Call { Request(Post, "/planner/buckets", Some(bucket)) }
  function CreateTaskCall(task: Body): Call { Request(Post, "/planner/tasks", Some(task)) }
  function TeamSiteCall(teamId: string): Call { Request(Get, "/groups/" + teamId + "/sites/root", None) }
  function CreateListCall(siteId: string, list: Body): Call
  {
    Request(Post, "/sites/" + siteId + "/lists", Some(list))
  }

  function RemoveMemberCall(teamId: string, userId: string, isOwner: bool): Call
  {
    Abstract(RemoveMember(isOwner), [teamId, userId], Empty)
  }
  function ArchiveTeamCall(teamId: string): Call { Abstract(ArchiveTeam, [teamId], Empty) }
  function SiteListsCall(siteId: string): Call { Abstract(GetSiteLists, [siteId], Empty) }
  function AddTabCall(teamId: string, channelId: string, tab: Body): Call
  {
    Abstract(AddTeamChannelTab, [teamId, channelId], Json(tab))
  }
  function CreatePageCall(siteId: string, page: Body): Call
  {
    Abstract(CreateSharePointPage, [siteId], Json(page))
  }
  function PublishPageCall(siteId: string, pageId: string): Call
  {
    Abstract(PublishSharePointPage, [siteId, pageId], Empty)
  }

  /** The requests of `AddMember`: the member reference, then the owner
      reference when the user is to be an owner. */
  function AddMemberCalls(teamId: string, userId: string, isOwner: bool): seq<Call>
  {
    [MemberRefCall(teamId, userId)] + if isOwner then [OwnerRefCall(teamId, userId)] else []
  }

  /** One user lookup per principal name, in order. */
  function Lookups(upns: seq<string>): seq<Call>
  {
    seq(|upns|, i requires 0 <= i < |upns| => GetUserCall(upns[i]))
  }

  /** The user references built from the replies to `n` lookups starting at send `k`. */
  function LookedUp(backend: Script, k: nat, n: nat): seq<string>
  {
    seq(n, i requires 0 <= i < n => UserRef(Answer(backend, k + i).data.id))
  }

  lemma LookedUpNext(backend: Script, k: nat, n: nat)
    ensures LookedUp(backend, k, n) + [UserRef(Answer(backend, k + n).data.id)] == LookedUp(backend, k, n + 1)
  {
  }

  /** A wrapper's view of one reply: the deserialized resource, or the
      exception carrying the raw error body. */
  function Reply(response: Response): Result<Resource>
  {
    if response.success then Ok(response.data) else Fail(GraphError(response.body))
  }

  // ---------------------------------------------------------------------
  // The retry loop of MakeGraphCall, as a function of the replies

  /** The record of one `MakeGraphCall`: events, number of sends, result. */
  datatype Exchange = Exchange(events: seq<Event>, attempts: nat, result: Result<Response>)

  /** The number of retries a budget allows; a budget of zero or less allows none. */
  function Budget(retries: int): nat
  {
    if retries > 0 then retries else 0
  }

  /** `MakeGraphCall` sending `c` with `retries` left, when its next send is
      send number `k`. */
  function Retry(c: Call, backend: Script, k: nat, retries: int): Exchange
    decreases Budget(retries)
  {
    var response := Answer(backend, k);
    if response.success then Exchange([Send(c)], 1, Ok(response))
    else if retries > 0 then
      var rest := Retry(c, backend, k + 1, retries - 1);
      Exchange([Send(c), Sleep(BackoffMillis)] + rest.events, 1 + rest.attempts, rest.result)
    else Exchange([Send(c)], 1, Fail(GraphError(response.body)))
  }

  /** `n` failed sends of `c`, each followed by the backoff. */
  function Backoffs(c: Call, n: nat): seq<Event>
  {
    if n == 0 then [] else [Send(c), Sleep(BackoffMillis)] + Backoffs(c, n - 1)
  }

  /** Every run of the retry loop sends the identical request one to
      `Budget(retries) + 1` times, sleeping between consecutive sends, and
      ends either with the first success reply or, once the budget is spent,
      with an error carrying the last reply's body: it never ends without a
      result. */
  lemma {:induction false} RetryOutcome(c: Call, backend: Script, k: nat, retries: int)
    ensures var x := Retry(c, backend, k, retries);
      && 1 <= x.attempts <= Budget(retries) + 1
      && x.events == Backoffs(c, x.attempts - 1) + [Send(c)]
      && (forall i :: k <= i < k + x.attempts - 1 ==> !Answer(backend, i).success)
      && (x.result.Ok? ==> x.result.value == Answer(backend, k + x.attempts - 1) && x.result.value.success)
      && (x.result.Fail? ==>
            && x.attempts == Budget(retries) + 1
            && !Answer(backend, k + x.attempts - 1).success
            && x.result.error == GraphError(Answer(backend, k + x.attempts - 1).body))
    decreases Budget(retries)
  {
    if !Answer(backend, k).success && retries > 0 {
      RetryOutcome(c, backend, k + 1, retries - 1);
    }
  }

  /** When every send fails, a budget of N makes exactly N + 1 sends with N
      sleeps between them and fails with the body of the last reply. */
  lemma RetryExhausted(c: Call, backend: Script, k: nat, retries: int)
    requires forall i :: k <= i <= k + Budget(retries) ==> !Answer(backend, i).success
    ensures var x := Retry(c, backend, k, retries);
      && x.attempts == Budget(retries) + 1
      && x.events == Backoffs(c, Budget(retries)) + [Send(c)]
      && x.result == Fail(GraphError(Answer(backend, k + Budget(retries)).body))
  {
    RetryOutcome(c, backend, k, retries);
  }

  /** The first success reply within the budget is returned, and nothing is
      sent after it. */
  lemma RetryFirstSuccess(c: Call, backend: Script, k: nat, retries: int, j: nat)
    requires j <= Budget(retries) && Answer(backend, k + j).success
    requires forall i :: k <= i < k + j ==> !Answer(backend, i).success
    ensures var x := Retry(c, backend, k, retries);
      x.attempts == j + 1 && x.events == Backoffs(c, j) + [Send(c)] && x.result == Ok(Answer(backend, k + j))
  {
    RetryOutcome(c, backend, k, retries);
  }

  // ---------------------------------------------------------------------
  // Sequences of single-attempt requests that stop at the first failure

  function Sends(calls: seq<Call>): seq<Event>
  {
    seq(|calls|, i requires 0 <= i < |calls| => Send(calls[i]))
  }

  /** The run that began at send `k0` and has made its sends up to `k1` ended
      with a failed reply. */
  predicate Stopped(backend: Script, k0: nat, k1: nat)
  {
    k0 < k1 && !Answer(backend, k1 - 1).success
  }

  /** `calls` were issued in order from send `k0` on, each awaiting a success
      reply before the next, and the run ended at send `k1`: after the whole
      sequence, or right after the first failed reply. The log grew by the
      issued prefix and by nothing else. */
  predicate Issued(calls: seq<Call>, backend: Script, k0: nat, k1: nat,
                   log0: seq<Event>, log1: seq<Event>)
  {
    && k0 <= k1 <= k0 + |calls|
    && log1 == log0 + Sends(calls[..k1 - k0])
    && (forall i :: k0 <= i < k1 - 1 ==> Answer(backend, i).success)
    && (k1 < k0 + |calls| ==> Stopped(backend, k0, k1))
  }

  /** A run of `calls` begun at send `k0` that is under way: the first `j`
      have been issued and all of them succeeded. */
  predicate Progress(calls: seq<Call>, backend: Script, k0: nat, j: nat,
                     log0: seq<Event>, log1: seq<Event>)
  {
    && j <= |calls|
    && log1 == log0 + Sends(calls[..j])
    && (forall i :: k0 <= i < k0 + j ==> Answer(backend, i).success)
  }

  /** The result of a run: the error of the failed reply it stopped at, or `value`. */
  function Settled<T>(backend: Script, k0: nat, k1: nat, value: T): Result<T>
  {
    if Stopped(backend, k0, k1) then Fail(GraphError(Answer(backend, k1 - 1).body)) else Ok(value)
  }

  lemma SendsAppend(a: seq<Call>, b: seq<Call>)
    ensures Sends(a + b) == Sends(a) + Sends(b)
  {
  }

  lemma ProgressStart(calls: seq<Call>, backend: Script, k0: nat, j: nat, log0: seq<Event>)
    requires j == 0
    ensures Progress(calls, backend, k0, j, log0, log0)
  {
    assert calls[..0] == [];
  }

  /** Issuing the next call `c` of a run in progress, which brings the send
      count to `k2`: a success reply keeps the run going, a failed one ends it. */
  lemma ProgressStep(calls: seq<Call>, backend: Script, k0: nat, j: nat, j2: nat, c: Call,
                     k2: nat, log0: seq<Event>, log1: seq<Event>, log2: seq<Event>)
    requires Progress(calls, backend, k0, j, log0, log1) && j < |calls| && calls[j] == c
    requires j2 == j + 1 && k2 == k0 + j2 && log2 == log1 + [Send(c)]
    ensures Stopped(backend, k0, k2) <==> !Answer(backend, k0 + j).success
    ensures Answer(backend, k0 + j).success ==> Progress(calls, backend, k0, j2, log0, log2)
    ensures !Answer(backend, k0 + j).success ==> Issued(calls, backend, k0, k2, log0, log2)
  {
    assert calls[..j + 1] == calls[..j] + [c];
    SendsAppend(calls[..j], [c]);
  }

  /** A run of a single call makes exactly that one send. */
  lemma IssuedOne(c: Call, backend: Script, k1: nat, k2: nat, log1: seq<Event>, log2: seq<Event>)
    requires Issued([c], backend, k1, k2, log1, log2)
    ensures k2 == k1 + 1 && log2 == log1 + [Send(c)]
    ensures Stopped(backend, k1, k2) <==> !Answer(backend, k1).success
  {
    assert [c][..1] == [c];
  }

  /** A run in progress that has issued every call, bringing the send count
      to `k1`, ends without failure. */
  lemma ProgressDone(calls: seq<Call>, backend: Script, k0: nat, j: nat, k1: nat,
                     log0: seq<Event>, log1: seq<Event>)
    requires Progress(calls, backend, k0, j, log0, log1) && j == |calls| && k1 == k0 + j
    ensures Issued(calls, backend, k0, k1, log0, log1)
    ensures !Stopped(backend, k0, k1)
  {
    assert calls[..|calls|] == calls;
  }

  /** Nothing issued: the empty run. */
  lemma IssuedNothing(backend: Script, k0: nat, log0: seq<Event>)
    ensures Issued([], backend, k0, k0, log0, log0) && !Stopped(backend, k0, k0)
  {
    assert log0 + Sends([]) == log0;
  }

  /** A single request sent: the run of that one call. */
  lemma IssuedSingle(call: Call, backend: Script, k0: nat, k1: nat, log0: seq<Event>, log1: seq<Event>)
    requires k1 == k0 + 1 && log1 == log0 + [Send(call)]
    ensures Issued([call], backend, k0, k1, log0, log1)
  {
    assert [call][..1] == [call];
    assert Sends([call]) == [Send(call)];
  }

  /** A run that went through all of `first` without a failure continues
      with the run of `next`; the whole stops where `next` stops. */
  lemma IssuedThen(first: seq<Call>, next: seq<Call>, backend: Script, k0: nat, k1: nat, k2: nat,
                   log0: seq<Event>, log1: seq<Event>, log2: seq<Event>)
    requires Issued(first, backend, k0, k1, log0, log1) && !Stopped(backend, k0, k1)
    requires Issued(next, backend, k1, k2, log1, log2)
    ensures Issued(first + next, backend, k0, k2, log0, log2)
    ensures Stopped(backend, k0, k2) <==> Stopped(backend, k1, k2)
  {
    var m := k2 - k1;
    assert (first + next)[..k2 - k0] == first + next[..m];
    SendsAppend(first, next[..m]);
  }

  /** A run that stopped within `first` is also the run of `first + next`. */
  lemma IssuedStop(first: seq<Call>, next: seq<Call>, backend: Script, k0: nat, k1: nat,
                   log0: seq<Event>, log1: seq<Event>)
    requires Issued(first, backend, k0, k1, log0, log1) && Stopped(backend, k0, k1)
    ensures Issued(first + next, backend, k0, k1, log0, log1)
  {
    assert (first + next)[..k1 - k0] == first[..k1 - k0];
  }

  /** The calls of consecutive stages, joined. */
  function Joined(parts: seq<seq<Call>>): seq<Call>
  {
    if parts == [] then [] else Joined(parts[..|parts| - 1]) + parts[|parts| - 1]
  }

  /** Nothing issued yet: the run of no stage. */
  lemma StagesStart(parts: seq<seq<Call>>, backend: Script, k0: nat, log0: seq<Event>)
    ensures Issued(Joined(parts[..0]), backend, k0, k0, log0, log0) && !Stopped(backend, k0, k0)
  {
    assert parts[..0] == [];
    IssuedNothing(backend, k0, log0);
  }

  lemma JoinedNext(parts: seq<seq<Call>>, i: nat)
    requires i < |parts|
    ensures Joined(parts[..i + 1]) == Joined(parts[..i]) + parts[i]
  {
    var q := parts[..i + 1];
    assert q[..|q| - 1] == parts[..i] && q[|q| - 1] == parts[i];
  }

  /** A run that stopped within the first `i` stages is the run of all of them. */
  lemma {:induction false} StagesStop(parts: seq<seq<Call>>, i: nat, backend: Script, k0: nat, k: nat,
                                      log0: seq<Event>, log: seq<Event>)
    requires i <= |parts|
    requires Issued(Joined(parts[..i]), backend, k0, k, log0, log)
    requires i == |parts| || Stopped(backend, k0, k)
    ensures Issued(Joined(parts), backend, k0, k, log0, log)
    decreases |parts| - i
  {
    if i < |parts| {
      JoinedNext(parts, i);
      IssuedStop(Joined(parts[..i]), parts[i], backend, k0, k, log0, log);
      StagesStop(parts, i + 1, backend, k0, k, log0, log);
    } else {
      assert parts[..i] == parts;
    }
  }

  /** Stage `i` run after the first `i` stages went through: the run so far,
      and the run of all the stages when it stopped or was the last one. */
  lemma StageStep(parts: seq<seq<Call>>, i: nat, backend: Script, k0: nat, k1: nat, k2: nat,
                  log0: seq<Event>, log1: seq<Event>, log2: seq<Event>)
    requires i < |parts|
    requires Issued(Joined(parts[..i]), backend, k0, k1, log0, log1) && !Stopped(backend, k0, k1)
    requires Issued(parts[i], backend, k1, k2, log1, log2)
    ensures Issued(Joined(parts[..i + 1]), backend, k0, k2, log0, log2)
    ensures Stopped(backend, k0, k2) <==> Stopped(backend, k1, k2)
    ensures Stopped(backend, k1, k2) || i + 1 == |parts| ==> Issued(Joined(parts), backend, k0, k2, log0, log2)
  {
    JoinedNext(parts, i);
    IssuedThen(Joined(parts[..i]), parts[i], backend, k0, k1, k2, log0, log1, log2);
    if Stopped(backend, k1, k2) || i + 1 == |parts| {
      StagesStop(parts, i + 1, backend, k0, k2, log0, log2);
    }
  }

  /** A run is determined by its calls and the replies: it stops exactly after
      the first failed reply, and it issues the whole sequence exactly when
      every reply is a success. */
  lemma IssuedDetermined(calls: seq<Call>, backend: Script, k0: nat,
                         k1: nat, log1: seq<Event>, k1': nat, log1': seq<Event>, log0: seq<Event>)
    requires Issued(calls, backend, k0, k1, log0, log1)
    requires Issued(calls, backend, k0, k1', log0, log1')
    ensures k1 == k1' && log1 == log1'
    ensures !Stopped(backend, k0, k1) <==>
      k1 == k0 + |calls| && forall i :: k0 <= i < k0 + |calls| ==> Answer(backend, i).success
  {
  }

  // ---------------------------------------------------------------------

  class GraphService {
    /** The replies of the backend, in the order of the sends. */
    const backend: Script
    /** The number of requests sent so far. */
    var sent: nat
    /** Everything the client has done observably, in order. */
    var log: seq<Event>

    /** The access token and the HTTP client it configures are not modelled;
        the transport is the reply oracle. */
    constructor (backend: Script)
      ensures this.backend == backend && sent == 0 && log == []
    {
      this.backend := backend;
      sent := 0;
      log := [];
    }

    /** `httpClient.SendAsync`: put a request on the wire and take the next reply. */
    method Transmit(c: Call) returns (response: Response)
      modifies this
      ensures sent == old(sent) + 1 && log == old(log) + [Send(c)]
      ensures response == Answer(backend, old(sent))
    {
      response := Answer(backend, sent);
      log := log + [Send(c)];
      sent := sent + 1;
    }

    method MakeGraphCall(verb: HttpMethod, path: string, body: Option<Body>, retries: int)
      returns (r: Result<Response>)
      modifies this
      ensures var x := Retry(Request(verb, path, body), backend, old(sent), retries);
        log == old(log) + x.events && sent == old(sent) + x.attempts && r == x.result
    {
      var payload := Empty;
      if body.Some? && (verb != Get || verb != Delete) {
        payload := Json(body.value);
      }
      ghost var c := Http(verb, GraphEndpoint + path, payload);
      assert c == Request(verb, path, body);
      ghost var whole := Retry(c, backend, sent, retries);
      var left := retries;
      while true
        invariant old(log) + whole.events == log + Retry(c, backend, sent, left).events
        invariant old(sent) + whole.attempts == sent + Retry(c, backend, sent, left).attempts
        invariant whole.result == Retry(c, backend, sent, left).result
        decreases Budget(left)
      {
        ghost var rest := Retry(c, backend, sent, left);
        var request := Http(verb, GraphEndpoint + path, payload);
        var response := Transmit(request);
        if !response.success {
          if left > 0 {
            log := log + [Sleep(BackoffMillis)];
            assert rest.events == [Send(c), Sleep(BackoffMillis)] + Retry(c, backend, sent, left - 1).events;
          } else {
            r := Fail(GraphError(response.body));
            return;
          }
        } else {
          r := Ok(response);
          return;
        }
        // while (retries-- > 0)
        var again := left > 0;
        left := left - 1;
        if !again {
          break;
        }
      }
      // the trailing `return null` cannot be reached
      assert false;
    }

    method GetMe() returns (r: Result<Resource>)
      modifies this
      ensures sent == old(sent) + 1 && log == old(log) + [Send(GetMeCall())]
      ensures r == Reply(Answer(backend, old(sent)))
    {
      var response := MakeGraphCall(Get, "/me", None, 0);
      r := if response.Ok? then Ok(response.value.data) else Fail(response.error);
    }

    method GetUserByUpn(upn: string) returns (r: Result<Resource>)
      modifies this
      ensures sent == old(sent) + 1 && log == old(log) + [Send(GetUserCall(upn))]
      ensures r == Reply(Answer(backend, old(sent)))
    {
      var response := MakeGraphCall(Get, "/users/" + upn, None, 0);
      r := if response.Ok? then Ok(response.value.data) else Fail(response.error);
    }

    /** One lookup per pilot, then one per flight attendant, each reference
        appended as it comes back: no deduplication, and the first failed
        lookup ends the run. */
    method GetUserIds(pilots: seq<string>, flightAttendants: seq<string>)
      returns (r: Result<seq<string>>)
      modifies this
      ensures Issued(Lookups(pilots + flightAttendants), backend, old(sent), sent, old(log), log)
      ensures r == Settled(backend, old(sent), sent,
                           LookedUp(backend, old(sent), |pilots| + |flightAttendants|))
    {
      ghost var calls := Lookups(pilots + flightAttendants);
      ghost var k0, log0 := sent, log;
      ProgressStart(calls, backend, k0, 0, log0);
      var userIds: seq<string> := [];
      var i := 0;
      while i < |pilots|
        invariant i <= |pilots| && sent == k0 + i
        invariant Progress(calls, backend, k0, i, log0, log)
        invariant userIds == LookedUp(backend, k0, i)
      {
        ghost var log1 := log;
        assert calls[i] == GetUserCall(pilots[i]);
        var user := GetUserByUpn(pilots[i]);
        ProgressStep(calls, backend, k0, i, i + 1, GetUserCall(pilots[i]), sent, log0, log1, log);
        if user.Fail? {
          return Fail(user.error);
        }
        LookedUpNext(backend, k0, i);
        userIds := userIds + [UserRef(user.value.id)];
        i := i + 1;
      }
      var j := 0;
      while j < |flightAttendants|
        invariant j <= |flightAttendants| && sent == k0 + |pilots| + j
        invariant Progress(calls, backend, k0, |pilots| + j, log0, log)
        invariant userIds == LookedUp(backend, k0, |pilots| + j)
      {
        ghost var log1 := log;
        assert calls[|pilots| + j] == GetUserCall(flightAttendants[j]);
        var user := GetUserByUpn(flightAttendants[j]);
        ProgressStep(calls, backend, k0, |pilots| + j, |pilots| + (j + 1), GetUserCall(flightAttendants[j]),
                     sent, log0, log1, log);
        if user.Fail? {
          return Fail(user.error);
        }
        LookedUpNext(backend, k0, |pilots| + j);
        userIds := userIds + [UserRef(user.value.id)];
        j := j + 1;
      }
      ProgressDone(calls, backend, k0, |pilots| + |flightAttendants|, sent, log0, log);
      return Ok(userIds);
    }

    method CreateGroup(group: Body) returns (r: Result<Resource>)
      modifies this
      ensures sent == old(sent) + 1 && log == old(log) + [Send(CreateGroupCall(group))]
      ensures r == Reply(Answer(backend, old(sent)))
    {
      var response := MakeGraphCall(Post, "/groups", Some(group), 0);
      r := if response.Ok? then Ok(response.value.data) else Fail(response.error);
    }

    method CreateTeam(groupId: string, team: Body) returns (r: Result<()>)
      modifies this
      ensures sent == old(sent) + 1 && log == old(log) + [Send(CreateTeamCall(groupId, team))]
      ensures r == Settled(backend, old(sent), sent, ())
    {
      var response := MakeGraphCall(Put, "/groups/" + groupId + "/team", Some(team), 0);
      r := if response.Ok? then Ok(()) else Fail(response.error);
    }

    method CreateGuestInvitation(invite: Body) returns (r: Result<Resource>)
      modifies this
      ensures sent == old(sent) + 1 && log == old(log) + [Send(InvitationCall(invite))]
      ensures r == Reply(Answer(backend, old(sent)))
    {
      var response := MakeGraphCall(Post, "/invitations", Some(invite), 0);
      r := if response.Ok? then Ok(response.value.data) else Fail(response.error);
    }

    /** Adds the user as a member and, when `isOwner`, then as an owner, both
        with the same user reference. */
    method AddMember(teamId: string, userId: string, isOwner: bool) returns (r: Result<()>)
      modifies this
      ensures Issued(AddMemberCalls(teamId, userId, isOwner), backend, old(sent), sent, old(log), log)
      ensures r == Settled(backend, old(sent), sent, ())
    {
      ghost var calls := AddMemberCalls(teamId, userId, isOwner);
      ghost var k0, log0 := sent, log;
      ProgressStart(calls, backend, k0, 0, log0);
      var addUserPayload := AddUserToGroup(UserRef(userId));
      var response := MakeGraphCall(Post, "/groups/" + teamId + "/members/$ref", Some(addUserPayload), 0);
      ProgressStep(calls, backend, k0, 0, 1, MemberRefCall(teamId, userId), sent, log0, log0, log);
      if response.Fail? {
        return Fail(response.error);
      }
      if isOwner {
        ghost var log1 := log;
        response := MakeGraphCall(Post, "/groups/" + teamId + "/owners/$ref", Some(addUserPayload), 0);
        ProgressStep(calls, backend, k0, 1, 2, OwnerRefCall(teamId, userId), sent, log0, log1, log);
        if response.Fail? {
          return Fail(response.error);
        }
      }
      ProgressDone(calls, backend, k0, |calls|, sent, log0, log);
      return Ok(());
    }

    method GetTeamChannels(teamId: string) returns (r: Result<Resource>)
      modifies this
      ensures sent == old(sent) + 1 && log == old(log) + [Send(ChannelsCall(teamId))]
      ensures r == Reply(Answer(backend, old(sent)))
    {
      var response := MakeGraphCall(Get, "/teams/" + teamId + "/channels", None, 0);
      r := if response.Ok? then Ok(response.value.data) else Fail(response.error);
    }

    method CreateChatThread(teamId: string, channelId: string, thread: Body) returns (r: Result<()>)
      modifies this
      ensures sent == old(sent) + 1 && log == old(log) + [Send(ChatThreadCall(teamId, channelId, thread))]
      ensures r == Settled(backend, old(sent), sent, ())
    {
      var response := MakeGraphCall(Post, "/teams/" + teamId + "/channels/" + channelId + "/chatThreads", Some(thread), 0);
      r := if response.Ok? then Ok(()) else Fail(response.error);
    }

    method CreateTeamChannel(teamId: string, channel: Body) returns (r: Result<Resource>)
      modifies this
      ensures sent == old(sent) + 1 && log == old(log) + [Send(CreateChannelCall(teamId, channel))]
      ensures r == Reply(Answer(backend, old(sent)))
    {
      var response := MakeGraphCall(Post, "/teams/" + teamId + "/channels", Some(channel), 0);
      r := if response.Ok? then Ok(response.value.data) else Fail(response.error);
    }

    method AddAppToTeam(teamId: string, app: Body) returns (r: Result<()>)
      modifies this
      ensures sent == old(sent) + 1 && log == old(log) + [Send(AddAppCall(teamId, app))]
      ensures r == Settled(backend, old(sent), sent, ())
    {
      var response := MakeGraphCall(Post, "/teams/" + teamId + "/apps", Some(app), 0);
      r := if response.Ok? then Ok(()) else Fail(response.error);
    }

    method GetSharePointSite(sitePath: string) returns (r: Result<Resource>)
      modifies this
      ensures sent == old(sent) + 1 && log == old(log) + [Send(SiteCall(sitePath))]
      ensures r == Reply(Answer(backend, old(sent)))
    {
      var response := MakeGraphCall(Get, "/sites/" + sitePath, None, 0);
      r := if response.Ok? then Ok(response.value.data) else Fail(response.error);
    }

    method GetOneDriveItem(siteId: string, itemPath: string) returns (r: Result<Resource>)
      modifies this
      ensures sent == old(sent) + 1 && log == old(log) + [Send(DriveItemCall(siteId, itemPath))]
      ensures r == Reply(Answer(backend, old(sent)))
    {
      var response := MakeGraphCall(Get, "/sites/" + siteId + "/drive/" + itemPath, None, 0);
      r := if response.Ok? then Ok(response.value.data) else Fail(response.error);
    }

    /** The one wrapper that opts into retries: a budget of two, so up to
        three sends with a backoff before each resend. */
    method GetTeamOneDriveFolder(teamId: string, folderName: string) returns (r: Result<Resource>)
      modifies this
      ensures var x := Retry(DriveFolderCall(teamId, folderName), backend, old(sent), 2);
        && log == old(log) + x.events && sent == old(sent) + x.attempts
        && r == (if x.result.Ok? then Ok(x.result.value.data) else Fail(x.result.error))
      ensures 1 <= sent - old(sent) <= 3
    {
      RetryOutcome(DriveFolderCall(teamId, folderName), backend, sent, 2);
      var response := MakeGraphCall(Get, "/groups/" + teamId + "/drive/root:/" + folderName, None, 2);
      r := if response.Ok? then Ok(response.value.data) else Fail(response.error);
    }

    method CopySharePointFile(siteId: string, itemId: string, target: string) returns (r: Result<()>)
      modifies this
      ensures sent == old(sent) + 1 && log == old(log) + [Send(CopyFileCall(siteId, itemId, target))]
      ensures r == Settled(backend, old(sent), sent, ())
    {
      var copyPayload := DriveItemCopy(target);
      var response := MakeGraphCall(Post, "/sites/" + siteId + "/drive/items/" + itemId + "/copy", Some(copyPayload), 0);
      r := if response.Ok? then Ok(()) else Fail(response.error);
    }

    method CreatePlan(plan: Body) returns (r: Result<Resource>)
      modifies this
      ensures sent == old(sent) + 1 && log == old(log) + [Send(CreatePlanCall(plan))]
      ensures r == Reply(Answer(backend, old(sent)))
    {
      var response := MakeGraphCall(Post, "/planner/plans", Some(plan), 0);
      r := if response.Ok? then Ok(response.value.data) else Fail(response.error);
    }

    method CreateBucket(bucket: Body) returns (r: Result<Resource>)
      modifies this
      ensures sent == old(sent) + 1 && log == old(log) + [Send(CreateBucketCall(bucket))]
      ensures r == Reply(Answer(backend, old(sent)))
    {
      var response := MakeGraphCall(Post, "/planner/buckets", Some(bucket), 0);
      r := if response.Ok? then Ok(response.value.data) else Fail(response.error);
    }

    method CreatePlannerTask(task: Body) returns (r: Result<Resource>)
      modifies this
      ensures sent == old(sent) + 1 && log == old(log) + [Send(CreateTaskCall(task))]
      ensures r == Reply(Answer(backend, old(sent)))
    {
      var response := MakeGraphCall(Post, "/planner/tasks", Some(task), 0);
      r := if response.Ok? then Ok(response.value.data) else Fail(response.error);
    }

    method GetTeamSite(teamId: string) returns (r: Result<Resource>)
      modifies this
      ensures sent == old(sent) + 1 && log == old(log) + [Send(TeamSiteCall(teamId))]
      ensures r == Reply(Answer(backend, old(sent)))
    {
      var response := MakeGraphCall(Get, "/groups/" + teamId + "/sites/root", None, 0);
      r := if response.Ok? then Ok(response.value.data) else Fail(response.error);
    }

    method CreateSharePointList(siteId: string, list: Body) returns (r: Result<Resource>)
      modifies this
      ensures sent == old(sent) + 1 && log == old(log) + [Send(CreateListCall(siteId, list))]
      ensures r == Reply(Answer(backend, old(sent)))
    {
      var response := MakeGraphCall(Post, "/sites/" + siteId + "/lists", Some(list), 0);
      r := if response.Ok? then Ok(response.value.data) else Fail(response.error);
    }

    // -------------------------------------------------------------------
    // Operations whose code is not part of this model: one send, one reply.

    /** Stands for the client code of the operations below, which is not
        part of this model: each sends its one request and reports its one
        reply. */
    method Invoke(c: Call) returns (r: Result<Resource>)
      requires c.Abstract?
      modifies this
      ensures sent == old(sent) + 1 && log == old(log) + [Send(c)]
      ensures r == Reply(Answer(backend, old(sent)))
    {
      var response := Transmit(c);
      r := Reply(response);
    }

    method RemoveMember(teamId: string, userId: string, isOwner: bool) returns (r: Result<()>)
      modifies this
      ensures sent == old(sent) + 1 && log == old(log) + [Send(RemoveMemberCall(teamId, userId, isOwner))]
      ensures r == Settled(backend, old(sent), sent, ())
    {
      var x := Invoke(RemoveMemberCall(teamId, userId, isOwner));
      r := if x.Ok? then Ok(()) else Fail(x.error);
    }

    method ArchiveTeam(teamId: string) returns (r: Result<()>)
      modifies this
      ensures sent == old(sent) + 1 && log == old(log) + [Send(ArchiveTeamCall(teamId))]
      ensures r == Settled(backend, old(sent), sent, ())
    {
      var x := Invoke(ArchiveTeamCall(teamId));
      r := if x.Ok? then Ok(()) else Fail(x.error);
    }

    method GetSiteLists(siteId: string) returns (r: Result<Resource>)
      modifies this
      ensures sent == old(sent) + 1 && log == old(log) + [Send(SiteListsCall(siteId))]
      ensures r == Reply(Answer(backend, old(sent)))
    {
      r := Invoke(SiteListsCall(siteId));
    }

    method AddTeamChannelTab(teamId: string, channelId: string, tab: Body) returns (r: Result<()>)
      modifies this
      ensures sent == old(sent) + 1 && log == old(log) + [Send(AddTabCall(teamId, channelId, tab))]
      ensures r == Settled(backend, old(sent), sent, ())
    {
      var x := Invoke(AddTabCall(teamId, channelId, tab));
      r := if x.Ok? then Ok(()) else Fail(x.error);
    }

    method CreateSharePointPage(siteId: string, page: Body) returns (r: Result<Resource>)
      modifies this
      ensures sent == old(sent) + 1 && log == old(log) + [Send(CreatePageCall(siteId, page))]
      ensures r == Reply(Answer(backend, old(sent)))
    {
      r := Invoke(CreatePageCall(siteId, page));
    }

    method PublishSharePointPage(siteId: string, pageId: string) returns (r: Result<()>)
      modifies this
      ensures sent == old(sent) + 1 && log == old(log) + [Send(PublishPageCall(siteId, pageId))]
      ensures r == Settled(backend, old(sent), sent, ())
    {
      var x := Invoke(PublishPageCall(siteId, pageId));
      r := if x.Ok? then Ok(()) else Fail(x.error);
    }
  }
}
