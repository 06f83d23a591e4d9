/** Values exchanged with the directory/collaboration backend: the request
    bodies the workflow builds, the requests the client sends, the replies it
    gets back and the events it records. JSON (de)serialization is a foreign
    library call, so bodies and replies are kept as structured values. */
module GraphTypes {

  datatype Option<+T> = None | Some(value: T)

  /** An exception surfaced to the caller: the raw error body of a failed
      request, or the failure of `First()` on an empty channel list. */
  datatype Error = GraphError(body: string) | NoChannels

  datatype Result<+T> = Ok(value: T) | Fail(error: Error)

  datatype HttpMethod = Get | Post | Put | Delete

  /** A SharePoint column definition whose `Text` facet is set. */
  datatype Column = TextColumn(name: string)

  datatype WebPartType = ListWebPart

  /** A list web part: `Data.DataVersion` and the three `ListProperties`. */
  datatype WebPart = WebPart(
    kind: WebPartType,
    dataVersion: string,
    isDocumentLibrary: bool,
    selectedListId: string,
    webpartHeightKey: int)

  /** The request bodies (DTOs) that the client serializes. */
  datatype Body =
    | Group(displayName: string, description: string, visibility: string,
            mailEnabled: bool, mailNickname: string, groupTypes: seq<string>,
            securityEnabled: bool, members: seq<string>, owners: seq<string>)
    | Invitation(invitedUserEmailAddress: string, inviteRedirectUrl: string,
                 sendInvitationMessage: bool)
    | AddUserToGroup(userPath: string)
    | Team(allowCreateUpdateChannels: bool, allowDeleteChannels: bool)
    | Channel(displayName: string, description: string)
    | ChatThread(content: string)
    | TeamsApp(appId: string)
    | SharePointList(displayName: string, columns: seq<Column>)
    | ChannelTab(name: string, teamsAppId: string, contentUrl: string, websiteUrl: string)
    | SharePointPage(name: string, title: string, webParts: seq<WebPart>)
    | DriveItemCopy(parentReference: string)
    | Plan(title: string, owner: string)
    | Bucket(name: string, planId: string)
    | PlannerTask(title: string, planId: string, bucketId: string, dueDateTime: string)

  /** The serialized request payload: `string.Empty`, or the JSON text of a
      body (which is never the empty string). */
  datatype Payload = Empty | Json(body: Body)

  /** Operations of the client whose code is not part of this model. */
  datatype Operation =
    | RemoveMember(isOwner: bool)
    | ArchiveTeam
    | GetSiteLists
    | AddTeamChannelTab
    | CreateSharePointPage
    | PublishSharePointPage

  /** One request put on the wire: an HTTP request to an absolute URI, or an
      abstract call of an operation whose code is not modelled. */
  datatype Call =
    | Http(verb: HttpMethod, uri: string, payload: Payload)
    | Abstract(op: Operation, args: seq<string>, payload: Payload)

  /** What the client does observably: send a request, or sleep between attempts. */
  datatype Event = Send(call: Call) | Sleep(millis: nat)

  /** An element of a returned collection (a channel, a site list). */
  datatype Entry = Entry(id: string, displayName: string)

  /** The deserialized reply: the fields of the returned resource the workflow
      reads (`Id`, `WebUrl`, `InvitedUser.Id`, `Value`). */
  datatype Resource = Resource(id: string, webUrl: string, invitedUserId: string, value: seq<Entry>)

  /** A reply from the backend: status class, raw body text and its deserialized view. */
  datatype Response = Response(success: bool, body: string, data: Resource)
}
