/**
 The Session facade: request builders, and the interpreters that turn a
 decoded response into a payload or a failure. Session info and renew both
 receive a list from the server but apply different singleton policies.
 */
module SessionClient {
  import opened Wrappers
  import opened Records
  import opened Http
  import Decimal

  const CreatePath := "/v1/session/create"
  const DestroyPrefix := "/v1/session/destroy/"
  const InfoPrefix := "/v1/session/info/"
  const NodePrefix := "/v1/session/node/"
  const ListPath := "/v1/session/list"
  const RenewPrefix := "/v1/session/renew/"

  /** Decoded response shapes; a null body decodes to `None`. */
  type CreateResponse = HttpResponse<Option<map<string, string>>>
  type SessionsResponse = HttpResponse<Option<seq<Session>>>

  /** The query-parameter group first, then `token`; each only when non-null. */
  predicate SessionParams(ps: seq<Param>, queryParams: Option<QueryParams>, token: Option<string>) {
    && Keys(ps) == QueryKeyIf(queryParams) + KeyIf("token", token)
    && QueryOf(ps) == queryParams
    && Lookup(ps, "token") == token
  }

  function Params(queryParams: Option<QueryParams>, token: Option<string>): seq<Option<Param>> {
    [OptionalQuery(queryParams), Optional("token", token)]
  }

  // Requests

  function CreateRequest(newSession: NewSession, queryParams: Option<QueryParams>, token: Option<string>): (r: Request)
    ensures r.verb == Put && r.path == CreatePath
    ensures r.body == Json(NewSessionJson(newSession))
    ensures SessionParams(r.params, queryParams, token)
  {
    Build(Put, CreatePath, Json(NewSessionJson(newSession)), Params(queryParams, token))
  }

  function CreateRequestDefault(newSession: NewSession, queryParams: Option<QueryParams>): (r: Request)
    ensures r.verb == Put && r.path == CreatePath
    ensures r.body == Json(NewSessionJson(newSession))
    ensures SessionParams(r.params, queryParams, None)
  {
    CreateRequest(newSession, queryParams, None)
  }

  function DestroyRequest(session: string, queryParams: Option<QueryParams>, token: Option<string>): (r: Request)
    ensures r.verb == Put && r.body == EmptyBody
    ensures PathArgument(r.path, DestroyPrefix) == Some(session)
    ensures SessionParams(r.params, queryParams, token)
  {
    ArgumentOfJoin(DestroyPrefix, session);
    Build(Put, DestroyPrefix + session, EmptyBody, Params(queryParams, token))
  }

  function DestroyRequestDefault(session: string, queryParams: Option<QueryParams>): (r: Request)
    ensures r.verb == Put && r.body == EmptyBody
    ensures PathArgument(r.path, DestroyPrefix) == Some(session)
    ensures SessionParams(r.params, queryParams, None)
  {
    DestroyRequest(session, queryParams, None)
  }

  function InfoRequest(session: string, queryParams: Option<QueryParams>, token: Option<string>): (r: Request)
    ensures r.verb == Get && r.body == NoBody
    ensures PathArgument(r.path, InfoPrefix) == Some(session)
    ensures SessionParams(r.params, queryParams, token)
  {
    ArgumentOfJoin(InfoPrefix, session);
    Build(Get, InfoPrefix + session, NoBody, Params(queryParams, token))
  }

  function InfoRequestDefault(session: string, queryParams: Option<QueryParams>): (r: Request)
    ensures r.verb == Get && r.body == NoBody
    ensures PathArgument(r.path, InfoPrefix) == Some(session)
    ensures SessionParams(r.params, queryParams, None)
  {
    InfoRequest(session, queryParams, None)
  }

  function NodeRequest(node: string, queryParams: Option<QueryParams>, token: Option<string>): (r: Request)
    ensures r.verb == Get && r.body == NoBody
    ensures PathArgument(r.path, NodePrefix) == Some(node)
    ensures SessionParams(r.params, queryParams, token)
  {
    ArgumentOfJoin(NodePrefix, node);
    Build(Get, NodePrefix + node, NoBody, Params(queryParams, token))
  }

  function NodeRequestDefault(node: string, queryParams: Option<QueryParams>): (r: Request)
    ensures r.verb == Get && r.body == NoBody
    ensures PathArgument(r.path, NodePrefix) == Some(node)
    ensures SessionParams(r.params, queryParams, None)
  {
    NodeRequest(node, queryParams, None)
  }

  function ListRequest(queryParams: Option<QueryParams>, token: Option<string>): (r: Request)
    ensures r.verb == Get && r.path == ListPath && r.body == NoBody
    ensures SessionParams(r.params, queryParams, token)
  {
    Build(Get, ListPath, NoBody, Params(queryParams, token))
  }

  function ListRequestDefault(queryParams: Option<QueryParams>): (r: Request)
    ensures r.verb == Get && r.body == NoBody
    ensures r.path == ListPath
    ensures SessionParams(r.params, queryParams, None)
  {
    ListRequest(queryParams, None)
  }

  function RenewRequest(session: string, queryParams: Option<QueryParams>, token: Option<string>): (r: Request)
    ensures r.verb == Put && r.body == EmptyBody
    ensures PathArgument(r.path, RenewPrefix) == Some(session)
    ensures SessionParams(r.params, queryParams, token)
  {
    ArgumentOfJoin(RenewPrefix, session);
    Build(Put, RenewPrefix + session, EmptyBody, Params(queryParams, token))
  }

  function RenewRequestDefault(session: string, queryParams: Option<QueryParams>): (r: Request)
    ensures r.verb == Put && r.body == EmptyBody
    ensures PathArgument(r.path, RenewPrefix) == Some(session)
    ensures SessionParams(r.params, queryParams, None)
  {
    RenewRequest(session, queryParams, None)
  }

  // The semantic error raised for a list of unexpected size

  const StrangePrefix := "Strange response (list size="

  /** The list size a "Strange response" message reports, if the message has that form. */
  function SizeInMessage(message: string): Option<nat> {
    if |message| > |StrangePrefix| && message[..|StrangePrefix|] == StrangePrefix && message[|message| - 1] == ')'
    then Decimal.Parse(message[|StrangePrefix|..|message| - 1])
    else None
  }

  /** The message names the observed size, and the size can be read back from it. */
  function StrangeResponse(size: nat): (message: string)
    ensures SizeInMessage(message) == Some(size)
  {
    var message := StrangePrefix + Decimal.Show(size) + ")";
    assert message[..|StrangePrefix|] == StrangePrefix;
    assert message[|StrangePrefix|..|message| - 1] == Decimal.Show(size);
    Decimal.ParseShow(size);
    message
  }

  /** Only one message reports a given size: the text of the error is fixed by the size it names. */
  lemma MessageForSize(message: string, size: nat)
    requires SizeInMessage(message) == Some(size)
    ensures message == StrangeResponse(size)
  {
    var middle := message[|StrangePrefix|..|message| - 1];
    Decimal.ShowParse(middle);
    assert message == message[..|StrangePrefix|] + middle + [message[|message| - 1]];
  }

  // Responses

  /** sessionCreate: on 200, exactly the `ID` entry of the decoded object (null when it is missing). */
  function CreateResult(resp: CreateResponse): (r: Outcome<Option<string>>)
    ensures resp.status != StatusOk ==> r == OperationError(resp.status)
    ensures r.Ok? <==> resp.status == StatusOk && resp.content.Some?
    ensures r.NullPointer? <==> resp.status == StatusOk && resp.content.None?
    ensures r.Ok? ==> (r.value.Some? <==> "ID" in resp.content.value)
    ensures r.Ok? && r.value.Some? ==> r.value.value == resp.content.value["ID"]
  {
    if resp.status != StatusOk then OperationError(resp.status)
    else
      match resp.content
      case None => NullPointer
      case Some(fields) => Ok(if "ID" in fields then Some(fields["ID"]) else None)
  }

  /** sessionDestroy is void: only the status matters. */
  function DestroyResult(resp: HttpResponse<()>): (r: Outcome<()>)
    ensures r.Ok? <==> resp.status == StatusOk
    ensures !r.Ok? ==> r == OperationError(resp.status)
  {
    VoidGate(resp)
  }

  /**
   getSessionInfo: on 200 a null or empty list means "no such session", a
   single element is the session, and a longer list is a semantic error.
   */
  function InfoResult(resp: SessionsResponse): (r: Outcome<Option<Session>>)
    ensures resp.status != StatusOk ==> r == OperationError(resp.status)
    ensures r.Ok? <==> resp.status == StatusOk && (resp.content.None? || |resp.content.value| <= 1)
    ensures r.Ok? && r.value.None? ==> resp.content.None? || resp.content.value == []
    ensures r.Ok? && r.value.Some? ==> resp.content == Some([r.value.value])
    ensures r.ConsulError? <==> resp.status == StatusOk && resp.content.Some? && |resp.content.value| > 1
    ensures r.ConsulError? ==> SizeInMessage(r.message) == Some(|resp.content.value|)
    ensures !r.NullPointer?
  {
    if resp.status != StatusOk then OperationError(resp.status)
    else
      match resp.content
      case None => Ok(None)
      case Some(list) =>
        if |list| == 0 then Ok(None)
        else if |list| == 1 then assert list == [list[0]]; Ok(Some(list[0]))
        else ConsulError(StrangeResponse(|list|))
  }

  /** getSessionNode and getSessionList hand back the decoded list unchanged. */
  function SessionsResult(resp: SessionsResponse): (r: Outcome<Option<seq<Session>>>)
    ensures r.Ok? <==> resp.status == StatusOk
    ensures r.Ok? ==> r.value == resp.content
    ensures !r.Ok? ==> r == OperationError(resp.status)
  {
    Gate(resp)
  }

  /**
   renewSession: on 200 the list must hold exactly one session; any other size
   is a semantic error. A null list is dereferenced without a guard.
   */
  function RenewResult(resp: SessionsResponse): (r: Outcome<Session>)
    ensures resp.status != StatusOk ==> r == OperationError(resp.status)
    ensures r.Ok? <==> resp.status == StatusOk && resp.content.Some? && |resp.content.value| == 1
    ensures r.Ok? ==> resp.content == Some([r.value])
    ensures r.ConsulError? <==> resp.status == StatusOk && resp.content.Some? && |resp.content.value| != 1
    ensures r.ConsulError? ==> SizeInMessage(r.message) == Some(|resp.content.value|)
    ensures r.NullPointer? <==> resp.status == StatusOk && resp.content.None?
  {
    if resp.status != StatusOk then OperationError(resp.status)
    else
      match resp.content
      case None => NullPointer
      case Some(list) =>
        if |list| == 1 then assert list == [list[0]]; Ok(list[0]) else ConsulError(StrangeResponse(|list|))
  }

  // Relations between the interpreters

  /** sessionCreate looks at the `ID` entry only: responses that agree on it give the same outcome. */
  lemma CreateIgnoresOtherEntries(a: CreateResponse, b: CreateResponse)
    requires a.status == b.status
    requires a.content.Some? <==> b.content.Some?
    requires a.content.Some? && b.content.Some? ==>
               ("ID" in a.content.value <==> "ID" in b.content.value)
               && ("ID" in a.content.value ==> a.content.value["ID"] == b.content.value["ID"])
    ensures CreateResult(a) == CreateResult(b)
  {
  }

  /** Renew is the stricter policy: whenever it succeeds, info on the same response finds the same session. */
  lemma RenewStricterThanInfo(resp: SessionsResponse)
    requires RenewResult(resp).Ok?
    ensures InfoResult(resp) == Ok(Some(RenewResult(resp).value))
  {
  }

  /** On a 200 with an empty list the two policies part: info reports "absent", renew an error naming size 0. */
  lemma EmptyListPolicies(resp: SessionsResponse)
    requires resp.status == StatusOk && resp.content == Some([])
    ensures InfoResult(resp) == Ok(None)
    ensures RenewResult(resp).ConsulError? && SizeInMessage(RenewResult(resp).message) == Some(0)
  {
  }

  /** A created session's identifier is returned verbatim, other entries are discarded. */
  lemma CreateReturnsId(id: string, other: map<string, string>)
    ensures CreateResult(HttpResponse(StatusOk, Some(other["ID" := id]))) == Ok(Some(id))
  {
  }
}
