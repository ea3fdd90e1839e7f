/**
 The Agent facade: one request builder per endpoint and the status rule that
 interprets its response. Read endpoints pass the decoded content through
 `Gate`; every other endpoint is void and goes through `VoidGate`.
 */
module AgentClient {
  import opened Wrappers
  import opened Records
  import opened Http

  const ChecksPath := "/v1/agent/checks"
  const ServicesPath := "/v1/agent/services"
  const MembersPath := "/v1/agent/members"
  const SelfPath := "/v1/agent/self"
  const MaintenancePath := "/v1/agent/maintenance"
  const JoinPrefix := "/v1/agent/join/"
  const ForceLeavePrefix := "/v1/agent/force-leave/"
  const CheckRegisterPath := "/v1/agent/check/register"
  const CheckDeregisterPrefix := "/v1/agent/check/deregister/"
  const ServiceRegisterPath := "/v1/agent/service/register"
  const ServiceDeregisterPrefix := "/v1/agent/service/deregister/"
  const ServiceMaintenancePrefix := "/v1/agent/service/maintenance/"
  const ReloadPath := "/v1/agent/reload"

  // Endpoints that take no argument at all send a fixed request.
  const ChecksRequest := Request(Get, ChecksPath, NoBody, [])
  const ServicesRequest := Request(Get, ServicesPath, NoBody, [])
  const MembersRequest := Request(Get, MembersPath, NoBody, [])
  const ReloadRequest := Request(Put, ReloadPath, EmptyBody, [])

  // getAgentSelf

  function SelfRequest(token: Option<string>): (r: Request)
    ensures r.verb == Get && r.path == SelfPath && r.body == NoBody
    ensures TokenOnly(r.params, token)
  {
    Build(Get, SelfPath, NoBody, [Optional("token", token)])
  }

  /** The token-less overload sends no parameter at all. */
  function SelfRequestDefault(): (r: Request)
    ensures r.verb == Get && r.path == SelfPath && r.body == NoBody
    ensures r.params == []
  {
    SelfRequest(None)
  }

  // Maintenance switches (agent-wide and per service)

  /** How `Boolean.toString` renders the switch. */
  function BooleanText(b: bool): string {
    if b then "true" else "false"
  }

  function ParseBoolean(s: string): Option<bool> {
    if s == "true" then Some(true) else if s == "false" then Some(false) else None
  }

  /** The `enable` flag always comes first; `reason` follows only when one is given. */
  predicate MaintenanceParams(ps: seq<Param>, enabled: bool, reason: Option<string>) {
    && Keys(ps) == [Named("enable")] + KeyIf("reason", reason)
    && Lookup(ps, "enable").Some?
    && ParseBoolean(Lookup(ps, "enable").value) == Some(enabled)
    && Lookup(ps, "reason") == reason
  }

  function MaintenanceRequest(enabled: bool, reason: Option<string>): (r: Request)
    ensures r.verb == Put && r.path == MaintenancePath && r.body == EmptyBody
    ensures MaintenanceParams(r.params, enabled, reason)
  {
    Build(Put, MaintenancePath, EmptyBody,
          [Some(Single("enable", BooleanText(enabled))), Optional("reason", reason)])
  }

  function MaintenanceRequestDefault(enabled: bool): (r: Request)
    ensures r.verb == Put && r.path == MaintenancePath && r.body == EmptyBody
    ensures r.params == [Single("enable", BooleanText(enabled))]
  {
    MaintenanceRequest(enabled, None)
  }

  function ServiceMaintenanceRequest(serviceId: string, enabled: bool, reason: Option<string>): (r: Request)
    ensures r.verb == Put && r.body == EmptyBody
    ensures PathArgument(r.path, ServiceMaintenancePrefix) == Some(serviceId)
    ensures MaintenanceParams(r.params, enabled, reason)
  {
    ArgumentOfJoin(ServiceMaintenancePrefix, serviceId);
    Build(Put, ServiceMaintenancePrefix + serviceId, EmptyBody,
          [Some(Single("enable", BooleanText(enabled))), Optional("reason", reason)])
  }

  function ServiceMaintenanceRequestDefault(serviceId: string, enabled: bool): (r: Request)
    ensures r.verb == Put && r.body == EmptyBody
    ensures PathArgument(r.path, ServiceMaintenancePrefix) == Some(serviceId)
    ensures r.params == [Single("enable", BooleanText(enabled))]
  {
    ServiceMaintenanceRequest(serviceId, enabled, None)
  }

  // Cluster membership

  /** `wan=1` when joining over the WAN, no parameter otherwise; the address goes into the path as is. */
  function JoinRequest(address: string, wan: bool): (r: Request)
    ensures r.verb == Put && r.body == EmptyBody
    ensures PathArgument(r.path, JoinPrefix) == Some(address)
    ensures r.params == if wan then [Single("wan", "1")] else []
  {
    ArgumentOfJoin(JoinPrefix, address);
    Build(Put, JoinPrefix + address, EmptyBody, [if wan then Some(Single("wan", "1")) else None])
  }

  function ForceLeaveRequest(node: string): (r: Request)
    ensures r.verb == Put && r.body == EmptyBody && r.params == []
    ensures PathArgument(r.path, ForceLeavePrefix) == Some(node)
  {
    ArgumentOfJoin(ForceLeavePrefix, node);
    Request(Put, ForceLeavePrefix + node, EmptyBody, [])
  }

  // Checks

  function CheckRegisterRequest(newCheck: NewCheck, token: Option<string>): (r: Request)
    ensures r.verb == Put && r.path == CheckRegisterPath
    ensures r.body == Json(NewCheckJson(newCheck))
    ensures TokenOnly(r.params, token)
  {
    Build(Put, CheckRegisterPath, Json(NewCheckJson(newCheck)), [Optional("token", token)])
  }

  function CheckRegisterRequestDefault(newCheck: NewCheck): (r: Request)
    ensures r.verb == Put && r.path == CheckRegisterPath
    ensures r.body == Json(NewCheckJson(newCheck))
    ensures r.params == []
  {
    CheckRegisterRequest(newCheck, None)
  }

  function CheckDeregisterRequest(checkId: string, token: Option<string>): (r: Request)
    ensures r.verb == Put && r.body == EmptyBody
    ensures PathArgument(r.path, CheckDeregisterPrefix) == Some(checkId)
    ensures TokenOnly(r.params, token)
  {
    ArgumentOfJoin(CheckDeregisterPrefix, checkId);
    Build(Put, CheckDeregisterPrefix + checkId, EmptyBody, [Optional("token", token)])
  }

  function CheckDeregisterRequestDefault(checkId: string): (r: Request)
    ensures r.verb == Put && r.body == EmptyBody
    ensures PathArgument(r.path, CheckDeregisterPrefix) == Some(checkId)
    ensures r.params == []
  {
    CheckDeregisterRequest(checkId, None)
  }

  /** The three TTL-check updates: `agentCheckPass`, `agentCheckWarn`, `agentCheckFail`. */
  datatype CheckState = Passing | Warning | Critical

  function CheckUpdatePrefix(state: CheckState): string {
    match state
    case Passing => "/v1/agent/check/pass/"
    case Warning => "/v1/agent/check/warn/"
    case Critical => "/v1/agent/check/fail/"
  }

  /** `note` then `token`, each only when given; the check id goes into the path as is. */
  function CheckUpdateRequest(state: CheckState, checkId: string, note: Option<string>, token: Option<string>): (r: Request)
    ensures r.verb == Put && r.body == EmptyBody
    ensures PathArgument(r.path, CheckUpdatePrefix(state)) == Some(checkId)
    ensures Keys(r.params) == KeyIf("note", note) + KeyIf("token", token)
    ensures Lookup(r.params, "note") == note && Lookup(r.params, "token") == token
  {
    ArgumentOfJoin(CheckUpdatePrefix(state), checkId);
    Build(Put, CheckUpdatePrefix(state) + checkId, EmptyBody,
          [Optional("note", note), Optional("token", token)])
  }

  function CheckUpdateRequestWithNote(state: CheckState, checkId: string, note: Option<string>): (r: Request)
    ensures r.verb == Put && r.body == EmptyBody
    ensures PathArgument(r.path, CheckUpdatePrefix(state)) == Some(checkId)
    ensures Keys(r.params) == KeyIf("note", note)
    ensures Lookup(r.params, "note") == note
  {
    CheckUpdateRequest(state, checkId, note, None)
  }

  function CheckUpdateRequestById(state: CheckState, checkId: string): (r: Request)
    ensures r.verb == Put && r.body == EmptyBody
    ensures PathArgument(r.path, CheckUpdatePrefix(state)) == Some(checkId)
    ensures r.params == []
  {
    CheckUpdateRequestWithNote(state, checkId, None)
  }

  /** The update path alone tells which of pass, warn or fail was requested. */
  lemma CheckStateFromPath(state: CheckState, other: CheckState, checkId: string)
    requires CheckUpdatePrefix(other) <= CheckUpdatePrefix(state) + checkId
    ensures other == state
  {
    var path := CheckUpdatePrefix(state) + checkId;
    assert path[16] == CheckUpdatePrefix(state)[16];
    assert path[16] == CheckUpdatePrefix(other)[16];
  }

  /** A check update request determines the state, check id, note and token it was built from. */
  lemma CheckUpdateInjective(s1: CheckState, id1: string, note1: Option<string>, token1: Option<string>,
                             s2: CheckState, id2: string, note2: Option<string>, token2: Option<string>)
    requires CheckUpdateRequest(s1, id1, note1, token1) == CheckUpdateRequest(s2, id2, note2, token2)
    ensures s1 == s2 && id1 == id2 && note1 == note2 && token1 == token2
  {
  }

  // Services

  function ServiceRegisterRequest(newService: NewService, token: Option<string>): (r: Request)
    ensures r.verb == Put && r.path == ServiceRegisterPath
    ensures r.body == Json(NewServiceJson(newService))
    ensures TokenOnly(r.params, token)
  {
    Build(Put, ServiceRegisterPath, Json(NewServiceJson(newService)), [Optional("token", token)])
  }

  function ServiceRegisterRequestDefault(newService: NewService): (r: Request)
    ensures r.verb == Put && r.path == ServiceRegisterPath
    ensures r.body == Json(NewServiceJson(newService))
    ensures r.params == []
  {
    ServiceRegisterRequest(newService, None)
  }

  function ServiceDeregisterRequest(serviceId: string, token: Option<string>): (r: Request)
    ensures r.verb == Put && r.body == EmptyBody
    ensures PathArgument(r.path, ServiceDeregisterPrefix) == Some(serviceId)
    ensures TokenOnly(r.params, token)
  {
    ArgumentOfJoin(ServiceDeregisterPrefix, serviceId);
    Build(Put, ServiceDeregisterPrefix + serviceId, EmptyBody, [Optional("token", token)])
  }

  function ServiceDeregisterRequestDefault(serviceId: string): (r: Request)
    ensures r.verb == Put && r.body == EmptyBody
    ensures PathArgument(r.path, ServiceDeregisterPrefix) == Some(serviceId)
    ensures r.params == []
  {
    ServiceDeregisterRequest(serviceId, None)
  }

  /** Path identifiers are not escaped, so distinct identifiers always give distinct paths. */
  lemma JoinPathsDistinct(a: string, b: string, wanA: bool, wanB: bool)
    requires a != b
    ensures JoinRequest(a, wanA).path != JoinRequest(b, wanB).path
  {
  }
}
