# Consul Agent and Session facades, modelled in Dafny

This project models the caller side of two facades of the consul-api Java client:
`AgentConsulClient` (health checks, services, members, self, maintenance, join,
force-leave, check and service registration, reload) and `SessionConsulClient`
(create, destroy, info, node, list, renew). Each facade method builds a request,
hands it to the raw HTTP client, and interprets the decoded response. The model
splits every endpoint into two pure functions:

- a **request builder** that maps the typed arguments to a `Request`. A request holds
  the HTTP verb, the path, the body and the ordered URL parameters. The body is none,
  the empty string, or an opaque serialised record. Identifiers are appended to the
  path verbatim.
- a **response interpreter** that maps a decoded `HttpResponse(status, content)` to an
  `Outcome`. An outcome is `Ok(payload)`, `OperationError(status)` (`OperationException`),
  `ConsulError(message)` (`ConsulException`) or `NullPointer`.

`NullPointer` stands for the `NullPointerException` the code raises when it
dereferences a null decoded body. This happens in `sessionCreate` when the decoded
object is null (line 58) and in `renewSession` when the decoded list is null
(line 162). Unlike `getSessionInfo`, renew has no null guard. So a null list is
not reported as a "Strange response" semantic error. The model follows the code.

Modules:

- `Wrappers`: `Option`, standing for Java's nullable references.
- `Records`: the opaque data records, `QueryParams`, and the serialised request entity.
- `Decimal`: the decimal text of an integer, as Java's string concatenation produces it, and its parser.
- `Http`: requests, parameters, responses and outcomes.
  - `Present` models how the raw client drops null parameters and keeps the order of the rest.
  - `Lookup`, `QueryOf`, `Keys` and `PathArgument` are what a server reading the request sees.
    Builder contracts are stated through them.
  - `Gate` and `VoidGate` are the status rule shared by all endpoints.
- `AgentClient`: the Agent request builders.
  - `getAgentChecks`, `getAgentServices`, `getAgentMembers` and `agentReload` take no
    arguments. They send the fixed requests `ChecksRequest`, `ServicesRequest`,
    `MembersRequest` and `ReloadRequest`. These are GETs without parameters, or a PUT
    with an empty body and no parameters.
  - The read endpoints are interpreted by `Http.Gate`, every other Agent endpoint by
    `Http.VoidGate`.
- `SessionClient`: the Session request builders and the interpreters for create, info and
  renew. Destroy, node and list reuse the shared gates.

Overloads that omit trailing arguments are modelled as functions named `…Default`,
`…WithNote` or `…ById`. Each delegates to the full form with `None` (Java `null`),
exactly as the source does. Their contracts state the effect: the omitted
parameters are absent from the request. The interpretation does not depend on the
arguments, so equal requests mean equal calls.

## Model

| member | source | states |
|---|---|---|
| Decimal.Show | src/main/java/com/ecwid/consul/v1/session/SessionConsulClient.java:101 | the size in the error message is rendered as a canonical numeral, as `int` concatenation does: non-empty, digits only, and starting with '0' only when it is exactly "0" |
| Decimal.ParseShow | src/main/java/com/ecwid/consul/v1/session/SessionConsulClient.java:101 | the rendered size can be parsed back to exactly the size that was rendered |
| Decimal.ShowParse | src/main/java/com/ecwid/consul/v1/session/SessionConsulClient.java:165 | every canonical numeral is the rendering of the number it denotes, so each size has exactly one text |
| Http.Present | src/main/java/com/ecwid/consul/v1/agent/AgentConsulClient.java:206-210 | null parameter sources are dropped: a parameter is sent iff it was passed non-null, and nothing is added |
| Http.PresentAppend | src/main/java/com/ecwid/consul/v1/agent/AgentConsulClient.java:210 | dropping nulls preserves the order in which the parameter sources were passed |
| Http.ArgumentOfJoin | src/main/java/com/ecwid/consul/v1/agent/AgentConsulClient.java:186 | an identifier concatenated to a path prefix is recovered unchanged: no escaping takes place |
| Http.Gate | src/main/java/com/ecwid/consul/v1/agent/AgentConsulClient.java:58-63 | a read endpoint succeeds exactly on status 200 with the decoded content as payload; any other status yields an operation error carrying that status |
| Http.VoidGate | src/main/java/com/ecwid/consul/v1/agent/AgentConsulClient.java:127-131 | a void endpoint succeeds exactly on status 200 with a null payload; any other status yields an operation error carrying that status |
| Http.VoidGateIgnoresContent | src/main/java/com/ecwid/consul/v1/agent/AgentConsulClient.java:140-144 | the outcome of a void endpoint depends on the status only, never on the content |
| Http.GateFailureIgnoresContent | src/main/java/com/ecwid/consul/v1/agent/AgentConsulClient.java:107-112 | a non-200 response is reported as the same operation error whatever its content |
| AgentClient.SelfRequest | src/main/java/com/ecwid/consul/v1/agent/AgentConsulClient.java:100-105 | GET of the self path whose only parameter is `token`, present iff a token is given |
| AgentClient.SelfRequestDefault | src/main/java/com/ecwid/consul/v1/agent/AgentConsulClient.java:95-97 | the token-less overload sends the same GET of the self path, no body, and no parameters |
| AgentClient.MaintenanceRequest | src/main/java/com/ecwid/consul/v1/agent/AgentConsulClient.java:121-125 | PUT with empty body; `enable` first, reading back as the flag, then `reason` iff a reason is given |
| AgentClient.MaintenanceRequestDefault | src/main/java/com/ecwid/consul/v1/agent/AgentConsulClient.java:115-118 | the reason-less overload sends the same PUT with empty body to the maintenance path, with the `enable` parameter alone |
| AgentClient.ServiceMaintenanceRequest | src/main/java/com/ecwid/consul/v1/agent/AgentConsulClient.java:310-314 | PUT to the service maintenance prefix plus the service id verbatim, with the same `enable`/`reason` parameters |
| AgentClient.ServiceMaintenanceRequestDefault | src/main/java/com/ecwid/consul/v1/agent/AgentConsulClient.java:304-307 | the reason-less overload sends the same PUT with empty body to the prefix plus the service id, with the `enable` parameter alone |
| AgentClient.JoinRequest | src/main/java/com/ecwid/consul/v1/agent/AgentConsulClient.java:136-138 | PUT to the join prefix plus the address unescaped; `wan=1` when joining over the WAN, no parameter otherwise |
| AgentClient.JoinPathsDistinct | src/main/java/com/ecwid/consul/v1/agent/AgentConsulClient.java:138 | distinct addresses give distinct join paths |
| AgentClient.ForceLeaveRequest | src/main/java/com/ecwid/consul/v1/agent/AgentConsulClient.java:148-149 | PUT to the force-leave prefix plus the node name, empty body, no parameters |
| AgentClient.CheckRegisterRequest | src/main/java/com/ecwid/consul/v1/agent/AgentConsulClient.java:164-168 | PUT to the fixed register path with the serialised check as body and only the optional `token` |
| AgentClient.CheckRegisterRequestDefault | src/main/java/com/ecwid/consul/v1/agent/AgentConsulClient.java:158-161 | the token-less overload sends the same PUT to the register path with the serialised check, and no parameters |
| AgentClient.CheckDeregisterRequest | src/main/java/com/ecwid/consul/v1/agent/AgentConsulClient.java:183-186 | PUT to the deregister prefix plus the check id, with only the optional `token` |
| AgentClient.CheckDeregisterRequestDefault | src/main/java/com/ecwid/consul/v1/agent/AgentConsulClient.java:177-180 | the token-less overload sends the same PUT with empty body to the prefix plus the check id, and no parameters |
| AgentClient.CheckUpdateRequest | src/main/java/com/ecwid/consul/v1/agent/AgentConsulClient.java:206-210 | pass, warn and fail: PUT to the state's prefix plus the check id, parameters `note` then `token`, each present iff given (same code at lines 230-234 and 254-258) |
| AgentClient.CheckUpdateRequestWithNote | src/main/java/com/ecwid/consul/v1/agent/AgentConsulClient.java:200-203 | the two-argument overload sends the same PUT with empty body to the state's prefix plus the check id, with `note` iff given and never `token` |
| AgentClient.CheckUpdateRequestById | src/main/java/com/ecwid/consul/v1/agent/AgentConsulClient.java:195-198 | the one-argument overload sends the same PUT with empty body to the state's prefix plus the check id, and no parameters |
| AgentClient.CheckStateFromPath | src/main/java/com/ecwid/consul/v1/agent/AgentConsulClient.java:206-258 | the update path alone determines whether pass, warn or fail was requested |
| AgentClient.CheckUpdateInjective | src/main/java/com/ecwid/consul/v1/agent/AgentConsulClient.java:206-210 | equal check update requests come from equal state, check id, note and token: the request loses nothing |
| AgentClient.ServiceRegisterRequest | src/main/java/com/ecwid/consul/v1/agent/AgentConsulClient.java:273-277 | PUT to the fixed register path with the serialised service as body and only the optional `token` |
| AgentClient.ServiceRegisterRequestDefault | src/main/java/com/ecwid/consul/v1/agent/AgentConsulClient.java:267-270 | the token-less overload sends the same PUT to the register path with the serialised service, and no parameters |
| AgentClient.ServiceDeregisterRequest | src/main/java/com/ecwid/consul/v1/agent/AgentConsulClient.java:292-295 | PUT to the deregister prefix plus the service id, with only the optional `token` |
| AgentClient.ServiceDeregisterRequestDefault | src/main/java/com/ecwid/consul/v1/agent/AgentConsulClient.java:286-289 | the token-less overload sends the same PUT with empty body to the prefix plus the service id, and no parameters |
| SessionClient.CreateRequest | src/main/java/com/ecwid/consul/v1/session/SessionConsulClient.java:48-54 | PUT to the create path with the serialised session as body; query group then `token`, each present iff non-null |
| SessionClient.CreateRequestDefault | src/main/java/com/ecwid/consul/v1/session/SessionConsulClient.java:42-45 | the token-less overload sends the same PUT to the create path with the serialised session, and the query group alone |
| SessionClient.DestroyRequest | src/main/java/com/ecwid/consul/v1/session/SessionConsulClient.java:70-72 | PUT to the destroy prefix plus the session id verbatim; query group then `token` |
| SessionClient.DestroyRequestDefault | src/main/java/com/ecwid/consul/v1/session/SessionConsulClient.java:64-67 | the token-less overload sends the same PUT with empty body to the destroy prefix plus the id, and omits `token` |
| SessionClient.InfoRequest | src/main/java/com/ecwid/consul/v1/session/SessionConsulClient.java:87-91 | GET of the info prefix plus the session id verbatim; query group then `token` |
| SessionClient.InfoRequestDefault | src/main/java/com/ecwid/consul/v1/session/SessionConsulClient.java:81-84 | the token-less overload sends the same GET, no body, of the info prefix plus the id, and omits `token` |
| SessionClient.NodeRequest | src/main/java/com/ecwid/consul/v1/session/SessionConsulClient.java:114-118 | GET of the node prefix plus the node name verbatim; query group then `token` |
| SessionClient.NodeRequestDefault | src/main/java/com/ecwid/consul/v1/session/SessionConsulClient.java:108-111 | the token-less overload sends the same GET, no body, of the node prefix plus the node name, and omits `token` |
| SessionClient.ListRequest | src/main/java/com/ecwid/consul/v1/session/SessionConsulClient.java:134-138 | GET of the fixed list path; query group then `token` |
| SessionClient.ListRequestDefault | src/main/java/com/ecwid/consul/v1/session/SessionConsulClient.java:128-131 | the token-less overload sends the same GET, no body, of the list path, and omits `token` |
| SessionClient.RenewRequest | src/main/java/com/ecwid/consul/v1/session/SessionConsulClient.java:153-157 | PUT to the renew prefix plus the session id verbatim, empty body; query group then `token` |
| SessionClient.RenewRequestDefault | src/main/java/com/ecwid/consul/v1/session/SessionConsulClient.java:148-150 | the token-less overload sends the same PUT with empty body to the renew prefix plus the id, and omits `token` |
| SessionClient.StrangeResponse | src/main/java/com/ecwid/consul/v1/session/SessionConsulClient.java:101 | the "Strange response (list size=N)" message carries the observed size, which can be read back from it |
| SessionClient.MessageForSize | src/main/java/com/ecwid/consul/v1/session/SessionConsulClient.java:165 | a message that reads back as size N is exactly the message built for N |
| SessionClient.CreateResult | src/main/java/com/ecwid/consul/v1/session/SessionConsulClient.java:56-61 | non-200 is an operation error; on 200 the payload is the `ID` entry, null when the key is missing; a null object is dereferenced |
| SessionClient.CreateIgnoresOtherEntries | src/main/java/com/ecwid/consul/v1/session/SessionConsulClient.java:57-58 | responses that agree on status and on the `ID` entry give the same outcome; other entries are discarded |
| SessionClient.CreateReturnsId | src/main/java/com/ecwid/consul/v1/session/SessionConsulClient.java:56-58 | an object holding `ID` yields exactly that identifier |
| SessionClient.DestroyResult | src/main/java/com/ecwid/consul/v1/session/SessionConsulClient.java:74-78 | destroy succeeds exactly on 200 with a null payload, otherwise an operation error with the status |
| SessionClient.InfoResult | src/main/java/com/ecwid/consul/v1/session/SessionConsulClient.java:93-105 | non-200 is an operation error; on 200 a null or empty list gives an absent payload, one element gives that session, and a longer list gives a semantic error naming its size |
| SessionClient.SessionsResult | src/main/java/com/ecwid/consul/v1/session/SessionConsulClient.java:120-125 | node and list return the decoded list unchanged on 200, otherwise an operation error with the status |
| SessionClient.RenewResult | src/main/java/com/ecwid/consul/v1/session/SessionConsulClient.java:159-169 | non-200 is an operation error; on 200 exactly one element is the session, any other size a semantic error naming the size, and a null list is dereferenced |
| SessionClient.RenewStricterThanInfo | src/main/java/com/ecwid/consul/v1/session/SessionConsulClient.java:159-165 | whenever renew succeeds, info on the same response returns the same session |
| SessionClient.EmptyListPolicies | src/main/java/com/ecwid/consul/v1/session/SessionConsulClient.java:96-97 | on an empty list, info reports absence while renew reports a semantic error naming size 0 |

## Left out

- Transport: `ConsulRawClient`, HTTP execution, host, port and TLS constructors, and transport failures are outside the model. The raw client is not part of this model. Its dropping of null parameter sources is modelled by `Http.Present`.
- JSON: serialisation and decoding go through Gson and type tokens. A request body is the opaque `Records.Entity`, and response content is given already decoded. Malformed JSON is not modelled.
- Query-string encoding: URL-encoding of names and values, and the contents of `QueryParams`, are outside the model. A query group is one opaque parameter.
- Records: `Check`, `Service`, `Member`, `Self`, `Session` and the `New…` records are opaque field maps.
- Null identifiers and records: the ids put into paths (check, service, node, session, join address) are non-null strings, and the records serialised as bodies are non-null values. In Java a null id becomes the text `null` in the path (for example `/v1/agent/join/null`), and a null record serialises to the body `null`. The model does not cover these calls.
- Lists with null elements: a decoded list is a sequence of sessions and never holds a Java `null` element. A decoded `ID` entry is never null.
- Response envelope: the metadata of `Response` (consistency index and similar headers) is not modelled. `Ok` carries the payload alone.
- Http.Gate: `OperationError` carries the status code only. The status text and raw body of `OperationException` are not modelled.
- Decimal.Show: list sizes are unbounded naturals. The 32-bit bound of Java's `int` is not modelled, since a list that large never occurs.
- Concurrency: the shared client is used by independent calls. Thread safety is not sequential behaviour and is not modelled.
