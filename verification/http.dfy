/**
 The transport-independent shape of one exchange with a Consul agent: the
 request a facade method hands to the raw client, the response it gets back
 (content already decoded), and the outcome the facade returns or throws.
 */
module Http {
  import opened Wrappers
  import opened Records

  datatype Method = Get | Put

  /** A GET carries no body; a PUT carries the empty string or a serialised record. */
  datatype Body = NoBody | EmptyBody | Json(entity: Entity)

  /** One URL parameter source: a single `name=value` pair, or a whole query-parameter group. */
  datatype Param = Single(name: string, value: string) | Query(query: QueryParams)

  datatype Request = Request(verb: Method, path: string, body: Body, params: seq<Param>)

  /** A response whose content has already been decoded into the endpoint's type `C`. */
  datatype HttpResponse<C> = HttpResponse(status: int, content: C)

  /**
   What a facade call produces: a payload wrapped in a response, or one of the
   failures it raises. `OperationError` is the non-200 `OperationException`,
   `ConsulError` the semantic `ConsulException` with its message, and
   `NullPointer` the dereference of a null decoded body.
   */
  datatype Outcome<+T> =
    | Ok(value: T)
    | OperationError(status: int)
    | ConsulError(message: string)
    | NullPointer

  const StatusOk: int := 200

  /** A named parameter when the argument is non-null, nothing when it is null. */
  function Optional(name: string, arg: Option<string>): Option<Param> {
    match arg
    case None => None
    case Some(v) => Some(Single(name, v))
  }

  function OptionalQuery(q: Option<QueryParams>): Option<Param> {
    match q
    case None => None
    case Some(g) => Some(Query(g))
  }

  /**
   The parameters the raw client actually sends: the non-null ones among those
   it was handed, in the order it was handed them.
   */
  function Present(ps: seq<Option<Param>>): (r: seq<Param>)
    ensures |r| <= |ps|
    ensures forall p :: p in r <==> Some(p) in ps
    ensures |r| == |ps| <==> None !in ps
  {
    if |ps| == 0 then []
    else if ps[0].None? then Present(ps[1..])
    else [ps[0].value] + Present(ps[1..])
  }

  /** Dropping nulls commutes with concatenation, so the order of what is kept is the order given. */
  lemma {:induction false} PresentAppend(a: seq<Option<Param>>, b: seq<Option<Param>>)
    ensures Present(a + b) == Present(a) + Present(b)
    decreases |a|
  {
    if |a| == 0 {
      assert a + b == b;
    } else {
      assert (a + b)[0] == a[0];
      assert (a + b)[1..] == a[1..] + b;
      PresentAppend(a[1..], b);
    }
  }

  /** The request a facade method hands over: the raw client keeps only the present parameters. */
  function Build(verb: Method, path: string, body: Body, params: seq<Option<Param>>): Request {
    Request(verb, path, body, Present(params))
  }

  // Inspectors: what a server reading the request sees.

  /** The value of the first single parameter called `name`, if any. */
  function Lookup(ps: seq<Param>, name: string): Option<string> {
    if |ps| == 0 then None
    else if ps[0].Single? && ps[0].name == name then Some(ps[0].value)
    else Lookup(ps[1..], name)
  }

  /** The first query-parameter group, if any. */
  function QueryOf(ps: seq<Param>): Option<QueryParams> {
    if |ps| == 0 then None
    else if ps[0].Query? then Some(ps[0].query)
    else QueryOf(ps[1..])
  }

  datatype Key = Named(name: string) | QueryGroup

  function KeyOf(p: Param): Key {
    match p
    case Single(n, _) => Named(n)
    case Query(_) => QueryGroup
  }

  /** The sequence of parameter names, in the order they are sent. */
  function Keys(ps: seq<Param>): (ks: seq<Key>)
    ensures |ks| == |ps|
  {
    seq(|ps|, i requires 0 <= i < |ps| => KeyOf(ps[i]))
  }

  function KeyIf(name: string, arg: Option<string>): seq<Key> {
    if arg.Some? then [Named(name)] else []
  }

  function QueryKeyIf(q: Option<QueryParams>): seq<Key> {
    if q.Some? then [QueryGroup] else []
  }

  /** The parameters are exactly the optional `token`, present iff a token was given. */
  predicate TokenOnly(ps: seq<Param>, token: Option<string>) {
    Keys(ps) == KeyIf("token", token) && Lookup(ps, "token") == token
  }

  /** The identifier embedded after `prefix` in `path`, if `path` starts with `prefix`. */
  function PathArgument(path: string, prefix: string): Option<string> {
    if prefix <= path then Some(path[|prefix|..]) else None
  }

  /** A path built by plain concatenation gives back exactly the identifier that was appended. */
  lemma ArgumentOfJoin(prefix: string, id: string)
    ensures PathArgument(prefix + id, prefix) == Some(id)
  {
  }

  // The status rule every facade method applies first.

  /** A 200 response yields its decoded content; any other status an operation error carrying it. */
  function Gate<C>(resp: HttpResponse<C>): (r: Outcome<C>)
    ensures r.Ok? <==> resp.status == StatusOk
    ensures r.Ok? ==> r.value == resp.content
    ensures !r.Ok? ==> r == OperationError(resp.status)
  {
    if resp.status == StatusOk then Ok(resp.content) else OperationError(resp.status)
  }

  /** For endpoints with no meaningful body: a 200 yields the void (null) payload. */
  function VoidGate<C>(resp: HttpResponse<C>): (r: Outcome<()>)
    ensures r.Ok? <==> resp.status == StatusOk
    ensures !r.Ok? ==> r == OperationError(resp.status)
  {
    if resp.status == StatusOk then Ok(()) else OperationError(resp.status)
  }

  /** A void endpoint never looks at the content: only the status decides. */
  lemma VoidGateIgnoresContent<C, D>(a: HttpResponse<C>, b: HttpResponse<D>)
    requires a.status == b.status
    ensures VoidGate(a) == VoidGate(b)
  {
  }

  /** A failed status is reported the same way whatever the content was. */
  lemma GateFailureIgnoresContent<C>(a: HttpResponse<C>, b: HttpResponse<C>)
    requires a.status == b.status && a.status != StatusOk
    ensures Gate(a) == Gate(b) == OperationError(a.status)
  {
  }
}
