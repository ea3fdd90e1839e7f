/**
 The data records exchanged with a Consul agent. They are plain data with no
 invariants of their own, so their contents are kept opaque: each carries the
 JSON fields it was decoded from (or will be serialised to).
 */
module Records {
  import opened Wrappers

  type JsonFields = map<string, string>

  // Agent domain
  datatype Check = Check(fields: JsonFields)
  datatype Service = Service(fields: JsonFields)
  datatype Member = Member(fields: JsonFields)
  datatype Self = Self(fields: JsonFields)
  datatype NewCheck = NewCheck(fields: JsonFields)
  datatype NewService = NewService(fields: JsonFields)

  // Session domain
  datatype Session = Session(fields: JsonFields)
  datatype NewSession = NewSession(fields: JsonFields)

  /** Consistency modifiers (datacenter, blocking index, wait) attached to a request as one group. */
  datatype QueryParams = QueryParams(settings: JsonFields)

  /** The JSON text a request body is serialised from; the serialiser itself is not modelled. */
  datatype Entity =
    | NewCheckJson(check: NewCheck)
    | NewServiceJson(service: NewService)
    | NewSessionJson(session: NewSession)
}
