/** The HTTP side of internal/keycloak: what is sent to Keycloak, what comes
    back, and the log of it all. Keycloak and the network may do anything; a
    method body here is one possible behaviour, only its contract is relied on. */
module Network {
  import opened Outcomes
  import opened Keycloak

  /** One HTTP attempt takes no longer than the client's timeout (its default). */
  const TIMEOUT: int := 3 * SECOND

  datatype ClientRep = ClientRep(id: string, clientId: string)

  /** The admin endpoints. */
  datatype Query =
    | GetClients(clientId: string)
    | GetUsers(username: string)
    | Evaluate(uuid: string, user: string, resource: string, scope: string)
    | GetResources(uuid: string, resource: string)

  /** A decoded body. */
  datatype Payload =
    | Garbled
    | Clients(clients: seq<ClientRep>)
    | Users(users: seq<User>)
    | Status(status: string)
    | Resources(resources: seq<Resource>)

  /** No reply is a transport error; a body that could not be read is None. */
  datatype Reply = NoReply | Response(code: int, body: Option<Payload>)

  datatype Grant = Grant(token: string, expiresIn: int)

  datatype Exchange =
    | TokenExchange(granted: Option<Grant>, began: int, ended: int)
    | AdminExchange(query: Query, token: string, reply: Reply, began: int, ended: int)

  class Network {
    var clock: int
    var log: seq<Exchange>

    constructor (clock: int)
      ensures this.clock == clock && log == []
    {
      this.clock, log := clock, [];
    }

    /** The log only grows, and what grew accounts for the time that passed. */
    twostate predicate Spent()
      reads this
    {
      old(log) <= log && old(clock) <= clock <= old(clock) + TIMEOUT * (|log| - |old(log)|)
    }

    method Send(query: Query, token: string) returns (reply: Reply)
      modifies this
      ensures Spent() && log == old(log) + [AdminExchange(query, token, reply, old(clock), clock)]
    {
      reply := *;
      log := log + [AdminExchange(query, token, reply, clock, clock)];
    }

    /** A status other than 200, an undecodable body and an empty token are
        all no grant. */
    method FetchToken() returns (granted: Option<Grant>)
      modifies this
      ensures Spent() && log == old(log) + [TokenExchange(granted, old(clock), clock)]
      ensures granted.Some? ==> granted.value.token != ""
    {
      granted := *;
      if granted.Some? && granted.value.token == "" {
        granted := None;
      }
      log := log + [TokenExchange(granted, clock, clock)];
    }
  }

  /* ------------------------------------------------------------------ */
  /* What an exchange says                                                */
  /* ------------------------------------------------------------------ */

  predicate HasBody(x: Exchange) {
    x.AdminExchange? && x.reply.Response? && x.reply.code < 400 && x.reply.body.Some?
  }

  function BodyOf(x: Exchange): Payload
    requires HasBody(x)
  {
    x.reply.body.value
  }

  /** The first client listed under this client id. */
  function PickClient(clients: seq<ClientRep>, clientId: string): (r: Option<string>)
    ensures r.Some? <==> exists i :: 0 <= i < |clients| && clients[i].clientId == clientId && clients[i].id != ""
    ensures r.Some? ==> r.value != "" && exists i :: && 0 <= i < |clients| && clients[i] == ClientRep(r.value, clientId)
                                                     && forall j :: 0 <= j < i ==>
                                                          clients[j].clientId != clientId || clients[j].id == ""
  {
    if clients == [] then None
    else if clients[0].clientId == clientId && clients[0].id != "" then Some(clients[0].id)
    else PickClient(clients[1..], clientId)
  }

  /** The exchange answered its question. */
  predicate Answers(x: Exchange) {
    && HasBody(x)
    && match x.query
       case GetClients(id) => BodyOf(x).Clients? && PickClient(BodyOf(x).clients, id).Some?
       case GetUsers(_) => BodyOf(x).Users?
       case Evaluate(_, _, _, _) => BodyOf(x) == Status("PERMIT") || BodyOf(x) == Status("DENY")
       case GetResources(_, _) => BodyOf(x).Resources?
  }

  predicate NamesUser(x: Exchange, name: string, user: Option<string>) {
    HasBody(x) && x.query == GetUsers(name) && BodyOf(x).Users? && PickUser(BodyOf(x).users, name) == user
  }

  predicate Judges(x: Exchange, user: string, resource: string, scope: string, granted: bool) {
    && HasBody(x)
    && x.query.Evaluate? && x.query == Evaluate(x.query.uuid, user, resource, scope)
    && BodyOf(x) == Status(if granted then "PERMIT" else "DENY")
  }

  predicate Constrains(x: Exchange, resource: string, action: string, refs: seq<string>) {
    && HasBody(x)
    && x.query.GetResources? && x.query.resource == resource
    && BodyOf(x).Resources? && refs == RefsFor(BodyOf(x).resources, resource, action)
  }

  /** The exchange reports this policy faithfully, if it reports anything. */
  predicate Reports(x: Exchange, p: Policy) {
    Answers(x) ==>
      match x.query
      case GetClients(_) => true
      case GetUsers(name) => BodyOf(x).users == p.users(name)
      case Evaluate(_, user, resource, scope) => (BodyOf(x) == Status("PERMIT")) == p.grants(user, resource, scope)
      case GetResources(_, resource) => BodyOf(x).resources == p.resources(resource)
  }
}
