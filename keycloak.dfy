/** src/modules/auth/keycloak.service.ts: the admin calls to the identity
    provider. The provider is seen through the identities it holds and the
    requests it received; its replies are parameters. Each call is first
    given as a step function on that state, and the `Keycloak` class's
    methods are proved to perform exactly those steps. */
module KeycloakService {
  import opened Wrappers
  import opened Text

  datatype Credential = Credential(kind: string, value: string, temporary: bool)

  /** The JSON body of the user-creation request. */
  datatype NewUser = NewUser(
    username: string,
    email: string,
    firstName: string,
    lastName: string,
    enabled: bool,
    emailVerified: bool,
    requiredActions: seq<string>,
    credentials: seq<Credential>)

  /** The `data` argument of `createKeycloakUser`. */
  datatype Registration = Registration(email: string, password: string, firstName: Option<string>, lastName: Option<string>)

  /** A request the provider received. Paths are relative to the realm's
      admin endpoint, or name the realm's OpenID Connect endpoint. */
  datatype Call =
    | TokenRequest(grantType: string)
    | CreateRequest(bearer: string, body: NewUser)
    | UpdateRequest(bearer: string, path: string, emailVerified: bool, requiredActions: seq<string>)
    | DeleteRequest(bearer: string, path: string)
    | LoginRequest(username: string, password: string)
    | LogoutRequest(refreshToken: string)

  /** The provider's state: the identities it holds and the requests it
      received, oldest first. */
  datatype Remote = Remote(identities: set<string>, calls: seq<Call>)

  /** The reply to the creation request: its status and `Location` header
      (the provider sends the header with every 201). */
  datatype CreateReply = CreateReply(status: int, location: string)

  const CreationFailed := "Keycloak user creation failed"

  /** `users/{id}` under the admin endpoint. */
  function UserPath(id: string): (p: string)
    ensures StartsWith(p, "users/") && p[6..] == id
  {
    assert ("users/" + id)[..6] == "users/";
    "users/" + id
  }

  /** The creation payload: the email doubles as user name, absent names
      become empty, the identity is enabled and verified with nothing left to
      do, and it has one permanent password. */
  function CreatePayload(data: Registration): (u: NewUser)
    ensures u.username == data.email && u.email == data.email
    ensures u.firstName == data.firstName.GetOr("") && u.lastName == data.lastName.GetOr("")
    ensures u.enabled && u.emailVerified && u.requiredActions == []
    ensures u.credentials == [Credential("password", data.password, false)]
  {
    NewUser(data.email, data.email, data.firstName.GetOr(""), data.lastName.GetOr(""),
            true, true, [], [Credential("password", data.password, false)])
  }

  /** `getAdminToken`: a client-credentials token request; the reply is the
      access token or the transport error. */
  function TokenStep(remote: Remote, reply: Result<string, string>): (out: (Remote, Result<string, string>))
    ensures out.0 == Remote(remote.identities, remote.calls + [TokenRequest("client_credentials")])
    ensures out.1 == reply
  {
    (Remote(remote.identities, remote.calls + [TokenRequest("client_credentials")]), reply)
  }

  /** `createKeycloakUser`: the creation request; on a 201 the new identity,
      named by the last segment of `Location`, exists and one update marking
      it verified follows. */
  function CreateStep(remote: Remote, token: string, data: Registration,
                      reply: Result<CreateReply, string>, updateReply: Result<(), string>)
    : (out: (Remote, Result<string, string>))
    ensures out.0.calls == remote.calls + [CreateRequest(token, CreatePayload(data))]
                           + if reply.Ok? && reply.value.status == 201
                             then [UpdateRequest(token, UserPath(LastSegment(reply.value.location)), true, [])]
                             else []
    ensures !(reply.Ok? && reply.value.status == 201) ==>
              out.0.identities == remote.identities && out.1.Err?
    ensures reply.Ok? && reply.value.status != 201 ==> out.1 == Err(CreationFailed)
    ensures reply.Ok? && reply.value.status == 201 ==>
              var id := LastSegment(reply.value.location);
              && out.0.identities == remote.identities + {id}
              && out.1 == (if updateReply.Ok? then Ok(id) else Err(updateReply.error))
  {
    var posted := remote.calls + [CreateRequest(token, CreatePayload(data))];
    match reply
    case Err(e) => (Remote(remote.identities, posted), Err(e))
    case Ok(r) =>
      if r.status != 201 then (Remote(remote.identities, posted), Err(CreationFailed))
      else
        var id := LastSegment(r.location);
        var updated := Remote(remote.identities + {id}, posted + [UpdateRequest(token, UserPath(id), true, [])]);
        match updateReply
        case Err(e) => (updated, Err(e))
        case Ok(_) => (updated, Ok(id))
  }

  /** `deleteKeycloakUser`: one delete request for `users/{id}`; on success
      the identity is gone. */
  function DeleteStep(remote: Remote, token: string, id: string, reply: Result<(), string>)
    : (out: (Remote, Result<(), string>))
    ensures out.0.calls == remote.calls + [DeleteRequest(token, UserPath(id))]
    ensures out.0.identities == if reply.Ok? then remote.identities - {id} else remote.identities
    ensures out.1 == reply
  {
    var calls := remote.calls + [DeleteRequest(token, UserPath(id))];
    if reply.Ok? then (Remote(remote.identities - {id}, calls), reply)
    else (Remote(remote.identities, calls), reply)
  }

  /** The id read off a `Location` of the form `<collection>/<id>` is the id,
      so the follow-up update and any later delete address the identity just
      created. */
  lemma LocationNamesIdentity(collection: string, id: string)
    requires forall i :: 0 <= i < |id| ==> id[i] != '/'
    ensures LastSegment(collection + "/" + id) == id
  {
    LastSegmentOfJoin(collection, id);
  }

  /** A `Location` ending in `/` yields the empty id. */
  lemma TrailingSlashLocation(location: string)
    ensures LastSegment(location + "/") == ""
  {
  }

  /** Creating and then deleting a fresh identity leaves the provider's
      identities as they were. */
  lemma CreateThenDelete(remote: Remote, token: string, data: Registration, location: string,
                         updateReply: Result<(), string>)
    requires LastSegment(location) !in remote.identities
    ensures var after := CreateStep(remote, token, data, Ok(CreateReply(201, location)), updateReply).0;
      DeleteStep(after, token, LastSegment(location), Ok(())).0.identities == remote.identities
  {
  }

  /** The identity provider as the service sees it. */
  class Keycloak {
    var identities: set<string>
    var calls: seq<Call>

    function State(): Remote
      reads this
    {
      Remote(identities, calls)
    }

    constructor (identities: set<string>)
      ensures State() == Remote(identities, [])
    {
      this.identities := identities;
      calls := [];
    }

    method GetAdminToken(reply: Result<string, string>) returns (r: Result<string, string>)
      modifies this
      ensures (State(), r) == TokenStep(old(State()), reply)
    {
      calls := calls + [TokenRequest("client_credentials")];
      r := reply;
    }

    method CreateUser(token: string, data: Registration, reply: Result<CreateReply, string>,
                      updateReply: Result<(), string>) returns (r: Result<string, string>)
      modifies this
      ensures (State(), r) == CreateStep(old(State()), token, data, reply, updateReply)
    {
      calls := calls + [CreateRequest(token, CreatePayload(data))];
      if reply.Err? {
        return Err(reply.error);
      }
      if reply.value.status != 201 {
        return Err(CreationFailed);
      }
      var id := LastSegment(reply.value.location);
      identities := identities + {id};
      calls := calls + [UpdateRequest(token, UserPath(id), true, [])];
      if updateReply.Err? {
        return Err(updateReply.error);
      }
      r := Ok(id);
    }

    method DeleteUser(token: string, id: string, reply: Result<(), string>) returns (r: Result<(), string>)
      modifies this
      ensures (State(), r) == DeleteStep(old(State()), token, id, reply)
    {
      calls := calls + [DeleteRequest(token, UserPath(id))];
      if reply.Ok? {
        identities := identities - {id};
      }
      r := reply;
    }
  }
}
