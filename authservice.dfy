/** src/modules/auth/auth.service.ts: registration across the identity
    provider and the local user table, with a compensating delete when the
    local write fails, and the result mapping of login and logout. The
    provider's and the local store's replies are parameters. `RegisterStep`
    states the whole registration on values; `AuthService.Register` performs
    it on the stores and is proved to match it. */
module AuthService {
  import opened Wrappers
  import opened Text
  import opened KeycloakService

  /** The local user row `register` writes. */
  datatype LocalUser = LocalUser(keycloakId: string, email: string, userType: string)

  /** The `dto` of `register`: the request body, passed on whole. Its type
      names only email, password and user type, but the names the body
      carries travel with it to the provider. */
  datatype RegisterInput = RegisterInput(email: string, password: string, userType: string,
                                         firstName: Option<string>, lastName: Option<string>)

  /** What the collaborators answer during one registration, in call order:
      the admin token, the creation request, the verification update, the
      local write and, if it happens, the compensating delete. */
  datatype RegisterReplies = RegisterReplies(
    token: Result<string, string>,
    create: Result<CreateReply, string>,
    update: Result<(), string>,
    write: Result<(), string>,
    delete: Result<(), string>)

  /** The registration data handed to the provider: the dto itself. */
  function ProviderData(dto: RegisterInput): Registration {
    Registration(dto.email, dto.password, dto.firstName, dto.lastName)
  }

  /** `register`: token, remote identity, then the local row; if the row
      cannot be written the remote identity is deleted and the write's error
      rethrown, unless the delete fails, whose error then propagates. */
  function RegisterStep(remote: Remote, records: seq<LocalUser>, dto: RegisterInput, replies: RegisterReplies)
    : (Remote, seq<LocalUser>, Result<LocalUser, string>)
  {
    var (r1, token) := TokenStep(remote, replies.token);
    if token.Err? then (r1, records, Err(token.error))
    else
      var (r2, created) := CreateStep(r1, token.value, ProviderData(dto), replies.create, replies.update);
      if created.Err? then (r2, records, Err(created.error))
      else
        var user := LocalUser(created.value, dto.email, dto.userType);
        if replies.write.Ok? then (r2, records + [user], Ok(user))
        else
          var (r3, deleted) := DeleteStep(r2, token.value, created.value, replies.delete);
          (r3, records, if deleted.Err? then Err(deleted.error) else Err(replies.write.error))
  }

  /** The requests a registration sends before the local write. */
  function RemotePrefix(remote: Remote, token: string, dto: RegisterInput, location: string): seq<Call> {
    remote.calls + [TokenRequest("client_credentials"), CreateRequest(token, CreatePayload(ProviderData(dto))),
                    UpdateRequest(token, UserPath(LastSegment(location)), true, [])]
  }

  /** No local row without a remote identity first: if the admin token or
      the remote creation fails, the local table is untouched and no delete
      is sent. */
  lemma RemoteFailureLeavesLocal(remote: Remote, records: seq<LocalUser>, dto: RegisterInput, replies: RegisterReplies)
    requires replies.token.Err? || replies.create.Err? || replies.create.value.status != 201 || replies.update.Err?
    ensures var (after, rows, result) := RegisterStep(remote, records, dto, replies);
      && rows == records && result.Err?
      && after.identities == (if replies.token.Ok? && replies.create.Ok? && replies.create.value.status == 201
                             then remote.identities + {LastSegment(replies.create.value.location)}
                             else remote.identities)
      && forall i :: |remote.calls| <= i < |after.calls| ==> !after.calls[i].DeleteRequest?
  {
    var (r1, token) := TokenStep(remote, replies.token);
    if token.Ok? {
      var (r2, created) := CreateStep(r1, token.value, ProviderData(dto), replies.create, replies.update);
      var sent := [TokenRequest("client_credentials"), CreateRequest(token.value, CreatePayload(ProviderData(dto)))];
      if replies.create.Ok? && replies.create.value.status == 201 {
        var id := LastSegment(replies.create.value.location);
        assert r2.calls == remote.calls + (sent + [UpdateRequest(token.value, UserPath(id), true, [])]);
      } else {
        assert r2.calls == remote.calls + sent;
      }
    }
  }

  /** After a granted token and a 201, the provider holds the new identity
      and has seen exactly the three requests before the local write. */
  lemma CreatedRemotely(remote: Remote, dto: RegisterInput, replies: RegisterReplies)
    requires replies.token.Ok? && replies.create.Ok? && replies.create.value.status == 201
    ensures var token := replies.token.value;
      var r2 := CreateStep(TokenStep(remote, replies.token).0, token, ProviderData(dto), replies.create, replies.update).0;
      && r2.calls == RemotePrefix(remote, token, dto, replies.create.value.location)
      && r2.identities == remote.identities + {LastSegment(replies.create.value.location)}
  {
    var token := replies.token.value;
    var r1 := TokenStep(remote, replies.token).0;
    var r2 := CreateStep(r1, token, ProviderData(dto), replies.create, replies.update).0;
    assert r2.calls == r1.calls + [CreateRequest(token, CreatePayload(ProviderData(dto)))]
                                 + [UpdateRequest(token, UserPath(LastSegment(replies.create.value.location)), true, [])];
  }

  /** A successful registration writes exactly one row, linked to the
      identity just created and holding the dto's email and user type, after
      all remote requests, and sends no delete. */
  lemma RegisterSuccess(remote: Remote, records: seq<LocalUser>, dto: RegisterInput, replies: RegisterReplies)
    requires replies.token.Ok? && replies.create.Ok? && replies.create.value.status == 201
    requires replies.update.Ok? && replies.write.Ok?
    ensures var (after, rows, result) := RegisterStep(remote, records, dto, replies);
      var id := LastSegment(replies.create.value.location);
      && result == Ok(LocalUser(id, dto.email, dto.userType))
      && rows == records + [result.value]
      && after.identities == remote.identities + {id}
      && after.calls == RemotePrefix(remote, replies.token.value, dto, replies.create.value.location)
      && after.calls[|remote.calls| + 1].body.firstName == dto.firstName.GetOr("")
      && after.calls[|remote.calls| + 1].body.lastName == dto.lastName.GetOr("")
  {
    CreatedRemotely(remote, dto, replies);
  }

  /** When the local write fails, exactly one delete follows, for the
      identity just created and with the same admin token; with no failure
      of its own it removes that identity, so a fresh identity leaves the
      provider as it was, and the write's error is rethrown. A failing
      delete's error replaces the write's. */
  lemma RegisterCompensates(remote: Remote, records: seq<LocalUser>, dto: RegisterInput, replies: RegisterReplies)
    requires replies.token.Ok? && replies.create.Ok? && replies.create.value.status == 201
    requires replies.update.Ok? && replies.write.Err?
    ensures var (after, rows, result) := RegisterStep(remote, records, dto, replies);
      var id := LastSegment(replies.create.value.location);
      && rows == records
      && after.calls == RemotePrefix(remote, replies.token.value, dto, replies.create.value.location)
                        + [DeleteRequest(replies.token.value, UserPath(id))]
      && (replies.delete.Ok? ==> result == Err(replies.write.error) && after.identities == remote.identities - {id})
      && (replies.delete.Ok? && id !in remote.identities ==> after.identities == remote.identities)
      && (replies.delete.Err? ==> result == Err(replies.delete.error) && after.identities == remote.identities + {id})
  {
    CreatedRemotely(remote, dto, replies);
  }

  /** Every identity of the provider has a local row, and every local row
      names an identity of the provider. */
  predicate Linked(identities: set<string>, records: seq<LocalUser>) {
    && (forall id :: id in identities ==> exists i :: 0 <= i < |records| && records[i].keycloakId == id)
    && (forall i :: 0 <= i < |records| ==> records[i].keycloakId in identities)
  }

  /** Registration keeps the stores linked unless the verification update
      or the compensating delete fails; in those two cases the new identity
      has no row. */
  lemma RegisterKeepsLinked(remote: Remote, records: seq<LocalUser>, dto: RegisterInput, replies: RegisterReplies)
    requires Linked(remote.identities, records)
    requires replies.create.Ok? && replies.create.value.status == 201 ==>
               LastSegment(replies.create.value.location) !in remote.identities
    ensures var (after, rows, _) := RegisterStep(remote, records, dto, replies);
      Linked(after.identities, rows) <==>
        !(replies.token.Ok? && replies.create.Ok? && replies.create.value.status == 201
          && (replies.update.Err? || (replies.write.Err? && replies.delete.Err?)))
  {
    if replies.token.Ok? && replies.create.Ok? && replies.create.value.status == 201 {
      var id := LastSegment(replies.create.value.location);
      var (after, rows, _) := RegisterStep(remote, records, dto, replies);
      if replies.update.Err? {
        RemoteFailureLeavesLocal(remote, records, dto, replies);
        OrphanUnlinked(remote.identities, records, id);
      } else if replies.write.Ok? {
        RegisterSuccess(remote, records, dto, replies);
        LinkedAppend(remote.identities, records, LocalUser(id, dto.email, dto.userType));
      } else {
        RegisterCompensates(remote, records, dto, replies);
        if replies.delete.Err? {
          OrphanUnlinked(remote.identities, records, id);
        }
      }
    } else {
      RemoteFailureLeavesLocal(remote, records, dto, replies);
    }
  }

  /** A row for a new identity, added with it, keeps the stores linked. */
  lemma LinkedAppend(identities: set<string>, records: seq<LocalUser>, user: LocalUser)
    requires Linked(identities, records)
    ensures Linked(identities + {user.keycloakId}, records + [user])
  {
    var rows := records + [user];
    assert rows[|records|].keycloakId == user.keycloakId;
    forall x | x in identities + {user.keycloakId}
      ensures exists i :: 0 <= i < |rows| && rows[i].keycloakId == x
    {
      if x != user.keycloakId {
        var i :| 0 <= i < |records| && records[i].keycloakId == x;
        assert rows[i] == records[i];
      }
    }
  }

  /** A new identity without a row breaks the link. */
  lemma OrphanUnlinked(identities: set<string>, records: seq<LocalUser>, id: string)
    requires Linked(identities, records) && id !in identities
    ensures !Linked(identities + {id}, records)
  {
  }

  /** The tokens `login` returns, renamed from the provider's reply. */
  datatype TokenReply = TokenReply(access_token: string, refresh_token: string, expires_in: int)
  datatype Tokens = Tokens(accessToken: string, refreshToken: string, expiresIn: int)

  const InvalidCredentials := "Invalid credentials"
  const LogoutFailed := "Logout failed"

  /** `login`: a password-grant token request; any failure is reported as
      invalid credentials. */
  function LoginStep(remote: Remote, email: string, password: string, reply: Result<TokenReply, string>)
    : (out: (Remote, Result<Tokens, string>))
    ensures out.0 == Remote(remote.identities, remote.calls + [LoginRequest(email, password)])
    ensures out.1.Ok? <==> reply.Ok?
    ensures reply.Ok? ==> out.1.value.accessToken == reply.value.access_token
                          && out.1.value.refreshToken == reply.value.refresh_token
                          && out.1.value.expiresIn == reply.value.expires_in
    ensures reply.Err? ==> out.1 == Err(InvalidCredentials)
  {
    var after := Remote(remote.identities, remote.calls + [LoginRequest(email, password)]);
    match reply
    case Ok(t) => (after, Ok(Tokens(t.access_token, t.refresh_token, t.expires_in)))
    case Err(_) => (after, Err(InvalidCredentials))
  }

  /** `logout`: revokes the refresh token; `true` or a fixed error. */
  function LogoutStep(remote: Remote, refreshToken: string, reply: Result<(), string>)
    : (out: (Remote, Result<bool, string>))
    ensures out.0 == Remote(remote.identities, remote.calls + [LogoutRequest(refreshToken)])
    ensures out.1 == if reply.Ok? then Ok(true) else Err(LogoutFailed)
  {
    (Remote(remote.identities, remote.calls + [LogoutRequest(refreshToken)]),
     if reply.Ok? then Ok(true) else Err(LogoutFailed))
  }

  /** The service over its two stores: the provider and the local table. */
  class Service {
    const provider: Keycloak
    var records: seq<LocalUser>

    constructor (provider: Keycloak, records: seq<LocalUser>)
      ensures this.provider == provider && this.records == records
    {
      this.provider := provider;
      this.records := records;
    }

    method Register(dto: RegisterInput, replies: RegisterReplies) returns (r: Result<LocalUser, string>)
      modifies this, provider
      ensures (provider.State(), records, r) == RegisterStep(old(provider.State()), old(records), dto, replies)
    {
      var token := provider.GetAdminToken(replies.token);
      if token.Err? {
        return Err(token.error);
      }
      var created := provider.CreateUser(token.value, ProviderData(dto), replies.create, replies.update);
      if created.Err? {
        return Err(created.error);
      }
      var user := LocalUser(created.value, dto.email, dto.userType);
      if replies.write.Ok? {
        records := records + [user];
        return Ok(user);
      }
      var deleted := provider.DeleteUser(token.value, created.value, replies.delete);
      if deleted.Err? {
        return Err(deleted.error);
      }
      r := Err(replies.write.error);
    }

    method Login(email: string, password: string, reply: Result<TokenReply, string>) returns (r: Result<Tokens, string>)
      modifies provider
      ensures (provider.State(), r) == LoginStep(old(provider.State()), email, password, reply)
    {
      provider.calls := provider.calls + [LoginRequest(email, password)];
      if reply.Err? {
        return Err(InvalidCredentials);
      }
      r := Ok(Tokens(reply.value.access_token, reply.value.refresh_token, reply.value.expires_in));
    }

    method Logout(refreshToken: string, reply: Result<(), string>) returns (r: Result<bool, string>)
      modifies provider
      ensures (provider.State(), r) == LogoutStep(old(provider.State()), refreshToken, reply)
    {
      provider.calls := provider.calls + [LogoutRequest(refreshToken)];
      if reply.Err? {
        return Err(LogoutFailed);
      }
      r := Ok(true);
    }
  }
}
