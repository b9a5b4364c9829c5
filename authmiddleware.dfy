/** src/middlewares/auth.middleware.ts: the bearer-token gate in front of the
    protected routes. The `Authorization` header is sorted into absent or
    malformed, empty token, or a token to verify; verification is the
    parameter `verify` (the JWKS check of src/utils/auth.ts is not part of
    this model). `Exchange` holds what the middleware can change: the
    request's `user`, the response sent, the calls of `next` and the tokens
    handed to the verifier. */
module AuthMiddleware {
  import opened Wrappers
  import opened Text
  import opened ErrorMiddleware

  const BearerPrefix := "Bearer "

  /** The claims of a verified token. */
  type Payload = map<string, string>

  /** How the header is sorted. */
  datatype Admission = Rejected | EmptyToken | Token(token: string)

  /** The header check and the token extraction
      `authHeader.replace('Bearer ', '')`. */
  function Classify(header: Option<string>): (a: Admission)
    ensures a == Rejected <==> header.None? || !StartsWith(header.value, BearerPrefix)
    ensures a == EmptyToken <==> header == Some(BearerPrefix)
    ensures a.Token? ==> a.token != "" && header == Some(BearerPrefix + a.token)
  {
    assert BearerPrefix[..|BearerPrefix|] == BearerPrefix;
    if header.None? || header.value == "" || !StartsWith(header.value, BearerPrefix) then Rejected
    else
      var h := header.value;
      var token := ReplaceFirst(h, BearerPrefix, "");
      assert token == h[|BearerPrefix|..] by {
        ReplaceFirstOfPrefix(h, BearerPrefix, "");
        assert "" + h[|BearerPrefix|..] == h[|BearerPrefix|..];
      }
      assert h == BearerPrefix + token;
      assert token == "" <==> h == BearerPrefix by {
        assert BearerPrefix + "" == BearerPrefix;
        assert |BearerPrefix| == 7;
      }
      if token == "" then EmptyToken else Token(token)
  }

  /** The token handed to the verifier is the header without its first seven
      characters. */
  lemma TokenIsRest(header: string)
    requires StartsWith(header, BearerPrefix) && |header| > 7
    ensures Classify(Some(header)) == Token(header[7..])
  {
    assert header == BearerPrefix + header[7..];
  }

  /** What the middleware's promise resolves to; Express ignores it. */
  datatype Returned = ReturnedError(error: AppError) | ReturnedResponse | ReturnedNothing

  /** Everything one run of the middleware does: the token it verifies, the
      `req.user` it sets, the response it sends, the argument of its `next`
      call (`Some(None)` for `next()`), and what it returns. */
  datatype Effect = Effect(
    verified: Option<string>,
    user: Option<Payload>,
    response: Option<Response>,
    next: Option<Option<AppError>>,
    returned: Returned)

  const UnauthorizedResponse := Response(401, Body("Unauthorized", None, None))

  /** The middleware as written: rejections are returned, not thrown. */
  function AsWritten(header: Option<string>, verify: string -> Result<Payload, string>): (e: Effect)
    ensures Classify(header) == Rejected ==>
              e == Effect(None, None, None, None, ReturnedError(AppError("Unauthorized", 401)))
    ensures Classify(header) == EmptyToken ==>
              e == Effect(None, None, Some(UnauthorizedResponse), None, ReturnedResponse)
    ensures Classify(header).Token? ==> e.verified == Some(Classify(header).token) && e.response.None?
    ensures Classify(header).Token? && verify(Classify(header).token).Ok? ==>
              e.user == Some(verify(Classify(header).token).value) && e.next == Some(None)
    ensures Classify(header).Token? && verify(Classify(header).token).Err? ==>
              e.user.None? && e.next.None? && e.returned == ReturnedError(AppError("Invalid token", 401))
  {
    match Classify(header)
    case Rejected => Effect(None, None, None, None, ReturnedError(AppError("Unauthorized", 401)))
    case EmptyToken => Effect(None, None, Some(UnauthorizedResponse), None, ReturnedResponse)
    case Token(t) =>
      match verify(t)
      case Ok(payload) => Effect(Some(t), Some(payload), None, Some(None), ReturnedNothing)
      case Err(_) => Effect(Some(t), None, None, None, ReturnedError(AppError("Invalid token", 401)))
  }

  /** The middleware as evidently intended: both rejections are passed on to
      the error handler with `next(error)`. */
  function Intended(header: Option<string>, verify: string -> Result<Payload, string>): (e: Effect)
    ensures Classify(header) == Rejected ==>
              e == Effect(None, None, None, Some(Some(AppError("Unauthorized", 401))), ReturnedNothing)
    ensures Classify(header).Token? && verify(Classify(header).token).Err? ==>
              e.verified == Some(Classify(header).token)
              && e.next == Some(Some(AppError("Invalid token", 401))) && e.user.None?
    ensures Classify(header) == EmptyToken || (Classify(header).Token? && verify(Classify(header).token).Ok?) ==>
              e == AsWritten(header, verify)
  {
    match Classify(header)
    case Rejected => Effect(None, None, None, Some(Some(AppError("Unauthorized", 401))), ReturnedNothing)
    case EmptyToken => Effect(None, None, Some(UnauthorizedResponse), None, ReturnedResponse)
    case Token(t) =>
      match verify(t)
      case Ok(payload) => Effect(Some(t), Some(payload), None, Some(None), ReturnedNothing)
      case Err(_) => Effect(Some(t), None, None, Some(Some(AppError("Invalid token", 401))), ReturnedNothing)
  }

  /** A request is finished with, for this middleware, once it has sent a
      response or handed control on with `next`. */
  predicate Completes(e: Effect) {
    e.response.Some? || e.next.Some?
  }

  /** As written, a request without an `Authorization` header gets neither
      a response nor a `next` call: it is left open, although the code
      builds a 401 `AppError` for it. */
  lemma AsWrittenLeavesRequestOpen(verify: string -> Result<Payload, string>)
    ensures !Completes(AsWritten(None, verify))
    ensures AsWritten(None, verify).returned == ReturnedError(AppError("Unauthorized", 401))
  {
  }

  /** So is a request whose token the verifier rejects. */
  lemma AsWrittenInvalidTokenOpen(header: string, verify: string -> Result<Payload, string>)
    requires StartsWith(header, BearerPrefix) && |header| > 7 && verify(header[7..]).Err?
    ensures !Completes(AsWritten(Some(header), verify))
  {
    TokenIsRest(header);
  }

  /** As intended, every request completes, and every rejection reaches the
      client as a 401 carrying the rejection's message. */
  lemma IntendedAlwaysCompletes(header: Option<string>, verify: string -> Result<Payload, string>, nodeEnv: Option<string>)
    ensures Completes(Intended(header, verify))
    ensures var e := Intended(header, verify);
      e.next.Some? && e.next.value.Some? ==>
        ErrorResponse(App(e.next.value.value), nodeEnv).status == 401
        && ErrorResponse(App(e.next.value.value), nodeEnv).body.message
           == (if Classify(header) == Rejected then "Unauthorized" else "Invalid token")
  {
  }

  /** The request and response state the middleware touches. */
  class Exchange {
    const authorization: Option<string>
    var user: Option<Payload>
    var sent: Option<Response>
    var nextCalls: seq<Option<AppError>>
    var verifierCalls: seq<string>

    constructor (authorization: Option<string>)
      ensures this.authorization == authorization
      ensures user.None? && sent.None? && nextCalls == [] && verifierCalls == []
    {
      this.authorization := authorization;
      user := None;
      sent := None;
      nextCalls := [];
      verifierCalls := [];
    }

    /** `authMiddleware(req, res, next)` as written. */
    method Handle(verify: string -> Result<Payload, string>) returns (ret: Returned)
      modifies this
      ensures var e := AsWritten(authorization, verify);
        && ret == e.returned
        && verifierCalls == old(verifierCalls) + (if e.verified.Some? then [e.verified.value] else [])
        && user == (if e.user.Some? then e.user else old(user))
        && sent == (if e.response.Some? then e.response else old(sent))
        && nextCalls == old(nextCalls) + (if e.next.Some? then [e.next.value] else [])
    {
      var header := authorization;
      if header.None? || header.value == "" || !StartsWith(header.value, BearerPrefix) {
        return ReturnedError(AppError("Unauthorized", 401));
      }
      var token := ReplaceFirst(header.value, BearerPrefix, "");
      if token == "" {
        sent := Some(UnauthorizedResponse);
        return ReturnedResponse;
      }
      verifierCalls := verifierCalls + [token];
      var outcome := verify(token);
      if outcome.Err? {
        return ReturnedError(AppError("Invalid token", 401));
      }
      user := Some(outcome.value);
      nextCalls := nextCalls + [None];
      ret := ReturnedNothing;
    }

    /** The corrected middleware: rejections go to `next(error)`. */
    method HandleIntended(verify: string -> Result<Payload, string>) returns (ret: Returned)
      modifies this
      ensures var e := Intended(authorization, verify);
        && ret == e.returned
        && verifierCalls == old(verifierCalls) + (if e.verified.Some? then [e.verified.value] else [])
        && user == (if e.user.Some? then e.user else old(user))
        && sent == (if e.response.Some? then e.response else old(sent))
        && nextCalls == old(nextCalls) + (if e.next.Some? then [e.next.value] else [])
    {
      var header := authorization;
      if header.None? || header.value == "" || !StartsWith(header.value, BearerPrefix) {
        nextCalls := nextCalls + [Some(AppError("Unauthorized", 401))];
        return ReturnedNothing;
      }
      var token := ReplaceFirst(header.value, BearerPrefix, "");
      if token == "" {
        sent := Some(UnauthorizedResponse);
        return ReturnedResponse;
      }
      verifierCalls := verifierCalls + [token];
      var outcome := verify(token);
      if outcome.Err? {
        nextCalls := nextCalls + [Some(AppError("Invalid token", 401))];
        return ReturnedNothing;
      }
      user := Some(outcome.value);
      nextCalls := nextCalls + [None];
      ret := ReturnedNothing;
    }
  }
}
