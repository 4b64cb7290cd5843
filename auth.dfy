/** The bearer-token guard in front of the interview routes. The token is
    taken from the `Authorization` header as in section 2.1 of RFC 6750, but
    the `Bearer ` prefix is matched case-sensitively, and a header without it
    is taken as the bare token. Signature checking (RFC 7519) is a foreign
    call and is passed in as `verify`. */
module Auth {
  import opened Js
  import opened Http

  /** What `jwt.verify` hands its callback: an error or the decoded claims. */
  datatype Verified = VerifyError(message: string) | Decoded(claims: Json)

  datatype AuthResult = Rejected(reply: Reply) | Passed(userId: Json, email: Json)

  const Prefix: string := "Bearer "

  predicate StartsWith(s: string, prefix: string) {
    |prefix| <= |s| && s[..|prefix|] == prefix
  }

  /** The token of an `Authorization` header: the text after the `Bearer `
      prefix when the header has it, otherwise the whole header. */
  function ExtractToken(header: string): string {
    if StartsWith(header, Prefix) then header[7..] else header
  }

  /** The signing secret: the configured one when it is set and non-empty,
      otherwise the built-in fallback. */
  function Secret(env: Option<string>): string {
    if env.Some? && env.value != "" then env.value else "your-secret-key"
  }

  function Unauthorized(message: string): Reply {
    Reply(401, Obj([("message", Str(message))]))
  }

  /** The guard as one decision: the 401 it answers with, or the user it lets
      through. */
  function Authenticate(header: Option<string>, env: Option<string>, verify: (string, string) -> Verified): AuthResult {
    if header.None? || header.value == "" then Rejected(Unauthorized("No token provided"))
    else
      match verify(ExtractToken(header.value), Secret(env))
      case VerifyError(message) =>
        Rejected(Reply(401, Obj([("message", Str("Invalid token")), ("error", Str(message))])))
      case Decoded(claims) =>
        if !Truthy(OptGet(claims, "userId")) then Rejected(Unauthorized("Invalid token - no userId"))
        else Passed(Get(claims, "userId"), Get(claims, "email"))
  }

  /** The request object the middleware annotates, and whether it handed on
      to the next handler. */
  class Request {
    var userId: Json
    var userEmail: Json
    var nextCalled: bool

    constructor()
      ensures userId == Undefined && userEmail == Undefined && !nextCalled
    {
      userId := Undefined;
      userEmail := Undefined;
      nextCalled := false;
    }
  }

  /** `authMiddleware(req, res, next)`: answers a 401, or records the user
      on the request and calls `next`. */
  method AuthMiddleware(req: Request, header: Option<string>, env: Option<string>, verify: (string, string) -> Verified)
    returns (reply: Option<Reply>)
    modifies req
    ensures Authenticate(header, env, verify).Rejected? ==>
      reply == Some(Authenticate(header, env, verify).reply) && req.nextCalled == old(req.nextCalled)
      && req.userId == old(req.userId) && req.userEmail == old(req.userEmail)
    ensures Authenticate(header, env, verify).Passed? ==>
      reply.None? && req.nextCalled
      && req.userId == Authenticate(header, env, verify).userId
      && req.userEmail == Authenticate(header, env, verify).email
    ensures !old(req.nextCalled) ==> (req.nextCalled <==> Authenticate(header, env, verify).Passed?)
  {
    if header.None? || header.value == "" {
      return Some(Unauthorized("No token provided"));
    }
    var token := ExtractToken(header.value);
    var result := verify(token, Secret(env));
    if result.VerifyError? {
      return Some(Reply(401, Obj([("message", Str("Invalid token")), ("error", Str(result.message))])));
    }
    var decoded := result.claims;
    if !Truthy(OptGet(decoded, "userId")) {
      return Some(Unauthorized("Invalid token - no userId"));
    }
    req.userId := Get(decoded, "userId");
    req.userEmail := Get(decoded, "email");
    req.nextCalled := true;
    reply := None;
  }

  /** From `Bearer <t>` exactly the seven prefix characters are removed,
      once: the token is `t`, even if `t` itself starts with `Bearer `. */
  lemma BearerStripped(t: string)
    ensures ExtractToken(Prefix + t) == t
  {
    assert (Prefix + t)[..|Prefix|] == Prefix;
  }

  /** A header without the exact prefix is the token itself; the match is
      case-sensitive, so `bearer x` is passed on whole. */
  lemma RawHeaderVerbatim(header: string)
    requires !StartsWith(header, Prefix)
    ensures ExtractToken(header) == header
    ensures ExtractToken("bearer x") == "bearer x"
  {
    assert "bearer x"[..7] != Prefix by {
      assert "bearer x"[0] != Prefix[0];
    }
  }

  /** Without a header the answer is 401 `No token provided`, whatever the
      verifier would say. */
  lemma MissingHeaderRejected(header: Option<string>, env: Option<string>, verify: (string, string) -> Verified,
                              other: (string, string) -> Verified)
    requires header.None? || header.value == ""
    ensures Authenticate(header, env, verify) == Rejected(Unauthorized("No token provided"))
    ensures Authenticate(header, env, verify) == Authenticate(header, env, other)
  {
  }

  /** The request passes exactly when a header is present, the token
      verifies, and the claims carry a truthy `userId`; the user id and
      e-mail are then those of the claims. A verification error and claims
      without a user id both answer 401. */
  lemma PassesIff(header: Option<string>, env: Option<string>, verify: (string, string) -> Verified)
    ensures var r := Authenticate(header, env, verify);
      && (r.Passed? <==>
            && header.Some? && header.value != ""
            && verify(ExtractToken(header.value), Secret(env)).Decoded?
            && Truthy(OptGet(verify(ExtractToken(header.value), Secret(env)).claims, "userId")))
      && (r.Passed? ==>
            var claims := verify(ExtractToken(header.value), Secret(env)).claims;
            r.userId == OptGet(claims, "userId") && r.email == OptGet(claims, "email"))
      && (r.Rejected? ==> r.reply.status == 401)
  {
  }
}
