/** The two middlewares of index.js, `verifyToken` (lines 45-58) and `verifyAdmin`
    (lines 60-69), and their composition into the ordered guard list a route declares. */
module Guards {
  import opened Wrappers
  import opened Header
  import opened Tokens
  import opened Store

  const Unauthorized: nat := 401
  const Forbidden: nat := 403
  const UnauthorizedMessage: string := "unauthorized access"
  const ForbiddenMessage: string := "forbidden access"
  const AdminRole: string := "admin"

  /** The parts of a request the guards read and write: the `Authorization` header and
      `req.decoded`, which `verifyToken` sets. */
  datatype Request = Request(authorization: Option<string>, decoded: Option<Claims>)

  /** A terminal answer: status code and `{message}` body. */
  datatype Denial = Denial(status: nat, message: string)

  const NotAuthenticated: Denial := Denial(Unauthorized, UnauthorizedMessage)
  const NotAllowed: Denial := Denial(Forbidden, ForbiddenMessage)

  /** What one middleware does: call `next()` with the (possibly enriched) request, end the
      request with a denial, or get stuck: `verifyAdmin` reading `req.decoded.email` when
      `req.decoded` is unset throws inside an async handler, which Express 4 never answers. */
  datatype Step = Next(request: Request) | Halt(denial: Denial) | Stuck

  /** Process configuration and the clock: the token library, the signing secret and the
      current time in seconds. */
  datatype Keys = Keys(codec: Codec, secret: string, now: int)

  /** `!req.headers.authorization`: the header is absent or empty. */
  predicate NoHeader(h: Option<string>)
  {
    h.None? || h.value == ""
  }

  /** The claims `verifyToken` decodes from the request, or `None` when it answers 401. */
  function Authenticate(req: Request, keys: Keys): Option<Claims>
  {
    if NoHeader(req.authorization) then None
    else match Verify(keys.codec, BearerToken(req.authorization.value), keys.secret, keys.now)
      case Verified(claims) => Some(claims)
      case Rejected(_) => None
  }

  /** `verifyToken`: 401 unless the token verifies; otherwise `req.decoded` is set to its claims. */
  function VerifyToken(req: Request, keys: Keys): (r: Step)
    ensures !r.Stuck?
    ensures r.Halt? ==> r.denial == NotAuthenticated
    ensures r.Next? ==> r.request.authorization == req.authorization && r.request.decoded.Some?
  {
    match Authenticate(req, keys)
    case None => Halt(NotAuthenticated)
    case Some(claims) => Next(req.(decoded := Some(claims)))
  }

  /** `verifyAdmin`: continues, with the request untouched, iff the first users record with
      the decoded email has role "admin"; otherwise 403. */
  function VerifyAdmin(req: Request, users: seq<Record>): (r: Step)
    ensures r.Stuck? <==> req.decoded.None?
    ensures r.Halt? ==> r.denial == NotAllowed
    ensures r.Next? ==> r.request == req
    ensures r.Next? <==> (req.decoded.Some? &&
      exists i :: 0 <= i < |users| && users[i].email == req.decoded.value.email
                  && users[i].role == Some(AdminRole)
                  && forall j :: 0 <= j < i ==> users[j].email != req.decoded.value.email)
  {
    if req.decoded.None? then Stuck
    else
      HasRoleMeans(users, req.decoded.value.email, AdminRole);
      if HasRole(users, req.decoded.value.email, AdminRole) then Next(req) else Halt(NotAllowed)
  }

  /** An authenticated request whose token's email belongs to an admin in `users`. */
  predicate AdminRequest(req: Request, keys: Keys, users: seq<Record>)
  {
    Authenticate(req, keys).Some? && HasRole(users, Authenticate(req, keys).value.email, AdminRole)
  }

  /** Missing header: 401, and nothing after the guard runs. */
  lemma NoHeaderRejected(req: Request, keys: Keys)
    requires NoHeader(req.authorization)
    ensures VerifyToken(req, keys) == Halt(NotAuthenticated)
  {
  }

  /** A header with no second field, or whose second field does not verify, gets 401. */
  lemma BadTokenRejected(req: Request, keys: Keys)
    requires !NoHeader(req.authorization)
    requires Verify(keys.codec, BearerToken(req.authorization.value), keys.secret, keys.now).Rejected?
    ensures VerifyToken(req, keys) == Halt(NotAuthenticated)
  {
  }

  /** A header without a space carries no token at all and is refused. */
  lemma NoSpaceRejected(req: Request, keys: Keys)
    requires !NoHeader(req.authorization) && Space !in req.authorization.value
    ensures VerifyToken(req, keys) == Halt(NotAuthenticated)
  {
  }

  /** `"<scheme> <token>"` with a token issued by `POST /jwt` is admitted, with the signed
      body as `req.decoded`, for one hour after issuance, and refused with 401 afterwards.
      The scheme word is arbitrary. */
  lemma {:induction false} IssuedTokenAdmitted(keys: Keys, body: Claims, issuedAt: int, scheme: string, decoded: Option<Claims>)
    requires Faithful(keys.codec) && Space !in scheme
    ensures
      var header := scheme + [Space] + keys.codec.encode(Sign(body, keys.secret, issuedAt));
      VerifyToken(Request(Some(header), decoded), keys)
        == if keys.now < issuedAt + Lifetime then Next(Request(Some(header), Some(body)))
           else Halt(NotAuthenticated)
  {
    var token := keys.codec.encode(Sign(body, keys.secret, issuedAt));
    assert Space !in token && token != [];
    BearerHeader(scheme, token);
    IssueThenVerify(keys.codec, body, keys.secret, issuedAt, keys.now);
  }

  /** Only the token's email and the stored role decide `verifyAdmin`: any other claim the
      client put in the token (a `role`, say) is ignored. */
  lemma AdminIgnoresOtherClaims(req: Request, c1: Claims, c2: Claims, users: seq<Record>)
    requires c1.email == c2.email
    ensures VerifyAdmin(req.(decoded := Some(c1)), users).Next? == VerifyAdmin(req.(decoded := Some(c2)), users).Next?
  {
    HasRoleMeans(users, c1.email, AdminRole);
  }

  /** The middlewares a route lists before its handler. */
  datatype Guard = TokenGuard | AdminGuard

  /** `verifyAdmin` only ever runs once a token guard has run ("use verify admin after verifyToken"). */
  predicate Ordered(gs: seq<Guard>, authenticated: bool)
    decreases |gs|
  {
    gs == [] ||
    (gs[0] == TokenGuard && Ordered(gs[1..], true)) ||
    (gs[0] == AdminGuard && authenticated && Ordered(gs[1..], true))
  }

  function RunGuard(g: Guard, req: Request, keys: Keys, users: seq<Record>): Step
  {
    match g
    case TokenGuard => VerifyToken(req, keys)
    case AdminGuard => VerifyAdmin(req, users)
  }

  /** Express's `next()` chain: each guard runs on the request the previous one passed on;
      the first denial ends the request. An ordered chain never gets stuck. */
  function RunChain(gs: seq<Guard>, req: Request, keys: Keys, users: seq<Record>): (r: Step)
    ensures Ordered(gs, req.decoded.Some?) ==> !r.Stuck?
    ensures r.Next? ==> r.request.authorization == req.authorization
    ensures r.Next? && (req.decoded.Some? || TokenGuard in gs) ==> r.request.decoded.Some?
    ensures r.Halt? ==> r.denial == NotAuthenticated || r.denial == NotAllowed
    decreases |gs|
  {
    if gs == [] then Next(req)
    else match RunGuard(gs[0], req, keys, users)
      case Next(req') => RunChain(gs[1..], req', keys, users)
      case other => other
  }

  /** Continues a chain that has passed so far with further guards. */
  function Then(s: Step, gs: seq<Guard>, keys: Keys, users: seq<Record>): Step
  {
    match s
    case Next(req) => RunChain(gs, req, keys, users)
    case other => other
  }

  /** Running two chains one after the other is running their concatenation: whatever
      follows a guard runs only if that guard continued. */
  lemma {:induction false} ChainAppend(gs1: seq<Guard>, gs2: seq<Guard>, req: Request, keys: Keys, users: seq<Record>)
    ensures RunChain(gs1 + gs2, req, keys, users) == Then(RunChain(gs1, req, keys, users), gs2, keys, users)
    decreases |gs1|
  {
    if gs1 != [] {
      assert (gs1 + gs2)[0] == gs1[0];
      assert (gs1 + gs2)[1..] == gs1[1..] + gs2;
      match RunGuard(gs1[0], req, keys, users)
      case Next(req') => ChainAppend(gs1[1..], gs2, req', keys, users);
      case Halt(d) =>
        assert RunChain(gs1 + gs2, req, keys, users) == Halt(d);
        assert RunChain(gs1, req, keys, users) == Halt(d);
      case Stuck =>
        assert RunChain(gs1 + gs2, req, keys, users) == Stuck;
        assert RunChain(gs1, req, keys, users) == Stuck;
    } else {
      assert gs1 + gs2 == gs2;
    }
  }

  /** The chain `verifyToken, verifyAdmin`: 401 without a valid token, 403 for a valid token
      whose email is not an admin's, otherwise the request passes with the decoded claims. */
  lemma AdminChainOutcome(req: Request, keys: Keys, users: seq<Record>)
    ensures var r := RunChain([TokenGuard, AdminGuard], req, keys, users);
      && (r == Halt(NotAuthenticated) <==> Authenticate(req, keys).None?)
      && (r == Halt(NotAllowed) <==> Authenticate(req, keys).Some? && !AdminRequest(req, keys, users))
      && (r.Next? <==> AdminRequest(req, keys, users))
      && (r.Next? ==> r.request == req.(decoded := Authenticate(req, keys)))
  {
    var gs := [TokenGuard, AdminGuard];
    assert gs[1..] == [AdminGuard] && gs[1..][1..] == [];
    match Authenticate(req, keys)
    case None =>
    case Some(c) =>
      HasRoleMeans(users, c.email, AdminRole);
  }

  /** The chain `verifyToken` alone: the request passes iff the token verifies. */
  lemma TokenChainOutcome(req: Request, keys: Keys, users: seq<Record>)
    ensures var r := RunChain([TokenGuard], req, keys, users);
      && (r == Halt(NotAuthenticated) <==> Authenticate(req, keys).None?)
      && (r.Next? <==> Authenticate(req, keys).Some?)
      && (r.Next? ==> r.request == req.(decoded := Authenticate(req, keys)))
  {
    assert [TokenGuard][1..] == [];
  }
}
