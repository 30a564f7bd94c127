/** The routes of index.js that the guards protect, and the two registration routes:
    `POST /jwt`, `GET /users`, `GET /users/admin/:email`, `POST /users`,
    `PATCH /users/admin/:id`, `GET /teachers`, `POST /teachers`,
    `GET /teachers/admin/:email` and `PATCH /teachers/admin/:id`.
    Reads are functions of a snapshot of the collections; the handlers that write
    (`insertOne`, `updateOne`) are methods on the collections. */
module Routes {
  import opened Wrappers
  import opened Tokens
  import opened Store
  import opened Guards

  const Ok: nat := 200
  const TeacherRole: string := "teacher"
  const AlreadyExistsMessage: string := "user already exists"

  /** The JSON bodies the routes send. `RoleFlag(role, b)` is `{admin: b}` or `{teacher: b}`;
      `InsertReply(None, Some(id))` is `insertOne`'s result and
      `InsertReply(Some(m), None)` is `{message: m, insertedId: null}`. */
  datatype Body =
    | Message(message: string)
    | TokenReply(token: string)
    | RecordList(records: seq<Record>)
    | RoleFlag(role: string, holds: bool)
    | InsertReply(notice: Option<string>, insertedId: Option<Id>)
    | UpdateReply(result: UpdateResult)

  datatype Response = Response(status: nat, body: Body)

  function Deny(d: Denial): Response
  {
    Response(d.status, Message(d.message))
  }

  /** `POST /jwt`: the request body signed verbatim, valid for one hour from `keys.now`.
      `None` when `jwt.sign` throws on a reserved claim in the body: the throw happens in
      the async handler, which Express 4 never answers. */
  function IssueToken(body: Claims, keys: Keys): (res: Option<Response>)
    ensures res.None? <==> exists k :: k in ReservedClaims && k in body.other
    ensures res.Some? ==> res.value.status == Ok && res.value.body.TokenReply?
    ensures res.Some? && Faithful(keys.codec) ==>
      Verify(keys.codec, Some(res.value.body.token), keys.secret, keys.now) == Verified(body)
    ensures res.Some? && Faithful(keys.codec) ==>
      Verify(keys.codec, Some(res.value.body.token), keys.secret, keys.now + Lifetime) == Rejected(Expired)
  {
    if !Signable(body) then None
    else Some(Response(Ok, TokenReply(keys.codec.encode(Sign(body, keys.secret, keys.now)))))
  }

  /** `GET /users` and `GET /teachers`: `verifyToken`, `verifyAdmin` (against `users`), then
      the whole collection `listed`. */
  function AdminList(req: Request, keys: Keys, users: seq<Record>, listed: seq<Record>): (res: Response)
    ensures res == Deny(NotAuthenticated) <==> Authenticate(req, keys).None?
    ensures res == Deny(NotAllowed) <==> Authenticate(req, keys).Some? && !AdminRequest(req, keys, users)
    ensures res.status == Ok <==> AdminRequest(req, keys, users)
    ensures res.status == Ok ==> res.body == RecordList(listed)
  {
    AdminChainOutcome(req, keys, users);
    match RunChain([TokenGuard, AdminGuard], req, keys, users)
    case Next(_) => Response(Ok, RecordList(listed))
    case Halt(d) => Deny(d)
    case Stuck => assert false; Deny(NotAuthenticated)
  }

  /** `GET /users`. */
  function ListUsers(req: Request, keys: Keys, users: seq<Record>): (res: Response)
    ensures res.status == Ok <==> AdminRequest(req, keys, users)
    ensures res.status == Ok ==> res.body == RecordList(users)
    ensures Authenticate(req, keys).None? ==> res == Deny(NotAuthenticated)
    ensures Authenticate(req, keys).Some? && !AdminRequest(req, keys, users) ==> res == Deny(NotAllowed)
  {
    AdminList(req, keys, users, users)
  }

  /** `GET /teachers`: admin rights are looked up in `users`, the list comes from `teachers`. */
  function ListTeachers(req: Request, keys: Keys, users: seq<Record>, teachers: seq<Record>): (res: Response)
    ensures res.status == Ok <==> AdminRequest(req, keys, users)
    ensures res.status == Ok ==> res.body == RecordList(teachers)
    ensures Authenticate(req, keys).None? ==> res == Deny(NotAuthenticated)
    ensures Authenticate(req, keys).Some? && !AdminRequest(req, keys, users) ==> res == Deny(NotAllowed)
  {
    AdminList(req, keys, users, teachers)
  }

  /** `GET /users/admin/:email` and `GET /teachers/admin/:email`: `verifyToken`; then 403
      unless the path email is exactly the token's; then whether the first record of `rs`
      with that email has `role`. */
  function SelfRoleCheck(req: Request, keys: Keys, rs: seq<Record>, email: string, role: string): (res: Response)
    ensures res == Deny(NotAuthenticated) <==> Authenticate(req, keys).None?
    ensures res == Deny(NotAllowed) <==>
      Authenticate(req, keys).Some? && Authenticate(req, keys).value.email != Some(email)
    ensures res.status == Ok <==> Authenticate(req, keys).Some? && Authenticate(req, keys).value.email == Some(email)
    ensures res.status == Ok ==> res.body.RoleFlag? && res.body.role == role
    ensures res.status == Ok ==> (res.body.holds <==>
      exists i :: 0 <= i < |rs| && rs[i].email == Some(email) && rs[i].role == Some(role)
                  && forall j :: 0 <= j < i ==> rs[j].email != Some(email))
  {
    TokenChainOutcome(req, keys, rs);
    HasRoleMeans(rs, Some(email), role);
    match RunChain([TokenGuard], req, keys, rs)
    case Next(passed) =>
      if passed.decoded.None? || Some(email) != passed.decoded.value.email then Deny(NotAllowed)
      else Response(Ok, RoleFlag(role, HasRole(rs, Some(email), role)))
    case Halt(d) => Deny(d)
    case Stuck => assert false; Deny(NotAuthenticated)
  }

  /** `GET /users/admin/:email`: another user's email is refused whatever the caller's role;
      one's own email gives `{admin: true}` iff one's users record is an admin's, and
      `{admin: false}` when there is no record. */
  function CheckAdmin(req: Request, keys: Keys, users: seq<Record>, email: string): (res: Response)
    ensures Authenticate(req, keys).None? ==> res == Deny(NotAuthenticated)
    ensures Authenticate(req, keys).Some? && Authenticate(req, keys).value.email != Some(email) ==> res == Deny(NotAllowed)
    ensures Authenticate(req, keys).Some? && Authenticate(req, keys).value.email == Some(email) ==>
      res == Response(Ok, RoleFlag(AdminRole, HasRole(users, Some(email), AdminRole)))
    ensures res.status == Ok && FindByEmail(users, Some(email)).None? ==> res.body == RoleFlag(AdminRole, false)
  {
    HasRoleMeans(users, Some(email), AdminRole);
    SelfRoleCheck(req, keys, users, email, AdminRole)
  }

  /** `GET /teachers/admin/:email`: the same against `teachers` and role "teacher". */
  function CheckTeacher(req: Request, keys: Keys, teachers: seq<Record>, email: string): (res: Response)
    ensures Authenticate(req, keys).None? ==> res == Deny(NotAuthenticated)
    ensures Authenticate(req, keys).Some? && Authenticate(req, keys).value.email != Some(email) ==> res == Deny(NotAllowed)
    ensures Authenticate(req, keys).Some? && Authenticate(req, keys).value.email == Some(email) ==>
      res == Response(Ok, RoleFlag(TeacherRole, HasRole(teachers, Some(email), TeacherRole)))
    ensures res.status == Ok && FindByEmail(teachers, Some(email)).None? ==> res.body == RoleFlag(TeacherRole, false)
  {
    HasRoleMeans(teachers, Some(email), TeacherRole);
    SelfRoleCheck(req, keys, teachers, email, TeacherRole)
  }

  /** `POST /users`: inserts the body unless a user with its email exists, in which case
      nothing changes and the answer is `{message: "user already exists", insertedId: null}`.
      Registration keeps users' emails unique. */
  method RegisterUser(users: Collection, body: Doc) returns (res: Response)
    requires users.Valid()
    modifies users
    ensures users.Valid()
    ensures FindByEmail(old(users.records), body.email).Some? ==>
      users.records == old(users.records) && res == Response(Ok, InsertReply(Some(AlreadyExistsMessage), None))
    ensures FindByEmail(old(users.records), body.email).None? ==>
      && res.status == Ok && res.body.InsertReply? && res.body.notice.None? && res.body.insertedId.Some?
      && FindById(old(users.records), res.body.insertedId.value).None?
      && users.records == old(users.records) + [Stored(body, res.body.insertedId.value)]
    ensures DistinctEmails(old(users.records)) ==> DistinctEmails(users.records)
  {
    var existing := users.FindOne(body.email);
    if existing.Some? {
      return Response(Ok, InsertReply(Some(AlreadyExistsMessage), None));
    }
    assert FindByEmail(users.records, body.email).None?;
    if DistinctEmails(users.records) {
      AppendNewEmail(users.records, Stored(body, users.nextId));
    }
    var id := users.InsertOne(body);
    res := Response(Ok, InsertReply(None, Some(id)));
  }

  /** `POST /teachers`: always inserts the body, whether or not its email is present. */
  method RegisterTeacher(teachers: Collection, body: Doc) returns (res: Response)
    requires teachers.Valid()
    modifies teachers
    ensures teachers.Valid()
    ensures res.status == Ok && res.body.InsertReply? && res.body.notice.None? && res.body.insertedId.Some?
    ensures FindById(old(teachers.records), res.body.insertedId.value).None?
    ensures teachers.records == old(teachers.records) + [Stored(body, res.body.insertedId.value)]
  {
    var id := teachers.InsertOne(body);
    res := Response(Ok, InsertReply(None, Some(id)));
  }

  /** The role update behind `verifyToken` and `verifyAdmin`, shared by the two PATCH routes:
      `users` decides who is an admin, `target` is the collection updated. */
  method PromoteIn(req: Request, keys: Keys, users: seq<Record>, target: Collection, id: Id, role: string)
    returns (res: Response)
    requires target.Valid()
    modifies target
    ensures target.Valid()
    ensures Authenticate(req, keys).None? ==>
      target.records == old(target.records) && res == Deny(NotAuthenticated)
    ensures Authenticate(req, keys).Some? && !AdminRequest(req, keys, users) ==>
      target.records == old(target.records) && res == Deny(NotAllowed)
    ensures AdminRequest(req, keys, users) ==>
      && target.records == SetRole(old(target.records), id, role)
      && res.status == Ok && res.body.UpdateReply?
      && res.body.result.matchedCount == (if FindById(old(target.records), id).Some? then 1 else 0)
      && res.body.result.modifiedCount ==
           (if FindById(old(target.records), id).Some?
               && old(target.records)[FindById(old(target.records), id).value].role != Some(role)
            then 1 else 0)
  {
    AdminChainOutcome(req, keys, users);
    match RunChain([TokenGuard, AdminGuard], req, keys, users)
    case Next(_) =>
      var result := target.UpdateRole(id, role);
      res := Response(Ok, UpdateReply(result));
    case Halt(d) =>
      res := Deny(d);
    case Stuck =>
      assert false;
  }

  /** `PATCH /users/admin/:id`: for an admin, sets role "admin" on the users record with that
      id only; for anyone else, nothing changes. */
  method PromoteUser(req: Request, keys: Keys, users: Collection, id: Id) returns (res: Response)
    requires users.Valid()
    modifies users
    ensures users.Valid()
    ensures !AdminRequest(req, keys, old(users.records)) ==> users.records == old(users.records)
    ensures Authenticate(req, keys).None? ==> res == Deny(NotAuthenticated)
    ensures Authenticate(req, keys).Some? && !AdminRequest(req, keys, old(users.records)) ==> res == Deny(NotAllowed)
    ensures AdminRequest(req, keys, old(users.records)) ==>
      users.records == SetRole(old(users.records), id, AdminRole) && res.status == Ok
  {
    res := PromoteIn(req, keys, users.records, users, id, AdminRole);
  }

  /** `PATCH /teachers/admin/:id`: for an admin (looked up in `users`), sets role "teacher"
      on the teachers record with that id only; users are never touched. */
  method PromoteTeacher(req: Request, keys: Keys, users: Collection, teachers: Collection, id: Id)
    returns (res: Response)
    requires teachers.Valid() && users != teachers
    modifies teachers
    ensures teachers.Valid()
    ensures !AdminRequest(req, keys, users.records) ==> teachers.records == old(teachers.records)
    ensures Authenticate(req, keys).None? ==> res == Deny(NotAuthenticated)
    ensures Authenticate(req, keys).Some? && !AdminRequest(req, keys, users.records) ==> res == Deny(NotAllowed)
    ensures AdminRequest(req, keys, users.records) ==>
      teachers.records == SetRole(old(teachers.records), id, TeacherRole) && res.status == Ok
  {
    res := PromoteIn(req, keys, users.records, teachers, id, TeacherRole);
  }

  /** A token from `POST /jwt`, sent back as `"Bearer <token>"` within the hour, lets its
      email read its own role: after an admin promotes the record that email finds,
      `GET /users/admin/:email` answers `{admin: true}`. */
  lemma {:induction false} PromoteThenCheck(keys: Keys, body: Claims, issuedAt: int, users: seq<Record>, id: Id, email: string)
    requires Faithful(keys.codec)
    requires body.email == Some(email) && issuedAt <= keys.now < issuedAt + Lifetime
    requires DistinctIds(users)
    requires FindByEmail(users, Some(email)).Some? && users[FindByEmail(users, Some(email)).value].id == id
    ensures
      var header := "Bearer " + keys.codec.encode(Sign(body, keys.secret, issuedAt));
      CheckAdmin(Request(Some(header), None), keys, SetRole(users, id, AdminRole), email)
        == Response(Ok, RoleFlag(AdminRole, true))
  {
    var header := "Bearer " + keys.codec.encode(Sign(body, keys.secret, issuedAt));
    assert "Bearer " == "Bearer" + [' '];
    IssuedTokenAdmitted(keys, body, issuedAt, "Bearer", None);
    assert Authenticate(Request(Some(header), None), keys) == Some(body);
    PromotedHasRole(users, id, AdminRole, Some(email));
  }

  /** Because the body is stored verbatim, a newcomer who registers with `role: "admin"`
      passes `verifyAdmin` from then on. */
  lemma SelfRegisteredAdmin(users: seq<Record>, body: Doc, id: Id, req: Request, keys: Keys)
    requires FindByEmail(users, body.email).None?
    requires body.role == Some(AdminRole)
    requires Authenticate(req, keys).Some? && Authenticate(req, keys).value.email == body.email
    ensures AdminRequest(req, keys, users + [Stored(body, id)])
  {
    var rs := users + [Stored(body, id)];
    assert rs[|users|].email == body.email;
    assert FindByEmail(rs, body.email) == Some(|users|);
  }

  /** `POST /teachers` with an email already present creates a second record for it. */
  lemma TeacherDuplicate(teachers: seq<Record>, body: Doc, id: Id)
    requires FindByEmail(teachers, body.email).Some?
    ensures !DistinctEmails(teachers + [Stored(body, id)])
  {
    var rs := teachers + [Stored(body, id)];
    var i := FindByEmail(teachers, body.email).value;
    assert rs[i].email == rs[|teachers|].email;
  }

  /** With such a duplicate, promoting the later record is invisible to
      `GET /teachers/admin/:email`, which reads only the first. */
  lemma ShadowedPromotion(teachers: seq<Record>, e: string, j: nat)
    requires DistinctIds(teachers)
    requires FindByEmail(teachers, Some(e)).Some?
    requires FindByEmail(teachers, Some(e)).value < j < |teachers| && teachers[j].email == Some(e)
    requires teachers[FindByEmail(teachers, Some(e)).value].role != Some(TeacherRole)
    ensures !HasRole(SetRole(teachers, teachers[j].id, TeacherRole), Some(e), TeacherRole)
  {
    PromoteOtherUnaffected(teachers, teachers[j].id, TeacherRole, Some(e), TeacherRole);
  }
}
