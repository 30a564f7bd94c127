# Authentication and role-based authorization of the classroom server

This project models the access-control core of the classroom platform's REST server
(`index.js`): issuing bearer tokens (`POST /jwt`), the `verifyToken` and `verifyAdmin`
middlewares, how routes chain them, the self-check role queries
(`GET /users/admin/:email`, `GET /teachers/admin/:email`), registration
(`POST /users`, `POST /teachers`) and role promotion (`PATCH /users/admin/:id`,
`PATCH /teachers/admin/:id`).

Layout, one module per concern:

- `wrappers.dfy` — `Option`, standing for JavaScript's `undefined`.
- `header.dfy` — `split(" ")` on the `Authorization` header and the second field as token.
- `tokens.dfy` — signing and `jwt.verify` over an opaque codec: a token is the value that is
  signed (payload, `iat`, `exp = iat + 3600`, key); `Faithful` states what the model relies on
  from the library (decode inverts encode and every decodable string is the encoding of what it
  decodes to, so nothing unsigned passes; a serialised token is non-empty and space-free).
- `store.dfy` — documents and records, `findOne` by email, the `{_id}` filter, `$set role`,
  and a `Collection` class whose `InsertOne` and `UpdateRole` change its records in place.
- `guards.dfy` — `verifyToken`, `verifyAdmin`, guard lists and their sequential composition.
  A step continues with the enriched request, ends with 401/403, or is `Stuck` (the
  `TypeError` `verifyAdmin` throws when `req.decoded` is unset; Express 4 sends no answer).
- `routes.dfy` — read routes as functions of a snapshot of the collections; the four
  writing handlers as methods on `Collection`s.

Three behaviours of the code differ from what an access-control layer of this kind is
expected to do; the model keeps the code's behaviour:

- One would expect a new record to start with no role, and a role sent by a client never to
  be trusted. `POST /users` and `POST /teachers` store the request body verbatim, `role`
  included, so a newcomer can register as an admin (`Routes.SelfRegisteredAdmin`).
- One would expect teacher registration, like user registration, to be idempotent by email.
  `POST /teachers` has no duplicate check (`Routes.RegisterTeacher`, `Routes.TeacherDuplicate`),
  and promoting a later duplicate then has no effect on the role query (`Routes.ShadowedPromotion`).
- One would expect a token to carry an email. `POST /jwt` signs the whole request body, so
  `decoded.email` may be absent; `findOne({email: undefined})` then matches records without
  an email, which the model keeps by using `Option<string>` for emails on both sides.

## Model

| member | source | states |
|---|---|---|
| `Header.SplitOnSpace` | index.js:50 | the fields hold no space, joining them with single spaces gives the header back, and there is more than one field iff the header holds a space |
| `Header.SplitJoin` | index.js:50 | splitting recovers exactly the space-free fields that were joined |
| `Header.BearerToken` | index.js:50 | a token field exists iff the header holds a space, and it holds no space |
| `Header.BearerTokenOf` | index.js:50 | the token is the second field whatever the first (the scheme word is never checked) and whatever follows |
| `Header.BearerHeader` | index.js:50 | `"<scheme> <token>"` yields the token for any scheme word |
| `Tokens.Sign` | index.js:39-41 | every issued token expires one hour (3600 s) after it was issued |
| `Tokens.Verify` | index.js:51 | only a token that decodes, carries the server's key and is not expired passes, handing back its claims, and a missing token is "jwt must be provided"; VerifiedMeans, TamperedRejected, IssueThenVerify and ForeignKeyRejected characterise it fully |
| `Tokens.VerifiedMeans` | index.js:51-54 | a string that verifies is the serialisation of a token signed with the server's secret and not yet expired, and the claims handed back are that token's |
| `Tokens.TamperedRejected` | index.js:51-54 | a string that is not the serialisation of a token signed with the server's secret is rejected |
| `Tokens.IssueThenVerify` | index.js:37-56 | a token from `POST /jwt` verifies to the signed body until one hour after issuance and is rejected as expired afterwards |
| `Tokens.ForeignKeyRejected` | index.js:51-54 | a token signed with any other key is rejected |
| `Guards.VerifyToken` | index.js:45-58 | it never gets stuck, halts only with 401 "unauthorized access", and on success keeps the header and attaches decoded claims |
| `Guards.NoHeaderRejected` | index.js:47-49 | an absent or empty `Authorization` header gives 401 and no next step |
| `Guards.BadTokenRejected` | index.js:50-54 | a second field that fails verification gives 401 and attaches no claims |
| `Guards.NoSpaceRejected` | index.js:50-54 | a header with no second field (`undefined` token) gives 401 |
| `Guards.IssuedTokenAdmitted` | index.js:37-58 | `"<scheme> <issued token>"` continues with the signed body as `req.decoded` (without the `iat` and `exp` the library adds) within the hour, and gives 401 afterwards |
| `Guards.VerifyAdmin` | index.js:60-69 | continues with the request unchanged iff the first users record with the decoded email has role "admin", otherwise 403 "forbidden access"; stuck iff `req.decoded` is unset |
| `Guards.AdminIgnoresOtherClaims` | index.js:61-64 | only the token's email and the stored role decide; any other claim in the token (a `role`) is ignored |
| `Guards.RunChain` | index.js:72 | an ordered chain never gets stuck, a passing chain keeps the header and has claims once a token guard ran, and a denial is always 401 or 403 |
| `Guards.ChainAppend` | index.js:103-107 | running guards in sequence is composing them: whatever follows a guard runs only on the request that guard passed on |
| `Guards.AdminChainOutcome` | index.js:103-107 | `verifyToken, verifyAdmin` gives 401 iff the token is not valid, 403 iff valid but not an admin's, and continues with the decoded claims iff it is an admin's |
| `Guards.TokenChainOutcome` | index.js:77 | `verifyToken` alone continues iff the token verifies, with its claims attached, and otherwise gives 401 |
| `Store.FindByEmail` | index.js:63 | the result is the first record with that email, and none is found iff no record has it |
| `Store.FindById` | index.js:109-115 | the result is the first record with that id, and none is found iff no record has it |
| `Store.HasRole` | index.js:84-87 | `user?.role === role` on the record `findOne` returns: holding implies some record with the email has the role, and no record with the email means false; HasRoleMeans and HasRoleDistinct characterise it fully |
| `Store.HasRoleMeans` | index.js:83-87 | the role check holds iff the first record with the email exists and has the role |
| `Store.HasRoleDistinct` | index.js:91-101 | when emails are unique, the role check holds iff some record with the email has the role |
| `Store.SetRole` | index.js:109-115 | same length; the record the id filter finds gets the role; every other record, and every other field, is unchanged |
| `Store.SetRoleIdempotent` | index.js:103-118 | setting a role twice gives the same records as setting it once |
| `Store.SetRoleKeepsInvariants` | index.js:110-115 | a role update keeps ids and emails unique |
| `Store.SetRoleFindByEmail` | index.js:110-115 | a role update never changes which record a lookup by email finds |
| `Store.PromotedHasRole` | index.js:103-118 | promoting the record an email finds makes that email's role check succeed |
| `Store.PromoteOtherUnaffected` | index.js:143-158 | promoting any other id leaves every role check for that email as it was |
| `Store.AppendNewEmail` | index.js:96-99 | appending a record with a new email keeps emails unique |
| `Store.Collection.FindOne` | index.js:95 | a record is returned iff one has the email, and it carries that email |
| `Store.Collection.InsertOne` | index.js:99 | appends exactly the document under an id not used before |
| `Store.Collection.UpdateRole` | index.js:115 | records become `SetRole` of the old ones; `matchedCount` is 1 iff the id exists and `modifiedCount` is 1 iff besides its role changed |
| `Routes.IssueToken` | index.js:37-43 | no answer iff the body holds a reserved claim (`iat`, `nbf`, `exp`), on which signing throws; otherwise 200 with a token that verifies to the posted body (the library's added `iat`/`exp` aside) now and is rejected as expired one hour later |
| `Routes.ListUsers` | index.js:72-75 | 200 with all users iff the caller is an authenticated admin; 401 without a valid token; 403 for a valid non-admin |
| `Routes.ListTeachers` | index.js:120-123 | 200 with all teachers iff the caller is an admin in users; 401 and 403 as for users |
| `Routes.SelfRoleCheck` | index.js:77-89 | 401 iff the token is invalid; 403 iff the path email is not the token's, whatever the role; otherwise 200 with a flag that holds iff the first record with that email has the role |
| `Routes.CheckAdmin` | index.js:77-89 | another user's email gives 403; one's own gives `{admin}` from the users record, `false` when there is none |
| `Routes.CheckTeacher` | index.js:130-142 | the same against teachers and role "teacher" |
| `Routes.RegisterUser` | index.js:91-101 | an existing email leaves users unchanged and answers `insertedId: null`; a new one appends exactly one record; unique emails stay unique |
| `Routes.RegisterTeacher` | index.js:124-128 | always appends exactly one record, with nothing checked |
| `Routes.PromoteIn` | index.js:103-118 | behind both guards: 401/403 with nothing changed, or the targeted role update answered with its `matchedCount` and `modifiedCount` |
| `Routes.PromoteUser` | index.js:103-118 | only an admin's request changes users, by setting role "admin" on the record with that id alone |
| `Routes.PromoteTeacher` | index.js:143-158 | only an admin's request (checked in users) changes teachers, by setting role "teacher" on that id alone |
| `Routes.PromoteThenCheck` | index.js:77-118 | with a token from `POST /jwt` used within the hour, after the record its email finds is promoted, `GET /users/admin/:email` answers `{admin: true}` |
| `Routes.SelfRegisteredAdmin` | index.js:91-101 | a newcomer registering with `role: "admin"` passes `verifyAdmin` afterwards |
| `Routes.TeacherDuplicate` | index.js:124-128 | posting a teacher whose email exists creates a duplicate email |
| `Routes.ShadowedPromotion` | index.js:130-158 | promoting a later duplicate teacher record leaves the teacher check false |

## Left out

- Cryptography of the token library (index.js:39-41, 51): signing and parsing are an opaque codec; only decoding, the key and the expiry are modelled.
- Routes.IssueToken: a body with a numeric `iat` (which `jwt.sign` would use as the issue time, moving the expiry) or numeric `nbf` is outside the model, since other fields are strings; with string values any of `iat`, `nbf`, `exp` makes signing throw, which is modelled.
- Guards.VerifyToken: `req.decoded` holds the signed body without the `iat` and `exp` the library adds to it; no route reads those two fields.
- Store.Collection.InsertOne: a body carrying its own `_id` is stored by MongoDB under that id (or rejected as a duplicate key); the model keeps `_id` among the other fields and always assigns a fresh id.
- Store.FindByEmail: MongoDB does not guarantee that `findOne` scans in insertion order; the model assumes it does, which decides which of several records with one email is found.
- Thrown errors in async handlers (`jwt.sign` on a reserved claim, `verifyAdmin` without `req.decoded`) are modelled as no answer, as under Express 4; Express 5 would answer 500, and on Node 15 or later the unhandled rejection ends the whole process, which is not modelled.
- `Claims` and `Doc` do not keep the keys `email` and `role` out of `other`, so some values stand for no JSON body or repeat a field; the lemmas also range over those values.
- `ObjectId` construction (index.js:109, 149), which throws on a malformed id: ids are opaque naturals.
- Request bodies hold only `email`, `role` and string-valued other fields; non-string JSON values for `email` or `role` are not modelled.
- The MongoDB connection, ping and collection handles (index.js:13-33, 192-198) and the Express, CORS, dotenv and `listen` setup (index.js:1-11, 203-209): I/O plumbing. The secret and the clock are parameters (`Guards.Keys`).
- Course, class and enroll routes (index.js:161-189): insert and find passthroughs with no access control.
- Concurrency: each handler is atomic, so the race between `findOne` and `insertOne` in `POST /users` is not modelled.
- Store failures (a rejected insert or update) are not modelled; every store call succeeds.
