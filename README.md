# GObscene core in Dafny

A model of the authentication layer (`mgoauth`) and the generic CRUD binder
(`autocrud`) of GObscene, a Go web service built on gin, mgo, gorilla-style
cookie sessions and jwt-go.

- `mgoauth.dfy` (module `MgoAuth`): the `User` login entity, the role gate
  `RequireRole` with its three outcomes, `secureCompare` over an abstract
  SHA-256, the credential check `doLogin`, and the `PostLogin`, `GetLogin`
  and `PostRegister` handlers over the session and the `"users"` collection.
- `providers.dfy` (module `Providers`): the two authentication providers. The
  Go `Provider` interface (`UserId`, `User`, `Login`) is a sum type
  `Provider = SessionProvider | JwtProvider(privateKey, publicKey)` with one
  dispatching member per interface method. It covers the session provider
  (reads and writes the `"user"` key of the session) and the JWT provider
  (claim set `{id, exp = now + 72h}`, where `exp` is the NumericDate claim of
  section 4.1.4 of RFC 7519, and `parseToken`'s error classification).
- `autocrud.dfy` (module `AutoCrud`): `Crud` route registration and the five
  handlers, over a generic record with an `Id` field in place of reflection.
- Supporting modules: `Web` (the request context: replies written, the abort,
  next and panic flags), `Store` (collections as `map<string, map<Key, Doc>>`
  and mgo's outcomes), `Bson` (ObjectId and its hexadecimal form), `Subtle`
  (the value computed by the constant-time byte comparison) and `Wrappers`.

External collaborators are parameters. SHA-256 (FIPS 180-4) is a function
`string -> Digest`. RS256 (section 3.3 of RFC 7518) is a pair of functions
`sign` and `verify`. The clock is an argument: Unix nanoseconds for `Login`,
Unix seconds for verification. A fresh ObjectId is an argument. Which driver
calls fail is `Database.failing`. Whether a session save fails is
`Session.saveFails`. A decoded request body is an `Option` (None: the bind
failed).

Every write a handler makes is appended to `Context.replies`. So a handler
that writes twice shows up as two replies. `c.Fail(status, err)` and
`c.AbortWithStatus(status)` both become a bodiless reply plus the abort flag.
`log.Panicln` sets `Context.panicked` and stops the handler.

Where the design text and the code differ, the model follows the code:
- `RequireRole` reads the session directly (`mgoauth/mgoauth.go:74-77`). It
  does not go through a `Provider`.
- `PostLogin` never calls `Provider.Login` and writes no reply. On bad
  credentials it does not answer 401.
- `PostRegister` answers 200 "Registered.", not 201. It treats any lookup
  result other than ErrNotFound as a conflict, including a server error.
- Store errors on the write paths panic rather than answering 5xx.
- Several CRUD handlers use the collection `"modules"` instead of the
  registered collection name. This is reproduced literally; see Findings.
- A path id that is not 24 hexadecimal digits makes `bson.ObjectIdHex`
  panic. So `takeModel` and `deleteModel` panic on it, and `updateModel`
  does too once the body has bound (`autocrud/autocrud.go:96-98`). The
  400 "id is not a valid ObjectId" branch of `takeModel` is never reached.
- A list that reads no document answers 200 with `null`, not `[]`: the
  slice `All` fills stays nil.

## Model

| member | source | states |
|---|---|---|
| `MgoAuth.GetUserId` | mgoauth/mgoauth.go:36-45 | the stored user's id when the session holds `"user"`, otherwise the empty string |
| `MgoAuth.Decide` | mgoauth/mgoauth.go:77-88 | the gate's three outcomes, each as an if-and-only-if: no `"user"` gives not-logged-in; a user without the role (missing key or false) gives no-permission; a user with the role continues |
| `MgoAuth.NotLoggedIn` | mgoauth/mgoauth.go:47-50 | appends 401 "User not logged in!" and aborts |
| `MgoAuth.NoPermission` | mgoauth/mgoauth.go:52-55 | appends 401 "No permission!" and aborts |
| `MgoAuth.RequireRole` | mgoauth/mgoauth.go:63-91 | not logged in: 401 "User not logged in!", aborted, next not called. No permission: 401 "No permission!", aborted, next not called. Otherwise next is called and no reply is written |
| `MgoAuth.DenialsDistinguishable` | mgoauth/mgoauth.go:48-53 | the two denials share status 401 and are different replies |
| `MgoAuth.SecureCompare` | mgoauth/mgoauth.go:94-99 | true exactly when the SHA-256 digests of the two strings are equal (via the constant-time comparison's value) |
| `MgoAuth.SecureCompareReflexive` | mgoauth/mgoauth.go:94-99 | every string compares equal to itself |
| `MgoAuth.SecureCompareSymmetric` | mgoauth/mgoauth.go:94-99 | the comparison does not depend on argument order |
| `MgoAuth.SecureCompareExact` | mgoauth/mgoauth.go:94-99 | when the hash does not collide on the two strings, the comparison is true exactly when they are equal |
| `MgoAuth.DoLogin` | mgoauth/mgoauth.go:106-122 | an empty id or password fails with EmptyCredentials. Success holds exactly when both are non-empty, the lookup by id succeeds and the password digests match. On success the result is the stored record |
| `MgoAuth.DoLoginEmptyIgnoresStore` | mgoauth/mgoauth.go:109-121 | with empty credentials the result is the same whatever the store holds |
| `MgoAuth.DoLoginIgnoresClientFields` | mgoauth/mgoauth.go:127-135 | two submissions with the same id and password succeed or fail alike and return the same user: client-sent roles, mail and alias never reach the result |
| `MgoAuth.DoLoginReturnsStoredUser` | mgoauth/mgoauth.go:110-113 | in a collection keyed by id, a successful login returns the user with the submitted id and the stored roles |
| `MgoAuth.DoLoginNeedsStoredPassword` | mgoauth/mgoauth.go:112 | when the hash does not collide on the submitted and the stored password, success implies they are equal |
| `MgoAuth.PostLogin` | mgoauth/mgoauth.go:124-151 | on successful doLogin, session `"user"` becomes the stored user and the store holds it unless the save fails. On failure the session is unchanged. No reply is written (the context is not in its frame) |
| `MgoAuth.UserJson` | mgoauth/mgoauth.go:28-34 | the JSON of a user as `c.JSON` writes it at mgoauth.go:160: `_id` present exactly when the id is not empty; password, alias and roles under their tags; the mail under `"Mail"` and never `"mail"`, because its tag is malformed |
| `MgoAuth.GetLogin` | mgoauth/mgoauth.go:154-165 | 200 with the user's JSON when logged in, otherwise 401 "User not logged in!" without aborting |
| `MgoAuth.PostRegister` | mgoauth/mgoauth.go:167-183 | a failed bind changes nothing. A lookup other than ErrNotFound gives 409 "UserID already in use." and leaves the users unchanged. ErrNotFound inserts the user under its id and answers 200 "Registered.", or panics when the insert fails. Keeps every user under its own id |
| `Subtle.ConstantTimeByteEq` | mgoauth/mgoauth.go:98 | 1 when the bytes are equal, 0 otherwise |
| `Subtle.OrOfXorsZero` | mgoauth/mgoauth.go:98 | the OR of the byte-wise XORs is zero exactly when the byte strings are equal |
| `Subtle.ConstantTimeCompare` | mgoauth/mgoauth.go:98 | 1 exactly when the two byte strings are equal, 0 otherwise |
| `Providers.SessionUserId` | mgoauth/sessionprovider.go:21-30 | the stored user's id, or `""` when `"user"` is absent |
| `Providers.SessionUser` | mgoauth/sessionprovider.go:33-41 | the stored user, or the empty user (never nil) when `"user"` is absent |
| `Providers.SessionLogin` | mgoauth/sessionprovider.go:44-54 | sets only key `"user"` to the user, then saves. A failed save gives 500 and abort; otherwise 200 "User successfully logged in!" |
| `Providers.SessionLoginThenResolve` | mgoauth/sessionprovider.go:44-48 | after the login's Set, UserId gives the user's id and User gives the user; every other key keeps its value |
| `Providers.ParseToken` | mgoauth/jwtprovider.go:74-94 | success exactly when the token is valid, whatever the library error, carrying its claims. Malformed exactly when invalid with the malformed bit. Timed out exactly when invalid with expired or not-yet-valid bits and no malformed bit. Anything else is unhandled |
| `Providers.MalformedBeforeTimedOut` | mgoauth/jwtprovider.go:82-86 | a token that is both malformed and expired is reported as malformed |
| `Providers.SignatureInvalidIsUnhandled` | mgoauth/jwtprovider.go:87-89 | a bad signature alone is "Couldn't handle this token" |
| `Providers.JwtUserId` | mgoauth/jwtprovider.go:26-34 | claim `"id"` on a successful parse, `""` on any parse error; a non-string `"id"` panics at the type assertion |
| `Providers.JwtUser` | mgoauth/jwtprovider.go:37-44 | a user with only the id set (empty password and roles) on success, nil on any parse error, a panic on a non-string `"id"` |
| `Providers.ExpiresAtIsLoginSecondPlus72h` | mgoauth/jwtprovider.go:61 | the expiry is the login's Unix second plus 259200, whatever the sub-second part of the clock |
| `Providers.JwtLogin` | mgoauth/jwtprovider.go:47-72 | signs exactly `{id: user.Id, exp: now + 72h}`. A failed signature gives 500 and abort; otherwise 200 with `{"token": …}` |
| `Providers.UserId` | mgoauth/jwtprovider.go:20-23 | the interface's UserId: the session rule for the session provider, the token rule on the verified bearer token for the JWT provider |
| `Providers.UserOf` | mgoauth/sessionprovider.go:14-18 | the interface's User: the session rule for the session provider, the token rule for the JWT provider |
| `Providers.UserIdAgreesWithUser` | mgoauth/jwtprovider.go:26-44 | for both providers UserId is the id of what User returns, and `""` when User returns nil; both panic together |
| `Providers.Login` | mgoauth/jwtprovider.go:47-72 | the interface's Login: the session provider changes the session and answers; the JWT provider leaves the session untouched and answers with the token |
| `Providers.JwtLoginRoundTrip` | mgoauth/jwtprovider.go:59-61 | with matching keys, a token issued by Login resolves to the user's id (and an id-only user) up to its expiry second, and to `""` and nil after it |
| `Bson.Hex` | autocrud/autocrud.go:86 | a valid id's text is 24 characters |
| `Bson.HexRoundTrip` | autocrud/autocrud.go:86 | hexadecimal decoding undoes encoding for every byte string |
| `Bson.ObjectIdHex` | autocrud/autocrud.go:53 | returns an id exactly when the text is hexadecimal and decodes to twelve bytes, and that id is valid; any text not 24 characters long panics |
| `Bson.ObjectIdHexOfHex` | autocrud/autocrud.go:53 | the text createModel answers with parses back to the same id, without a panic |
| `Store.Database.FindId` | mgoauth/mgoauth.go:111 | a lookup succeeds exactly when the key is present and finds are not failing. It then returns the stored document; otherwise ErrNotFound or a server error |
| `Store.Database.FindAll` | autocrud/autocrud.go:43 | `min(limit, collection size)` documents, each the one stored under a distinct key; a server error when finds fail |
| `Store.Database.Insert` | autocrud/autocrud.go:82 | adds the document under its key unless inserts fail (server error) or the key is taken (duplicate key); otherwise nothing changes |
| `Store.Database.UpdateId` | autocrud/autocrud.go:98 | replaces the document at the key; ErrNotFound when the key is absent; nothing changes on an error |
| `Store.Database.RemoveId` | autocrud/autocrud.go:108 | removes the key; ErrNotFound when the key is absent; nothing changes on an error |
| `AutoCrud.CrudRoutesShape` | autocrud/autocrud.go:28-32 | exactly five routes, one per handler, all on the one model, their method and path pairs exactly GET "", GET "/:id", POST "", DELETE "/:id", PUT "/:id" |
| `AutoCrud.Crud` | autocrud/autocrud.go:18-37 | a struct model adds the five routes; any other kind panics and adds none |
| `AutoCrud.ListJson` | autocrud/autocrud.go:41-47 | the list body is `null` exactly when no record was read, and otherwise the array of each record's JSON, in order |
| `AutoCrud.ListModel` | autocrud/autocrud.go:40-49 | the records sent are those stored under distinct keys of `"modules"`, as many as the collection has up to 50. The body is `null` when none was read. On a store error: 400 with the error text and then 200 with `null` |
| `AutoCrud.ListModelCorrected` | autocrud/autocrud.go:40-49 | as ListModel but on the registered collection (distinct keys, up to 50, `null` when none was read), and a store error yields the 400 alone |
| `AutoCrud.TakeWithId` | autocrud/autocrud.go:54-65 | for an id that fails `Valid()`: 400 and an abort, and the lookup in the registered collection still writes 404 (abort) or 200 with the record |
| `AutoCrud.TakeWithIdCorrected` | autocrud/autocrud.go:54-65 | an id that fails `Valid()` yields the 400 alone; a valid one the 404 or the 200 |
| `AutoCrud.TakeModel` | autocrud/autocrud.go:51-66 | text that is not an id panics with no reply; otherwise the only reply is the lookup's 404 (abort) or 200, and never the 400 |
| `AutoCrud.CreateIn` | autocrud/autocrud.go:71-91 | wrong Content-Type: 400 and nothing stored. Failed bind: nothing. Otherwise the record is stored under the fresh id with its `Id` overwritten, answered 201 with the id's hex; an insert error panics and stores nothing |
| `AutoCrud.CreateModel` | autocrud/autocrud.go:71-91 | CreateIn into `"modules"`, whatever collection was registered |
| `AutoCrud.CreateModelCorrected` | autocrud/autocrud.go:71-91 | CreateIn into the registered collection |
| `AutoCrud.UpdateIn` | autocrud/autocrud.go:93-104 | a failed bind changes nothing. Otherwise the document at the path's id is replaced whole, answered 200 "Added"; path text that is not an id, or a store error (including no such id), panics and changes nothing |
| `AutoCrud.UpdateModel` | autocrud/autocrud.go:93-104 | UpdateIn on `"modules"`, whatever collection was registered |
| `AutoCrud.UpdateModelCorrected` | autocrud/autocrud.go:93-104 | UpdateIn on the registered collection |
| `AutoCrud.DeleteModel` | autocrud/autocrud.go:106-113 | removes the path's id from the registered collection and answers 200 "Deleted"; path text that is not an id, or a store error (including no such id), panics and changes nothing |
| `AutoCrud.CreateThenTake` | autocrud/autocrud.go:58-82 | with a collection other than `"modules"`, GET on the id that POST answered with gives 404 |
| `AutoCrud.CreateThenTakeCorrected` | autocrud/autocrud.go:58-82 | with the registered collection used throughout, GET on the id that POST answered with gives 200 with the created record |

## Left out

- `mgoauth/mgostore.go` and `ginutil/envvarutil.go` are not part of this model. They only copy options into the session-store library and fetch the database from the context.
- `gob.Register`, `log` output, the route-registration log lines, and gin's recovery of a panic into a 500 reply. A panic only sets `Context.panicked`.
- SHA-256, RSA and RS256 are abstract functions. The constant-time property of the byte comparison is a timing property and is not stated; only its value is. Altering a signature is caught only as far as the `verify` function says.
- jwt-go's `ParseFromRequest` header extraction. The bearer token is an argument of `UserId` and `UserOf`.
- Providers.ParseToken: every case in which jwt-go returns a nil token is out of the model. That covers a request with no token, and a token that does not have exactly three dot-separated segments (reported with the malformed bit). In the program `token.Valid` at `mgoauth/jwtprovider.go:79` then dereferences nil and the request panics. The model's verifier always yields a token, so for those inputs `JwtUserId` gives `""` and `JwtUser` nil where the program panics. "Malformed token" at line 83 is reached only by a three-part token that fails to decode.
- The text of `parseToken`'s errors (`mgoauth/jwtprovider.go:83-91`). Its only callers discard the error, so the model keeps only the category (`TokenError`). The detail of `doLogin`'s error text is kept as its parts (the submitted user and the lookup error).
- JSON decoding and binding. A body decodes into `Some(value)` or fails (`None`). When gin's `BindWith` fails it replies 400 itself; that framework reply is not modelled, and the handlers themselves then write nothing.
- PostLogin ignores the bind result and uses whatever the bind left in the user. The model takes that value as its argument.
- Store.Database.FindAll: mgo reads `Limit(0)` as no limit at all. The model takes only a positive limit, which is all the handlers pass (50).
- ObjectIdHex: the panic message quotes the text with Go's `%q`. The model appends the text unescaped.
- Reflection. The bound type is a generic `Record` with an `Id` and a field map. Its JSON puts the id under `"Id"`, and only the struct kind is checked. A model type without an `Id` field (where `FieldByName("Id").Set` would panic) cannot be expressed.
- Update: the stored document keeps its `_id`. A body carrying a different id, which the server would refuse, is not modelled.
- A user registered with an empty id is stored under key `""`. The server would generate an `_id`, because the field is tagged `omitempty`.
- A nil `Roles` map and an empty one both read as no roles. The model does not distinguish them in the JSON (`null` versus `{}`).
- The natural order in which the store returns documents to `listModel`. The model lets any order through and states only which documents come back and how many.
- Concurrency between requests, and the wall clock (taken as arguments).

## Findings

| source | as written | input that shows it | evidently intended | confidence | as-written member | corrected member |
|---|---|---|---|---|---|---|
| autocrud/autocrud.go:43 | list, create and update use collection `"modules"`, while get and delete use the registered collection | `Crud(r, model, "posts")`, then POST a record, then GET `/<returned id>` | every handler uses `cm.collectionName`, so a created record can be fetched | high, not executed | `AutoCrud.CreateThenTake` | `AutoCrud.CreateThenTakeCorrected` |
| autocrud/autocrud.go:44-47 | after a store error writes 400, the handler goes on and writes 200 with `null` | any list request while the store reports an error | return after the 400 | high, not executed | `AutoCrud.ListModel` | `AutoCrud.ListModelCorrected` |
| autocrud/autocrud.go:54-58 | latent: after an id that fails `Valid()` writes 400 and aborts, the handler still queries the store. Today it cannot happen: `bson.ObjectIdHex` at line 53 panics on bad text (GET `/xyz` ends in a panic) and returns only valid ids, so the check is dead code | an id that fails `Valid()` reaching line 54, which needs a non-panicking id parser | return after the abort | low (latent, unreachable as written), not executed | `AutoCrud.TakeWithId` | `AutoCrud.TakeWithIdCorrected` |
