# Files manager: upload, show, listing and sessions

A Dafny model of the request handlers of a small Express file service. The
service keeps file metadata in MongoDB (collections `users` and `files`),
sessions in Redis (`auth_<token>` maps to a user id for 24 hours), and file
payloads on local disk. This model covers:

- `FilesController.postUpload`. The handler first authenticates the `X-Token`
  header. It then checks `name`, `type`, `data` and `parentId` in that order,
  and the first failure wins. On success it inserts one document. A folder
  gets no `localPath`. A file or an image gets `localPath = <folder>/<uuid>`,
  and its decoded payload is written there.
- `getShow`, an owner-scoped lookup by `(_id, userId)` that returns the six
  public fields.
- `getIndex`, a listing that filters on `parentId` (or not at all when the
  query parameter is falsy), skips `page * 20` documents, takes 20 and
  projects each one in a push loop.
- `AuthController.getConnect` and `getDisconnect`. `getConnect` parses the
  HTTP Basic `Authorization` header (section 2 of RFC 7617) into credentials
  and issues a session. `getDisconnect` revokes one.

The stores are in-memory state in `stores.dfy`:

- `Database` holds the two collections as sequences in natural order.
  `findOne` is the first match, and `insertOne` appends.
- `SessionCache` holds the Redis keys, their values and their TTLs as maps.
- `Disk` maps paths to byte strings.

Handlers that change state are methods whose postconditions give the new
state as a function of the old one. The decisions they make are pure
functions (`Authenticate`, `CheckUpload`, `Upload`, `CheckLogin`,
`Listed`), and the properties are proved about those functions.

The two files controllers have identical `postUpload` code (lines 1-91 of
both files), so it is modelled once, in module `FilesController`. Module
`FilesControllerBackup` adds `getShow` and `getIndex`.

Values made outside the handlers are parameters: the ObjectId that
`insertOne` assigns, `uuidv4()`, `FOLDER_PATH`, whether the disk write
succeeds, the base64 decoder and `sha1`.

The model follows the code where it differs from the design description of
the service:

- The parent check queries `{ parentId: ObjectId(parentId) }`, not `_id`. A
  parent therefore "exists" when some document has that value *as its own
  `parentId`*, and the type check applies to the first such document
  (`ParentLookedUpByParentField`, `ParentMatchedByItsParentField`). So a file
  cannot be created inside a folder just created (`FolderThenChildIsParentNotFound`).
- `getIndex` applies no filter at all when `parentId` is absent or empty. It
  does not default to root. The string `"0"` is a real filter, and it never
  matches a root document, whose `parentId` is the number 0
  (`ZeroStringListsNoRootFile`). Listing is not scoped to the owner.
- `getShow` is scoped to the owner and ignores `isPublic`.
- In `postUpload`, a session whose user no longer exists gets
  `{ error: 'Unauthorized' }` with no status set, so Express sends 200.
  `getShow` and `getIndex` answer 401 in the same case.
- `getDisconnect` without an `X-Token` header looks up the key
  `auth_undefined`.
- `getConnect` throws, and sends no response, in three cases: there is no
  `Authorization` header, there is no second space-separated segment, or the
  decoded credentials contain no `:`. In the last case `sha1(undefined)`
  throws.

## Model

| member | source | states |
|---|---|---|
| `Common.Split` | controllers/AuthController.js:10-11 | `split(sep)` yields at least one segment, none containing the separator, and joining them with the separator gives back the input |
| `Common.SplitJoin` | controllers/AuthController.js:11 | on separator-free segments, splitting the join gives back the segments (so split and join are inverse) |
| `Common.SplitPrefix` | controllers/AuthController.js:11 | a separator-free word followed by the separator splits off as the first segment |
| `Common.SplitNoSep` | controllers/AuthController.js:11 | a string without the separator splits into itself alone |
| `Common.FirstIndex` | controllers/FilesController.js:41 | the position found is the first one that matches the filter; none is found only when nothing matches |
| `Common.FindOne` | controllers/FilesControllerBackup.js:108-110 | `findOne` returns a matching document exactly when one exists, and it is the one at the first matching position |
| `Records.KindOf` | controllers/FilesController.js:24-26 | a type is accepted exactly when it is "folder", "file" or "image", and the kind found spells the same string |
| `Records.KindOfName` | controllers/FilesController.js:24 | the spelling of each kind is accepted as that kind |
| `Stores.Lookup` | controllers/AuthController.js:27 | `get` returns the key's value when the key is present and null otherwise |
| `Stores.Database.InsertOne` | controllers/FilesController.js:88-89 | `insertOne` gives the document the fresh id, appends it to `files` and keeps ids unique; `users` is unchanged |
| `Stores.SessionCache.Set` | controllers/AuthController.js:20 | the key now maps to the value with the given TTL; no other key changes |
| `Stores.SessionCache.Del` | controllers/AuthController.js:30 | the key and its TTL are removed; no other key changes |
| `Stores.Disk.WriteFile` | controllers/FilesController.js:83-86 | a write that succeeds records the bytes at the path; a failed write changes nothing and is not reported |
| `FilesController.SessionUser` | controllers/FilesController.js:9-13 | a user id is resolved exactly when the token is truthy and its `auth_<token>` value is present and non-empty, and the id is that value |
| `FilesController.Authenticate` | controllers/FilesControllerBackup.js:94-103 | the caller has no session exactly when the token does not resolve; the user is missing exactly when no user has the resolved id; otherwise the caller is a stored user with that id |
| `FilesController.MessagesDistinct` | controllers/FilesController.js:20-49 | each validation failure has its own error string |
| `FilesController.CheckUpload` | controllers/FilesController.js:20-52 | first failure wins: "Missing name" iff the name is falsy; "Missing type" iff the name is truthy and the type is not one of the three; "Missing data" iff those pass, the type is not folder and data is falsy; "Parent not found" iff those pass, parentId is truthy and no document has it as its parentId; "Parent is not a folder" iff the first such document is not a folder; on success the stored parentId is the given one or root (0) when it is falsy |
| `FilesController.Upload` | controllers/FilesController.js:54-90 | a document is inserted exactly on a 201, which happens exactly when the caller is authenticated and the body passes; the document has the generated id, the caller's userId, the body's name and type, `isPublic` true only when the body sends true (`body.isPublic OR false`) and the checked parentId; a folder gets no localPath and a six-field response; a file or image gets localPath = folder + "/" + uuid and the whole document back |
| `FilesController.PostUpload` | controllers/FilesController.js:8-91 | the response is the one `Upload` gives; `files` grows by exactly the inserted document (by nothing on every failure); `users` is unchanged; the disk gains the decoded payload at the localPath exactly when a file or image is created and the write succeeds |
| `FilesController.UnauthorizedIgnoresBody` | controllers/FilesControllerBackup.js:9-13 | without a resolvable token the answer is 401 "Unauthorized" with nothing inserted, whatever the body |
| `FilesController.MissingUserIgnoresBody` | controllers/FilesController.js:15-18 | a session whose user is gone gets status 200 with error "Unauthorized", and nothing is inserted |
| `FilesController.RejectionIs400` | controllers/FilesController.js:20-49 | an authenticated caller whose body fails a check gets 400 with that check's message, and nothing is inserted |
| `FilesController.FolderNeedsNoData` | controllers/FilesController.js:28-30 | a named folder body with a falsy parentId is accepted whatever `data` is, and is stored at root |
| `FilesController.FileNeedsData` | controllers/FilesControllerBackup.js:28-30 | a named file or image without data fails with "Missing data", before any parent lookup |
| `FilesController.LocalPathIgnoresName` | controllers/FilesControllerBackup.js:74-88 | the localPath depends on the storage folder and the uuid only, not on the name or anything else in the request |
| `FilesController.FolderThenChildIsParentNotFound` | controllers/FilesController.js:41-45 | creating a root folder and then a file whose parentId is that folder's new id answers 400 "Parent not found" |
| `FilesController.ParentLookedUpByParentField` | controllers/FilesController.js:41-45 | a folder whose `_id` is the requested parent is "Parent not found" when no document names it as its parentId |
| `FilesController.ParentMatchedByItsParentField` | controllers/FilesControllerBackup.js:41-52 | a folder document whose parentId field holds the requested value makes the check pass, whatever its own `_id` |
| `FilesControllerBackup.GetShow` | controllers/FilesControllerBackup.js:93-121 | an unauthenticated caller or a session without a user gets 401; otherwise 404 "Not found" iff no file has both that id and the caller as owner, else 200 with the six public fields (no localPath) of the first such file in store order |
| `FilesControllerBackup.ShowIsOwnerScoped` | controllers/FilesControllerBackup.js:108-111 | a file with the requested id owned by someone else is found as little as a missing one |
| `FilesControllerBackup.Children` | controllers/FilesControllerBackup.js:142-144 | the `$match` keeps exactly the documents whose parentId field is the queried string, and is no longer than the store |
| `FilesControllerBackup.Window` | controllers/FilesControllerBackup.js:145-148 | skip `page * 20`, limit 20: at most 20 elements, the ones starting at position `page * 20`, in order |
| `FilesControllerBackup.GetIndex` | controllers/FilesControllerBackup.js:123-167 | an unauthenticated caller or a session without a user gets 401; otherwise 200 with at most 20 views, the i-th being the projection of the i-th listed document |
| `FilesControllerBackup.ListedFromStore` | controllers/FilesControllerBackup.js:135-152 | every listed document is in the store and, under a truthy parentId query, has that parentId |
| `FilesControllerBackup.ZeroStringListsNoRootFile` | controllers/FilesControllerBackup.js:135-148 | the query `parentId=0`, a string, never lists a root-level document |
| `FilesControllerBackup.PagesThroughIsPrefix` | controllers/FilesControllerBackup.js:145-146 | pages 0 to k read in turn are the first 20(k+1) selected documents, in order, with nothing repeated or skipped |
| `FilesControllerBackup.ChildrenOfConcat` | controllers/FilesControllerBackup.js:142-144 | the filter keeps store order: filtering a concatenation concatenates the filtered parts |
| `FilesControllerBackup.ChildrenUniqueIds` | controllers/FilesControllerBackup.js:142-144 | filtering a store with unique ids keeps them unique |
| `FilesControllerBackup.PagesHaveNoDuplicateIds` | controllers/FilesControllerBackup.js:142-152 | with unique ids in the store, pages 0 to k of one listing never show a document twice |
| `AuthController.CheckLogin` | controllers/AuthController.js:9-17 | the handler throws exactly when there is no second header segment or no password after decoding; otherwise no user matches iff no user has that email and sha1(password), and a match is such a user |
| `AuthController.GetConnect` | controllers/AuthController.js:8-22 | a throw or a 401 leaves the cache unchanged; a match stores `auth_<token>` with the user's id and TTL 86400 and returns 200 with that token |
| `AuthController.GetDisconnect` | controllers/AuthController.js:24-37 | a key with a truthy value, read without failure, is deleted (value and TTL) and the answer is 204; otherwise 401 with the cache unchanged, including when the lookup fails |
| `AuthController.BasicTokenOfHeader` | controllers/AuthController.js:10 | for `"<scheme> <token>"` with no other space, the token is the part after the space |
| `AuthController.CredentialsDropLaterSegments` | controllers/AuthController.js:11 | `email:password:...` gives that email and password; later `:`-segments are dropped |
| `AuthController.NoColonThrows` | controllers/AuthController.js:11-12 | decoded credentials without a colon have no password, so the handler throws before any user lookup |
| `AuthController.ConnectThenDisconnectTwice` | controllers/AuthController.js:19-36 | after a successful connect, disconnecting with the issued token gives 204 and removes the key, and a second disconnect gives 401 |

## Left out

- `utils/db.js` (connection setup, `isAlive`, `nbUsers`, `nbFiles`) and `server.js` (Express bootstrap) are not part of this model.
- An ObjectId is identified with its hex string. Invalid id strings make `ObjectId(...)` throw, and that is not modelled. MongoDB would also not equate a string-typed `parentId` field with an ObjectId query value; that BSON type distinction is not modelled either.
- Base64 and UTF-8 decoding, `sha1` and `uuidv4` are function or value parameters. The sha1 library is taken to throw on an undefined password.
- Redis TTL expiry is not modelled: there is no clock. The TTL is only recorded.
- Concurrency between requests is not modelled.
- Store failures are modelled only for the Redis lookup in `getDisconnect`. The rejected promises of the other store calls, and a failing `del`, are out of scope. So is what Express does with a handler that throws.
- `fs.mkdir` and `fs.writeFile` run asynchronously and their errors are only logged. They are modelled as one write that happens in the same step as the insert, with a success flag. Their ordering against the insert is not modelled.
- Body fields are modelled as absent or a string. `isPublic` is modelled as absent or a boolean. Other JSON values (numbers, objects, a truthy non-boolean `isPublic` that would be stored as given) are not modelled.
- `getIndex`'s query coercions are simplified: `page` is a natural number and `parentId` is an absent or string parameter. NaN and negative pages, and repeated query parameters, are not modelled.
- `console.log` output is not modelled.
- Publishing, unpublishing and streaming a file's content are not part of this model. Their handlers are not among the modelled source files.
