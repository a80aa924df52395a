/** `FilesController.postUpload`: authenticate the `X-Token` header, check
    the request body field by field (first failure wins), then insert one
    document into `files` and, for a file or an image, write its payload
    to disk under a generated name. */
module FilesController {
  import opened Common
  import opened Records
  import opened Stores

  // ---------------------------------------------------------------------
  // Authentication, the first steps of every files handler
  // ---------------------------------------------------------------------

  /** The cache key of a session token. */
  function SessionKey(token: string): string {
    "auth_" + token
  }

  /** The user id the session cache holds for the `X-Token` header: none
      when the header is absent or empty, or when the cached value is
      missing or empty (both are falsy). */
  function SessionUser(token: Option<string>, sessions: map<string, string>): (uid: Option<string>)
    ensures uid.Some? <==>
      Truthy(token) && SessionKey(token.value) in sessions && sessions[SessionKey(token.value)] != ""
    ensures uid.Some? ==> uid.value == sessions[SessionKey(token.value)]
  {
    if !Truthy(token) then None
    else
      var cached := Lookup(sessions, SessionKey(token.value));
      if Truthy(cached) then cached else None
  }

  /** The filter `{ _id: ObjectId(uid) }` on `users`. */
  function HasId(uid: string): User -> bool {
    (u: User) => u.id == uid
  }

  /** Who is calling: no session, a session whose user is gone, or a user. */
  datatype Caller = NoSession | NoUser | Authed(user: User)

  function Authenticate(token: Option<string>, sessions: map<string, string>, users: seq<User>): (c: Caller)
    ensures c.NoSession? <==> SessionUser(token, sessions).None?
    ensures c.NoUser? <==>
      SessionUser(token, sessions).Some? &&
      forall j :: 0 <= j < |users| ==> users[j].id != SessionUser(token, sessions).value
    ensures c.Authed? ==> c.user in users && SessionUser(token, sessions) == Some(c.user.id)
  {
    match SessionUser(token, sessions)
    case None => NoSession
    case Some(uid) =>
      match FindOne(users, HasId(uid))
      case None => NoUser
      case Some(u) => Authed(u)
  }

  // ---------------------------------------------------------------------
  // The request body and its validation chain
  // ---------------------------------------------------------------------

  /** The JSON body of an upload; an absent field is `None`. */
  datatype UploadBody = UploadBody(
    name: Option<string>,
    fileType: Option<string>,
    parentId: Option<string>,
    isPublic: Option<bool>,
    data: Option<string>)

  datatype UploadError = MissingName | MissingType | MissingData | ParentNotFound | ParentNotFolder

  /** The `error` string each failure is reported with. */
  function Message(e: UploadError): string {
    match e
    case MissingName => "Missing name"
    case MissingType => "Missing type"
    case MissingData => "Missing data"
    case ParentNotFound => "Parent not found"
    case ParentNotFolder => "Parent is not a folder"
  }

  lemma MessagesDistinct(e1: UploadError, e2: UploadError)
    requires e1 != e2
    ensures Message(e1) != Message(e2)
  {
  }

  /** The body passes the three field checks: a name, a known type, and a
      payload unless the type is folder. */
  predicate FieldsPresent(body: UploadBody) {
    && Truthy(body.name)
    && KindOf(body.fileType).Some?
    && (Truthy(body.data) || KindOf(body.fileType) == Some(Folder))
  }

  /** The filter `{ parentId: ObjectId(p) }` on `files`: it matches the
      documents whose own `parentId` field is `p`, not the one whose
      `_id` is `p`. */
  function HasParentField(p: string): FileRecord -> bool {
    (f: FileRecord) => f.parentId == Parent(p)
  }

  /** The document the parent check inspects for a truthy `parentId`. */
  function ParentDocument(body: UploadBody, files: seq<FileRecord>): Option<FileRecord>
    requires Truthy(body.parentId)
  {
    FindOne(files, HasParentField(body.parentId.value))
  }

  /** What a valid body creates: its kind and its stored `parentId`. */
  datatype Plan = Plan(kind: Kind, parent: ParentRef)

  /** The validation chain of postUpload, in source order. */
  function CheckUpload(body: UploadBody, files: seq<FileRecord>): (r: Result<Plan, UploadError>)
    ensures r == Err(MissingName) <==> !Truthy(body.name)
    ensures r == Err(MissingType) <==> Truthy(body.name) && KindOf(body.fileType).None?
    ensures r == Err(MissingData) <==>
      Truthy(body.name) && KindOf(body.fileType).Some? &&
      KindOf(body.fileType) != Some(Folder) && !Truthy(body.data)
    ensures r == Err(ParentNotFound) <==>
      FieldsPresent(body) && Truthy(body.parentId) &&
      forall j :: 0 <= j < |files| ==> files[j].parentId != Parent(body.parentId.value)
    ensures r == Err(ParentNotFolder) <==>
      FieldsPresent(body) && Truthy(body.parentId) &&
      ParentDocument(body, files).Some? && ParentDocument(body, files).value.kind != Folder
    ensures r.Ok? ==> FieldsPresent(body) && KindOf(body.fileType) == Some(r.value.kind)
    ensures r.Ok? ==> r.value.parent == if Truthy(body.parentId) then Parent(body.parentId.value) else Root
    ensures r.Ok? && Truthy(body.parentId) ==> ParentDocument(body, files).Some? && ParentDocument(body, files).value.kind == Folder
  {
    if !Truthy(body.name) then Err(MissingName)
    else if KindOf(body.fileType).None? then Err(MissingType)
    else
      var kind := KindOf(body.fileType).value;
      if !Truthy(body.data) && kind != Folder then Err(MissingData)
      else if Truthy(body.parentId) then
        match ParentDocument(body, files)
        case None => Err(ParentNotFound)
        case Some(parent) =>
          if parent.kind != Folder then Err(ParentNotFolder)
          else Ok(Plan(kind, Parent(body.parentId.value)))
      else Ok(Plan(kind, Root))
  }

  // ---------------------------------------------------------------------
  // The created document
  // ---------------------------------------------------------------------

  /** Values produced outside the handler: the environment's `FOLDER_PATH`,
      the ObjectId `insertOne` assigns, the `uuidv4()` file name, and
      whether the asynchronous disk write succeeds. */
  datatype Env = Env(folderPath: Option<string>, objectId: string, uuid: string, writeOk: bool)

  const DefaultFolderPath: string := "/tmp/files_manager"

  /** `process.env.FOLDER_PATH || '/tmp/files_manager'`. */
  function FolderPath(env: Env): string {
    if Truthy(env.folderPath) then env.folderPath.value else DefaultFolderPath
  }

  /** `${folderPath}/${filename}`. */
  function StoragePath(env: Env): string {
    FolderPath(env) + "/" + env.uuid
  }

  /** `body.isPublic || false`. */
  function PublicFlag(isPublic: Option<bool>): bool {
    isPublic == Some(true)
  }

  /** The document a successful upload stores. */
  function Created(env: Env, user: User, body: UploadBody, plan: Plan): FileRecord
    requires Truthy(body.name)
  {
    FileRecord(
      env.objectId, body.name.value, plan.kind, plan.parent, PublicFlag(body.isPublic), user.id,
      if plan.kind == Folder then None else Some(StoragePath(env)))
  }

  /** What an upload does: the response it sends and the document it
      inserts, if any. */
  datatype Effect = Effect(response: Response, inserted: Option<FileRecord>)

  function Upload(token: Option<string>, body: UploadBody, sessions: map<string, string>,
                  users: seq<User>, files: seq<FileRecord>, env: Env): (e: Effect)
    // exactly the 201 responses insert a document
    ensures e.inserted.Some? <==> e.response.Reply? && e.response.status == 201
    ensures e.inserted.Some? <==> Authenticate(token, sessions, users).Authed? && CheckUpload(body, files).Ok?
    // the inserted document belongs to the caller and copies the body
    ensures e.inserted.Some? ==>
      var f := e.inserted.value;
      && f.id == env.objectId
      && f.userId == Authenticate(token, sessions, users).user.id
      && body.name == Some(f.name)
      && body.fileType == Some(KindName(f.kind))
      && f.isPublic == (body.isPublic == Some(true))
      && f.parentId == CheckUpload(body, files).value.parent
    // folders get no localPath and a six-field response; files and images
    // get a generated localPath and the whole document back
    ensures e.inserted.Some? && e.inserted.value.kind == Folder ==>
      e.inserted.value.localPath.None? && e.response.payload == FileView(ToView(e.inserted.value))
    ensures e.inserted.Some? && e.inserted.value.kind != Folder ==>
      e.inserted.value.localPath == Some(FolderPath(env) + "/" + env.uuid) &&
      e.response.payload == FileDocument(e.inserted.value)
  {
    match Authenticate(token, sessions, users)
    case NoSession => Effect(Unauthorized, None)
    case NoUser => Effect(Reply(200, ErrorBody("Unauthorized")), None)
    case Authed(user) =>
      match CheckUpload(body, files)
      case Err(err) => Effect(Reply(400, ErrorBody(Message(err))), None)
      case Ok(plan) =>
        var f := Created(env, user, body, plan);
        if plan.kind == Folder then Effect(Reply(201, FileView(ToView(f))), Some(f))
        else Effect(Reply(201, FileDocument(f)), Some(f))
  }

  /** The blob an upload writes: the decoded payload of a file or image,
      at its localPath, when the write succeeds. */
  function Written(e: Effect, body: UploadBody, env: Env, decode: string -> seq<byte>): Option<(string, seq<byte>)>
  {
    if e.inserted.Some? && e.inserted.value.kind != Folder && env.writeOk && body.data.Some? then
      Some((StoragePath(env), decode(body.data.value)))
    else None
  }

  // ---------------------------------------------------------------------
  // The handler
  // ---------------------------------------------------------------------

  /** postUpload against the three stores. `decode` stands for
      `Buffer.from(data, 'base64')`. */
  method PostUpload(db: Database, cache: SessionCache, disk: Disk, token: Option<string>,
                    body: UploadBody, env: Env, decode: string -> seq<byte>)
    returns (resp: Response)
    requires db.Valid()
    requires forall f :: f in db.files ==> f.id != env.objectId
    modifies db, disk
    ensures db.Valid()
    ensures var e := Upload(token, body, cache.values, old(db.users), old(db.files), env);
      && resp == e.response
      && db.files == old(db.files) + (if e.inserted.Some? then [e.inserted.value] else [])
      && db.users == old(db.users)
      && disk.blobs == match Written(e, body, env, decode)
                       case None => old(disk.blobs)
                       case Some((path, bytes)) => old(disk.blobs)[path := bytes]
  {
    var caller := Authenticate(token, cache.values, db.users);
    if caller.NoSession? {
      return Unauthorized;
    }
    if caller.NoUser? {
      // no status is set, so Express sends 200
      return Reply(200, ErrorBody("Unauthorized"));
    }
    var user := caller.user;
    var check := CheckUpload(body, db.files);
    if check.Err? {
      return Reply(400, ErrorBody(Message(check.error)));
    }
    var plan := check.value;
    var dbFile := FileRecord("", body.name.value, plan.kind, plan.parent, PublicFlag(body.isPublic), user.id, None);
    if dbFile.kind == Folder {
      var stored := db.InsertOne(dbFile, env.objectId);
      return Reply(201, FileView(ToView(stored)));
    }
    var folderPath := FolderPath(env);
    var filename := env.uuid;
    var data := decode(body.data.value);
    disk.WriteFile(folderPath + "/" + filename, data, env.writeOk);
    dbFile := dbFile.(localPath := Some(folderPath + "/" + filename));
    var stored := db.InsertOne(dbFile, env.objectId);
    resp := Reply(201, FileDocument(stored));
  }

  // ---------------------------------------------------------------------
  // Properties of an upload
  // ---------------------------------------------------------------------

  /** A missing token or a token without a session is answered with 401
      whatever the body says, and nothing is inserted. */
  lemma UnauthorizedIgnoresBody(token: Option<string>, b1: UploadBody, b2: UploadBody,
                                sessions: map<string, string>, users: seq<User>,
                                files: seq<FileRecord>, env: Env)
    requires SessionUser(token, sessions).None?
    ensures Upload(token, b1, sessions, users, files, env) == Effect(Unauthorized, None)
    ensures Upload(token, b1, sessions, users, files, env) == Upload(token, b2, sessions, users, files, env)
  {
  }

  /** A session whose user is gone gets an error body with status 200,
      whatever the body says, and nothing is inserted. */
  lemma MissingUserIgnoresBody(token: Option<string>, body: UploadBody,
                               sessions: map<string, string>, users: seq<User>,
                               files: seq<FileRecord>, env: Env)
    requires Authenticate(token, sessions, users).NoUser?
    ensures Upload(token, body, sessions, users, files, env) == Effect(Reply(200, ErrorBody("Unauthorized")), None)
  {
  }

  /** For an authenticated caller, every failed check is a 400 carrying
      that check's message, and nothing is inserted. */
  lemma RejectionIs400(token: Option<string>, body: UploadBody,
                       sessions: map<string, string>, users: seq<User>,
                       files: seq<FileRecord>, env: Env)
    requires Authenticate(token, sessions, users).Authed?
    requires CheckUpload(body, files).Err?
    ensures Upload(token, body, sessions, users, files, env) ==
            Effect(Reply(400, ErrorBody(Message(CheckUpload(body, files).error))), None)
  {
  }

  /** A folder needs no payload: a folder body with a name and any
      falsy parentId is accepted whatever `data` is. */
  lemma FolderNeedsNoData(body: UploadBody, files: seq<FileRecord>)
    requires Truthy(body.name) && body.fileType == Some("folder") && !Truthy(body.parentId)
    ensures CheckUpload(body, files) == Ok(Plan(Folder, Root))
  {
  }

  /** A file or an image without a payload fails with "Missing data", even
      when its parentId could not be resolved. */
  lemma FileNeedsData(body: UploadBody, files: seq<FileRecord>)
    requires Truthy(body.name) && (body.fileType == Some("file") || body.fileType == Some("image"))
    requires !Truthy(body.data)
    ensures CheckUpload(body, files) == Err(MissingData)
  {
  }

  /** The generated localPath depends on the storage folder and the uuid
      alone: two uploads that differ in everything but those get the same
      path. */
  lemma LocalPathIgnoresName(t1: Option<string>, t2: Option<string>, b1: UploadBody, b2: UploadBody,
                             s1: map<string, string>, s2: map<string, string>,
                             u1: seq<User>, u2: seq<User>, f1: seq<FileRecord>, f2: seq<FileRecord>,
                             env1: Env, env2: Env)
    requires env1.folderPath == env2.folderPath && env1.uuid == env2.uuid
    requires Upload(t1, b1, s1, u1, f1, env1).inserted.Some?
    requires Upload(t2, b2, s2, u2, f2, env2).inserted.Some?
    requires Upload(t1, b1, s1, u1, f1, env1).inserted.value.kind != Folder
    requires Upload(t2, b2, s2, u2, f2, env2).inserted.value.kind != Folder
    ensures Upload(t1, b1, s1, u1, f1, env1).inserted.value.localPath ==
            Upload(t2, b2, s2, u2, f2, env2).inserted.value.localPath
  {
  }

  /** Creating a folder at the root and then a file whose parentId is that
      folder's id fails: no document has the folder's id as its parentId. */
  lemma FolderThenChildIsParentNotFound(token: Option<string>, sessions: map<string, string>,
                                        users: seq<User>, folderName: string, fileName: string,
                                        data: string, env1: Env, env2: Env)
    requires Authenticate(token, sessions, users).Authed?
    requires folderName != "" && fileName != "" && data != "" && env1.objectId != ""
    ensures var folderBody := UploadBody(Some(folderName), Some("folder"), None, None, None);
      var first := Upload(token, folderBody, sessions, users, [], env1);
      var fileBody := UploadBody(Some(fileName), Some("file"), Some(env1.objectId), None, Some(data));
      && first.inserted.Some? && first.inserted.value.id == env1.objectId
      && Upload(token, fileBody, sessions, users, [first.inserted.value], env2).response
         == Reply(400, ErrorBody("Parent not found"))
  {
  }

  /** The parent check as written: a folder whose `_id` is the requested
      parent is not found unless some document names that value as its
      own `parentId`. */
  lemma ParentLookedUpByParentField(body: UploadBody, p: string, folder: FileRecord)
    requires FieldsPresent(body) && body.parentId == Some(p) && p != ""
    requires folder.id == p && folder.kind == Folder && folder.parentId == Root
    ensures CheckUpload(body, [folder]) == Err(ParentNotFound)
  {
  }

  /** ... and a document whose `parentId` field holds the requested value
      makes the check succeed when that document is a folder, whatever
      its `_id` is. */
  lemma ParentMatchedByItsParentField(body: UploadBody, p: string, sibling: FileRecord)
    requires FieldsPresent(body) && body.parentId == Some(p) && p != ""
    requires sibling.parentId == Parent(p) && sibling.kind == Folder && sibling.id != p
    ensures CheckUpload(body, [sibling]) == Ok(Plan(KindOf(body.fileType).value, Parent(p)))
  {
  }
}
