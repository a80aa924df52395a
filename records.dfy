/** The documents of the `users` and `files` collections, the six-field
    public view of a file, and the HTTP responses the handlers send. */
module Records {
  import opened Common

  /** A document of the `users` collection; `password` holds the SHA-1
      hash of the password. */
  datatype User = User(id: string, email: string, password: string)

  /** The three accepted values of a file's `type`. */
  datatype Kind = Folder | File | Image

  /** The spelling of a kind in requests and documents. */
  function KindName(k: Kind): string {
    match k
    case Folder => "folder"
    case File => "file"
    case Image => "image"
  }

  /** `['folder', 'file', 'image'].includes(type)`, giving the kind. */
  function KindOf(t: Option<string>): (k: Option<Kind>)
    ensures k.Some? <==> t == Some("folder") || t == Some("file") || t == Some("image")
    ensures k.Some? ==> t == Some(KindName(k.value))
  {
    match t
    case Some("folder") => Some(Folder)
    case Some("file") => Some(File)
    case Some("image") => Some(Image)
    case _ => None
  }

  lemma KindOfName(k: Kind)
    ensures KindOf(Some(KindName(k))) == Some(k)
  {
  }

  /** The stored `parentId` of a file: the number 0 for the root, or the
      value the client supplied. */
  datatype ParentRef = Root | Parent(id: string)

  /** A document of the `files` collection. `id` is the `_id` the store
      assigns on insertion; `localPath` is absent for folders. */
  datatype FileRecord = FileRecord(
    id: string,
    name: string,
    kind: Kind,
    parentId: ParentRef,
    isPublic: bool,
    userId: string,
    localPath: Option<string>)

  /** The six fields a client sees of a file: everything but `localPath`. */
  datatype View = View(
    id: string,
    userId: string,
    name: string,
    kind: Kind,
    isPublic: bool,
    parentId: ParentRef)

  function ToView(f: FileRecord): View {
    View(f.id, f.userId, f.name, f.kind, f.isPublic, f.parentId)
  }

  /** The JSON body of a response. */
  datatype Payload =
    | ErrorBody(error: string)
    | FileView(view: View)
    | FileDocument(doc: FileRecord)
    | FileViews(views: seq<View>)
    | TokenBody(token: string)
    | NoBody

  /** What a handler does with the response: send a status and a body, or
      throw before sending anything (the promise it returns rejects). */
  datatype Response = Reply(status: int, payload: Payload) | Threw

  const Unauthorized: Response := Reply(401, ErrorBody("Unauthorized"))
}
