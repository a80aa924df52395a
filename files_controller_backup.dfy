/** The second files controller: the same postUpload as FilesController
    (its first ninety-one lines are identical, so the upload is modelled
    once, there), plus `getShow`, an owner-scoped lookup, and `getIndex`,
    a skip/limit listing built with a push loop. */
module FilesControllerBackup {
  import opened Common
  import opened Records
  import opened Stores
  import opened FilesController

  const NotFound: Response := Reply(404, ErrorBody("Not found"))

  // ---------------------------------------------------------------------
  // getShow
  // ---------------------------------------------------------------------

  /** The filter `{ _id: ObjectId(id), userId: user._id }`. */
  function OwnedWithId(id: string, userId: string): FileRecord -> bool {
    (f: FileRecord) => f.id == id && f.userId == userId
  }

  /** getShow: the six public fields of the caller's own file `id`. */
  method GetShow(db: Database, cache: SessionCache, token: Option<string>, id: string)
    returns (resp: Response)
    ensures !Authenticate(token, cache.values, db.users).Authed? ==> resp == Unauthorized
    ensures Authenticate(token, cache.values, db.users).Authed? ==>
      var owner := Authenticate(token, cache.values, db.users).user.id;
      && ((forall j :: 0 <= j < |db.files| ==> !(db.files[j].id == id && db.files[j].userId == owner))
          <==> resp == NotFound)
      && (resp != NotFound ==>
            && FindOne(db.files, OwnedWithId(id, owner)).Some?
            && resp == Reply(200, FileView(ToView(FindOne(db.files, OwnedWithId(id, owner)).value))))
  {
    var caller := Authenticate(token, cache.values, db.users);
    if !caller.Authed? {
      return Unauthorized;
    }
    var user := caller.user;
    var fileDocument := FindOne(db.files, OwnedWithId(id, user.id));
    if fileDocument.None? {
      return NotFound;
    }
    assert OwnedWithId(id, user.id)(fileDocument.value);
    resp := Reply(200, FileView(ToView(fileDocument.value)));
  }

  /** Whoever asks, a file is only shown to its owner: a file that exists
      under another owner is reported exactly as a missing one. */
  lemma ShowIsOwnerScoped(files: seq<FileRecord>, id: string, caller: string)
    requires forall j :: 0 <= j < |files| ==> files[j].id == id ==> files[j].userId != caller
    ensures FindOne(files, OwnedWithId(id, caller)).None?
  {
  }

  // ---------------------------------------------------------------------
  // getIndex
  // ---------------------------------------------------------------------

  const PageSize: nat := 20

  function Min(a: int, b: int): int {
    if a <= b then a else b
  }

  /** The `$match: { parentId }` stage: the files whose `parentId` field is
      the string `p`, in natural order. */
  function Children(files: seq<FileRecord>, p: string): (r: seq<FileRecord>)
    ensures |r| <= |files|
    ensures forall f :: f in r <==> f in files && f.parentId == Parent(p)
    decreases |files|
  {
    if files == [] then []
    else
      var rest := Children(files[1..], p);
      assert forall f :: f in files <==> f == files[0] || f in files[1..];
      if files[0].parentId == Parent(p) then [files[0]] + rest else rest
  }

  /** The documents the pipeline filters: all of them when the `parentId`
      query parameter is falsy (the `parentId === 0` branch), else those
      whose `parentId` field equals it. */
  function Selection(files: seq<FileRecord>, parentId: Option<string>): seq<FileRecord> {
    if Truthy(parentId) then Children(files, parentId.value) else files
  }

  /** The `$skip: page * 20` and `$limit: 20` stages. */
  function Window<T>(s: seq<T>, page: nat): (w: seq<T>)
    ensures |w| == if |s| <= page * PageSize then 0 else Min(PageSize, |s| - page * PageSize)
    ensures forall i :: 0 <= i < |w| ==> w[i] == s[page * PageSize + i]
  {
    var start := page * PageSize;
    if |s| <= start then [] else s[start..Min(|s|, start + PageSize)]
  }

  /** The documents getIndex lists for a query. */
  function Listed(files: seq<FileRecord>, parentId: Option<string>, page: nat): seq<FileRecord> {
    Window(Selection(files, parentId), page)
  }

  /** getIndex: the listing, each document projected to its six public
      fields in a push loop. */
  method GetIndex(db: Database, cache: SessionCache, token: Option<string>,
                  parentId: Option<string>, page: nat)
    returns (resp: Response)
    ensures !Authenticate(token, cache.values, db.users).Authed? ==> resp == Unauthorized
    ensures Authenticate(token, cache.values, db.users).Authed? ==>
      var items := Listed(db.files, parentId, page);
      && resp.Reply? && resp.status == 200 && resp.payload.FileViews?
      && |resp.payload.views| == |items| <= PageSize
      && forall i :: 0 <= i < |items| ==> resp.payload.views[i] == ToView(items[i])
  {
    var caller := Authenticate(token, cache.values, db.users);
    if !caller.Authed? {
      return Unauthorized;
    }
    var files := Listed(db.files, parentId, page);
    var filesArray: seq<View> := [];
    var i := 0;
    while i < |files|
      invariant 0 <= i <= |files|
      invariant |filesArray| == i
      invariant forall k :: 0 <= k < i ==> filesArray[k] == ToView(files[k])
    {
      filesArray := filesArray + [ToView(files[i])];
      i := i + 1;
    }
    resp := Reply(200, FileViews(filesArray));
  }

  // ---------------------------------------------------------------------
  // Properties of the listing
  // ---------------------------------------------------------------------

  /** Every listed document is in the store and, under a truthy
      `parentId` query, is a child of it. */
  lemma ListedFromStore(files: seq<FileRecord>, parentId: Option<string>, page: nat, i: nat)
    requires i < |Listed(files, parentId, page)|
    ensures Listed(files, parentId, page)[i] in files
    ensures Truthy(parentId) ==> Listed(files, parentId, page)[i].parentId == Parent(parentId.value)
  {
  }

  /** The query string "0" is a filter like any other: it never lists a
      root-level document, whose `parentId` is the number 0. */
  lemma ZeroStringListsNoRootFile(files: seq<FileRecord>, page: nat, i: nat)
    requires i < |Listed(files, Some("0"), page)|
    ensures Listed(files, Some("0"), page)[i].parentId != Root
  {
  }

  /** Pages 0 to k of a sequence, one after the other. */
  function PagesThrough<T>(s: seq<T>, k: nat): seq<T> {
    if k == 0 then Window(s, 0) else PagesThrough(s, k - 1) + Window(s, k)
  }

  /** Reading pages 0 to k in turn gives the first 20 * (k + 1) elements
      in their order: no element is repeated or skipped. */
  lemma {:induction false} PagesThroughIsPrefix<T>(s: seq<T>, k: nat)
    ensures PagesThrough(s, k) == s[..Min(|s|, (k + 1) * PageSize)]
  {
    if k > 0 {
      PagesThroughIsPrefix(s, k - 1);
      var w := Window(s, k);
      if |s| <= k * PageSize {
        assert w == [];
      } else {
        assert w == s[k * PageSize..Min(|s|, (k + 1) * PageSize)];
        assert s[..k * PageSize] + s[k * PageSize..Min(|s|, (k + 1) * PageSize)]
            == s[..Min(|s|, (k + 1) * PageSize)];
      }
    }
  }

  /** The filter keeps store order: filtering a concatenation is
      concatenating the filtered parts. */
  lemma {:induction false} ChildrenOfConcat(a: seq<FileRecord>, b: seq<FileRecord>, p: string)
    ensures Children(a + b, p) == Children(a, p) + Children(b, p)
    decreases |a|
  {
    if a != [] {
      assert (a + b)[1..] == a[1..] + b;
      ChildrenOfConcat(a[1..], b, p);
    } else {
      assert a + b == b;
    }
  }

  /** Children keeps the `_id`s unique. */
  lemma {:induction false} ChildrenUniqueIds(files: seq<FileRecord>, p: string)
    requires UniqueIds(files)
    ensures UniqueIds(Children(files, p))
    decreases |files|
  {
    if files != [] {
      assert UniqueIds(files[1..]) by {
        forall i, j | 0 <= i < j < |files[1..]| ensures files[1..][i].id != files[1..][j].id {
          assert files[1..][i] == files[i + 1] && files[1..][j] == files[j + 1];
        }
      }
      ChildrenUniqueIds(files[1..], p);
      var rest := Children(files[1..], p);
      if files[0].parentId == Parent(p) {
        var r := [files[0]] + rest;
        forall i, j | 0 <= i < j < |r| ensures r[i].id != r[j].id {
          if i == 0 {
            assert r[j] in files[1..];
            var m :| 0 <= m < |files[1..]| && files[1..][m] == r[j];
            assert files[m + 1] == r[j];
          } else {
            assert r[i] == rest[i - 1] && r[j] == rest[j - 1];
          }
        }
      }
    }
  }

  /** With unique `_id`s in the store, pages 0 to k of a listing never show
      one document twice. */
  lemma PagesHaveNoDuplicateIds(files: seq<FileRecord>, parentId: Option<string>, k: nat)
    requires UniqueIds(files)
    ensures UniqueIds(PagesThrough(Selection(files, parentId), k))
  {
    var s := Selection(files, parentId);
    if Truthy(parentId) {
      ChildrenUniqueIds(files, parentId.value);
    }
    PagesThroughIsPrefix(s, k);
    var pre := s[..Min(|s|, (k + 1) * PageSize)];
    forall i, j | 0 <= i < j < |pre| ensures pre[i].id != pre[j].id {
      assert pre[i] == s[i] && pre[j] == s[j];
    }
  }
}
