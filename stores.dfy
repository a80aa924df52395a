/** In-memory models of the three external stores: the MongoDB database
    (collections `users` and `files` in natural order), the Redis cache
    holding sessions, and the local disk holding file payloads. */
module Stores {
  import opened Common
  import opened Records

  /** No two files share an `_id`. */
  ghost predicate UniqueIds(files: seq<FileRecord>) {
    forall i, j :: 0 <= i < j < |files| ==> files[i].id != files[j].id
  }

  class Database {
    var users: seq<User>
    var files: seq<FileRecord>

    ghost predicate Valid()
      reads this
    {
      UniqueIds(files)
    }

    constructor (users: seq<User>, files: seq<FileRecord>)
      requires UniqueIds(files)
      ensures Valid()
      ensures this.users == users && this.files == files
    {
      this.users := users;
      this.files := files;
    }

    /** `files.insertOne(doc)`: the driver sets `doc._id` to a fresh
        ObjectId, here `id`, and appends the document. */
    method InsertOne(doc: FileRecord, id: string) returns (stored: FileRecord)
      requires Valid()
      requires forall f :: f in files ==> f.id != id
      modifies this
      ensures Valid()
      ensures stored == doc.(id := id)
      ensures files == old(files) + [stored]
      ensures users == old(users)
    {
      stored := doc.(id := id);
      files := files + [stored];
    }
  }

  /** `redisClient.get(key)`: the stored string, or null. */
  function Lookup(m: map<string, string>, key: string): (r: Option<string>)
    ensures r.Some? <==> key in m
    ensures r.Some? ==> r.value == m[key]
  {
    if key in m then Some(m[key]) else None
  }

  class SessionCache {
    var values: map<string, string>
    /** The time-to-live, in seconds, each key was set with. */
    var ttls: map<string, nat>

    ghost predicate Valid()
      reads this
    {
      ttls.Keys <= values.Keys
    }

    constructor ()
      ensures Valid()
      ensures values == map[] && ttls == map[]
    {
      values := map[];
      ttls := map[];
    }

    /** `redisClient.set(key, value, ttl)`. */
    method Set(key: string, value: string, ttl: nat)
      requires Valid()
      modifies this
      ensures Valid()
      ensures values == old(values)[key := value]
      ensures ttls == old(ttls)[key := ttl]
    {
      values := values[key := value];
      ttls := ttls[key := ttl];
    }

    /** `redisClient.del(key)`. */
    method Del(key: string)
      requires Valid()
      modifies this
      ensures Valid()
      ensures values == old(values) - {key}
      ensures ttls == old(ttls) - {key}
    {
      values := values - {key};
      ttls := ttls - {key};
    }
  }

  class Disk {
    var blobs: map<string, seq<byte>>

    constructor ()
      ensures blobs == map[]
    {
      blobs := map[];
    }

    /** `fs.writeFile(path, data, callback)`: a failure (`ok` false) is
        only logged by the callback, so nothing is written and nothing is
        reported to the caller. */
    method WriteFile(path: string, data: seq<byte>, ok: bool)
      modifies this
      ensures blobs == if ok then old(blobs)[path := data] else old(blobs)
    {
      if ok {
        blobs := blobs[path := data];
      }
    }
  }
}
