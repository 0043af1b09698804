// _FileHandleCache: local files waiting to be uploaded get a placeholder
// handle at once; fetching later uploads each pending file, overwrites its
// placeholder in place (so a chat already holding it sees the result) and
// caches the fetched handle under the file's name and content digest.

module FileHandles {
  import opened JsonValue
  import opened History
  import opened SdkErrors

  /** _LocalFileData: a name and the file's bytes, already read. */
  datatype LocalFileData = LocalFileData(name: string, rawData: seq<bv8>)

  /** The name a local file gets: the one given, unless it is missing or empty. */
  function LocalFile(defaultName: string, rawData: seq<bv8>, name: Option<string>): (f: LocalFileData)
    ensures f.rawData == rawData
    ensures f.name == defaultName <==> name.None? || name.value == "" || name.value == defaultName
  {
    LocalFileData(if name.Some? && name.value != "" then name.value else defaultName, rawData)
  }

  /** _get_cache_key: the name and the SHA-256 digest of the contents. */
  type CacheKey = (string, seq<bv8>)

  function CacheKeyOf(file: LocalFileData, sha256: seq<bv8> -> seq<bv8>): CacheKey
  {
    (file.name, sha256(file.rawData))
  }

  /** The placeholder handed out before a file is uploaded. */
  function Placeholder(file: LocalFileData): (h: FileHandle)
    ensures h.name == file.name && h.sizeBytes == -1
  {
    FileHandle(file.name, "<file addition pending>", -1, "unknown")
  }

  /** A FileHandle object: chats hold it by reference. */
  class FileHandleRef {
    var handle: FileHandle

    constructor (handle: FileHandle)
      ensures this.handle == handle
    {
      this.handle := handle;
    }
  }

  /** A file waiting for its upload: its key, its data, and the placeholder handed out for it. */
  datatype PendingFile = PendingFile(key: CacheKey, file: LocalFileData, placeholder: FileHandleRef)

  /** Where a key sits among the pending files (a dict keeps insertion order). */
  function FindPending(pending: seq<PendingFile>, key: CacheKey): (r: Option<nat>)
    ensures r.Some? ==> r.value < |pending| && pending[r.value].key == key
    ensures r.None? ==> forall i :: 0 <= i < |pending| ==> pending[i].key != key
  {
    if pending == [] then None
    else if pending[|pending| - 1].key == key then Some(|pending| - 1)
    else FindPending(pending[..|pending| - 1], key)
  }

  /** The keys of the first n pending files. */
  function PendingKeys(pending: seq<PendingFile>, n: nat): (keys: set<CacheKey>)
    requires n <= |pending|
  {
    if n == 0 then {} else PendingKeys(pending, n - 1) + {pending[n - 1].key}
  }

  /** The keys of the first n pending files are exactly theirs. */
  lemma {:induction false} PendingKeysHold(pending: seq<PendingFile>, n: nat, k: CacheKey)
    requires n <= |pending|
    ensures k in PendingKeys(pending, n) <==> exists j :: 0 <= j < n && pending[j].key == k
  {
    if n > 0 {
      PendingKeysHold(pending, n - 1, k);
    }
  }

  class FileHandleCache {
    var pending: seq<PendingFile>
    var cached: map<CacheKey, FileHandleRef>
    /** Every placeholder handed out so far. */
    ghost var Repr: set<FileHandleRef>

    /** Pending keys are distinct and not cached, and no two pending files share a placeholder. */
    ghost predicate Valid()
      reads this
    {
      && (forall i :: 0 <= i < |pending| ==> pending[i].placeholder in Repr)
      && (forall i :: 0 <= i < |pending| ==> pending[i].key !in cached)
      && (forall i, j :: 0 <= i < j < |pending| ==> pending[i].key != pending[j].key)
      && (forall i, j :: 0 <= i < j < |pending| ==> pending[i].placeholder != pending[j].placeholder)
    }

    constructor ()
      ensures Valid()
      ensures pending == [] && cached == map[]
    {
      pending := [];
      cached := map[];
      Repr := {};
    }

    /**
     * _get_file_handle: the cached handle if the file was fetched, else the
     * pending placeholder, else a new placeholder queued for fetching. So a
     * file asked for twice gets the same handle object both times.
     */
    method GetFileHandle(file: LocalFileData, sha256: seq<bv8> -> seq<bv8>) returns (h: FileHandleRef)
      requires Valid()
      modifies this
      ensures Valid()
      ensures cached == old(cached)
      ensures var key := CacheKeyOf(file, sha256);
        key in old(cached) ==> h == old(cached)[key] && pending == old(pending)
      ensures var key := CacheKeyOf(file, sha256);
        key !in old(cached) && FindPending(old(pending), key).Some? ==>
        h == old(pending)[FindPending(old(pending), key).value].placeholder && pending == old(pending)
      ensures var key := CacheKeyOf(file, sha256);
        key !in old(cached) && FindPending(old(pending), key).None? ==>
        fresh(h) && h.handle == Placeholder(file) && pending == old(pending) + [PendingFile(key, file, h)]
    {
      var key := CacheKeyOf(file, sha256);
      if key in cached {
        return cached[key];
      }
      var found := FindPending(pending, key);
      if found.Some? {
        return pending[found.value].placeholder;
      }
      h := new FileHandleRef(Placeholder(file));
      pending := pending + [PendingFile(key, file, h)];
      Repr := Repr + {h};
    }

    /** _get_pending_files_to_fetch: the pending files are handed over and the pending set emptied. */
    method TakePending() returns (files: seq<PendingFile>)
      modifies this
      ensures files == old(pending) && pending == [] && cached == old(cached) && Repr == old(Repr)
    {
      files := pending;
      pending := [];
    }

    /**
     * One step of _fetch_file_handles: the handle the server returned for
     * the file is cached under its key, and the file's placeholder takes
     * the returned fields (keeping its place in any chat).
     */
    method FetchOne(key: CacheKey, placeholder: FileHandleRef, returned: FileHandle) returns (fetched: FileHandleRef)
      modifies this, placeholder
      ensures pending == old(pending) && Repr == old(Repr)
      ensures cached == old(cached)[key := fetched]
      ensures fresh(fetched) && fetched !in Repr && fetched.handle == returned
      ensures placeholder.handle == returned
    {
      fetched := new FileHandleRef(returned);
      placeholder.handle := fetched.handle;
      cached := cached[key := fetched];
    }

    /**
     * The loop of _fetch_file_handles over the files taken from the pending
     * set: each is uploaded in turn (the upload is a server call:
     * `returned[i]` is what it gives back for the i-th file, or the error it
     * raises), its placeholder takes the returned fields and the returned
     * handle is cached under its key. The first failing upload ends the
     * loop with its error; the files from there on are left as they were.
     * `fetched` names the returned handle objects.
     */
    method FetchEach(files: seq<PendingFile>, returned: seq<Result<FileHandle>>)
      returns (r: Result<()>, ghost fetched: seq<FileHandleRef>)
      requires |returned| == |files|
      requires forall j :: 0 <= j < |files| ==> files[j].placeholder in Repr
      requires forall j, l :: 0 <= j < l < |files| ==> files[j].placeholder != files[l].placeholder
      modifies this, Repr
      ensures pending == old(pending) && Repr == old(Repr) && |fetched| == FirstFailure(returned)
      ensures r.Ok? <==> |fetched| == |files|
      ensures r.Err? ==> r.error == returned[|fetched|].error
      ensures cached == CacheAfter(old(cached), files, fetched, |fetched|)
      ensures forall j :: 0 <= j < |fetched| ==> fresh(fetched[j]) && fetched[j].handle == returned[j].value
      ensures forall j :: 0 <= j < |fetched| ==> files[j].placeholder.handle == returned[j].value
      ensures forall j :: |fetched| <= j < |files| ==> files[j].placeholder.handle == old(files[j].placeholder.handle)
    {
      fetched := [];
      var i := 0;
      while i < |files| && returned[i].Ok?
        invariant 0 <= i <= |files| && |fetched| == i
        invariant forall j :: 0 <= j < i ==> returned[j].Ok?
        invariant pending == old(pending) && Repr == old(Repr)
        invariant cached == CacheAfter(old(cached), files, fetched, i)
        invariant forall j :: 0 <= j < i ==> fresh(fetched[j]) && fetched[j] !in Repr
        invariant forall j :: 0 <= j < i ==> fetched[j].handle == returned[j].value && files[j].placeholder.handle == returned[j].value
        invariant forall j :: i <= j < |files| ==> files[j].placeholder.handle == old(files[j].placeholder.handle)
      {
        var file := files[i];
        assert forall j :: 0 <= j < i ==> files[j].placeholder != file.placeholder && fetched[j] != file.placeholder;
        assert forall j :: i < j < |files| ==> files[j].placeholder != file.placeholder;
        var handle := FetchOne(file.key, file.placeholder, returned[i].value);
        assert forall j :: 0 <= j < i ==> fetched[j].handle == returned[j].value && files[j].placeholder.handle == returned[j].value;
        CacheAfterStep(old(cached), files, fetched, handle);
        fetched := fetched + [handle];
        i := i + 1;
      }
      FirstFailureAt(returned, i);
      if i < |files| {
        r := Err(returned[i].error);
      } else {
        r := Ok(());
      }
    }

    /**
     * _fetch_file_handles: the pending files are taken and fetched in order
     * until an upload fails. Afterwards nothing is pending. Each file before
     * the failure is cached with a new handle holding what the server
     * returned, and its placeholder holds the same fields; earlier cache
     * entries stay as they were. The files from the failure on are neither
     * pending nor cached, and their placeholders keep their old fields.
     */
    method FetchFileHandles(returned: seq<Result<FileHandle>>) returns (r: Result<()>)
      requires Valid()
      requires |returned| == |pending|
      modifies this, Repr
      ensures Valid()
      ensures pending == []
      ensures r.Ok? <==> forall i :: 0 <= i < |returned| ==> returned[i].Ok?
      ensures r.Err? ==> r.error == returned[FirstFailure(returned)].error
      ensures cached.Keys == old(cached).Keys + PendingKeys(old(pending), FirstFailure(returned))
      ensures forall k :: k in old(cached) ==> cached[k] == old(cached)[k]
      ensures forall i :: 0 <= i < FirstFailure(returned) ==> old(pending)[i].key in cached
      ensures forall i :: 0 <= i < FirstFailure(returned) ==> fresh(cached[old(pending)[i].key])
      ensures forall i :: 0 <= i < FirstFailure(returned) ==> cached[old(pending)[i].key].handle == returned[i].value
      ensures forall i :: 0 <= i < FirstFailure(returned) ==> old(pending)[i].placeholder.handle == returned[i].value
      ensures forall i :: FirstFailure(returned) <= i < |old(pending)| ==> old(pending)[i].key !in cached
      ensures forall i :: FirstFailure(returned) <= i < |old(pending)| ==>
        old(pending)[i].placeholder.handle == old(pending[i].placeholder.handle)
    {
      var files := TakePending();
      ghost var fetched;
      r, fetched := FetchEach(files, returned);
      FirstFailureAt(returned, |fetched|);
      CacheAfterKeys(old(cached), files, fetched, |fetched|);
      forall k | k in old(cached)
        ensures k in cached && cached[k] == old(cached)[k]
      {
        CacheAfterKeeps(old(cached), files, fetched, |fetched|, k);
      }
      forall j | 0 <= j < |fetched|
        ensures files[j].key in cached && cached[files[j].key] == fetched[j]
      {
        CacheAfterAt(old(cached), files, fetched, |fetched|, j);
      }
      forall j | |fetched| <= j < |files|
        ensures files[j].key !in cached
      {
        PendingKeysHold(files, |fetched|, files[j].key);
      }
    }
  }

  /** The number of uploads that succeed before the first one that fails. */
  function FirstFailure(returned: seq<Result<FileHandle>>): (n: nat)
    ensures n <= |returned|
    ensures forall i :: 0 <= i < n ==> returned[i].Ok?
    ensures n < |returned| ==> returned[n].Err?
  {
    if returned == [] || returned[0].Err? then 0 else 1 + FirstFailure(returned[1..])
  }

  /** FirstFailure is the first index holding an error, or the length when there is none. */
  lemma {:induction false} FirstFailureAt(returned: seq<Result<FileHandle>>, n: nat)
    requires n <= |returned|
    requires forall i :: 0 <= i < n ==> returned[i].Ok?
    requires n < |returned| ==> returned[n].Err?
    ensures FirstFailure(returned) == n
  {
    if n > 0 {
      FirstFailureAt(returned[1..], n - 1);
    }
  }

  /** The cache after the first n pending files got their fetched handles. */
  function CacheAfter(start: map<CacheKey, FileHandleRef>, files: seq<PendingFile>, fetched: seq<FileHandleRef>, n: nat)
    : map<CacheKey, FileHandleRef>
    requires n <= |files| && n <= |fetched|
  {
    if n == 0 then start else CacheAfter(start, files, fetched, n - 1)[files[n - 1].key := fetched[n - 1]]
  }

  /** Caching the next handle is one more step of CacheAfter. */
  lemma CacheAfterStep(start: map<CacheKey, FileHandleRef>, files: seq<PendingFile>, fetched: seq<FileHandleRef>,
                       handle: FileHandleRef)
    requires |fetched| < |files|
    ensures CacheAfter(start, files, fetched, |fetched|)[files[|fetched|].key := handle]
         == CacheAfter(start, files, fetched + [handle], |fetched| + 1)
  {
    CacheAfterPrefix(start, files, fetched, [handle], |fetched|);
  }

  /** CacheAfter only looks at the first n handles. */
  lemma {:induction false} CacheAfterPrefix(start: map<CacheKey, FileHandleRef>, files: seq<PendingFile>,
                                            fetched: seq<FileHandleRef>, more: seq<FileHandleRef>, n: nat)
    requires n <= |files| && n <= |fetched|
    ensures CacheAfter(start, files, fetched + more, n) == CacheAfter(start, files, fetched, n)
  {
    if n > 0 {
      CacheAfterPrefix(start, files, fetched, more, n - 1);
      assert (fetched + more)[n - 1] == fetched[n - 1];
    }
  }

  /** The cache's keys grow by exactly the keys of the first n pending files. */
  lemma {:induction false} CacheAfterKeys(start: map<CacheKey, FileHandleRef>, files: seq<PendingFile>,
                                          fetched: seq<FileHandleRef>, n: nat)
    requires n <= |files| && n <= |fetched|
    ensures CacheAfter(start, files, fetched, n).Keys == start.Keys + PendingKeys(files, n)
  {
    if n > 0 {
      CacheAfterKeys(start, files, fetched, n - 1);
    }
  }

  /** An entry cached before, under a key no pending file has, stays as it was. */
  lemma {:induction false} CacheAfterKeeps(start: map<CacheKey, FileHandleRef>, files: seq<PendingFile>,
                                           fetched: seq<FileHandleRef>, n: nat, k: CacheKey)
    requires n <= |files| && n <= |fetched| && k in start
    requires forall j :: 0 <= j < n ==> files[j].key != k
    ensures k in CacheAfter(start, files, fetched, n) && CacheAfter(start, files, fetched, n)[k] == start[k]
  {
    if n > 0 {
      CacheAfterKeeps(start, files, fetched, n - 1, k);
    }
  }

  /** With distinct keys, each of the first n pending files is cached with its own fetched handle. */
  lemma {:induction false} CacheAfterAt(start: map<CacheKey, FileHandleRef>, files: seq<PendingFile>,
                                        fetched: seq<FileHandleRef>, n: nat, j: nat)
    requires n <= |files| && n <= |fetched| && j < n
    requires forall a, b :: 0 <= a < b < |files| ==> files[a].key != files[b].key
    ensures files[j].key in CacheAfter(start, files, fetched, n)
    ensures CacheAfter(start, files, fetched, n)[files[j].key] == fetched[j]
  {
    if j < n - 1 {
      CacheAfterAt(start, files, fetched, n - 1, j);
    }
  }
}
