/** The cloud-storage adapter: how it names remote objects, which client and bucket each operation
    uses, the record an upload returns, and the adapter object with its three store operations. */
module Adapter {
  import opened Outcomes
  import opened JsValues
  import opened Config
  import opened Store

  // ---------------------------------------------------------------------------------------------
  // Remote naming (`_resolveRemoteFilename`)
  // ---------------------------------------------------------------------------------------------

  /** `file.path || this.options.path || '/'`. */
  function RemotePrefix(filePath: Val, optionsPath: Val): (p: Val)
    ensures Truthy(p)
    ensures p == filePath || p == optionsPath || p == Str("/")
  {
    Or(Or(filePath, optionsPath), Str("/"))
  }

  /** `r` is the first truthy value among `candidates`. */
  ghost predicate FirstTruthy(r: Val, candidates: seq<Val>) {
    exists i :: 0 <= i < |candidates| && r == candidates[i] && Truthy(candidates[i]) &&
      forall j :: 0 <= j < i ==> !Truthy(candidates[j])
  }

  /** The prefix is the first non-empty one among the file's path, the configured path and "/". */
  lemma RemotePrefixIsFirstTruthy(filePath: Val, optionsPath: Val)
    ensures FirstTruthy(RemotePrefix(filePath, optionsPath), [filePath, optionsPath, Str("/")])
  {
    var c := [filePath, optionsPath, Str("/")];
    if Truthy(filePath) {
      assert c[0] == RemotePrefix(filePath, optionsPath);
    } else if Truthy(optionsPath) {
      assert c[1] == RemotePrefix(filePath, optionsPath) && !Truthy(c[0]);
    } else {
      assert c[2] == RemotePrefix(filePath, optionsPath) && !Truthy(c[0]) && !Truthy(c[1]);
    }
  }

  /** `${path}${file.filename}`: the remote key is the prefix followed directly by the filename,
      with no separator inserted. The prefix part is never empty. */
  function RemoteKey(filePath: Val, optionsPath: Val, filename: Val): (k: string)
    ensures |k| > |Text(filename)|
    ensures k[|k| - |Text(filename)|..] == Text(filename)
    ensures k[..|k| - |Text(filename)|] == Text(RemotePrefix(filePath, optionsPath))
  {
    Text(RemotePrefix(filePath, optionsPath)) + Text(filename)
  }

  /** The three cases of the key, spelled out. */
  lemma RemoteKeyCases(filePath: Val, optionsPath: Val, filename: Val)
    ensures Truthy(filePath) ==> RemoteKey(filePath, optionsPath, filename) == Text(filePath) + Text(filename)
    ensures !Truthy(filePath) && Truthy(optionsPath) ==>
              RemoteKey(filePath, optionsPath, filename) == Text(optionsPath) + Text(filename)
    ensures !Truthy(filePath) && !Truthy(optionsPath) ==>
              RemoteKey(filePath, optionsPath, filename) == "/" + Text(filename)
  {
  }

  /** Under one prefix choice, names that print differently get different keys: uploads under one
      configuration overwrite each other only when their filenames print the same. */
  lemma RemoteKeyInjective(filePath: Val, optionsPath: Val, a: Val, b: Val)
    requires RemoteKey(filePath, optionsPath, a) == RemoteKey(filePath, optionsPath, b)
    ensures Text(a) == Text(b)
  {
  }

  /** Because no separator is inserted, a prefix without a trailing slash runs into the name. */
  lemma NoSeparatorInserted()
    ensures RemoteKey(Str("uploads"), Undefined, Str("a.png")) == "uploadsa.png"
    ensures RemoteKey(Str("/u"), Undefined, Str("x.png")) == RemoteKey(Str("/ux"), Undefined, Str(".png"))
  {
  }

  // ---------------------------------------------------------------------------------------------
  // Client choice (`_clientForFile`)
  // ---------------------------------------------------------------------------------------------

  /** The shared handle, unless the file names a bucket other than the configured one; then a new
      handle from the same options with only `bucket` replaced. */
  function ClientForFile(options: Options, shared: Client, fileBucket: Val): (c: Client)
    ensures Truthy(fileBucket) && fileBucket != options.bucket ==> c == Client(options.(bucket := fileBucket))
    ensures !(Truthy(fileBucket) && fileBucket != options.bucket) ==> c == shared
  {
    if Truthy(fileBucket) && fileBucket != options.bucket then
      Client(options.(bucket := fileBucket))
    else
      shared
  }

  /** When the shared handle was built from the options, the handle chosen for a file always carries
      those options with the file's bucket if it names one, else the configured bucket. */
  lemma ClientForFileSettings(options: Options, fileBucket: Val)
    ensures ClientForFile(options, Client(options), fileBucket).config ==
              options.(bucket := if Truthy(fileBucket) then fileBucket else options.bucket)
  {
  }

  // ---------------------------------------------------------------------------------------------
  // Upload naming and the returned record
  // ---------------------------------------------------------------------------------------------

  /** The record an upload returns, persisted by the host and handed back to `removeFile`. */
  datatype FileData = FileData(
    filename: Val,
    size: Val,
    mimetype: Val,
    path: Val,
    originalname: Val,
    url: Val,
    bucket: Val,
    etag: Val,
    md5: Val,
    storageClass: Val)

  /** The name an upload stores: the generated one in unique-filename mode, else the original name. */
  function ChosenFilename(options: Options, generated: Val, originalname: Val): Val {
    if Truthy(options.uniqueFilename) then generated else originalname
  }

  /** The destination key: `file.path` has just been set to the configured path. */
  function UploadDestination(options: Options, filename: Val): string {
    RemoteKey(options.path, options.path, filename)
  }

  /** Where an upload that the generator named `generated` writes. */
  function UploadTarget(options: Options, originalname: Val, generated: Val): ObjectId {
    ObjectId(options.bucket, UploadDestination(options, ChosenFilename(options, generated, originalname)))
  }

  /** `Object.assign({}, self.options.uploadOptions, {destination: destpath})`. */
  function UploadOptionsFor(uploadOptions: map<string, Val>, destination: string): (o: map<string, Val>)
    ensures HasDestination(o) && o["destination"] == Str(destination)
    ensures o.Keys == uploadOptions.Keys + {"destination"}
    ensures forall key :: key in uploadOptions && key != "destination" ==> o[key] == uploadOptions[key]
  {
    uploadOptions["destination" := Str(destination)]
  }

  /** The fields a record takes from the response metadata; all Undefined when there is none
      (`response.metadata || {}`). */
  predicate CopiesMetadata(d: FileData, metadata: Option<ObjectMeta>) {
    match metadata
    case None =>
      d.size == Undefined && d.mimetype == Undefined && d.url == Undefined &&
      d.etag == Undefined && d.md5 == Undefined && d.storageClass == Undefined
    case Some(m) =>
      d.size == m.size && d.mimetype == m.contentType && d.url == m.mediaLink &&
      d.etag == m.etag && d.md5 == m.md5Hash && d.storageClass == m.storageClass
  }

  /** The `fileData` object built after a successful upload. */
  function UploadRecord(options: Options, filename: Val, originalname: Val, metadata: Option<ObjectMeta>): FileData {
    var m := metadata.GetOr(ObjectMeta(Undefined, Undefined, Undefined, Undefined, Undefined, Undefined));
    FileData(filename, m.size, m.contentType, options.path, originalname, m.mediaLink,
             options.bucket, m.etag, m.md5Hash, m.storageClass)
  }

  /** What `uploadFile` calls back with, given the file as the generator saw it, the generator's
      answer and the store's answer. */
  function UploadResult(options: Options, file: FileView, gen: GenReply, reply: UploadReply): (r: Result<FileData, Fault>)
    ensures gen.GenFailed? ==> r == Err(gen.error)
    ensures gen.Named? && reply.UploadFailed? ==> r == Err(reply.error)
    ensures r.Ok? <==> gen.Named? && reply.Uploaded?
    ensures r.Ok? && Truthy(options.uniqueFilename) ==> r.value.filename == gen.filename
    ensures r.Ok? && !Truthy(options.uniqueFilename) ==> r.value.filename == file.originalname
    ensures r.Ok? ==> r.value.path == options.path && r.value.bucket == options.bucket &&
                      r.value.originalname == file.originalname
    ensures r.Ok? ==> CopiesMetadata(r.value, reply.metadata)
  {
    match gen
    case GenFailed(e) => Err(e)
    case Named(generated) =>
      match reply
      case UploadFailed(e) => Err(e)
      case Uploaded(meta) =>
        Ok(UploadRecord(options, ChosenFilename(options, generated, file.originalname), file.originalname, meta))
  }

  // ---------------------------------------------------------------------------------------------
  // Remove, exists and the URL accessor
  // ---------------------------------------------------------------------------------------------

  /** The object `removeFile(file)` deletes: the file's own bucket, and its own path if non-empty. */
  function RemoveTarget(options: Options, file: FileData): ObjectId {
    ObjectId(file.bucket, RemoteKey(file.path, options.path, file.filename))
  }

  /** The object `fileExists(filename)` asks about: the configured bucket and path only. */
  function ExistsTarget(options: Options, filename: Val): ObjectId {
    ObjectId(options.bucket, RemoteKey(Undefined, options.path, filename))
  }

  /** What `fileExists` calls back with: the store's error, no value when the object is absent,
      and the literal `true` when it is present. */
  function ExistsResult(present: bool, fault: Option<Fault>): (r: Result<Option<bool>, Fault>)
    ensures fault.Some? ==> r == Err(fault.value)
    ensures fault.None? ==> r.Ok? && (r.value.Some? <==> present)
    ensures r.Ok? && r.value.Some? ==> r.value.value
  {
    match fault
    case Some(e) => Err(e)
    case None => if !present then Ok(None) else Ok(Some(present))
  }

  /** `getFileURL(file)`: the stored `url`, untransformed. */
  function GetFileURL(file: FileData): (url: Val)
    ensures url == file.url
  {
    file.url
  }

  /** The URL of an uploaded file is the media link the store reported, or undefined without metadata. */
  lemma UploadedFileURL(options: Options, file: FileView, gen: GenReply, reply: UploadReply)
    requires UploadResult(options, file, gen, reply).Ok?
    ensures GetFileURL(UploadResult(options, file, gen, reply).value) ==
              if reply.metadata.Some? then reply.metadata.value.mediaLink else Undefined
  {
  }

  /** Round trip: the record a successful upload returns, passed unchanged to `removeFile`, names the
      object the upload wrote, and goes through the shared client; `fileExists(record.filename)` names
      the same object. */
  lemma UploadRoundTrip(options: Options, shared: Client, file: FileView, gen: GenReply, reply: UploadReply)
    requires UploadResult(options, file, gen, reply).Ok?
    ensures var rec := UploadResult(options, file, gen, reply).value;
            RemoveTarget(options, rec) == UploadTarget(options, file.originalname, gen.filename) &&
            ExistsTarget(options, rec.filename) == UploadTarget(options, file.originalname, gen.filename) &&
            ClientForFile(options, shared, rec.bucket) == shared
  {
  }

  /** An example: bucket 'b', path '/u/', generator answer 'x1.png'. */
  lemma UploadExample()
    ensures var options := Merge(Undefined, NoOverride.(bucket := Some(Str("b")), path := Some(Str("/u/"))));
            var file := FileView(Str("/tmp/a.png"), Undefined, Str("a.png"), Undefined);
            var r := UploadResult(options, file, Named(Str("x1.png")), Uploaded(None));
            UploadTarget(options, Str("a.png"), Str("x1.png")) == ObjectId(Str("b"), "/u/x1.png") &&
            r.Ok? && r.value.filename == Str("x1.png") && r.value.path == Str("/u/") && r.value.bucket == Str("b")
  {
  }

  // ---------------------------------------------------------------------------------------------
  // The objects
  // ---------------------------------------------------------------------------------------------

  /** The host's file record, which `uploadFile` updates in place. */
  class FileRecord {
    var path: Val
    var filename: Val
    var originalname: Val
    var bucket: Val

    constructor (path: Val, filename: Val, originalname: Val, bucket: Val)
      ensures this.path == path && this.filename == filename
      ensures this.originalname == originalname && this.bucket == bucket
    {
      this.path := path;
      this.filename := filename;
      this.originalname := originalname;
      this.bucket := bucket;
    }

    function View(): FileView
      reads this
    {
      FileView(path, filename, originalname, bucket)
    }
  }

  class CloudStorageAdapter {
    // Set once by the constructor; no operation changes them afterwards.
    const options: Options
    const client: Client
    const generateFilename: Generator

    /** Merges the options, builds the shared client from them and installs the generator.
        The key-file check comes after, in `Create`. */
    constructor (cloudStorage: OptionsOverride, envKeyFilename: Val, randomFilename: Generator)
      ensures options == Merge(envKeyFilename, cloudStorage)
      ensures client == Client(options)
      ensures generateFilename == MergeGenerator(cloudStorage, randomFilename)
    {
      options := Merge(envKeyFilename, cloudStorage);
      client := Client(options);
      generateFilename := MergeGenerator(cloudStorage, randomFilename);
    }

    /** `uploadFile(file, callback)`: one call of the generator with attempt 0, then (unless it
        failed) the in-place update of `file.path` and `file.filename` and exactly one upload
        through the shared client to the configured bucket. */
    method UploadFile(file: FileRecord, store: ObjectStore, randomness: nat, reply: UploadReply)
      returns (r: Result<FileData, Fault>)
      modifies file, store
      ensures r == UploadResult(options, old(file.View()), generateFilename(old(file.View()), 0, randomness), reply)
      ensures generateFilename(old(file.View()), 0, randomness).GenFailed? ==> unchanged(file) && unchanged(store)
      ensures var gen := generateFilename(old(file.View()), 0, randomness);
              gen.Named? ==>
                file.path == options.path &&
                file.filename == ChosenFilename(options, gen.filename, old(file.originalname)) &&
                file.originalname == old(file.originalname) && file.bucket == old(file.bucket) &&
                store.requests == old(store.requests) +
                  [UploadRequest(client, options.bucket, old(file.path),
                                 UploadOptionsFor(options.uploadOptions, UploadDestination(options, file.filename)))] &&
                store.objects == if reply.UploadFailed? then old(store.objects)
                                 else old(store.objects)[UploadTarget(options, old(file.originalname), gen.filename) :=
                                                           StoredObject(old(file.path), reply.metadata)]
    {
      var gen := generateFilename(file.View(), 0, randomness);
      if gen.GenFailed? {
        return Err(gen.error);
      }
      // The local source path: the file's own path, read before it is overwritten.
      var localpath := file.path;
      file.path := options.path;
      if Truthy(options.uniqueFilename) {
        file.filename := gen.filename;
      } else {
        file.filename := file.originalname;
      }
      var destpath := RemoteKey(file.path, options.path, file.filename);
      var uploadOptions := UploadOptionsFor(options.uploadOptions, destpath);
      var response := store.Upload(client, options.bucket, localpath, uploadOptions, reply);
      if response.Err? {
        return Err(response.error);
      }
      r := Ok(UploadRecord(options, file.filename, file.originalname, response.value));
    }

    /** `removeFile(file, callback)`: deletes the object the record names, in the record's bucket,
        through the client chosen for that bucket. */
    method RemoveFile(file: FileData, store: ObjectStore, fault: Option<Fault>) returns (r: Result<(), Fault>)
      modifies store
      ensures store.requests == old(store.requests) +
                [DeleteRequest(ClientForFile(options, client, file.bucket), file.bucket, RemoveTarget(options, file).key)]
      ensures fault.Some? ==> r == Err(fault.value) && store.objects == old(store.objects)
      ensures fault.None? ==> r == Ok(()) && store.objects == old(store.objects) - {RemoveTarget(options, file)}
    {
      var fullpath := RemoteKey(file.path, options.path, file.filename);
      var c := ClientForFile(options, client, file.bucket);
      var deleted := store.Delete(c, file.bucket, fullpath, fault);
      if deleted.Err? {
        return Err(deleted.error);
      }
      r := Ok(());
    }

    /** `fileExists(filename, callback)`: asks, through the shared client, about the configured
        bucket and path only. */
    method FileExists(filename: Val, store: ObjectStore, fault: Option<Fault>) returns (r: Result<Option<bool>, Fault>)
      modifies store
      ensures store.requests == old(store.requests) +
                [ExistsRequest(client, options.bucket, ExistsTarget(options, filename).key)]
      ensures store.objects == old(store.objects)
      ensures r == ExistsResult(ExistsTarget(options, filename) in old(store.objects), fault)
    {
      var fullpath := RemoteKey(Undefined, options.path, filename);
      var found := store.Exists(client, options.bucket, fullpath, fault);
      if found.Err? {
        return Err(found.error);
      }
      if !found.value {
        return Ok(None);
      }
      r := Ok(Some(found.value));
    }
  }

  /** `new CloudStorageAdapter(options, schema)`: the adapter (and its client) is built first, then
      the top-level key file is checked and construction throws if it is set and not absolute. */
  method Create(host: HostOptions, envKeyFilename: Val, randomFilename: Generator)
    returns (r: Result<CloudStorageAdapter, ConstructionError>)
    ensures r.Err? <==> Construct(host, envKeyFilename).Err?
    ensures r.Err? ==> r.error == Construct(host, envKeyFilename).error
    ensures r.Ok? ==> fresh(r.value) &&
                      Construct(host, envKeyFilename) == Ok(r.value.options) &&
                      r.value.client == Client(r.value.options) &&
                      r.value.generateFilename == MergeGenerator(host.cloudStorage, randomFilename)
  {
    var adapter := new CloudStorageAdapter(host.cloudStorage, envKeyFilename, randomFilename);
    var check := KeyfileCheck(host.keyFilename);
    if check.Some? {
      return Err(check.value);
    }
    r := Ok(adapter);
  }

  /** End to end: after a successful upload, `fileExists(record.filename)` reports `true`; after
      `removeFile(record)` succeeds, it reports no value. */
  method UploadExistsRemove(adapter: CloudStorageAdapter, file: FileRecord, store: ObjectStore,
                            randomness: nat, metadata: Option<ObjectMeta>)
    returns (before: Result<Option<bool>, Fault>, after: Result<Option<bool>, Fault>)
    requires adapter.generateFilename(file.View(), 0, randomness).Named?
    modifies file, store
    ensures before == Ok(Some(true))
    ensures after == Ok(None)
  {
    var uploaded := adapter.UploadFile(file, store, randomness, Uploaded(metadata));
    UploadRoundTrip(adapter.options, adapter.client, old(file.View()),
                    adapter.generateFilename(old(file.View()), 0, randomness), Uploaded(metadata));
    var record := uploaded.value;
    before := adapter.FileExists(record.filename, store, None);
    var removed := adapter.RemoveFile(record, store, None);
    after := adapter.FileExists(record.filename, store, None);
  }
}
