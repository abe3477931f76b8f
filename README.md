# Cloud storage adapter — Dafny model

A model of `CloudStorageAdapter`, the adapter that lets a content-management framework keep uploaded
files in a Google Cloud Storage bucket. The adapter decides three things, and the model states them
exactly:

- which remote key a file is stored under;
- which client handle and bucket each operation goes through;
- which record an upload hands back to the host.

The cloud store itself is replaced by an abstract store: a map from (bucket, key) to the stored
object, plus a log of the requests it received. Every store failure, and every answer of the
filename generator, is an input the caller of the model chooses.

Files:

- `outcomes.dfy`: `Option`, `Result` (what a callback receives) and `Fault` (an error object
  passed on unchanged).
- `js_values.dfy`: the JavaScript values the adapter handles (`undefined`, `null`, booleans,
  strings), truthiness, the `||` operator, template-literal interpolation and POSIX
  `path.isAbsolute`.
- `config.dfy`: the caller's options, the merge with `DEFAULT_OPTIONS`, the key-file check, the
  client handle and the generator contract.
- `store.dfy`: the abstract object store. It is a class whose upload, delete and exists methods
  change its object map and append to its request log.
- `adapter.dfy`: the pure naming and record logic with its lemmas. It also holds the class
  `FileRecord`, which is the host's file object that an upload updates in place. And it holds the
  class `CloudStorageAdapter` with `UploadFile`, `RemoveFile` and `FileExists`, each proved
  against the pure functions.

The main property is the round trip. A successful upload returns a record. Passed unchanged to
`removeFile`, that record names the object the upload wrote, and the delete goes through the
shared client. `fileExists(record.filename)` names the same object (`UploadRoundTrip`).
`UploadExistsRemove` runs the three methods in sequence against one store.

The code does a few things a reader might not expect; the model follows the code:

- Construction builds the client before the key file is checked.
- The check reads the TOP-LEVEL `options.keyFilename`. That key is never handed to the client.
- The key file the client does use is never checked. That key is the merged `cloudStorage.keyFilename`,
  or the one from the environment. `MergedKeyfileUnchecked` shows both cases.
- `generateFilename` and `uniqueFilename` are read only from `options.cloudStorage`.
- `uniqueFilename` is tested for JavaScript truthiness, not for being the boolean `true`.
- The generator is called, and its failure aborts the upload, even when unique names are off.

## Model

| member | source | states |
|---|---|---|
| `JsValues.Or` | index.js:63 | `a \|\| b` is truthy iff either operand is; it is the left operand when that is truthy, else the right operand unchanged |
| `JsValues.Text` | index.js:64 | a string interpolates as itself, and only the empty string interpolates as empty text |
| `Config.Merge` | index.js:7-14 | every key `cloudStorage` sets (key file, bucket, path, `uniqueFilename`, `uploadOptions`) wins; every key it leaves out keeps its default: the environment's key file, no bucket or path, unique names on, no upload options; no override gives exactly `DEFAULT_OPTIONS` |
| `Config.MergeGenerator` | index.js:9-22 | the generator is the one `cloudStorage` sets, else the default random one |
| `Config.KeyfileCheck` | index.js:18-20 | a key file passes iff it is null/undefined or an absolute string; it is a configuration error iff it is a relative string |
| `Config.Construct` | index.js:13-20 | construction fails iff the top-level key-file check fails, with that check's error; otherwise it yields the merged options |
| `Config.ConstructRule` | index.js:13-20 | construction fails iff the top-level key file is set and not an absolute path; otherwise the options are the merge of defaults and `cloudStorage` |
| `Config.MergedKeyfileUnchecked` | index.js:14-18 | a relative `cloudStorage.keyFilename` or environment key file constructs; an absolute top-level key file is checked but the client gets none |
| `Adapter.RemotePrefix` | index.js:63 | the prefix is always truthy and is one of the file's path, the configured path and `"/"` |
| `Adapter.RemotePrefixIsFirstTruthy` | index.js:63 | the prefix is the first truthy value among the file's path, the configured path and `"/"` |
| `Adapter.RemoteKey` | index.js:62-65 | the key ends with the filename's text, preceded directly by the non-empty prefix text (no separator) |
| `Adapter.RemoteKeyCases` | index.js:62-65 | the key in each case: file path + name, else configured path + name, else `"/"` + name |
| `Adapter.RemoteKeyInjective` | index.js:62-65 | with the same prefix choice, equal keys imply the filenames print the same |
| `Adapter.NoSeparatorInserted` | index.js:64 | a prefix without trailing slash runs into the name, so different (prefix, name) pairs can share a key |
| `Adapter.ClientForFile` | index.js:47-56 | the shared client unless the file names a truthy bucket other than the configured one; then a client from the options with that bucket |
| `Adapter.ClientForFileSettings` | index.js:47-56 | with the shared client built from the options, the chosen client's settings are the options with the effective bucket |
| `Adapter.UploadOptionsFor` | index.js:82-84 | the upload options keep every configured key except `destination`, which becomes the computed key |
| `Adapter.UploadResult` | index.js:67-111 | generator error and store error are returned unchanged; success iff both succeed; the record's filename is the generated name in unique mode, else the original name; path, bucket, originalname and the six metadata fields are copied (undefined without metadata) |
| `Adapter.ExistsResult` | index.js:136-142 | a store error is returned; otherwise there is a value iff the object is present, and that value is `true` |
| `Adapter.GetFileURL` | index.js:113-115 | the URL is the record's `url` field, unchanged (undefined when absent) |
| `Adapter.UploadedFileURL` | index.js:113-115 | the URL of an uploaded record is the store's media link, or undefined without metadata |
| `Adapter.UploadRoundTrip` | index.js:74-132 | the uploaded record resolves, for remove and for exists, to the object the upload wrote, and remove uses the shared client |
| `Adapter.UploadExample` | index.js:62-105 | bucket 'b', path '/u/', generated 'x1.png' give key '/u/x1.png' and a record with that filename, path and bucket |
| `Adapter.CloudStorageAdapter.constructor` | index.js:13-22 | options are the merge, the shared client is built from them, the generator is the caller's or the default |
| `Adapter.Create` | index.js:13-25 | the adapter is built first, then construction fails iff the top-level key-file check fails; on success the adapter holds the merged options |
| `Adapter.CloudStorageAdapter.UploadFile` | index.js:67-111 | the generator is called once with attempt 0; on its failure nothing changes; otherwise the file's path and filename are set in place, exactly one upload goes through the shared client to the configured bucket from the original local path, and the result is `UploadResult` |
| `Adapter.CloudStorageAdapter.RemoveFile` | index.js:117-127 | one delete of the record's key in the record's bucket, through the client chosen for that bucket; the object is gone on success, nothing changes on error |
| `Adapter.CloudStorageAdapter.FileExists` | index.js:129-143 | one exists request for the configured path and bucket through the shared client; no change; the answer is `ExistsResult` |
| `Adapter.UploadExistsRemove` | index.js:67-143 | after a successful upload the file exists (`true`); after removing its record it has no value |
| `Store.ObjectStore.Upload` | index.js:87-89 | one request; on success the destination key holds the uploaded object, on failure the store is unchanged and the error is returned |
| `Store.ObjectStore.Delete` | index.js:119-122 | one request; on success the object is removed, on failure nothing changes |
| `Store.ObjectStore.Exists` | index.js:133-136 | one request; reports whether the object is stored |

## Left out

- The Google Cloud Storage SDK: network I/O, authentication, retries, resumable uploads. They are replaced by the abstract store, and the store's failures are parameters.
- The SDK's own validation is not modelled. For example, `.bucket(undefined)` throws there; the abstract store accepts any bucket value.
- A failed upload leaves the abstract store unchanged. Partially written objects are not modelled.
- Adapter.CloudStorageAdapter.UploadFile: when the generator succeeds but `file.path` is not a string, the source throws a TypeError out of `path.posix.resolve`. That throw comes before the record is changed or any upload is made, and the callback is never called. The model does not capture this throw: it updates the record, uploads from the given path value and returns the result.
- Adapter.Create: `options` itself being undefined makes the source constructor throw when it reads `options.cloudStorage`. The model takes the options object as given and does not capture that throw.
- `pathlib.posix.resolve` of the local path depends on the working directory. The model records the file's path as given, read before the upload overwrites it.
- `path.isAbsolute` is modelled for POSIX only, as "starts with `/`".
- Option and record values are limited to `undefined`, `null`, booleans and strings. Numbers and nested objects are not part of this model.
- `uploadOptions` holds primitive values only.
- Other keys passed through to the client, such as a project id, are not modelled.
- `ensureCallback` only adapts a synchronous or asynchronous generator to one calling convention, so it is the identity here.
- A `generateFilename` key that is present but undefined is not modelled. In the source it fails at the first upload.
- The generator sees a snapshot of the file record. A generator that mutates the record it is given is not modelled.
- The default random generator is an external function parameter. Its randomness is the per-call `randomness` argument.
- Client handles are identified by their settings. Two handles built from equal settings are equal in the model, so "a fresh handle per off-bucket call" is not distinguished from a cached one.
- `process.env.CLOUD_STORAGE_KEY_FILENAME` is a constructor parameter.
- These are constants or logging with no behaviour, and are left out: the `schema` argument, `SCHEMA_TYPES`, `SCHEMA_FIELD_DEFAULTS`, `compatibilityLevel` and `debug` logging.
- Callback sequencing and concurrent calls are left out. Each operation is one sequential step; the adapter holds no mutable shared state after construction.
