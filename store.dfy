/** An abstract stand-in for the cloud object store the adapter talks to through its client
    handles: a map from (bucket, key) to the stored object, and the list of requests it received.
    Whether a request fails is a parameter of each operation, chosen by the caller of the model. */
module Store {
  import opened Outcomes
  import opened JsValues
  import opened Config

  /** The object metadata a successful upload responds with. A field the store leaves out is Undefined. */
  datatype ObjectMeta = ObjectMeta(
    size: Val,
    contentType: Val,
    mediaLink: Val,
    etag: Val,
    md5Hash: Val,
    storageClass: Val)

  /** Where an object lives: the bucket name as passed to `.bucket(...)` and the object key. */
  datatype ObjectId = ObjectId(bucket: Val, key: string)

  /** An object: the local file it was read from and the metadata the store reported for it. */
  datatype StoredObject = StoredObject(source: Val, metadata: Option<ObjectMeta>)

  /** How the store answers an upload: `response.metadata` (possibly absent), or an error. */
  datatype UploadReply = Uploaded(metadata: Option<ObjectMeta>) | UploadFailed(error: Fault)

  /** One request, with the client handle it went through. */
  datatype Request =
    | UploadRequest(client: Client, bucket: Val, source: Val, options: map<string, Val>)
    | DeleteRequest(client: Client, bucket: Val, key: string)
    | ExistsRequest(client: Client, bucket: Val, key: string)

  /** The key an upload writes to: its `destination` option. */
  predicate HasDestination(options: map<string, Val>) {
    "destination" in options && options["destination"].Str?
  }

  class ObjectStore {
    var objects: map<ObjectId, StoredObject>
    var requests: seq<Request>

    constructor ()
      ensures objects == map[] && requests == []
    {
      objects := map[];
      requests := [];
    }

    /** `client.bucket(bucket).upload(source, options, cb)`: one request; on success the object at
        the destination key is replaced, on failure nothing is stored. */
    method Upload(client: Client, bucket: Val, source: Val, options: map<string, Val>, reply: UploadReply)
      returns (r: Result<Option<ObjectMeta>, Fault>)
      requires HasDestination(options)
      modifies this
      ensures requests == old(requests) + [UploadRequest(client, bucket, source, options)]
      ensures reply.UploadFailed? ==> r == Err(reply.error) && objects == old(objects)
      ensures reply.Uploaded? ==>
                r == Ok(reply.metadata) &&
                objects == old(objects)[ObjectId(bucket, options["destination"].s) := StoredObject(source, reply.metadata)]
    {
      requests := requests + [UploadRequest(client, bucket, source, options)];
      match reply
      case UploadFailed(e) =>
        r := Err(e);
      case Uploaded(meta) =>
        objects := objects[ObjectId(bucket, options["destination"].s) := StoredObject(source, meta)];
        r := Ok(meta);
    }

    /** `client.bucket(bucket).file(key).delete(cb)`: one request; on success the object is gone. */
    method Delete(client: Client, bucket: Val, key: string, fault: Option<Fault>) returns (r: Result<(), Fault>)
      modifies this
      ensures requests == old(requests) + [DeleteRequest(client, bucket, key)]
      ensures fault.Some? ==> r == Err(fault.value) && objects == old(objects)
      ensures fault.None? ==> r == Ok(()) && objects == old(objects) - {ObjectId(bucket, key)}
    {
      requests := requests + [DeleteRequest(client, bucket, key)];
      if fault.Some? {
        r := Err(fault.value);
      } else {
        objects := objects - {ObjectId(bucket, key)};
        r := Ok(());
      }
    }

    /** `client.bucket(bucket).file(key).exists(cb)`: one request; answers whether the object is stored. */
    method Exists(client: Client, bucket: Val, key: string, fault: Option<Fault>) returns (r: Result<bool, Fault>)
      modifies this
      ensures requests == old(requests) + [ExistsRequest(client, bucket, key)]
      ensures objects == old(objects)
      ensures fault.Some? ==> r == Err(fault.value)
      ensures fault.None? ==> r == Ok(ObjectId(bucket, key) in objects)
    {
      requests := requests + [ExistsRequest(client, bucket, key)];
      if fault.Some? {
        r := Err(fault.value);
      } else {
        r := Ok(ObjectId(bucket, key) in objects);
      }
    }
  }
}
