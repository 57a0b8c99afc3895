/** The storage service: where a generated image is written in the bucket and
    the public URL it is served at. */
module Storage {
  import opened Runtime

  /** The bytes `Buffer.from(s, "base64")` yields for `s`, labelled by the text
      they came from: two texts that decode to the same bytes stay distinct here. */
  datatype Payload = DecodedBase64(source: string)

  datatype StoredObject = StoredObject(contents: Payload, contentType: string, isPublic: bool)

  /** What the bucket does with one upload: both calls succeed, `file.save`
      throws, or `file.save` succeeds and `file.makePublic` throws. */
  datatype Fault = NoFault | SaveFails(error: Error) | MakePublicFails(error: Error)

  const UploadContentType := "image/jpeg"
  const StorageHost := "https://storage.googleapis.com/"

  /** `users/{uid}/generated/{generationId}/{index}.jpg` */
  function FilePath(uid: string, generationId: string, index: nat): string
  {
    "users/" + uid + "/generated/" + generationId + "/" + NatToString(index) + ".jpg"
  }

  /** `https://storage.googleapis.com/{bucket}/{filePath}` */
  function PublicUrl(bucketName: string, filePath: string): string
  {
    StorageHost + bucketName + "/" + filePath
  }

  /** The URL an upload of image `index` of a generation is served at. */
  function UploadedUrl(bucketName: string, uid: string, generationId: string, index: nat): string
  {
    PublicUrl(bucketName, FilePath(uid, generationId, index))
  }

  /** Within one generation of one user, every index has a path of its own. */
  lemma FilePathInjective(uid: string, generationId: string, i: nat, j: nat)
    ensures FilePath(uid, generationId, i) == FilePath(uid, generationId, j) <==> i == j
  {
    if FilePath(uid, generationId, i) == FilePath(uid, generationId, j) {
      CancelAffixes("users/" + uid + "/generated/" + generationId + "/",
                    NatToString(i), NatToString(j), ".jpg");
      NatToStringInjective(i, j);
    }
  }

  /** ... and so a URL of its own. */
  lemma UploadedUrlInjective(bucketName: string, uid: string, generationId: string, i: nat, j: nat)
    ensures UploadedUrl(bucketName, uid, generationId, i) == UploadedUrl(bucketName, uid, generationId, j) <==> i == j
  {
    if UploadedUrl(bucketName, uid, generationId, i) == UploadedUrl(bucketName, uid, generationId, j) {
      CancelAffixes(StorageHost + bucketName + "/",
                    FilePath(uid, generationId, i), FilePath(uid, generationId, j), "");
      FilePathInjective(uid, generationId, i, j);
    }
  }

  /** The bucket's objects after one upload. */
  function AfterUpload(objects: map<string, StoredObject>, uid: string, generationId: string,
                       index: nat, base64Data: string, fault: Fault): (r: map<string, StoredObject>)
    ensures fault.SaveFails? ==> r == objects
    ensures !fault.SaveFails? ==>
      FilePath(uid, generationId, index) in r &&
      r[FilePath(uid, generationId, index)] ==
        StoredObject(DecodedBase64(base64Data), UploadContentType, fault.NoFault?)
    ensures forall p :: p != FilePath(uid, generationId, index) ==>
      (p in r <==> p in objects) && (p in r ==> r[p] == objects[p])
  {
    if fault.SaveFails? then objects
    else objects[FilePath(uid, generationId, index) :=
                 StoredObject(DecodedBase64(base64Data), UploadContentType, fault.NoFault?)]
  }

  /** What `uploadGeneratedImage` returns or throws. */
  function UploadResult(bucketName: string, uid: string, generationId: string, index: nat,
                        fault: Fault): Outcome<string>
  {
    match fault
    case NoFault => Ok(PublicUrl(bucketName, FilePath(uid, generationId, index)))
    case SaveFails(e) => Throw(e)
    case MakePublicFails(e) => Throw(e)
  }

  /** Uploading the same (uid, generationId, index) twice leaves only the second
      image: nothing checks whether the object exists. */
  lemma SecondUploadReplacesFirst(objects: map<string, StoredObject>, uid: string, generationId: string,
                                  index: nat, first: string, second: string)
    ensures AfterUpload(AfterUpload(objects, uid, generationId, index, first, NoFault),
                        uid, generationId, index, second, NoFault)
         == AfterUpload(objects, uid, generationId, index, second, NoFault)
  {
    var once := AfterUpload(objects, uid, generationId, index, second, NoFault);
    var twice := AfterUpload(AfterUpload(objects, uid, generationId, index, first, NoFault),
                             uid, generationId, index, second, NoFault);
    assert twice.Keys == once.Keys;
  }

  class Bucket {
    const name: string
    var objects: map<string, StoredObject>

    constructor (name: string, objects: map<string, StoredObject>)
      ensures this.name == name && this.objects == objects
    {
      this.name := name;
      this.objects := objects;
    }
  }

  class StorageService {
    const bucket: Bucket

    constructor (bucket: Bucket)
      ensures this.bucket == bucket
    {
      this.bucket := bucket;
    }

    /** Decodes the image, saves it as a JPEG at its deterministic path, makes it
        public and returns its URL; `fault` says which bucket call throws. */
    method UploadGeneratedImage(uid: string, generationId: string, index: nat, base64Data: string,
                                fault: Fault) returns (url: Outcome<string>)
      modifies bucket
      ensures bucket.objects == AfterUpload(old(bucket.objects), uid, generationId, index, base64Data, fault)
      ensures url == UploadResult(bucket.name, uid, generationId, index, fault)
    {
      var filePath := FilePath(uid, generationId, index);
      var buffer := DecodedBase64(base64Data);
      if fault.SaveFails? {
        return Throw(fault.error);
      }
      bucket.objects := bucket.objects[filePath := StoredObject(buffer, UploadContentType, false)];
      if fault.MakePublicFails? {
        return Throw(fault.error);
      }
      bucket.objects := bucket.objects[filePath := StoredObject(buffer, UploadContentType, true)];
      url := Ok(PublicUrl(bucket.name, filePath));
    }
  }
}
