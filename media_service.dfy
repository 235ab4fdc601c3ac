/** internal/services/media_service.go: object keys and public URLs for the R2
    bucket, and the uploads and deletes that use them. The bucket is modelled
    by the objects it holds; the S3 client, image decoding and WebP encoding
    are reduced to whether they succeed. */
module MediaService {
  import opened Common
  import opened Strings

  /** The configured public base URL of the bucket. */
  datatype Service = Service(publicBaseUrl: string)

  /** The bucket's objects: key to content type. */
  class Bucket {
    var objects: map<string, string>

    constructor ()
      ensures objects == map[]
    {
      objects := map[];
    }
  }

  /** `prefix + "/" + uuid + suffix` with one leading "/" trimmed. */
  function ObjectKey(prefix: string, uuid: string, suffix: string): (key: string)
    ensures HasPrefix(prefix + "/" + uuid + suffix, "/") ==> "/" + key == prefix + "/" + uuid + suffix
    ensures !HasPrefix(prefix + "/" + uuid + suffix, "/") ==> key == prefix + "/" + uuid + suffix
  {
    TrimPrefix(prefix + "/" + uuid + suffix, "/")
  }

  function PublicUrl(svc: Service, key: string): string {
    svc.publicBaseUrl + "/" + key
  }

  /** The key `DeleteFile` extracts from a URL: the base URL trimmed, then one
      "/" trimmed. */
  function KeyOfUrl(svc: Service, url: string): string {
    TrimPrefix(TrimPrefix(url, svc.publicBaseUrl), "/")
  }

  /** Round trip: the key extracted from a public URL is the key the URL was
      built from, for every key, even one that itself starts with "/". */
  lemma KeyOfPublicUrl(svc: Service, key: string)
    ensures KeyOfUrl(svc, PublicUrl(svc, key)) == key
  {
    assert PublicUrl(svc, key) == svc.publicBaseUrl + ("/" + key);
    TrimPrefixOfConcat(svc.publicBaseUrl, "/" + key);
    TrimPrefixOfConcat("/", key);
  }

  /** A non-empty prefix that does not start with "/" is kept as is: the key
      is that prefix, "/", the uuid and the suffix. */
  lemma {:induction false} KeyUnderPrefix(prefix: string, uuid: string, suffix: string)
    requires prefix != "" && prefix[0] != '/'
    ensures ObjectKey(prefix, uuid, suffix) == prefix + "/" + uuid + suffix
    ensures HasPrefix(ObjectKey(prefix, uuid, suffix), prefix + "/")
  {
    var whole := prefix + "/" + uuid + suffix;
    assert whole[0] == prefix[0];
    assert whole[..|prefix + "/"|] == prefix + "/";
  }

  /** With an empty prefix the leading "/" is trimmed, leaving uuid + suffix. */
  lemma {:induction false} KeyWithEmptyPrefix(uuid: string, suffix: string)
    ensures ObjectKey("", uuid, suffix) == uuid + suffix
  {
    assert "" + "/" + uuid + suffix == "/" + (uuid + suffix);
    TrimPrefixOfConcat("/", uuid + suffix);
  }

  /** Compressed images are always stored as `.webp`, whatever the prefix. */
  lemma {:induction false} CompressedKeyEndsInWebp(prefix: string, uuid: string)
    ensures var key := ObjectKey(prefix, uuid, ".webp");
      |key| >= 5 && key[|key| - 5..] == ".webp"
  {
    var whole := prefix + "/" + uuid + ".webp";
    var key := ObjectKey(prefix, uuid, ".webp");
    assert whole[|whole| - 5..] == ".webp";
    if HasPrefix(whole, "/") {
      assert whole == "/" + key;
      assert key == whole[1..];
      assert key[|key| - 5..] == whole[|whole| - 5..];
    }
  }

  /** `UploadFile`: stores the file under prefix/uuid plus the original
      file's extension and returns its public URL; a failed `PutObject`
      stores nothing and returns an error (None). */
  method UploadFile(svc: Service, bucket: Bucket, originalFilename: string, contentType: string, prefix: string, uuid: string, putOk: bool)
    returns (url: Option<string>)
    modifies bucket
    ensures putOk ==> url == Some(PublicUrl(svc, ObjectKey(prefix, uuid, Ext(originalFilename))))
    ensures putOk ==> bucket.objects == old(bucket.objects)[ObjectKey(prefix, uuid, Ext(originalFilename)) := contentType]
    ensures !putOk ==> url == None && bucket.objects == old(bucket.objects)
  {
    var uniqueName := ObjectKey(prefix, uuid, Ext(originalFilename));
    if putOk {
      bucket.objects := bucket.objects[uniqueName := contentType];
      url := Some(PublicUrl(svc, uniqueName));
    } else {
      url := None;
    }
  }

  /** `CompressAndUploadImage`: an image that decodes and re-encodes is stored
      as prefix/uuid.webp with type image/webp; any failure stores nothing. */
  method CompressAndUploadImage(svc: Service, bucket: Bucket, prefix: string, uuid: string, encodeOk: bool, putOk: bool)
    returns (url: Option<string>)
    modifies bucket
    ensures var key := ObjectKey(prefix, uuid, ".webp");
      && (encodeOk && putOk ==> url == Some(PublicUrl(svc, key)) && bucket.objects == old(bucket.objects)[key := "image/webp"])
      && (!(encodeOk && putOk) ==> url == None && bucket.objects == old(bucket.objects))
  {
    if !encodeOk {
      return None;
    }
    var uniqueName := ObjectKey(prefix, uuid, ".webp");
    if !putOk {
      return None;
    }
    bucket.objects := bucket.objects[uniqueName := "image/webp"];
    url := Some(PublicUrl(svc, uniqueName));
  }

  /** `DeleteFile`: "" is a successful no-op; otherwise the object under the
      extracted key is removed (deleting an absent key succeeds). */
  method DeleteFile(svc: Service, bucket: Bucket, fileUrl: string, deleteOk: bool) returns (ok: bool)
    modifies bucket
    ensures fileUrl == "" ==> ok && bucket.objects == old(bucket.objects)
    ensures fileUrl != "" && deleteOk ==> ok && bucket.objects == old(bucket.objects) - {KeyOfUrl(svc, fileUrl)}
    ensures fileUrl != "" && !deleteOk ==> !ok && bucket.objects == old(bucket.objects)
  {
    if fileUrl == "" {
      return true;
    }
    var key := TrimPrefix(fileUrl, svc.publicBaseUrl);
    key := TrimPrefix(key, "/");
    if !deleteOk {
      return false;
    }
    bucket.objects := bucket.objects - {key};
    return true;
  }

  /** Deleting by the URL an upload returned removes exactly the object that
      upload stored: the bucket is back to what it was, less that key. */
  lemma UploadThenDelete(svc: Service, objects: map<string, string>, key: string, contentType: string)
    ensures (objects[key := contentType]) - {KeyOfUrl(svc, PublicUrl(svc, key))} == objects - {key}
  {
    KeyOfPublicUrl(svc, key);
  }
}
