/** internal/handlers/media.go: the generic image upload endpoint, with its
    case-insensitive extension whitelist. */
module MediaHandler {
  import opened Common
  import opened Strings
  import opened Gin
  import opened MediaService

  const AllowedExtensions: set<string> := {".jpg", ".jpeg", ".png", ".webp"}

  /** The whitelist test: the lower-cased final extension is allowed. */
  predicate AllowedImage(filename: string) {
    ToLower(Ext(filename)) in AllowedExtensions
  }

  /** Only the final extension counts, in any letter case: a name ending in
      an allowed extension is accepted whatever precedes it. */
  lemma {:induction false} FinalExtensionDecides(stem: string, x: string)
    requires x != "" && x[0] == '.' && '.' !in x[1..] && '/' !in x
    ensures AllowedImage(stem + x) <==> ToLower(x) in AllowedExtensions
  {
    ExtOfDottedSuffix(stem, x);
  }

  /** The extension is compared in lower case: any name ending in ".JPG"
      passes. */
  lemma UpperCaseAccepted(stem: string)
    ensures AllowedImage(stem + ".JPG")
  {
    FinalExtensionDecides(stem, ".JPG");
    assert ToLower(".JPG") == ".jpg";
  }

  /** Every whitelisted extension, written in lower case, is accepted after
      any stem. */
  lemma WhitelistedExtensionAccepted(stem: string, x: string)
    requires x in AllowedExtensions
    ensures AllowedImage(stem + x)
  {
    assert x[0] == '.' && '.' !in x[1..] && '/' !in x;
    FinalExtensionDecides(stem, x);
    assert ToLower(x) == x;
  }

  /** A name without a dot has no extension and is refused. */
  lemma NoDotRejected(filename: string)
    requires '.' !in filename
    ensures !AllowedImage(filename)
  {
    ExtWithoutDot(filename);
    EmptyExtensionRefused(Ext(filename));
  }

  lemma EmptyExtensionRefused(e: string)
    requires e == []
    ensures ToLower(e) !in AllowedExtensions
  {
    assert ToLower(e) == [];
  }

  /** A double extension is judged by its last part only. */
  lemma DoubleExtensionJudgedByLast(stem: string)
    ensures !AllowedImage(stem + ".png.exe")
    ensures AllowedImage(stem + ".exe.png")
  {
    assert !AllowedImage(stem + ".png.exe") by {
      assert stem + ".png.exe" == (stem + ".png") + ".exe";
      FinalExtensionDecides(stem + ".png", ".exe");
      assert ToLower(".exe") == ".exe";
    }
    assert stem + ".exe.png" == (stem + ".exe") + ".png";
    WhitelistedExtensionAccepted(stem + ".exe", ".png");
  }

  /** The generic endpoint's objects live under uploads/. */
  lemma UploadsKey(uuid: string, ext: string)
    ensures ObjectKey("uploads", uuid, ext) == "uploads/" + uuid + ext
  {
    KeyUnderPrefix("uploads", uuid, ext);
    assert "uploads" + "/" == "uploads/";
    assert ("uploads" + "/") + uuid + ext == "uploads/" + uuid + ext;
  }

  /** `Upload`: 400 without a readable file, 400 for a refused extension, 500
      when the store refuses the object; otherwise the file is stored under
      uploads/uuid plus its original extension and its URL returned. */
  method Upload(svc: Service, bucket: Bucket, file: Option<FileHeader>, uuid: string, putOk: bool)
    returns (r: Response<string>)
    modifies bucket
    ensures file.None? || !file.value.opens ==>
      r == Err(StatusBadRequest, "Bad request: No file provided") && bucket.objects == old(bucket.objects)
    ensures file.Some? && file.value.opens && !AllowedImage(file.value.filename) ==>
      r == Err(StatusBadRequest, "Invalid file type. Only JPG, PNG, WEBP allowed.") && bucket.objects == old(bucket.objects)
    ensures file.Some? && file.value.opens && AllowedImage(file.value.filename) ==>
      var key := "uploads/" + uuid + Ext(file.value.filename);
      && (putOk ==> r == Ok(StatusOK, PublicUrl(svc, key)) && bucket.objects == old(bucket.objects)[key := file.value.contentType])
      && (!putOk ==> r == Err(StatusInternalServerError, "Failed to upload file") && bucket.objects == old(bucket.objects))
  {
    if file.None? || !file.value.opens {
      return Err(StatusBadRequest, "Bad request: No file provided");
    }
    var header := file.value;
    var ext := ToLower(Ext(header.filename));
    if ext !in AllowedExtensions {
      return Err(StatusBadRequest, "Invalid file type. Only JPG, PNG, WEBP allowed.");
    }
    UploadsKey(uuid, Ext(header.filename));
    var url := UploadFile(svc, bucket, header.filename, header.contentType, "uploads", uuid, putOk);
    if url.None? {
      return Err(StatusInternalServerError, "Failed to upload file");
    }
    return Ok(StatusOK, url.value);
  }
}
