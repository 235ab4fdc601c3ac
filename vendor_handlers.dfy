/** internal/handlers/vendor.go: vendor onboarding, the owner's and the
    public views of a profile, the profile update merge, and the gallery and
    portfolio bookkeeping. */
module VendorHandlers {
  import opened Common
  import opened Gin
  import opened Store
  import opened MediaService

  // ---------------------------------------------------------------- onboarding

  /** The onboarding body; all but `bio` are `binding:"required"`. */
  datatype OnboardVendorRequest = OnboardVendorRequest(
    businessName: string,
    category: string,
    city: string,
    bio: string,
    whatsappLink: string)

  function OnboardChecks(req: OnboardVendorRequest): seq<FieldCheck> {
    [Required("BusinessName", req.businessName), Required("Category", req.category),
     Required("City", req.city), Required("WhatsappLink", req.whatsappLink)]
  }

  datatype Onboarded = Onboarded(vendorId: VendorId, slug: string)

  /** The profile an onboarding inserts: owned by the caller, pending, with
      the schema's empty media columns. */
  function NewProfile(id: VendorId, owner: UserId, req: OnboardVendorRequest, slug: string): (v: Vendor)
    ensures v.id == id && v.ownerUserId == owner && v.slug == slug
    ensures v.status == "pending" && v.galleryImages == [] && v.portfolioFiles == []
  {
    Vendor(id, owner, req.businessName, slug, req.category, req.city, Some(req.bio), req.whatsappLink,
           "pending", None, [], [])
  }

  /** The insert violates a unique constraint: the caller already owns a
      profile, or the slug is taken. */
  predicate OnboardConflict(vendors: map<VendorId, Vendor>, owner: UserId, slug: string) {
    exists k :: k in vendors && (vendors[k].ownerUserId == owner || vendors[k].slug == slug)
  }

  /** Onboarding never gives anyone a second profile: an insert that raises
      no conflict keeps one profile per owner and per slug. */
  lemma OnboardKeepsVendorsValid(vendors: map<VendorId, Vendor>, id: VendorId, owner: UserId, req: OnboardVendorRequest, slug: string)
    requires VendorsValid(vendors) && id !in vendors
    requires !OnboardConflict(vendors, owner, slug)
    ensures VendorsValid(vendors[id := NewProfile(id, owner, req, slug)])
  {
  }

  /** `OnboardVendor`. The slug comes from `generateSlug`, which is not part
      of this model. `newId` is the id the database assigns. */
  method OnboardVendor(db: Db, caller: Option<UserId>, body: Body<OnboardVendorRequest>,
                       generateSlug: (string, string) -> string, newId: VendorId)
    returns (r: Response<Onboarded>)
    requires db.Valid() && newId !in db.vendors
    modifies db`vendors
    ensures db.Valid()
    ensures r.Err? ==> db.vendors == old(db.vendors)
    ensures caller.None? ==> r == Err(StatusUnauthorized, "Unauthorized")
    ensures caller.Some? && body.Undecodable? ==> r == Err(StatusBadRequest, body.reason)
    ensures caller.Some? && body.Decoded? && BindingError("OnboardVendorRequest", OnboardChecks(body.value)).Some? ==>
      r == Err(StatusBadRequest, BindingError("OnboardVendorRequest", OnboardChecks(body.value)).value)
    ensures caller.Some? && body.Decoded? && BindingError("OnboardVendorRequest", OnboardChecks(body.value)).None? ==>
      var slug := generateSlug(body.value.businessName, body.value.city);
      && (OnboardConflict(old(db.vendors), caller.value, slug) ==>
            r == Err(StatusConflict, "Vendor profile already exists for this user or slug conflict"))
      && (!OnboardConflict(old(db.vendors), caller.value, slug) ==>
            r == Ok(StatusCreated, Onboarded(newId, slug))
            && db.vendors == old(db.vendors)[newId := NewProfile(newId, caller.value, body.value, slug)])
  {
    if caller.None? {
      return Err(StatusUnauthorized, "Unauthorized");
    }
    var uid := caller.value;
    if body.Undecodable? {
      return Err(StatusBadRequest, body.reason);
    }
    var req := body.value;
    var bindError := BindingError("OnboardVendorRequest", OnboardChecks(req));
    if bindError.Some? {
      return Err(StatusBadRequest, bindError.value);
    }
    var slug := generateSlug(req.businessName, req.city);
    if OnboardConflict(db.vendors, uid, slug) {
      return Err(StatusConflict, "Vendor profile already exists for this user or slug conflict");
    }
    OnboardKeepsVendorsValid(db.vendors, newId, uid, req, slug);
    db.vendors := db.vendors[newId := NewProfile(newId, uid, req, slug)];
    return Ok(StatusCreated, Onboarded(newId, slug));
  }

  // ---------------------------------------------------------------- reading profiles

  /** The owner's view of a profile. */
  datatype Profile = Profile(
    businessName: string,
    slug: string,
    category: string,
    city: string,
    bio: string,
    whatsappLink: string,
    portfolioImageUrl: Option<string>,
    galleryImages: seq<string>,
    portfolioFiles: seq<string>,
    verified: bool)

  /** The owner's view: a NULL bio reads as "", and `verified` is reported
      exactly for the status "verified" (pending and rejected both read as
      unverified). */
  function ProfileOf(v: Vendor): (p: Profile)
    ensures p.verified <==> v.status == "verified"
    ensures v.bio.None? ==> p.bio == ""
    ensures v.bio.Some? ==> p.bio == v.bio.value
  {
    Profile(v.businessName, v.slug, v.category, v.city, v.bio.GetOr(""), v.whatsappLink,
            v.portfolioImageUrl, v.galleryImages, v.portfolioFiles, v.status == "verified")
  }

  /** The caller owns a vendor profile (at most one, by `VendorsValid`). */
  predicate HasProfile(vendors: map<VendorId, Vendor>, owner: UserId) {
    exists k :: k in vendors && vendors[k].ownerUserId == owner
  }

  /** `GetMyProfile`: 401 without a caller, 404 when the caller owns no
      profile, otherwise the view of the caller's one profile. */
  method GetMyProfile(db: Db, caller: Option<UserId>) returns (r: Response<Profile>)
    requires db.Valid()
    ensures caller.None? ==> r == Err(StatusUnauthorized, "Unauthorized")
    ensures caller.Some? && !HasProfile(db.vendors, caller.value) ==>
      r == Err(StatusNotFound, "Vendor profile not found")
    ensures caller.Some? && HasProfile(db.vendors, caller.value) ==> r.Ok? && r.status == StatusOK
    ensures r.Ok? ==> caller.Some? && forall k :: k in db.vendors && db.vendors[k].ownerUserId == caller.value ==>
      r.body == ProfileOf(db.vendors[k])
  {
    if caller.None? {
      return Err(StatusUnauthorized, "Unauthorized");
    }
    var uid := caller.value;
    if !HasProfile(db.vendors, uid) {
      return Err(StatusNotFound, "Vendor profile not found");
    }
    var k :| k in db.vendors && db.vendors[k].ownerUserId == uid;
    return Ok(StatusOK, ProfileOf(db.vendors[k]));
  }

  /** Publicly visible: verified, and with a bio (the public queries scan bio
      into a plain string, so a NULL bio makes the row fail to scan). */
  predicate PubliclyVisible(v: Vendor) {
    v.status == "verified" && v.bio.Some?
  }

  /** Only verified vendors are ever shown publicly, and being shown publicly
      is exactly what the owner's view reports as verified, given a bio. */
  lemma PublicMeansVerified(v: Vendor)
    ensures PubliclyVisible(v) ==> ProfileOf(v).verified
    ensures v.bio.Some? ==> (PubliclyVisible(v) <==> ProfileOf(v).verified)
  {
  }

  /** An entry of the public listing. */
  datatype PublicCard = PublicCard(
    businessName: string,
    slug: string,
    category: string,
    city: string,
    bio: string,
    whatsappLink: string,
    portfolioImageUrl: Option<string>)

  function CardOf(v: Vendor): PublicCard
    requires v.bio.Some?
  {
    PublicCard(v.businessName, v.slug, v.category, v.city, v.bio.value, v.whatsappLink, v.portfolioImageUrl)
  }

  /** `ListVerifiedVendors`: every publicly visible vendor, once each. */
  method ListVerifiedVendors(db: Db) returns (r: Response<seq<PublicCard>>, rows: seq<VendorId>)
    ensures r.Ok? && r.status == StatusOK && |r.body| == |rows| && Distinct(rows)
    ensures forall k :: k in rows <==> k in db.vendors && PubliclyVisible(db.vendors[k])
    ensures forall i :: 0 <= i < |rows| ==>
      rows[i] in db.vendors && db.vendors[rows[i]].bio.Some? && r.body[i] == CardOf(db.vendors[rows[i]])
  {
    rows := Scan(db.vendors, (k: VendorId, v: Vendor) => v.status == "verified" && v.bio.Some?);
    var vendors: seq<PublicCard> := [];
    var i := 0;
    while i < |rows|
      invariant 0 <= i <= |rows| && |vendors| == i
      invariant forall j :: 0 <= j < i ==> vendors[j] == CardOf(db.vendors[rows[j]])
    {
      vendors := vendors + [CardOf(db.vendors[rows[i]])];
      i := i + 1;
    }
    r := Ok(StatusOK, vendors);
  }

  /** The public page of one vendor. */
  datatype PublicProfile = PublicProfile(
    id: VendorId,
    businessName: string,
    slug: string,
    category: string,
    city: string,
    bio: string,
    whatsappLink: string,
    portfolioImageUrl: Option<string>,
    galleryImages: seq<string>,
    portfolioFiles: seq<string>)

  function PublicProfileOf(v: Vendor): PublicProfile
    requires v.bio.Some?
  {
    PublicProfile(v.id, v.businessName, v.slug, v.category, v.city, v.bio.value, v.whatsappLink,
                  v.portfolioImageUrl, v.galleryImages, v.portfolioFiles)
  }

  /** `GetVendorBySlug`: the vendor with that slug when it is publicly
      visible, 404 otherwise; unverified vendors are indistinguishable from
      absent ones. */
  method GetVendorBySlug(db: Db, slug: string) returns (r: Response<PublicProfile>)
    requires db.Valid()
    ensures r.Ok? <==> exists k :: k in db.vendors && db.vendors[k].slug == slug && PubliclyVisible(db.vendors[k])
    ensures r.Err? ==> r == Err(StatusNotFound, "Vendor not found")
    ensures r.Ok? ==> r.status == StatusOK && exists k :: (k in db.vendors && db.vendors[k].slug == slug
      && PubliclyVisible(db.vendors[k]) && r.body == PublicProfileOf(db.vendors[k]))
  {
    if !exists k :: k in db.vendors && db.vendors[k].slug == slug && db.vendors[k].status == "verified" && db.vendors[k].bio.Some? {
      return Err(StatusNotFound, "Vendor not found");
    }
    var k :| k in db.vendors && db.vendors[k].slug == slug && db.vendors[k].status == "verified" && db.vendors[k].bio.Some?;
    return Ok(StatusOK, PublicProfileOf(db.vendors[k]));
  }

  // ---------------------------------------------------------------- profile update

  /** The update body. Media fields are lists as decoded; a portfolio file
      entry is kept opaque. */
  datatype UpdateVendorRequest = UpdateVendorRequest(
    businessName: string,
    category: string,
    city: string,
    bio: string,
    whatsappLink: string,
    portfolioImageUrl: string,
    galleryImages: seq<string>,
    portfolioFiles: seq<string>)

  /** `COALESCE(NULLIF(given, ''), current)`. */
  function KeepIfEmpty<T>(given: string, current: T, wrap: string -> T): T {
    if given == "" then current else wrap(given)
  }

  function Same(s: string): string { s }
  function SomeText(s: string): Option<string> { Some(s) }

  /** The row after `UpdateVendor`'s UPDATE. */
  function Merged(v: Vendor, req: UpdateVendorRequest): (m: Vendor)
    ensures m.id == v.id && m.ownerUserId == v.ownerUserId && m.slug == v.slug && m.status == v.status
  {
    v.(businessName := KeepIfEmpty(req.businessName, v.businessName, Same),
       category := KeepIfEmpty(req.category, v.category, Same),
       city := KeepIfEmpty(req.city, v.city, Same),
       bio := KeepIfEmpty(req.bio, v.bio, SomeText),
       whatsappLink := KeepIfEmpty(req.whatsappLink, v.whatsappLink, Same),
       portfolioImageUrl := Some(req.portfolioImageUrl),
       galleryImages := req.galleryImages,
       portfolioFiles := req.portfolioFiles)
  }

  /** The merge's meaning, field by field: an empty text keeps the stored
      value, a non-empty one replaces it; the three media columns are always
      overwritten, an empty image URL with "" rather than NULL. */
  lemma MergeSemantics(v: Vendor, req: UpdateVendorRequest)
    ensures var m := Merged(v, req);
      && (req.businessName == "" ==> m.businessName == v.businessName)
      && (req.businessName != "" ==> m.businessName == req.businessName)
      && (req.category == "" ==> m.category == v.category)
      && (req.category != "" ==> m.category == req.category)
      && (req.city == "" ==> m.city == v.city)
      && (req.city != "" ==> m.city == req.city)
      && (req.bio == "" ==> m.bio == v.bio)
      && (req.bio != "" ==> m.bio == Some(req.bio))
      && (req.whatsappLink == "" ==> m.whatsappLink == v.whatsappLink)
      && (req.whatsappLink != "" ==> m.whatsappLink == req.whatsappLink)
      && m.portfolioImageUrl == Some(req.portfolioImageUrl)
      && m.galleryImages == req.galleryImages && m.portfolioFiles == req.portfolioFiles
  {
  }

  /** Sending the same update twice is sending it once. */
  lemma MergeIdempotent(v: Vendor, req: UpdateVendorRequest)
    ensures Merged(Merged(v, req), req) == Merged(v, req)
  {
  }

  /** The update never touches the id, the owner or the slug, so it cannot
      break the one-profile-per-owner and one-profile-per-slug constraints. */
  lemma MergeKeepsVendorsValid(vendors: map<VendorId, Vendor>, k: VendorId, req: UpdateVendorRequest)
    requires VendorsValid(vendors) && k in vendors
    ensures VendorsValid(vendors[k := Merged(vendors[k], req)])
  {
  }

  /** `UpdateVendor`: 401 without a caller, 400 for an undecodable body, 500
      when the caller owns no profile (the RETURNING scan finds no row);
      otherwise the caller's profile, and nothing else, becomes `Merged`. */
  method UpdateVendor(db: Db, caller: Option<UserId>, body: Body<UpdateVendorRequest>) returns (r: Response<string>)
    requires db.Valid()
    modifies db`vendors
    ensures db.Valid()
    ensures r.Err? ==> db.vendors == old(db.vendors)
    ensures caller.None? ==> r == Err(StatusUnauthorized, "Unauthorized")
    ensures caller.Some? && body.Undecodable? ==> r == Err(StatusBadRequest, body.reason)
    ensures caller.Some? && body.Decoded? && !HasProfile(old(db.vendors), caller.value) ==>
      r == Err(StatusInternalServerError, "Failed to update vendor profile: no rows in result set")
    ensures r.Ok? <==> caller.Some? && body.Decoded? && HasProfile(old(db.vendors), caller.value)
    ensures r.Ok? ==> (r == Ok(StatusOK, "Vendor profile updated successfully")
      && forall k :: k in old(db.vendors) && old(db.vendors)[k].ownerUserId == caller.value ==>
           db.vendors == old(db.vendors)[k := Merged(old(db.vendors)[k], body.value)])
  {
    if caller.None? {
      return Err(StatusUnauthorized, "Unauthorized");
    }
    var uid := caller.value;
    if body.Undecodable? {
      return Err(StatusBadRequest, body.reason);
    }
    if !HasProfile(db.vendors, uid) {
      return Err(StatusInternalServerError, "Failed to update vendor profile: no rows in result set");
    }
    var k :| k in db.vendors && db.vendors[k].ownerUserId == uid;
    MergeKeepsVendorsValid(db.vendors, k, body.value);
    db.vendors := db.vendors[k := Merged(db.vendors[k], body.value)];
    return Ok(StatusOK, "Vendor profile updated successfully");
  }

  // ---------------------------------------------------------------- gallery and portfolio

  const GalleryLimit := 25
  const PortfolioLimit := 20
  const MaxUploadBytes := 5 * 1024 * 1024

  /** `SELECT COUNT(*) ... WHERE vendor_id = v` on a media table. */
  function CountOf<K, V>(table: map<K, V>, vendorOf: V -> VendorId, v: VendorId): nat {
    |set k | k in table && vendorOf(table[k]) == v|
  }

  function GalleryVendor(g: GalleryImage): VendorId { g.vendorId }
  function PortfolioVendor(f: PortfolioFile): VendorId { f.vendorId }

  /** A new row adds one to its own vendor's count and nothing to any other. */
  lemma CountAfterInsert<K, V>(table: map<K, V>, vendorOf: V -> VendorId, k: K, row: V, v: VendorId)
    requires k !in table
    ensures CountOf(table[k := row], vendorOf, v) == CountOf(table, vendorOf, v) + (if vendorOf(row) == v then 1 else 0)
  {
    var before := set j | j in table && vendorOf(table[j]) == v;
    var grown := table[k := row];
    var after := set j | j in grown && vendorOf(grown[j]) == v;
    if vendorOf(row) == v {
      assert after == before + {k};
    } else {
      assert after == before;
    }
  }

  /** Removing a row takes one from its own vendor's count and nothing from
      any other. */
  lemma CountAfterRemove<K, V>(table: map<K, V>, vendorOf: V -> VendorId, k: K, v: VendorId)
    requires k in table
    ensures CountOf(table - {k}, vendorOf, v) == CountOf(table, vendorOf, v) - (if vendorOf(table[k]) == v then 1 else 0)
  {
    var before := set j | j in table && vendorOf(table[j]) == v;
    var shrunk := table - {k};
    var after := set j | j in shrunk && vendorOf(shrunk[j]) == v;
    if vendorOf(table[k]) == v {
      assert before == after + {k};
    } else {
      assert after == before;
    }
  }

  /** Every vendor holds at most `limit` rows. */
  ghost predicate WithinCap<K, V>(table: map<K, V>, vendorOf: V -> VendorId, limit: nat) {
    forall v :: CountOf(table, vendorOf, v) <= limit
  }

  /** The cap is an invariant of count-then-insert: an insert made while the
      vendor is below the cap keeps every vendor within it. */
  lemma InsertBelowCapKeepsCap<K, V>(table: map<K, V>, vendorOf: V -> VendorId, limit: nat, k: K, row: V)
    requires WithinCap(table, vendorOf, limit) && k !in table
    requires CountOf(table, vendorOf, vendorOf(row)) < limit
    ensures WithinCap(table[k := row], vendorOf, limit)
  {
    var grown := table[k := row];
    forall v ensures CountOf(grown, vendorOf, v) <= limit {
      CountAfterInsert(table, vendorOf, k, row, v);
    }
  }

  /** Deleting never breaks the cap. */
  lemma RemoveKeepsCap<K, V>(table: map<K, V>, vendorOf: V -> VendorId, limit: nat, k: K)
    requires WithinCap(table, vendorOf, limit) && k in table
    ensures WithinCap(table - {k}, vendorOf, limit)
  {
    var shrunk := table - {k};
    forall v ensures CountOf(shrunk, vendorOf, v) <= limit {
      CountAfterRemove(table, vendorOf, k, v);
    }
  }

  /** The checks an upload endpoint makes before storing anything, in the
      handler's order: vendor, owner, cap, file, (PDF type), size, open. */
  function UploadRefusal(vendors: map<VendorId, Vendor>, vendorId: VendorId, userId: UserId,
                         count: nat, limit: nat, limitError: string, notOwnerError: string,
                         file: Option<FileHeader>, pdfOnly: bool): Option<Reply>
  {
    if vendorId !in vendors then Some(Reply(StatusNotFound, "Vendor not found"))
    else if vendors[vendorId].ownerUserId != userId then Some(Reply(StatusForbidden, notOwnerError))
    else if count >= limit then Some(Reply(StatusForbidden, limitError))
    else if file.None? then Some(Reply(StatusBadRequest, "No file provided"))
    else if pdfOnly && file.value.contentType != "application/pdf" then Some(Reply(StatusBadRequest, "Only PDF files allowed"))
    else if file.value.size > MaxUploadBytes then Some(Reply(StatusBadRequest, "File too large (max 5MB)"))
    else if !file.value.opens then Some(Reply(StatusInternalServerError, "Failed to open file"))
    else None
  }

  /** An upload gets past the checks exactly when the vendor exists and is
      the caller's, it is below the cap, and a readable file of at most 5 MB
      (a PDF, where required) is attached. */
  lemma UploadAdmittedIff(vendors: map<VendorId, Vendor>, vendorId: VendorId, userId: UserId,
                          count: nat, limit: nat, limitError: string, notOwnerError: string,
                          file: Option<FileHeader>, pdfOnly: bool)
    ensures UploadRefusal(vendors, vendorId, userId, count, limit, limitError, notOwnerError, file, pdfOnly).None?
      <==> && vendorId in vendors && vendors[vendorId].ownerUserId == userId
           && count < limit && file.Some? && file.value.size <= MaxUploadBytes && file.value.opens
           && (pdfOnly ==> file.value.contentType == "application/pdf")
  {
  }

  /** Where a vendor's media is stored. */
  function GalleryPrefix(vendorId: VendorId): string { "vendors/" + vendorId + "/gallery" }
  function PortfolioPrefix(vendorId: VendorId): string { "vendors/" + vendorId + "/portfolio" }

  /** Each vendor's media is stored under its own folder: the gallery key is
      vendors/<id>/gallery/<uuid>.webp, the portfolio key
      vendors/<id>/portfolio/<uuid> plus the file's extension. */
  lemma MediaKeysUnderVendorFolder(vendorId: VendorId, uuid: string, ext: string)
    ensures ObjectKey(GalleryPrefix(vendorId), uuid, ".webp") == "vendors/" + vendorId + "/gallery/" + uuid + ".webp"
    ensures ObjectKey(PortfolioPrefix(vendorId), uuid, ext) == "vendors/" + vendorId + "/portfolio/" + uuid + ext
  {
    KeyUnderPrefix(GalleryPrefix(vendorId), uuid, ".webp");
    KeyUnderPrefix(PortfolioPrefix(vendorId), uuid, ext);
  }

  /** `UploadGalleryImage` for the caller `userId` (read with `MustGet`).
      After the checks, the image is compressed and stored; only then is one
      row inserted, with sort order count + 1. Any refusal or failure leaves
      the gallery and the bucket as they were. */
  method UploadGalleryImage(db: Db, svc: Service, bucket: Bucket, vendorId: VendorId, userId: UserId,
                            file: Option<FileHeader>, uuid: string, encodeOk: bool, putOk: bool, newId: ImageId)
    returns (r: Response<string>)
    requires db.Valid() && newId !in db.gallery
    modifies db`gallery, bucket
    ensures db.Valid()
    ensures var count := CountOf(old(db.gallery), GalleryVendor, vendorId);
      var refusal := UploadRefusal(db.vendors, vendorId, userId, count, GalleryLimit,
                                   "Gallery limit reached (max 25 images)", "You do not own this vendor profile", file, false);
      var key := ObjectKey(GalleryPrefix(vendorId), uuid, ".webp");
      && (refusal.Some? ==> r == Err(refusal.value.status, refusal.value.error))
      && (refusal.None? && !(encodeOk && putOk) ==> r == Err(StatusInternalServerError, "Failed to upload image"))
      && (r.Err? ==> db.gallery == old(db.gallery) && bucket.objects == old(bucket.objects))
      && (refusal.None? && encodeOk && putOk ==>
            && r == Ok(StatusOK, PublicUrl(svc, key))
            && db.gallery == old(db.gallery)[newId := GalleryImage(newId, vendorId, PublicUrl(svc, key), count + 1)]
            && bucket.objects == old(bucket.objects)[key := "image/webp"])
    ensures WithinCap(old(db.gallery), GalleryVendor, GalleryLimit) ==> WithinCap(db.gallery, GalleryVendor, GalleryLimit)
  {
    var count := CountOf(db.gallery, GalleryVendor, vendorId);
    var refusal := UploadRefusal(db.vendors, vendorId, userId, count, GalleryLimit,
                                 "Gallery limit reached (max 25 images)", "You do not own this vendor profile", file, false);
    if refusal.Some? {
      return Err(refusal.value.status, refusal.value.error);
    }
    r := StoreGalleryImage(db, svc, bucket, vendorId, uuid, encodeOk, putOk, newId, count);
  }

  /** The second half of `UploadGalleryImage`, once every check has passed:
      the image is compressed and stored, then its row is appended with the
      next sort order. */
  method StoreGalleryImage(db: Db, svc: Service, bucket: Bucket, vendorId: VendorId, uuid: string,
                           encodeOk: bool, putOk: bool, newId: ImageId, count: nat)
    returns (r: Response<string>)
    requires db.Valid() && newId !in db.gallery
    requires count == CountOf(db.gallery, GalleryVendor, vendorId) < GalleryLimit
    modifies db`gallery, bucket
    ensures db.Valid()
    ensures !(encodeOk && putOk) ==> (r == Err(StatusInternalServerError, "Failed to upload image")
      && db.gallery == old(db.gallery) && bucket.objects == old(bucket.objects))
    ensures encodeOk && putOk ==>
      var key := ObjectKey(GalleryPrefix(vendorId), uuid, ".webp");
      && r == Ok(StatusOK, PublicUrl(svc, key))
      && db.gallery == old(db.gallery)[newId := GalleryImage(newId, vendorId, PublicUrl(svc, key), count + 1)]
      && bucket.objects == old(bucket.objects)[key := "image/webp"]
    ensures WithinCap(old(db.gallery), GalleryVendor, GalleryLimit) ==> WithinCap(db.gallery, GalleryVendor, GalleryLimit)
  {
    var url := CompressAndUploadImage(svc, bucket, GalleryPrefix(vendorId), uuid, encodeOk, putOk);
    if url.None? {
      return Err(StatusInternalServerError, "Failed to upload image");
    }
    var image := GalleryImage(newId, vendorId, url.value, count + 1);
    if WithinCap(db.gallery, GalleryVendor, GalleryLimit) {
      InsertBelowCapKeepsCap(db.gallery, GalleryVendor, GalleryLimit, newId, image);
    }
    db.gallery := db.gallery[newId := image];
    return Ok(StatusOK, url.value);
  }

  /** `DeleteGalleryImage`: the image is removed only when the vendor is the
      caller's and the image belongs to that vendor; the stored object is
      deleted too, and a failure there is ignored. */
  method DeleteGalleryImage(db: Db, svc: Service, bucket: Bucket, vendorId: VendorId, imageId: ImageId,
                            userId: UserId, deleteOk: bool)
    returns (r: Response<string>)
    requires db.Valid()
    modifies db`gallery, bucket
    ensures db.Valid()
    ensures vendorId !in db.vendors ==> r == Err(StatusNotFound, "Vendor not found")
    ensures vendorId in db.vendors && db.vendors[vendorId].ownerUserId != userId ==> r == Err(StatusForbidden, "Unauthorized")
    ensures (vendorId in db.vendors && db.vendors[vendorId].ownerUserId == userId
      && !(imageId in old(db.gallery) && old(db.gallery)[imageId].vendorId == vendorId))
      ==> r == Err(StatusNotFound, "Image not found")
    ensures r.Err? ==> db.gallery == old(db.gallery) && bucket.objects == old(bucket.objects)
    ensures r.Ok? <==> (vendorId in db.vendors && db.vendors[vendorId].ownerUserId == userId
      && imageId in old(db.gallery) && old(db.gallery)[imageId].vendorId == vendorId)
    ensures r.Ok? ==>
      var url := old(db.gallery)[imageId].imageUrl;
      && r == Ok(StatusOK, "Image deleted")
      && db.gallery == old(db.gallery) - {imageId}
      && (url == "" || !deleteOk ==> bucket.objects == old(bucket.objects))
      && (url != "" && deleteOk ==> bucket.objects == old(bucket.objects) - {KeyOfUrl(svc, url)})
  {
    if vendorId !in db.vendors {
      return Err(StatusNotFound, "Vendor not found");
    }
    if db.vendors[vendorId].ownerUserId != userId {
      return Err(StatusForbidden, "Unauthorized");
    }
    if !(imageId in db.gallery && db.gallery[imageId].vendorId == vendorId) {
      return Err(StatusNotFound, "Image not found");
    }
    var url := db.gallery[imageId].imageUrl;
    var _ := DeleteFile(svc, bucket, url, deleteOk);
    db.gallery := db.gallery - {imageId};
    return Ok(StatusOK, "Image deleted");
  }

  /** The title stored for a portfolio file: the form's, or the file name
      when the form gives none. */
  function PortfolioTitle(formTitle: string, filename: string): (title: string)
    ensures formTitle != "" ==> title == formTitle
    ensures formTitle == "" ==> title == filename
  {
    if formTitle == "" then filename else formTitle
  }

  /** The portfolio upload's checks, with its cap and messages. */
  function PortfolioRefusal(vendors: map<VendorId, Vendor>, portfolio: map<FileId, PortfolioFile>,
                            vendorId: VendorId, userId: UserId, file: Option<FileHeader>): Option<Reply> {
    UploadRefusal(vendors, vendorId, userId, CountOf(portfolio, PortfolioVendor, vendorId), PortfolioLimit,
                  "Portfolio limit reached (max 20 files)", "Unauthorized", file, true)
  }

  function PortfolioKey(vendorId: VendorId, uuid: string, filename: string): string {
    ObjectKey(PortfolioPrefix(vendorId), uuid, Strings.Ext(filename))
  }

  /** `UploadPortfolioFile` for the caller `userId` (read with `MustGet`):
      like the gallery upload with a cap of 20 and only PDFs; the file is
      stored as is under the vendor's portfolio folder. */
  method UploadPortfolioFile(db: Db, svc: Service, bucket: Bucket, vendorId: VendorId, userId: UserId,
                             file: Option<FileHeader>, formTitle: string, uuid: string, putOk: bool, newId: FileId)
    returns (r: Response<string>)
    requires db.Valid() && newId !in db.portfolio
    modifies db`portfolio, bucket
    ensures db.Valid()
    ensures PortfolioRefusal(db.vendors, old(db.portfolio), vendorId, userId, file).Some? ==>
      var refusal := PortfolioRefusal(db.vendors, old(db.portfolio), vendorId, userId, file).value;
      r == Err(refusal.status, refusal.error)
    ensures PortfolioRefusal(db.vendors, old(db.portfolio), vendorId, userId, file).None? && !putOk ==>
      r == Err(StatusInternalServerError, "Failed to upload file")
    ensures r.Err? ==> db.portfolio == old(db.portfolio) && bucket.objects == old(bucket.objects)
    ensures r.Ok? <==> PortfolioRefusal(db.vendors, old(db.portfolio), vendorId, userId, file).None? && putOk
    ensures r.Ok? ==>
      var key := PortfolioKey(vendorId, uuid, file.value.filename);
      && r == Ok(StatusOK, PublicUrl(svc, key))
      && bucket.objects == old(bucket.objects)[key := "application/pdf"]
      && db.portfolio == old(db.portfolio)[newId := PortfolioFile(newId, vendorId, PublicUrl(svc, key),
           PortfolioTitle(formTitle, file.value.filename), CountOf(old(db.portfolio), PortfolioVendor, vendorId) + 1)]
    ensures WithinCap(old(db.portfolio), PortfolioVendor, PortfolioLimit) ==> WithinCap(db.portfolio, PortfolioVendor, PortfolioLimit)
  {
    var count := CountOf(db.portfolio, PortfolioVendor, vendorId);
    var refusal := PortfolioRefusal(db.vendors, db.portfolio, vendorId, userId, file);
    if refusal.Some? {
      return Err(refusal.value.status, refusal.value.error);
    }
    r := StorePortfolioFile(db, svc, bucket, vendorId, file.value.filename, formTitle, uuid, putOk, newId, count);
  }

  /** The second half of `UploadPortfolioFile`, once every check has passed:
      the PDF is stored, then its row is appended with the next sort order
      and the form's title, or the file name when the form gives none. */
  method StorePortfolioFile(db: Db, svc: Service, bucket: Bucket, vendorId: VendorId, filename: string,
                            formTitle: string, uuid: string, putOk: bool, newId: FileId, count: nat)
    returns (r: Response<string>)
    requires db.Valid() && newId !in db.portfolio
    requires count == CountOf(db.portfolio, PortfolioVendor, vendorId) < PortfolioLimit
    modifies db`portfolio, bucket
    ensures db.Valid()
    ensures !putOk ==> (r == Err(StatusInternalServerError, "Failed to upload file")
      && db.portfolio == old(db.portfolio) && bucket.objects == old(bucket.objects))
    ensures putOk ==>
      var key := PortfolioKey(vendorId, uuid, filename);
      && r == Ok(StatusOK, PublicUrl(svc, key))
      && bucket.objects == old(bucket.objects)[key := "application/pdf"]
      && db.portfolio == old(db.portfolio)[newId := PortfolioFile(newId, vendorId, PublicUrl(svc, key),
           PortfolioTitle(formTitle, filename), count + 1)]
    ensures WithinCap(old(db.portfolio), PortfolioVendor, PortfolioLimit) ==> WithinCap(db.portfolio, PortfolioVendor, PortfolioLimit)
  {
    var url := UploadFile(svc, bucket, filename, "application/pdf", PortfolioPrefix(vendorId), uuid, putOk);
    if url.None? {
      return Err(StatusInternalServerError, "Failed to upload file");
    }
    var title := formTitle;
    if title == "" {
      title := filename;
    }
    var key := PortfolioKey(vendorId, uuid, filename);
    assert url.value == PublicUrl(svc, key) && title == PortfolioTitle(formTitle, filename);
    var entry := PortfolioFile(newId, vendorId, url.value, title, count + 1);
    if WithinCap(db.portfolio, PortfolioVendor, PortfolioLimit) {
      InsertBelowCapKeepsCap(db.portfolio, PortfolioVendor, PortfolioLimit, newId, entry);
    }
    db.portfolio := db.portfolio[newId := entry];
    return Ok(StatusOK, url.value);
  }

  /** `DeletePortfolioFile`: as the gallery delete, on portfolio files. */
  method DeletePortfolioFile(db: Db, svc: Service, bucket: Bucket, vendorId: VendorId, fileId: FileId,
                             userId: UserId, deleteOk: bool)
    returns (r: Response<string>)
    requires db.Valid()
    modifies db`portfolio, bucket
    ensures db.Valid()
    ensures vendorId !in db.vendors ==> r == Err(StatusNotFound, "Vendor not found")
    ensures vendorId in db.vendors && db.vendors[vendorId].ownerUserId != userId ==> r == Err(StatusForbidden, "Unauthorized")
    ensures (vendorId in db.vendors && db.vendors[vendorId].ownerUserId == userId
      && !(fileId in old(db.portfolio) && old(db.portfolio)[fileId].vendorId == vendorId))
      ==> r == Err(StatusNotFound, "File not found")
    ensures r.Err? ==> db.portfolio == old(db.portfolio) && bucket.objects == old(bucket.objects)
    ensures r.Ok? <==> (vendorId in db.vendors && db.vendors[vendorId].ownerUserId == userId
      && fileId in old(db.portfolio) && old(db.portfolio)[fileId].vendorId == vendorId)
    ensures r.Ok? ==>
      var url := old(db.portfolio)[fileId].fileUrl;
      && r == Ok(StatusOK, "File deleted")
      && db.portfolio == old(db.portfolio) - {fileId}
      && (url == "" || !deleteOk ==> bucket.objects == old(bucket.objects))
      && (url != "" && deleteOk ==> bucket.objects == old(bucket.objects) - {KeyOfUrl(svc, url)})
  {
    if vendorId !in db.vendors {
      return Err(StatusNotFound, "Vendor not found");
    }
    if db.vendors[vendorId].ownerUserId != userId {
      return Err(StatusForbidden, "Unauthorized");
    }
    if !(fileId in db.portfolio && db.portfolio[fileId].vendorId == vendorId) {
      return Err(StatusNotFound, "File not found");
    }
    var url := db.portfolio[fileId].fileUrl;
    var _ := DeleteFile(svc, bucket, url, deleteOk);
    db.portfolio := db.portfolio - {fileId};
    return Ok(StatusOK, "File deleted");
  }
}
