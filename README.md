# bventy backend: authorization and handler rules in Dafny

This project models the decision logic of the bventy backend. That backend is
an HTTP API written in Go (gin, pgx, Postgres, Firebase, Cloudflare R2), and
the model covers:

- the two authenticators (local session tokens and Firebase ID tokens);
- the role and permission guards, and the middleware chain that stops at the
  first abort;
- role promotions and role management, and vendor moderation;
- the caller's own profile (`/me`);
- vendor onboarding, profile merge, and gallery and portfolio uploads and
  deletes, with their caps;
- local signup and login;
- events: creation, "my events" visibility, lookup and the vendor shortlist;
- the object keys and public URLs of the media store, and the generic upload
  endpoint's extension whitelist.

The database is a class `Store.Db` whose fields are the tables. `users`,
`vendor_profiles`, `vendor_gallery_images`, `vendor_portfolio_files`, `groups`
and `events` are maps keyed by primary key. `group_members` is a map from
(group, user) to the member's role, and `user_permissions` and
`event_shortlisted_vendors` are sets of pairs. `Db.Valid` states the key and
uniqueness constraints the handlers rely on. Handlers are methods: those that
write name the tables they change in `modifies`, and those that only read
change nothing. A gin request context is the class `Gin.Context`, whose `Set`
and `AbortWithError` do what `c.Set` and `c.JSON` plus `c.Abort` do.

The outside collaborators are parameters:

- token issuing and validation, bcrypt hashing and comparison;
- Firebase `VerifyIDToken`;
- `time.Parse` with the two layouts, and the e-mail validator of the
  `binding` tags;
- `generateSlug`;
- uuids, and whether image encoding or an R2 `PutObject` succeeds.

The database-assigned ids are parameters too. A request body is either
decoded (`Body.Decoded`) or refused by the JSON decoder with its error text
(`Body.Undecodable`). The `binding` tags are checked by `Common.BindingError`.

Each handler's contract gives its answer for every input, error cases
included, and its new tables. The lemmas state what the routes promise
together:

- the guards' monotonicity and the super_admin bypass;
- that a denial stops the chain;
- that no login answer reveals whether an e-mail exists;
- that the media caps are invariants;
- that deleting by the returned URL removes exactly the uploaded object;
- that shortlisting is idempotent.

Where the code and its design notes differ, the model follows the code:

- `FirebaseAuthMiddleware` never creates an account.
- A vendor whose `bio` is NULL is missing from the public listing and slug
  lookup, because those queries scan `bio` into a plain string.
- A user whose `full_name` is NULL gets 404 from `GetMe`, for the same reason.
- An account without a password hash (a Firebase account) cannot log in with
  a password, and is answered "Invalid credentials".
- `GetEventById` and `ShortlistVendor` check neither ownership nor membership:
  any authenticated caller may read any event and shortlist for any event.

## Model

| member | source | states |
|---|---|---|
| Roles.RoleLevel | internal/middleware/auth.go:38-51 | the rank of a role is at most 4 |
| Roles.HierarchyIsStrict | internal/middleware/auth.go:37-51 | super_admin ranks 4, admin 3, staff 2 and user 1, in strictly increasing order |
| Roles.RankedIffValid | internal/handlers/admin.go:150 | a role ranks above 0 exactly when it is one of the four whitelisted roles |
| Roles.RankDeterminesValidRole | internal/middleware/auth.go:38-51 | two whitelisted roles with the same rank are the same role |
| Strings.TrimPrefix | internal/middleware/auth.go:23 | one leading copy of the prefix is removed when present; otherwise the string is unchanged |
| Strings.TrimPrefixOfConcat | internal/services/media_service.go:131-132 | trimming p from p + t gives t |
| Strings.Split | internal/middleware/firebase_auth.go:22 | there is one part more than there are separators, no part holds the separator, and joining the parts gives back the string |
| Strings.SplitWithoutSeparator | internal/middleware/firebase_auth.go:22 | a string without the separator splits into itself alone |
| Strings.SplitAtFirstSeparator | internal/middleware/firebase_auth.go:22 | splitting p + sep + t gives p followed by the parts of t |
| Strings.SplitJoin | internal/middleware/firebase_auth.go:22-23 | splitting a join of separator-free parts gives back the parts |
| Strings.ToLower | internal/handlers/media.go:40 | each character is mapped through the ASCII lower-case mapping, and the length is kept |
| Strings.Ext | internal/services/media_service.go:57 | the extension is never longer than the name |
| Strings.ExtIsDottedSuffix | internal/services/media_service.go:57 | the extension is a suffix of the name; when non-empty it starts with '.', holds no other '.' and no '/' |
| Strings.ExtEmptyMeansNoDot | internal/handlers/media.go:40 | with no extension, the last path element holds no '.' |
| Strings.ExtOfDottedSuffix | internal/handlers/media.go:40 | a final ".x" with no other '.' and no '/' is the extension, whatever precedes it |
| Strings.ExtExtends | internal/services/media_service.go:57 | one more character that is neither '/' nor '.' extends a non-empty extension |
| Strings.ExtWithoutDot | internal/handlers/media.go:40-45 | a name without '.' has an empty extension |
| Common.BindingAcceptsIffAllTagsHold | internal/handlers/auth.go:28-32 | binding succeeds exactly when every `binding` tag of the struct holds |
| Store.Scan | internal/handlers/events.go:110-138 | the keys of exactly the rows that satisfy the query, each once |
| Gin.Context.Set | internal/middleware/auth.go:31-32 | the key is set to the value and every other key is kept |
| Gin.Context.AbortWithError | internal/middleware/auth.go:18-19 | the context is aborted with that status and error text |
| AuthMiddleware.BearerStrippedOnce | internal/middleware/auth.go:23 | exactly one leading "Bearer " is removed, so a doubled scheme reaches the validator as "Bearer " + token |
| AuthMiddleware.BareTokenAccepted | internal/middleware/auth.go:23-24 | a header without the scheme is judged as if it carried the scheme |
| AuthMiddleware.AuthenticatedIffValidToken | internal/middleware/auth.go:16-32 | authentication succeeds exactly for a non-empty header whose token validates, with that token's claims; an empty header gives "Authorization header required" |
| AuthMiddleware.AuthMiddleware | internal/middleware/auth.go:14-35 | a failure gives 401 and an abort, with the context's values untouched; a success sets `userID` and `role` to the claims and does not abort |
| AuthMiddleware.RoleGuardWithoutRole | internal/middleware/auth.go:55-60 | without a `role`, the guard answers 401 "Unauthorized" |
| AuthMiddleware.RoleGuardIffRankReached | internal/middleware/auth.go:62-69 | with a role, the guard passes exactly when the caller's rank reaches the demanded rank, and otherwise answers 403 "Forbidden: Insufficient role" |
| AuthMiddleware.RoleGuardMonotone | internal/middleware/auth.go:63 | passing a guard for a higher demanded role implies passing every lower one |
| AuthMiddleware.RoleGuardCallerMonotone | internal/middleware/auth.go:63 | a caller ranked at least as high as a passing caller passes too |
| AuthMiddleware.UnknownMinimumPassesEveryone | internal/middleware/auth.go:48-49 | a demanded role outside the hierarchy ranks 0 and lets every caller with a role through |
| AuthMiddleware.PermissionGuardWithoutUser | internal/middleware/auth.go:75-80 | without a `userID`, the guard answers 401 whatever the grant table holds |
| AuthMiddleware.SuperAdminBypass | internal/middleware/auth.go:96-101 | a super_admin passes every permission guard, even with no grants at all |
| AuthMiddleware.PermissionGuardIffGranted | internal/middleware/auth.go:89-104 | any other caller passes exactly when (userID, code) is granted, and otherwise gets 403 "Forbidden: Missing permission '<code>'" |
| AuthMiddleware.PermissionGuardMonotoneInGrants | internal/middleware/auth.go:89-94 | adding grants never turns a pass into a denial |
| AuthMiddleware.RequireRole | internal/middleware/auth.go:53-71 | the handler applies the guard's verdict: it continues on a pass, and aborts with the guard's reply on a denial, without changing the context's values |
| AuthMiddleware.RequirePermission | internal/middleware/auth.go:73-106 | the handler applies the permission verdict over the grant table in the same way |
| FirebaseMiddleware.WellFormedHeaderAccepted | internal/middleware/firebase_auth.go:22-28 | "Bearer " followed by a token without spaces yields that token |
| FirebaseMiddleware.AcceptedHeaderShape | internal/middleware/firebase_auth.go:22-28 | an accepted header is exactly "Bearer " plus a token without spaces |
| FirebaseMiddleware.ExtraSpaceRejected | internal/middleware/firebase_auth.go:22-26 | "Bearer  x" (two spaces) is rejected as malformed |
| FirebaseMiddleware.LinkedAccountIsTheRow | internal/middleware/firebase_auth.go:49-51 | with unique firebase_uid values, the account found is the one row carrying the uid |
| FirebaseMiddleware.UserAttachedIffLinked | internal/middleware/firebase_auth.go:43-56 | `firebase_uid` and `email` are always set; `userID` and `role` are set exactly when a row carries the uid, and then they hold that row's id and role |
| FirebaseMiddleware.UnlinkedCallerIsUnauthorized | internal/middleware/firebase_auth.go:47-58 | a verified caller without an account is stopped with 401 by every role and permission guard |
| FirebaseMiddleware.FirebaseAuthMiddleware | internal/middleware/firebase_auth.go:14-60 | a missing header, a malformed header, an unavailable client or a rejected token aborts with its status and text and leaves the values untouched; otherwise the verified keys are set, and no table is written |
| Chain.Step | internal/routes/routes.go:40 | a stage that aborts leaves the context's values as they were |
| Chain.RunStages | internal/routes/routes.go:39-41 | every stage keeps `userID` and `role` string-valued |
| Chain.DenialStopsChain | internal/routes/routes.go:95 | once a prefix of the chain has aborted, whatever stages follow change nothing |
| Chain.ChainMonotoneInGrants | internal/routes/routes.go:95 | a request that reaches its handler still reaches it, unchanged, with more grants |
| Chain.StaffNeedsTheGrant | internal/middleware/auth.go:89-104 | behind local auth, `RequireRole("staff")` and `RequirePermission(code)`, a staff caller is refused with 403 without the grant and passes with it |
| Chain.StaffReachesPermissionCheck | internal/middleware/auth.go:31-32 | a staff caller passes authentication and the staff guard with its identity set |
| Chain.SingleStage | internal/routes/routes.go:40 | a chain of one stage is that stage |
| Chain.Run | internal/routes/routes.go:39-41 | running the stages on a context gives the chain's result, and the handler is reached exactly when no stage aborted |
| UserHandlers.WithRole | internal/handlers/user.go:31 | only the target's role changes; every other row and the key set are kept, and so is validity |
| UserHandlers.PromotionsPreserveSuperAdmins | internal/handlers/user.go:27-31 | neither promotion endpoint creates or removes a super_admin |
| UserHandlers.PromotionsNeverDemote | internal/handlers/user.go:48-52 | no promotion lowers anybody's rank |
| UserHandlers.PromotionEndpointsProtectHigherRanks | internal/handlers/user.go:27-51 | every role ranked above the new role is one the endpoint refuses to touch |
| UserHandlers.PromotionIdempotent | internal/handlers/user.go:31-52 | promoting twice is promoting once |
| UserHandlers.PromoteToAdmin | internal/handlers/user.go:18-37 | an unknown target gives 404; a super_admin gives 403 with nothing changed; otherwise the target, and only the target, becomes admin |
| UserHandlers.PromoteToStaff | internal/handlers/user.go:39-58 | an unknown target gives 404; an admin or super_admin gives 403 with nothing changed; otherwise the target, and only the target, becomes staff |
| UserHandlers.GetMe | internal/handlers/user.go:60-114 | 401 without a caller; 404 for a missing row or a NULL full_name; otherwise the caller's row, `vendor_profile_exists` true exactly when the caller owns a profile, and exactly the caller's groups, each once, with the caller's role in each |
| UserHandlers.NullIfEmpty | internal/handlers/user.go:159-182 | "" becomes NULL and any other string is kept |
| UserHandlers.OwnUsernameNeverTaken | internal/handlers/user.go:143-155 | keeping one's own username never conflicts |
| UserHandlers.WithProfile | internal/handlers/user.go:159-202 | full_name is stored verbatim even when empty; username, phone, city, bio and image are NULL when given as "" and otherwise stored exactly as given; id, e-mail, role and credentials are kept |
| UserHandlers.UpdatePassingCheckKeepsUsersValid | internal/handlers/user.go:143-155 | an update that passes the uniqueness check keeps usernames unique |
| UserHandlers.UpdateMe | internal/handlers/user.go:125-219 | 401 without a caller; 400 for a refused body; 409 "Username is already taken" when another user holds the username; 500 when the caller's row is gone; it succeeds exactly when none of these applies, and then only the caller's row is rewritten and the reply carries the new row and "Profile updated successfully"; any refusal changes nothing |
| AdminHandlers.FilterNarrowsListing | internal/handlers/admin.go:33-37 | whatever a status filter lists, the unfiltered list lists too, with the status asked for |
| AdminHandlers.GetVendors | internal/handlers/admin.go:18-73 | exactly the vendors with an existing owner and, for a non-empty filter, that status, each once, with the owner's profile image |
| AdminHandlers.WithStatus | internal/handlers/admin.go:77-90 | only that vendor's status changes, and validity is kept |
| AdminHandlers.ModerationLastWriteWins | internal/handlers/admin.go:75-99 | a second decision overwrites the first whatever it was, and repeating a decision changes nothing |
| AdminHandlers.VerifyVendor | internal/handlers/admin.go:75-86 | an unknown vendor gives 404; otherwise its status becomes "verified" whatever it was, and nothing else changes |
| AdminHandlers.RejectVendor | internal/handlers/admin.go:88-99 | an unknown vendor gives 404; otherwise its status becomes "rejected", and nothing else changes |
| AdminHandlers.RoleToWrite | internal/handlers/admin.go:142-154 | only a bound and whitelisted role is ever accepted, and every other body is a 400 |
| AdminHandlers.RoleWriteKeepsRolesValid | internal/handlers/admin.go:150-158 | writing an accepted role keeps every user's role whitelisted and ranked |
| AdminHandlers.UpdateUserRole | internal/handlers/admin.go:134-165 | 400 "Invalid input" or "Invalid role" with nothing changed; 404 for an unknown user; otherwise that user's role becomes exactly the input |
| VendorHandlers.NewProfile | internal/handlers/vendor.go:52-55 | the new profile belongs to the caller, is "pending" and has empty media lists |
| VendorHandlers.OnboardKeepsVendorsValid | internal/handlers/vendor.go:59-63 | an insert without a conflict keeps one profile per owner and per slug |
| VendorHandlers.OnboardVendor | internal/handlers/vendor.go:36-70 | 401, 400, 409 on a duplicate owner or slug, otherwise 201 with exactly one new pending profile |
| VendorHandlers.ProfileOf | internal/handlers/vendor.go:79-115 | `verified` is reported exactly when the status is "verified", and a NULL bio reads as "" |
| VendorHandlers.GetMyProfile | internal/handlers/vendor.go:72-116 | 401 without a caller, 404 without a profile, otherwise the view of the caller's own profile |
| VendorHandlers.PublicMeansVerified | internal/handlers/vendor.go:122 | only verified vendors are shown publicly and, given a bio, being shown is being reported verified |
| VendorHandlers.ListVerifiedVendors | internal/handlers/vendor.go:118-150 | exactly the publicly visible vendors, each once |
| VendorHandlers.GetVendorBySlug | internal/handlers/vendor.go:152-188 | found exactly when a publicly visible vendor has the slug, and then it is that vendor's page; otherwise 404 |
| VendorHandlers.Merged | internal/handlers/vendor.go:225-237 | the merge never touches the id, the owner, the slug or the status |
| VendorHandlers.MergeSemantics | internal/handlers/vendor.go:227-234 | an empty text keeps the stored value, and a non-empty one replaces it; the image URL, gallery and portfolio lists are always overwritten |
| VendorHandlers.MergeIdempotent | internal/handlers/vendor.go:225-237 | sending the same update twice is sending it once |
| VendorHandlers.MergeKeepsVendorsValid | internal/handlers/vendor.go:235 | the merge keeps one profile per owner and per slug |
| VendorHandlers.UpdateVendor | internal/handlers/vendor.go:201-263 | 401, 400, 500 without a profile; it succeeds exactly when the caller owns a profile, and then only that profile becomes the merge |
| VendorHandlers.CountAfterInsert | internal/handlers/vendor.go:322-324 | a new row adds one to its own vendor's count and nothing to any other |
| VendorHandlers.CountAfterRemove | internal/handlers/vendor.go:363 | a removed row takes one from its own vendor's count and nothing from any other |
| VendorHandlers.InsertBelowCapKeepsCap | internal/handlers/vendor.go:283-292 | an insert made while the vendor is below the cap keeps every vendor within the cap |
| VendorHandlers.RemoveKeepsCap | internal/handlers/vendor.go:363 | a delete never breaks the cap |
| VendorHandlers.UploadAdmittedIff | internal/handlers/vendor.go:270-311 | an upload passes the checks exactly when the vendor exists and is the caller's, the count is below the cap, and a readable file of at most 5 MB (a PDF where required) is attached |
| VendorHandlers.MediaKeysUnderVendorFolder | internal/handlers/vendor.go:314 | gallery keys are vendors/<id>/gallery/<uuid>.webp and portfolio keys are vendors/<id>/portfolio/<uuid><ext> |
| VendorHandlers.UploadGalleryImage | internal/handlers/vendor.go:266-331 | each refusal in the handler's order with its status and text; 500 when compression or storage fails; otherwise the webp object and one row with sort_order count + 1; any error changes nothing, and the 25-image cap is kept |
| VendorHandlers.StoreGalleryImage | internal/handlers/vendor.go:313-330 | after the checks: 500 and nothing stored on failure, otherwise the webp object and the row with sort_order count + 1 |
| VendorHandlers.DeleteGalleryImage | internal/handlers/vendor.go:334-370 | 404 for an unknown vendor, 403 "Unauthorized" for another owner's vendor, 404 "Image not found" for an image that is missing or belongs to another vendor; otherwise exactly that row is removed, and its object too unless the store refuses, which does not change the answer |
| VendorHandlers.PortfolioTitle | internal/handlers/vendor.go:434-437 | the form's title, or the file name when the form gives none |
| VendorHandlers.UploadPortfolioFile | internal/handlers/vendor.go:373-449 | the checks of the gallery upload with a cap of 20 and PDFs only; success exactly when they pass and the store accepts the file, and then one row with the title and sort_order count + 1; the 20-file cap is kept |
| VendorHandlers.StorePortfolioFile | internal/handlers/vendor.go:426-448 | after the checks: 500 on failure, otherwise the object under the portfolio key and the row with its title |
| VendorHandlers.DeletePortfolioFile | internal/handlers/vendor.go:452-488 | as the gallery delete, on portfolio files |
| AuthHandlers.SignupBindsIff | internal/handlers/auth.go:22-25 | the signup body binds exactly when the e-mail is present and valid and the password has at least 6 characters |
| AuthHandlers.NewAccount | internal/handlers/auth.go:43 | a new account always has role "user" and the hash, never the raw password |
| AuthHandlers.SignupKeepsUsersValid | internal/handlers/auth.go:43-48 | inserting a fresh e-mail keeps e-mails unique |
| AuthHandlers.Signup | internal/handlers/auth.go:27-66 | 400 for a refused body, 500 when hashing fails, 409 "User already exists" for a taken e-mail; otherwise 201 with one new "user" account, with a token and the account when a token is issued and "please login" otherwise |
| AuthHandlers.Credentials | internal/handlers/auth.go:80-82 | the account found has that e-mail and a non-NULL password hash; none is found only when every account with that e-mail has a NULL hash |
| AuthHandlers.Login | internal/handlers/auth.go:73-101 | the answer is the login outcome: 400, 401 "Invalid credentials", 500 "Failed to generate token", or 200 with the token, role and id |
| AuthHandlers.OneAccountPerEmail | internal/handlers/auth.go:81-82 | with unique e-mails, the account found is the one holding the e-mail |
| AuthHandlers.BindingFailsBeforeLookup | internal/handlers/auth.go:74-78 | a body that does not bind gets 400 whatever the users table holds |
| AuthHandlers.UnknownEmailLooksLikeWrongPassword | internal/handlers/auth.go:82-92 | an unknown e-mail and a wrong password get the identical 401 "Invalid credentials" |
| AuthHandlers.LoginCarriesStoredIdentity | internal/handlers/auth.go:94-100 | a successful login is for the account with that e-mail whose hash fits the password, and the token is issued for, and the reply echoes, its stored id and role |
| AuthHandlers.SignupThenLogin | internal/handlers/auth.go:43-100 | logging in after signing up reaches the new account with role "user" |
| EventHandlers.ParseDate | internal/handlers/events.go:43-51 | a date is accepted exactly when it parses as RFC 3339 or as YYYY-MM-DD, and RFC 3339 wins |
| EventHandlers.NewEvent | internal/handlers/events.go:53-59 | with a group, organizer_group_id is the group and organizer_user_id is NULL; otherwise the caller organizes it and there is no group |
| EventHandlers.NewEventHasOneOrganizer | internal/handlers/events.go:53-59 | every created event has exactly one organizer |
| EventHandlers.CreateRefusal | internal/handlers/events.go:30-73 | an admitted request has a caller, a decoded body and a date that parses |
| EventHandlers.CreateAdmittedIff | internal/handlers/events.go:30-73 | an event is created exactly when there is a caller, title, city and date are present, the date parses, and the caller belongs to the named group, if any |
| EventHandlers.OutsiderCannotCreateGroupEvent | internal/handlers/events.go:61-68 | a caller outside the group gets 403 "You are not a member of this group" |
| EventHandlers.CreateEvent | internal/handlers/events.go:30-93 | a refusal answers 401, 400 or 403 with its text and inserts nothing; otherwise 201 with the new id and exactly one new event; every event keeps exactly one organizer |
| EventHandlers.InsertEvent | internal/handlers/events.go:76-85 | the row is added under its id, and the one-organizer invariant is kept |
| EventHandlers.CreatorSeesEvent | internal/handlers/events.go:53-108 | every event the handler creates is in its creator's "my events" |
| EventHandlers.GroupEventsVisibleToMembersOnly | internal/handlers/events.go:103-108 | a group's event is visible exactly to the group's members |
| EventHandlers.ListMyEvents | internal/handlers/events.go:95-141 | 401 without a caller; otherwise exactly the events the caller organizes or whose group the caller belongs to, each once |
| EventHandlers.GetEventById | internal/handlers/events.go:143-186 | 404 "Event not found" for an unknown id, otherwise that event with both organizer columns, for any caller |
| EventHandlers.ShortlistVendor | internal/handlers/events.go:188-201 | the pair is in the shortlist afterwards, nothing else changes, and the answer is always 200 "Vendor shortlisted" |
| EventHandlers.ShortlistIdempotent | internal/handlers/events.go:192 | re-adding a present pair leaves the set unchanged, twice is once, and no other pair is added or removed |
| MediaService.ObjectKey | internal/services/media_service.go:58-61 | the key is prefix/uuid<suffix> with one leading "/" trimmed |
| MediaService.KeyOfPublicUrl | internal/services/media_service.go:131-132 | the key extracted from a public URL is the key it was built from, for every key |
| MediaService.KeyUnderPrefix | internal/services/media_service.go:58-61 | with a non-empty prefix that does not start with "/", the key is prefix/uuid<suffix> and lies under prefix/ |
| MediaService.KeyWithEmptyPrefix | internal/services/media_service.go:58-61 | with an empty prefix, the leading "/" is trimmed, leaving uuid<suffix> |
| MediaService.CompressedKeyEndsInWebp | internal/services/media_service.go:102-103 | compressed image keys always end in ".webp" |
| MediaService.UploadFile | internal/services/media_service.go:56-75 | on success, the object is stored under the key with the original extension and the public URL is returned; on failure nothing is stored |
| MediaService.CompressAndUploadImage | internal/services/media_service.go:78-117 | on success, the object is stored as <key>.webp with type image/webp; any failure stores nothing |
| MediaService.DeleteFile | internal/services/media_service.go:120-143 | "" is a successful no-op; otherwise the object under the extracted key is removed, or nothing changes on failure |
| MediaService.UploadThenDelete | internal/services/media_service.go:131-136 | deleting by the returned URL removes exactly the uploaded object |
| MediaHandler.FinalExtensionDecides | internal/handlers/media.go:40-42 | only the final extension counts, in any letter case |
| MediaHandler.UpperCaseAccepted | internal/handlers/media.go:40-42 | any name ending in ".JPG" is accepted |
| MediaHandler.WhitelistedExtensionAccepted | internal/handlers/media.go:40-42 | every whitelisted extension (.jpg, .jpeg, .png, .webp) is accepted after any stem |
| MediaHandler.NoDotRejected | internal/handlers/media.go:40-45 | a name without a dot is refused |
| MediaHandler.EmptyExtensionRefused | internal/handlers/media.go:41-42 | the empty extension is not whitelisted |
| MediaHandler.DoubleExtensionJudgedByLast | internal/handlers/media.go:40-45 | "x.png.exe" is refused and "x.exe.png" is accepted |
| MediaHandler.UploadsKey | internal/handlers/media.go:48 | the generic endpoint's objects are stored under uploads/<uuid><ext> |
| MediaHandler.Upload | internal/handlers/media.go:30-57 | 400 without a readable file, 400 for a refused extension, 500 when storage fails; otherwise the file is stored under uploads/<uuid><ext> and its URL returned |

## Left out

- Database failures other than those the handlers map to a specific answer (connection loss, failed `Exec` calls) are not modelled: "Failed to fetch ...", "Database error", "Failed to save image metadata", "Failed to delete ... record", "Failed to shortlist vendor", "Failed to create event: ...", "Database error checking membership", "Failed to validate username". A malformed uuid in a path parameter makes Postgres fail too; the model's ids are always well formed.
- AuthHandlers.Signup: the insert fails only on a taken e-mail. Any other insert failure, which the code also answers with 409, is not modelled.
- VendorHandlers.OnboardVendor: the 500 "Failed to onboard vendor" for an insert error other than a unique violation is not modelled.
- VendorHandlers.UpdateVendor: the 500 for a caller without a profile is modelled, but other update failures are not.
- Concurrency: the count-then-insert race of the media caps and the check-then-update of `UpdateMe` are not modelled. Each handler runs alone.
- `AdminHandlers.GetUsers` and `GetStats` are not modelled: they only read counts and rows, with no rule to state.
- `GetShortlistedVendors` is not modelled: it selects a `display_name` column that the rest of the vendor schema does not have.
- `generateSlug`, `AdminOnly`, the group handlers, `HealthCheck` and `UploadProfileImage` are referenced by the routes but their code is not part of this model. The slug is a parameter of `OnboardVendor`.
- Cryptography, token expiry, JWT encoding, the Firebase SDK and `time.Parse` are parameters, not models.
- Image decoding, WebP encoding and the S3 client are reduced to whether they succeed, and the uuid is a parameter.
- `Strings.ToLower` maps ASCII letters only. Go's Unicode case mapping is not modelled.
- JSON details: a nil slice encoding as `null` instead of `[]`, `created_at`, and date formatting in replies. Dates are integers.
- `MustGet` in the media handlers panics without a `userID`. The model takes the caller as given, since those routes sit behind authentication.
- Foreign keys (an event's group, a shortlisted vendor) are not enforced.
- `PromoteToStaff` is not routed. It is modelled as a handler.
- The e-mail validator of the `binding` tag is a parameter.
- Rows that fail to scan because of NULLs are modelled where a nullable column is scanned into a plain string (vendor `bio`, user `full_name`, user `password_hash`). Columns the schema declares NOT NULL are assumed non-NULL.
