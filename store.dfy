/** The relational store as the handlers see it: each table a map keyed by its
    primary key (or a set, for pure association tables), with the uniqueness
    constraints the handlers rely on stated as the invariant `Valid`. */
module Store {
  import opened Common

  type UserId = string
  type VendorId = string
  type GroupId = string
  type EventId = string
  type ImageId = string
  type FileId = string

  /** A row of `users`. Nullable columns are `Option`s. */
  datatype User = User(
    id: UserId,
    email: string,
    passwordHash: Option<string>,
    firebaseUid: Option<string>,
    role: string,
    fullName: Option<string>,
    username: Option<string>,
    phone: Option<string>,
    city: Option<string>,
    bio: Option<string>,
    profileImageUrl: Option<string>)

  /** A row of `vendor_profiles`. */
  datatype Vendor = Vendor(
    id: VendorId,
    ownerUserId: UserId,
    businessName: string,
    slug: string,
    category: string,
    city: string,
    bio: Option<string>,
    whatsappLink: string,
    status: string,
    portfolioImageUrl: Option<string>,
    galleryImages: seq<string>,
    portfolioFiles: seq<string>)

  /** A row of `vendor_gallery_images`. */
  datatype GalleryImage = GalleryImage(id: ImageId, vendorId: VendorId, imageUrl: string, sortOrder: int)

  /** A row of `vendor_portfolio_files`. */
  datatype PortfolioFile = PortfolioFile(id: FileId, vendorId: VendorId, fileUrl: string, title: string, sortOrder: int)

  /** A row of `groups`. */
  datatype Group = Group(id: GroupId, name: string, slug: string)

  /** A row of `events`; the date is an instant, abstracted to an integer. */
  datatype Event = Event(
    id: EventId,
    title: string,
    city: string,
    eventType: string,
    date: int,
    budgetMin: Option<int>,
    budgetMax: Option<int>,
    organizerUserId: Option<UserId>,
    organizerGroupId: Option<GroupId>,
    coverImageUrl: Option<string>)

  /** Primary keys match the rows; email, username and firebase_uid are unique
      where present. */
  ghost predicate UsersValid(users: map<UserId, User>) {
    && (forall u :: u in users ==> users[u].id == u)
    && (forall u, v :: u in users && v in users && users[u].email == users[v].email ==> u == v)
    && (forall u, v :: u in users && v in users && users[u].username.Some? && users[u].username == users[v].username ==> u == v)
    && (forall u, v :: u in users && v in users && users[u].firebaseUid.Some? && users[u].firebaseUid == users[v].firebaseUid ==> u == v)
  }

  /** Primary keys match the rows; one profile per owner, one per slug. */
  ghost predicate VendorsValid(vendors: map<VendorId, Vendor>) {
    && (forall k :: k in vendors ==> vendors[k].id == k)
    && (forall k, l :: k in vendors && l in vendors && vendors[k].ownerUserId == vendors[l].ownerUserId ==> k == l)
    && (forall k, l :: k in vendors && l in vendors && vendors[k].slug == vendors[l].slug ==> k == l)
  }

  ghost predicate GalleryValid(gallery: map<ImageId, GalleryImage>) {
    forall k :: k in gallery ==> gallery[k].id == k
  }

  ghost predicate PortfolioValid(portfolio: map<FileId, PortfolioFile>) {
    forall k :: k in portfolio ==> portfolio[k].id == k
  }

  ghost predicate GroupsValid(groups: map<GroupId, Group>) {
    forall k :: k in groups ==> groups[k].id == k
  }

  ghost predicate EventsValid(events: map<EventId, Event>) {
    forall k :: k in events ==> events[k].id == k
  }

  class Db {
    var users: map<UserId, User>
    /** `user_permissions` joined with `permissions`: (user id, permission code). */
    var grants: set<(UserId, string)>
    var vendors: map<VendorId, Vendor>
    var gallery: map<ImageId, GalleryImage>
    var portfolio: map<FileId, PortfolioFile>
    var groups: map<GroupId, Group>
    /** `group_members`: (group id, user id) to the member's role in the group. */
    var members: map<(GroupId, UserId), string>
    var events: map<EventId, Event>
    /** `event_shortlisted_vendors`: (event id, vendor id). */
    var shortlist: set<(EventId, VendorId)>

    ghost predicate Valid()
      reads this
    {
      UsersOk() && VendorsOk() && GalleryOk() && PortfolioOk() && GroupsOk() && EventsOk()
    }

    ghost predicate UsersOk() reads this`users { UsersValid(users) }
    ghost predicate VendorsOk() reads this`vendors { VendorsValid(vendors) }
    ghost predicate GalleryOk() reads this`gallery { GalleryValid(gallery) }
    ghost predicate PortfolioOk() reads this`portfolio { PortfolioValid(portfolio) }
    ghost predicate GroupsOk() reads this`groups { GroupsValid(groups) }
    ghost predicate EventsOk() reads this`events { EventsValid(events) }

    constructor ()
      ensures Valid()
      ensures users == map[] && grants == {} && vendors == map[] && gallery == map[]
      ensures portfolio == map[] && groups == map[] && members == map[]
      ensures events == map[] && shortlist == {}
    {
      users, grants, vendors, gallery := map[], {}, map[], map[];
      portfolio, groups, members := map[], map[], map[];
      events, shortlist := map[], {};
    }
  }

  predicate Distinct<K(==)>(keys: seq<K>) {
    forall i, j :: 0 <= i < j < |keys| ==> keys[i] != keys[j]
  }

  /** A `SELECT ... WHERE` whose rows a handler scans one by one: the keys of
      exactly the rows that satisfy `where`, each once, in no particular order
      (SQL promises none). */
  method Scan<K(==), V>(table: map<K, V>, where: (K, V) -> bool) returns (keys: seq<K>)
    ensures forall k :: k in keys <==> k in table && where(k, table[k])
    ensures Distinct(keys)
  {
    keys := [];
    var rest := table.Keys;
    while rest != {}
      invariant rest <= table.Keys
      invariant forall k :: k in keys ==> k in table && where(k, table[k]) && k !in rest
      invariant forall k :: k in table && where(k, table[k]) && k !in rest ==> k in keys
      invariant Distinct(keys)
      decreases |rest|
    {
      var k :| k in rest;
      if where(k, table[k]) {
        keys := keys + [k];
      }
      rest := rest - {k};
    }
  }
}
