/**
 * The donor side: listing donations, posting one, editing or withdrawing it
 * before a volunteer has it, and the statistics summary. The list routes
 * take the collection as a sequence in the order their sort puts it; the
 * writing routes act on the store.
 */
module DonationRoutes {
  import opened Common
  import opened Text
  import opened DonationModel
  import opened UserModel
  import opened Store
  import opened Paging

  // ---------------------------------------------------------------- lists

  /** The `status` query of the public list: `available` unless a status
      other than `all` is asked for. */
  function StatusFilter(status: Option<string>): (s: string)
    ensures (Truthy(status) && status.value != "all") ==> s == status.value
    ensures !(Truthy(status) && status.value != "all") ==> s == "available"
  {
    if Truthy(status) && status.value != "all" then status.value else "available"
  }

  datatype ListQuery = ListQuery(status: Option<string>, foodType: Option<string>, search: Option<string>)

  /** A donation the public list shows: its status is the filter's (a
      string naming no status matches nothing), its food type the asked one
      unless none or `all` is asked, its name contains the search term
      ignoring case, and it has not yet expired. */
  predicate Listed(d: Donation, q: ListQuery, now: Time) {
    && StatusName(d.status) == StatusFilter(q.status)
    && (Truthy(q.foodType) && q.foodType.value != "all" ==> FoodTypeName(d.foodType) == q.foodType.value)
    && (Truthy(q.search) ==> Contains(ToLower(d.foodName), ToLower(q.search.value)))
    && d.expiryTime > now
  }

  /** `GET /api/donations`: the matching donations, then one page of them. */
  function ListDonations(all: seq<Doc<Donation>>, q: ListQuery, now: Time, page: int, limit: int)
    : (r: Option<Listing<Doc<Donation>>>)
    ensures r.Some? <==> Skip(page, limit) >= 0
    ensures r.Some? ==> forall x :: x in r.value.items ==> x in all && Listed(x.val, q, now)
    ensures r.Some? ==> r.value.total == |Filter(all, (x: Doc<Donation>) => Listed(x.val, q, now))|
    ensures r.Some? ==> Some(r.value.items) == PageOf(Filter(all, (x: Doc<Donation>) => Listed(x.val, q, now)), page, limit)
    ensures r.Some? ==> r.value.totalPages == TotalPages(r.value.total, limit) && r.value.currentPage == page
  {
    ListingOf(Filter(all, (x: Doc<Donation>) => Listed(x.val, q, now)), page, limit)
  }

  /** Without a status, or with `all`, the public list shows only available
      donations; in every case only those whose expiry is still ahead. */
  lemma ListDefaults(d: Donation, q: ListQuery, now: Time)
    requires !Truthy(q.status) || q.status.value == "all"
    ensures Listed(d, q, now) ==> d.status == Available && d.expiryTime > now
  {
    assert StatusName(d.status) == "available" ==> d.status == Available;
  }

  /** A donation in the caller's own list: theirs, and of the asked status
      unless none or `all` is asked. No expiry filter applies. */
  predicate Mine(d: Donation, caller: Id, status: Option<string>) {
    d.donorId == caller && (Truthy(status) && status.value != "all" ==> StatusName(d.status) == status.value)
  }

  /** `GET /api/donations/my`. */
  function MyDonations(all: seq<Doc<Donation>>, caller: Id, status: Option<string>, page: int, limit: int)
    : (r: Option<Listing<Doc<Donation>>>)
    ensures r.Some? <==> Skip(page, limit) >= 0
    ensures r.Some? ==> forall x :: x in r.value.items ==> x in all && Mine(x.val, caller, status)
    ensures r.Some? ==> r.value.total == |Filter(all, (x: Doc<Donation>) => Mine(x.val, caller, status))|
    ensures r.Some? ==> Some(r.value.items) == PageOf(Filter(all, (x: Doc<Donation>) => Mine(x.val, caller, status)), page, limit)
    ensures r.Some? ==> r.value.totalPages == TotalPages(r.value.total, limit) && r.value.currentPage == page
  {
    ListingOf(Filter(all, (x: Doc<Donation>) => Mine(x.val, caller, status)), page, limit)
  }

  // ---------------------------------------------------------------- create

  datatype LocationInput = LocationInput(address: Option<string>, lat: Option<real>, lng: Option<real>)

  /** The body of `POST /api/donations`; instants are already parsed. */
  datatype CreateBody = CreateBody(
    foodType: Option<string>, foodName: Option<string>, description: Option<string>,
    quantity: Option<real>, quantityUnit: Option<string>, expiryTime: Option<Time>,
    pickupLocation: Option<LocationInput>, pickupStartTime: Option<Time>, pickupEndTime: Option<Time>,
    imageUrl: Option<string>, specialInstructions: Option<string>, allergens: Option<seq<string>>,
    isVegetarian: Option<bool>, isVegan: Option<bool>)

  /** Every field the route insists on is truthy. */
  predicate HasRequired(b: CreateBody) {
    && Truthy(b.foodType) && Truthy(b.foodName) && TruthyReal(b.quantity) && TruthyInt(b.expiryTime)
    && b.pickupLocation.Some? && TruthyInt(b.pickupStartTime) && TruthyInt(b.pickupEndTime)
  }

  /** The two checks the create route makes before building the record. */
  function CreateRefusal(b: CreateBody): (e: Option<Error>)
    ensures e.None? <==>
      HasRequired(b) && Truthy(b.pickupLocation.value.address) &&
      TruthyReal(b.pickupLocation.value.lat) && TruthyReal(b.pickupLocation.value.lng)
    ensures !HasRequired(b) ==> e == Some(ApiError(400, "Missing required fields"))
  {
    if !HasRequired(b) then Some(ApiError(400, "Missing required fields"))
    else
      var loc := b.pickupLocation.value;
      if !Truthy(loc.address) || !TruthyReal(loc.lat) || !TruthyReal(loc.lng) then
        Some(ApiError(400, "Pickup location must include address, lat, and lng"))
      else None
  }

  /** `new Donation({...})` from a body that passed the checks, then the
      schema's validators: both enumerations, the trimmed name and the
      quantity bound. Every optional field falls back to its default. */
  function BuildDonation(caller: Id, b: CreateBody, now: Time): (r: Result<Donation>)
    requires CreateRefusal(b).None?
    ensures r.Ok? <==>
      && ParseFoodType(b.foodType.value).Some?
      && ParseUnit(OrElse(b.quantityUnit, "meals")).Some?
      && Trim(b.foodName.value) != ""
      && b.quantity.value >= 1.0
    ensures r.Err? ==> r.error == ValidationFailed
    ensures r.Ok? ==> ValidDonation(r.value)
    ensures r.Ok? ==>
      && r.value.donorId == caller && r.value.status == Available
      && FoodTypeName(r.value.foodType) == b.foodType.value
      && r.value.foodName == Trim(b.foodName.value) && r.value.quantity == b.quantity.value
      && r.value.createdAt == now && r.value.updatedAt == now
    ensures r.Ok? ==>
      && r.value.expiryTime == b.expiryTime.value
      && r.value.pickupLocation.address == b.pickupLocation.value.address.value
      && r.value.pickupLocation.lat == b.pickupLocation.value.lat.value
      && r.value.pickupLocation.lng == b.pickupLocation.value.lng.value
      && r.value.pickupStartTime == b.pickupStartTime.value
      && r.value.pickupEndTime == b.pickupEndTime.value
    ensures r.Ok? ==>
      && (!Truthy(b.description) ==> r.value.description == "")
      && (!Truthy(b.quantityUnit) ==> r.value.quantityUnit == Meals)
      && (!Truthy(b.imageUrl) ==> r.value.imageUrl == "")
      && (!Truthy(b.specialInstructions) ==> r.value.specialInstructions == "")
      && (b.allergens.None? ==> r.value.allergens == [])
      && (b.isVegetarian.None? ==> !r.value.isVegetarian)
      && (b.isVegan.None? ==> !r.value.isVegan)
    ensures r.Ok? ==>
      && (Truthy(b.description) ==> r.value.description == b.description.value)
      && (Truthy(b.quantityUnit) ==> UnitName(r.value.quantityUnit) == b.quantityUnit.value)
      && (Truthy(b.imageUrl) ==> r.value.imageUrl == b.imageUrl.value)
      && (Truthy(b.specialInstructions) ==> r.value.specialInstructions == b.specialInstructions.value)
      && (b.allergens.Some? ==> r.value.allergens == b.allergens.value)
      && (b.isVegetarian.Some? ==> r.value.isVegetarian == b.isVegetarian.value)
      && (b.isVegan.Some? ==> r.value.isVegan == b.isVegan.value)
  {
    var loc := b.pickupLocation.value;
    var foodType := ParseFoodType(b.foodType.value);
    var unit := ParseUnit(OrElse(b.quantityUnit, "meals"));
    if foodType.None? || unit.None? then Err(ValidationFailed)
    else
      var d := NewDonation(caller, foodType.value, b.foodName.value, OrElse(b.description, ""),
                           b.quantity.value, unit.value, b.expiryTime.value,
                           Location(loc.address.value, loc.lat.value, loc.lng.value),
                           b.pickupStartTime.value, b.pickupEndTime.value, OrElse(b.imageUrl, ""),
                           OrElse(b.specialInstructions, ""), b.allergens.GetOr([]),
                           b.isVegetarian.GetOr(false), b.isVegan.GetOr(false), now);
      TrimmedIffFixed(b.foodName.value);
      if !ValidDonation(d) then Err(ValidationFailed) else Ok(d)
  }

  /** `POST /api/donations`. The donation is stored under a fresh id and the
      caller's `totalDonations` rises by one (`$inc`, no save, so the user's
      `updatedAt` stays). A refused or invalid body changes nothing. */
  method Create(db: Database, caller: Id, body: CreateBody, now: Time) returns (r: Result<Id>)
    requires db.Consistent() && caller in db.users
    modifies db
    ensures db.Consistent()
    ensures db.requests == old(db.requests) && db.notifications == old(db.notifications)
    ensures CreateRefusal(body).Some? ==>
      r == Err(CreateRefusal(body).value) &&
      db.users == old(db.users) && db.donations == old(db.donations) && db.nextId == old(db.nextId)
    ensures CreateRefusal(body).None? && BuildDonation(caller, body, now).Err? ==>
      r == Err(ValidationFailed) &&
      db.users == old(db.users) && db.donations == old(db.donations) && db.nextId == old(db.nextId)
    ensures CreateRefusal(body).None? && BuildDonation(caller, body, now).Ok? ==>
      && r == Ok(old(db.nextId)) && old(db.nextId) !in old(db.donations)
      && db.donations == old(db.donations)[old(db.nextId) := BuildDonation(caller, body, now).value]
      && db.users == old(CountedUsers(db.users, caller, 1))
  {
    var refusal := CreateRefusal(body);
    if refusal.Some? {
      return Err(refusal.value);
    }
    var built := BuildDonation(caller, body, now);
    if built.Err? {
      return Err(built.error);
    }
    var id := Insert(db, caller, built.value);
    r := Ok(id);
  }

  /** The insert and the `$inc` of `POST /api/donations`, for a donation
      the schema accepts. */
  method Insert(db: Database, caller: Id, d: Donation) returns (id: Id)
    requires db.Consistent() && caller in db.users && ValidDonation(d)
    modifies db
    ensures db.Consistent()
    ensures db.requests == old(db.requests) && db.notifications == old(db.notifications)
    ensures id == old(db.nextId) && id !in old(db.donations) && db.nextId == id + 1
    ensures db.donations == old(db.donations)[id := d]
    ensures db.users == old(CountedUsers(db.users, caller, 1))
  {
    var users, donations := CountedUsers(db.users, caller, 1), db.donations[db.nextId := d];
    CreateKeepsConsistent(db.users, db.donations, db.requests, db.notifications, db.nextId, caller, d);
    id := db.NewId();
    db.donations := donations;
    db.users := users;
  }

  /** The users after `$inc: {totalDonations: delta}` on one of them. */
  function CountedUsers(users: map<Id, User>, id: Id, delta: int): (users': map<Id, User>)
    requires id in users
    ensures users' == users[id := users[id].(totalDonations := users[id].totalDonations + delta)]
  {
    users[id := users[id].(totalDonations := users[id].totalDonations + delta)]
  }

  lemma CreateKeepsConsistent(users: map<Id, User>, donations: map<Id, Donation>,
                              requests: map<Id, RequestModel.Request>,
                              notifications: map<Id, NotificationModel.Notification>, next: Id,
                              caller: Id, d: Donation)
    requires ConsistentState(users, donations, requests, notifications, next)
    requires caller in users && ValidDonation(d)
    ensures next !in donations
    ensures ConsistentState(CountedUsers(users, caller, 1), donations[next := d], requests, notifications, next + 1)
  {
    AddDonationKeepsConsistent(users, donations, requests, notifications, next, d);
    var u := users[caller];
    ReplaceUserKeepsConsistent(users, donations[next := d], requests, notifications, next + 1,
                               caller, u.(totalDonations := u.totalDonations + 1));
  }

  /** A valid donation under the next id extends a consistent store. */
  lemma AddDonationKeepsConsistent(users: map<Id, User>, donations: map<Id, Donation>,
                                   requests: map<Id, RequestModel.Request>,
                                   notifications: map<Id, NotificationModel.Notification>, next: Id, d: Donation)
    requires ConsistentState(users, donations, requests, notifications, next)
    requires ValidDonation(d)
    ensures next !in donations
    ensures ConsistentState(users, donations[next := d], requests, notifications, next + 1)
  {
    forall r | r in requests && RequestModel.IsActive(requests[r].status)
      ensures requests[r].donationId != next
    {
      assert requests[r].donationId in donations;
    }
  }

  // ---------------------------------------------------------------- update

  /** A value in an update body, by its JSON kind. A location is an object
      whose members may be missing. */
  datatype FieldValue =
    | Str(s: string)
    | Num(n: real)
    | Instant(t: Time)
    | Flag(b: bool)
    | List(items: seq<string>)
    | Place(address: Option<string>, lat: Option<real>, lng: Option<real>)

  /** The fields the update route may write. */
  datatype Field =
    | FoodTypeField | FoodNameField | DescriptionField | QuantityField | UnitField
    | ExpiryField | LocationField | StartField | EndField
    | ImageField | InstructionsField | AllergensField | VegetarianField | VeganField | StatusField

  function FieldName(f: Field): string {
    match f
    case FoodTypeField => "foodType"
    case FoodNameField => "foodName"
    case DescriptionField => "description"
    case QuantityField => "quantity"
    case UnitField => "quantityUnit"
    case ExpiryField => "expiryTime"
    case LocationField => "pickupLocation"
    case StartField => "pickupStartTime"
    case EndField => "pickupEndTime"
    case ImageField => "imageUrl"
    case InstructionsField => "specialInstructions"
    case AllergensField => "allergens"
    case VegetarianField => "isVegetarian"
    case VeganField => "isVegan"
    case StatusField => "status"
  }

  /** The list `allowedUpdates`, in its order. */
  const AllowedUpdates: seq<Field> := [
    FoodTypeField, FoodNameField, DescriptionField, QuantityField, UnitField,
    ExpiryField, LocationField, StartField, EndField,
    ImageField, InstructionsField, AllergensField, VegetarianField, VeganField, StatusField]

  /** Every field is listed once. */
  lemma AllowedUpdatesComplete()
    ensures forall f :: f in AllowedUpdates
    ensures forall i, j :: 0 <= i < j < |AllowedUpdates| ==> AllowedUpdates[i] != AllowedUpdates[j]
  {
    forall f ensures f in AllowedUpdates {
      match f
      case FoodTypeField => assert AllowedUpdates[0] == f;
      case FoodNameField => assert AllowedUpdates[1] == f;
      case DescriptionField => assert AllowedUpdates[2] == f;
      case QuantityField => assert AllowedUpdates[3] == f;
      case UnitField => assert AllowedUpdates[4] == f;
      case ExpiryField => assert AllowedUpdates[5] == f;
      case LocationField => assert AllowedUpdates[6] == f;
      case StartField => assert AllowedUpdates[7] == f;
      case EndField => assert AllowedUpdates[8] == f;
      case ImageField => assert AllowedUpdates[9] == f;
      case InstructionsField => assert AllowedUpdates[10] == f;
      case AllergensField => assert AllowedUpdates[11] == f;
      case VegetarianField => assert AllowedUpdates[12] == f;
      case VeganField => assert AllowedUpdates[13] == f;
      case StatusField => assert AllowedUpdates[14] == f;
    }
  }

  /** The error `PUT /:id` throws before it writes anything, or `None`. */
  function UpdateRefusal(db: Database, caller: Id, id: Id): (e: Option<Error>)
    reads db
    requires caller in db.users
    ensures e.None? <==>
      id in db.donations &&
      (db.donations[id].donorId == caller || db.users[caller].role == Admin) &&
      db.donations[id].status !in {Accepted, PickedUp, Delivered}
    ensures e.None? ==> Unclaimed(db.donations[id])
    ensures e == Some(ApiError(404, "Donation not found")) <==> id !in db.donations
  {
    if id !in db.donations then Some(ApiError(404, "Donation not found"))
    else if db.donations[id].donorId != caller && db.users[caller].role != Admin then
      Some(ApiError(403, "Not authorized to update this donation"))
    else if db.donations[id].status in {Accepted, PickedUp, Delivered} then
      Some(ApiError(400, "Cannot update donation that is already in progress"))
    else None
  }

  /** The updates a body asks for: each allowed field whose name the body
      defines, with the body's value. Any other key of the body is ignored. */
  function Requested(body: map<string, FieldValue>): (u: map<Field, FieldValue>)
    ensures forall f :: f in u <==> FieldName(f) in body
    ensures forall f :: f in u ==> u[f] == body[FieldName(f)]
  {
    AllowedUpdatesComplete();
    map f | f in AllowedUpdates && FieldName(f) in body :: body[FieldName(f)]
  }

  /** The `forEach` that fills `updates`. */
  method CollectUpdates(body: map<string, FieldValue>) returns (updates: map<Field, FieldValue>)
    ensures updates == Requested(body)
  {
    updates := map[];
    for i := 0 to |AllowedUpdates|
      invariant forall f :: f in updates <==> f in AllowedUpdates[..i] && FieldName(f) in body
      invariant forall f :: f in updates ==> updates[f] == body[FieldName(f)]
    {
      var field := AllowedUpdates[i];
      assert AllowedUpdates[..i + 1] == AllowedUpdates[..i] + [field];
      if FieldName(field) in body {
        updates := updates[field := body[FieldName(field)]];
      }
    }
    assert AllowedUpdates[..|AllowedUpdates|] == AllowedUpdates;
    AllowedUpdatesComplete();
  }

  /** A field of a stored donation, as the value an update would write. */
  function FieldOf(d: Donation, f: Field): FieldValue {
    match f
    case FoodTypeField => Str(FoodTypeName(d.foodType))
    case FoodNameField => Str(d.foodName)
    case DescriptionField => Str(d.description)
    case QuantityField => Num(d.quantity)
    case UnitField => Str(UnitName(d.quantityUnit))
    case ExpiryField => Instant(d.expiryTime)
    case LocationField =>
      Place(Some(d.pickupLocation.address), Some(d.pickupLocation.lat), Some(d.pickupLocation.lng))
    case StartField => Instant(d.pickupStartTime)
    case EndField => Instant(d.pickupEndTime)
    case ImageField => Str(d.imageUrl)
    case InstructionsField => Str(d.specialInstructions)
    case AllergensField => List(d.allergens)
    case VegetarianField => Flag(d.isVegetarian)
    case VeganField => Flag(d.isVegan)
    case StatusField => Str(StatusName(d.status))
  }

  /** What a stored field reads back as after an update writes `v`: the
      value itself, except that the `trim` setter trims the food name. */
  function Stored(f: Field, v: FieldValue): FieldValue {
    if f == FoodNameField && v.Str? then Str(Trim(v.s)) else v
  }

  /** Whether Mongoose can cast `v` for field `f`: the right JSON kind, a name
      inside the field's enumeration, and a location with every required
      member. */
  predicate Castable(f: Field, v: FieldValue) {
    match f
    case FoodTypeField => v.Str? && ParseFoodType(v.s).Some?
    case UnitField => v.Str? && ParseUnit(v.s).Some?
    case StatusField => v.Str? && ParseStatus(v.s).Some?
    case FoodNameField => v.Str?
    case DescriptionField => v.Str?
    case ImageField => v.Str?
    case InstructionsField => v.Str?
    case QuantityField => v.Num?
    case ExpiryField => v.Instant?
    case StartField => v.Instant?
    case EndField => v.Instant?
    case LocationField => v.Place? && v.address.Some? && v.lat.Some? && v.lng.Some?
    case AllergensField => v.List?
    case VegetarianField => v.Flag?
    case VeganField => v.Flag?
  }

  /** The field after the update: what was written if the updates name it,
      what was stored otherwise. */
  function Written(updates: map<Field, FieldValue>, f: Field, current: FieldValue): FieldValue {
    if f in updates then Stored(f, updates[f]) else current
  }

  /** All values in `u` cast. */
  predicate AllCast(u: map<Field, FieldValue>) {
    forall f :: f in u ==> Castable(f, u[f])
  }

  /** What `AllCast` says of each path, one path at a time. */
  lemma AllCastKinds(u: map<Field, FieldValue>)
    requires AllCast(u)
    ensures FoodTypeField in u ==> Castable(FoodTypeField, u[FoodTypeField])
    ensures UnitField in u ==> Castable(UnitField, u[UnitField])
    ensures StatusField in u ==> Castable(StatusField, u[StatusField])
    ensures LocationField in u ==> Castable(LocationField, u[LocationField])
    ensures FoodNameField in u ==> u[FoodNameField].Str?
    ensures DescriptionField in u ==> u[DescriptionField].Str?
    ensures ImageField in u ==> u[ImageField].Str?
    ensures InstructionsField in u ==> u[InstructionsField].Str?
    ensures QuantityField in u ==> u[QuantityField].Num?
    ensures ExpiryField in u ==> u[ExpiryField].Instant?
    ensures StartField in u ==> u[StartField].Instant?
    ensures EndField in u ==> u[EndField].Instant?
    ensures AllergensField in u ==> u[AllergensField].List?
    ensures VegetarianField in u ==> u[VegetarianField].Flag?
    ensures VeganField in u ==> u[VeganField].Flag?
  {
  }

  /** One path of the update, per kind of value: the cast value when `u`
      names the field, the stored one otherwise. */
  function StrOr(u: map<Field, FieldValue>, f: Field, current: string): (r: string)
    requires f != FoodNameField && (f in u ==> u[f].Str?)
    ensures Str(r) == Written(u, f, Str(current))
  {
    if f in u then u[f].s else current
  }

  function NumOr(u: map<Field, FieldValue>, f: Field, current: real): (r: real)
    requires f in u ==> u[f].Num?
    ensures Num(r) == Written(u, f, Num(current))
  {
    if f in u then u[f].n else current
  }

  function InstantOr(u: map<Field, FieldValue>, f: Field, current: Time): (r: Time)
    requires f in u ==> u[f].Instant?
    ensures Instant(r) == Written(u, f, Instant(current))
  {
    if f in u then u[f].t else current
  }

  function FlagOr(u: map<Field, FieldValue>, f: Field, current: bool): (r: bool)
    requires f in u ==> u[f].Flag?
    ensures Flag(r) == Written(u, f, Flag(current))
  {
    if f in u then u[f].b else current
  }

  function ListOr(u: map<Field, FieldValue>, f: Field, current: seq<string>): (r: seq<string>)
    requires f in u ==> u[f].List?
    ensures List(r) == Written(u, f, List(current))
  {
    if f in u then u[f].items else current
  }

  function NameOr(u: map<Field, FieldValue>, current: string): (r: string)
    requires FoodNameField in u ==> u[FoodNameField].Str?
    ensures Str(r) == Written(u, FoodNameField, Str(current))
  {
    if FoodNameField in u then Trim(u[FoodNameField].s) else current
  }

  function FoodTypeOr(u: map<Field, FieldValue>, current: FoodType): (r: FoodType)
    requires FoodTypeField in u ==> Castable(FoodTypeField, u[FoodTypeField])
    ensures Str(FoodTypeName(r)) == Written(u, FoodTypeField, Str(FoodTypeName(current)))
  {
    if FoodTypeField in u then ParseFoodType(u[FoodTypeField].s).value else current
  }

  function UnitOr(u: map<Field, FieldValue>, current: QuantityUnit): (r: QuantityUnit)
    requires UnitField in u ==> Castable(UnitField, u[UnitField])
    ensures Str(UnitName(r)) == Written(u, UnitField, Str(UnitName(current)))
  {
    if UnitField in u then ParseUnit(u[UnitField].s).value else current
  }

  function StatusOr(u: map<Field, FieldValue>, current: DonationStatus): (r: DonationStatus)
    requires StatusField in u ==> Castable(StatusField, u[StatusField])
    ensures Str(StatusName(r)) == Written(u, StatusField, Str(StatusName(current)))
  {
    if StatusField in u then ParseStatus(u[StatusField].s).value else current
  }

  function LocationOr(u: map<Field, FieldValue>, current: Location): (r: Location)
    requires LocationField in u ==> Castable(LocationField, u[LocationField])
    ensures Place(Some(r.address), Some(r.lat), Some(r.lng)) ==
      Written(u, LocationField, Place(Some(current.address), Some(current.lat), Some(current.lng)))
  {
    if LocationField in u then
      var v := u[LocationField];
      Location(v.address.value, v.lat.value, v.lng.value)
    else current
  }

  /** The `findByIdAndUpdate` of the collected updates: every named path is
      set at once, after Mongoose has cast each value; `None` when one fails
      to cast. Owner and timestamps are not among the paths. */
  function ApplyUpdates(d: Donation, u: map<Field, FieldValue>): (r: Option<Donation>)
    ensures r.Some? <==> AllCast(u)
    ensures r.Some? ==>
      r.value.donorId == d.donorId && r.value.createdAt == d.createdAt && r.value.updatedAt == d.updatedAt
  {
    if !AllCast(u) then None
    else
      AllCastKinds(u);
      var e := Donation(
        d.donorId,
        FoodTypeOr(u, d.foodType),
        NameOr(u, d.foodName),
        StrOr(u, DescriptionField, d.description),
        NumOr(u, QuantityField, d.quantity),
        UnitOr(u, d.quantityUnit),
        InstantOr(u, ExpiryField, d.expiryTime),
        LocationOr(u, d.pickupLocation),
        InstantOr(u, StartField, d.pickupStartTime),
        InstantOr(u, EndField, d.pickupEndTime),
        StrOr(u, ImageField, d.imageUrl),
        StatusOr(u, d.status),
        StrOr(u, InstructionsField, d.specialInstructions),
        ListOr(u, AllergensField, d.allergens),
        FlagOr(u, VegetarianField, d.isVegetarian),
        FlagOr(u, VeganField, d.isVegan),
        d.createdAt,
        d.updatedAt);
      Some(e)
  }

  /** Each field of the updated document is the value written for it, or
      the old one when the update does not name it. */
  lemma ApplyUpdatesReadBack(d: Donation, u: map<Field, FieldValue>)
    requires AllCast(u)
    ensures forall f :: FieldOf(ApplyUpdates(d, u).value, f) == Written(u, f, FieldOf(d, f))
  {
    var e := ApplyUpdates(d, u).value;
    forall f ensures FieldOf(e, f) == Written(u, f, FieldOf(d, f)) {
      match f {
        case FoodTypeField =>
        case FoodNameField =>
        case DescriptionField =>
        case QuantityField =>
        case UnitField =>
        case ExpiryField =>
        case LocationField =>
        case StartField =>
        case EndField =>
        case ImageField =>
        case InstructionsField =>
        case AllergensField =>
        case VegetarianField =>
        case VeganField =>
        case StatusField =>
      }
    }
  }

  /** The whole update in terms of the request body: the allowed fields the
      body names read back as written, all other fields stay, and it is
      refused exactly when one of those values fails to cast. */
  lemma UpdateOnlyRequested(d: Donation, body: map<string, FieldValue>)
    ensures ApplyUpdates(d, Requested(body)).Some? <==>
      forall f :: FieldName(f) in body ==> Castable(f, body[FieldName(f)])
    ensures ApplyUpdates(d, Requested(body)).Some? ==>
      var d' := ApplyUpdates(d, Requested(body)).value;
      && (forall f :: FieldName(f) in body ==> FieldOf(d', f) == Stored(f, body[FieldName(f)]))
      && (forall f :: FieldName(f) !in body ==> FieldOf(d', f) == FieldOf(d, f))
  {
    var u := Requested(body);
    if ApplyUpdates(d, u).Some? {
      ApplyUpdatesReadBack(d, u);
    }
  }

  /** `PUT /api/donations/:id`. Only allowed fields present in the body are
      written, with the schema's validators run on them; the caller may be the
      owner or an admin, and a donation a volunteer holds or has delivered is
      refused. No save runs, so `updatedAt` stays. */
  method Update(db: Database, caller: Id, id: Id, body: map<string, FieldValue>) returns (r: Result<Id>)
    requires db.Consistent() && caller in db.users
    modifies db
    ensures db.Consistent()
    ensures db.users == old(db.users) && db.requests == old(db.requests)
    ensures db.notifications == old(db.notifications) && db.nextId == old(db.nextId)
    ensures old(UpdateRefusal(db, caller, id)).Some? ==>
      r == Err(old(UpdateRefusal(db, caller, id)).value) && db.donations == old(db.donations)
    ensures old(UpdateRefusal(db, caller, id)).None? ==>
      var updated := ApplyUpdates(old(db.donations[id]), Requested(body));
      if updated.Some? && ValidDonation(updated.value) then
        r == Ok(id) && db.donations == old(db.donations)[id := updated.value]
      else r == Err(ValidationFailed) && db.donations == old(db.donations)
  {
    var refusal := UpdateRefusal(db, caller, id);
    if refusal.Some? {
      return Err(refusal.value);
    }
    var updates := CollectUpdates(body);
    var updated := ApplyUpdates(db.donations[id], updates);
    if updated.None? || !ValidDonation(updated.value) {
      return Err(ValidationFailed);
    }
    Replace(db, id, updated.value);
    r := Ok(id);
  }

  /** The write of an edited record over an unclaimed donation. */
  method Replace(db: Database, id: Id, d: Donation)
    requires db.Consistent() && id in db.donations && Unclaimed(db.donations[id]) && ValidDonation(d)
    modifies db
    ensures db.Consistent()
    ensures db.donations == old(db.donations)[id := d]
    ensures db.users == old(db.users) && db.requests == old(db.requests)
    ensures db.notifications == old(db.notifications) && db.nextId == old(db.nextId)
  {
    EditKeepsConsistent(db.users, db.donations, db.requests, db.notifications, db.nextId, id, d);
    db.donations := db.donations[id := d];
  }

  /** An unclaimed donation may be replaced by any valid record. */
  lemma EditKeepsConsistent(users: map<Id, User>, donations: map<Id, Donation>,
                            requests: map<Id, RequestModel.Request>,
                            notifications: map<Id, NotificationModel.Notification>, next: Id,
                            id: Id, d: Donation)
    requires ConsistentState(users, donations, requests, notifications, next)
    requires id in donations && Unclaimed(donations[id]) && ValidDonation(d)
    ensures ConsistentState(users, donations[id := d], requests, notifications, next)
  {
    UnclaimedChangeKeepsLifecycle(requests, donations, donations[id := d], id);
  }

  // ---------------------------------------------------------------- delete

  /** The error `DELETE /:id` throws, or `None`. A delivered donation may go. */
  function DeleteRefusal(db: Database, caller: Id, id: Id): (e: Option<Error>)
    reads db
    requires caller in db.users
    ensures e.None? <==>
      id in db.donations &&
      (db.donations[id].donorId == caller || db.users[caller].role == Admin) &&
      db.donations[id].status != Accepted && db.donations[id].status != PickedUp
    ensures e.None? ==> Unclaimed(db.donations[id])
    ensures e == Some(ApiError(404, "Donation not found")) <==> id !in db.donations
  {
    if id !in db.donations then Some(ApiError(404, "Donation not found"))
    else if db.donations[id].donorId != caller && db.users[caller].role != Admin then
      Some(ApiError(403, "Not authorized to delete this donation"))
    else if db.donations[id].status in {Accepted, PickedUp} then
      Some(ApiError(400, "Cannot delete donation that is in progress"))
    else None
  }

  /** `DELETE /api/donations/:id`. Exactly that donation goes, and the
      caller's `totalDonations` falls by one: the caller's, not the owner's,
      so an admin deleting another donor's listing lowers the admin's count. */
  method Delete(db: Database, caller: Id, id: Id) returns (r: Result<Id>)
    requires db.Consistent() && caller in db.users
    modifies db
    ensures db.Consistent()
    ensures db.requests == old(db.requests) && db.notifications == old(db.notifications)
    ensures db.nextId == old(db.nextId)
    ensures old(DeleteRefusal(db, caller, id)).Some? ==>
      r == Err(old(DeleteRefusal(db, caller, id)).value) &&
      db.donations == old(db.donations) && db.users == old(db.users)
    ensures old(DeleteRefusal(db, caller, id)).None? ==>
      && r == Ok(id)
      && db.donations == old(db.donations) - {id}
      && db.users == old(CountedUsers(db.users, caller, -1))
  {
    var refusal := DeleteRefusal(db, caller, id);
    if refusal.Some? {
      return Err(refusal.value);
    }
    var users := CountedUsers(db.users, caller, -1);
    UnclaimedChangeKeepsLifecycle(db.requests, db.donations, db.donations - {id}, id);
    ReplaceUserKeepsConsistent(db.users, db.donations - {id}, db.requests, db.notifications, db.nextId,
                               caller, users[caller]);
    assert db.users[caller := users[caller]] == users;
    db.donations := db.donations - {id};
    db.users := users;
    r := Ok(id);
  }

  // ---------------------------------------------------------------- stats

  datatype Stats = Stats(totalDonations: nat, availableDonations: nat, completedDonations: nat,
                         totalQuantity: real)

  /** The `$group` stage, one document at a time; with no documents the
      route's fallback of all zeros. */
  function Summarize(ds: seq<Donation>): Stats {
    if ds == [] then Stats(0, 0, 0, 0.0)
    else
      var s := Summarize(ds[..|ds| - 1]);
      var d := ds[|ds| - 1];
      Stats(s.totalDonations + 1,
            s.availableDonations + (if d.status == Available then 1 else 0),
            s.completedDonations + (if d.status == Delivered then 1 else 0),
            s.totalQuantity + d.quantity)
  }

  /** The positions of the donations in a given status. */
  ghost function WithStatus(ds: seq<Donation>, st: DonationStatus): set<nat> {
    set i: nat | i < |ds| && ds[i].status == st
  }

  /** The summary counts what it says: all donations, the available ones and
      the delivered ones. */
  lemma {:induction false} SummarizeCounts(ds: seq<Donation>)
    ensures Summarize(ds).totalDonations == |ds|
    ensures Summarize(ds).availableDonations == |WithStatus(ds, Available)|
    ensures Summarize(ds).completedDonations == |WithStatus(ds, Delivered)|
    decreases |ds|
  {
    if ds != [] {
      var n := |ds| - 1;
      SummarizeCounts(ds[..n]);
      WithStatusStep(ds, Available);
      WithStatusStep(ds, Delivered);
    }
  }

  lemma WithStatusStep(ds: seq<Donation>, st: DonationStatus)
    requires ds != []
    ensures WithStatus(ds, st) ==
      WithStatus(ds[..|ds| - 1], st) + (if ds[|ds| - 1].status == st then {|ds| - 1} else {})
  {
  }

  /** Every stored donation has a quantity of at least one, so the total
      quantity is at least the number of donations, and the two sub-counts
      never exceed the total. */
  lemma {:induction false} SummarizeBounds(ds: seq<Donation>)
    requires forall i :: 0 <= i < |ds| ==> ValidDonation(ds[i])
    ensures Summarize(ds).totalQuantity >= Summarize(ds).totalDonations as real
    ensures Summarize(ds).availableDonations + Summarize(ds).completedDonations <= Summarize(ds).totalDonations
    decreases |ds|
  {
    if ds != [] {
      SummarizeBounds(ds[..|ds| - 1]);
    }
  }

  /** The summary adds up piecewise over a concatenation. */
  lemma {:induction false} SummarizeAppend(a: seq<Donation>, b: seq<Donation>)
    ensures Summarize(a + b).totalDonations == Summarize(a).totalDonations + Summarize(b).totalDonations
    ensures Summarize(a + b).availableDonations == Summarize(a).availableDonations + Summarize(b).availableDonations
    ensures Summarize(a + b).completedDonations == Summarize(a).completedDonations + Summarize(b).completedDonations
    ensures Summarize(a + b).totalQuantity == Summarize(a).totalQuantity + Summarize(b).totalQuantity
    decreases |b|
  {
    if b == [] {
      assert a + b == a;
    } else {
      SummarizeAppend(a, b[..|b| - 1]);
      assert (a + b)[..|a + b| - 1] == a + b[..|b| - 1];
    }
  }

  /** The plain sum of the quantities, first donation first. */
  function QuantitySum(ds: seq<Donation>): real {
    if ds == [] then 0.0 else ds[0].quantity + QuantitySum(ds[1..])
  }

  /** The `$sum` of `quantity` the summary accumulates is the sum of the
      quantities. */
  lemma {:induction false} SummarizeQuantity(ds: seq<Donation>)
    ensures Summarize(ds).totalQuantity == QuantitySum(ds)
    decreases |ds|
  {
    if ds != [] {
      SummarizeQuantity(ds[1..]);
      SummarizeAppend([ds[0]], ds[1..]);
      assert [ds[0]] + ds[1..] == ds;
      assert Summarize([ds[0]]).totalQuantity == ds[0].quantity by {
        assert [ds[0]][..0] == [];
      }
    }
  }

  function Values(docs: seq<Doc<Donation>>): (ds: seq<Donation>)
    ensures |ds| == |docs| && forall i :: 0 <= i < |docs| ==> ds[i] == docs[i].val
  {
    if docs == [] then [] else [docs[0].val] + Values(docs[1..])
  }

  /** The donations the summary covers: a donor's own, or all of them for
      any other role. */
  function Scope(all: seq<Doc<Donation>>, caller: Id, role: Role): (r: seq<Doc<Donation>>)
    ensures |r| <= |all|
    ensures role != Donor ==> r == all
    ensures forall x :: x in r <==> x in all && (role == Donor ==> x.val.donorId == caller)
  {
    if role == Donor then Filter(all, (x: Doc<Donation>) => x.val.donorId == caller) else all
  }

  /** `GET /api/donations/stats/summary`: the three counts and the total
      quantity over the caller's scope. */
  function StatsFor(all: seq<Doc<Donation>>, caller: Id, role: Role): (s: Stats)
    ensures s.totalDonations == |Scope(all, caller, role)|
    ensures s.availableDonations == |WithStatus(Values(Scope(all, caller, role)), Available)|
    ensures s.completedDonations == |WithStatus(Values(Scope(all, caller, role)), Delivered)|
    ensures s.totalQuantity == QuantitySum(Values(Scope(all, caller, role)))
  {
    var ds := Values(Scope(all, caller, role));
    SummarizeCounts(ds);
    SummarizeQuantity(ds);
    Summarize(ds)
  }
}
