/**
 * The User schema: roles, account flags, counters and the volunteer rating.
 */
module UserModel {
  import opened Common
  import opened Text

  datatype Role = Donor | Volunteer | Admin

  function RoleName(r: Role): string {
    match r
    case Donor => "donor"
    case Volunteer => "volunteer"
    case Admin => "admin"
  }

  function ParseRole(s: string): (r: Option<Role>)
    ensures forall role :: r == Some(role) <==> RoleName(role) == s
  {
    if s == "donor" then Some(Donor)
    else if s == "volunteer" then Some(Volunteer)
    else if s == "admin" then Some(Admin)
    else None
  }

  /** The schema default of `role`. */
  const DefaultRole: Role := Donor

  /** The values the `organizationType` enum admits; the empty string is one of them. */
  const OrganizationTypes: seq<string> := ["restaurant", "event", "individual", "ngo", "other", ""]

  datatype Coordinates = Coordinates(lat: real, lng: real)

  datatype Address = Address(
    street: Option<string>, city: Option<string>, state: Option<string>,
    zipCode: Option<string>, coordinates: Option<Coordinates>)

  datatype User = User(
    firebaseUid: string,
    name: string,
    email: string,
    phone: string,
    role: Role,
    isVerified: bool,
    isBlocked: bool,
    profileImage: string,
    address: Option<Address>,
    organizationName: string,
    organizationType: string,
    totalDonations: int,
    totalPickups: int,
    rating: real,
    ratingCount: int,
    createdAt: Time,
    updatedAt: Time)

  /** What the schema's validators and setters guarantee of a stored user:
      the required strings are present and trimmed, `organizationType` is in
      its enum and `rating` is in `[0, 5]`. `ratingCount` has no validator; it
      starts at 0 and only the rating route changes it, by one. */
  predicate ValidUser(u: User) {
    && u.firebaseUid != ""
    && u.name != "" && Trimmed(u.name)
    && u.email != "" && Trimmed(u.email)
    && u.phone != "" && Trimmed(u.phone)
    && u.organizationType in OrganizationTypes
    && 0.0 <= u.rating <= 5.0
    && u.ratingCount >= 0
  }

  /** The `lowercase` and `trim` setters of `email`. */
  function NormalizeEmail(email: string): string {
    ToLower(Trim(email))
  }

  /** A record built by `new User({...})`; flags, counters and rating take
      their schema defaults. */
  function NewUser(uid: string, name: string, email: string, phone: string, role: Role,
                   organizationName: string, organizationType: string, now: Time): (u: User)
    ensures !u.isVerified && !u.isBlocked
    ensures u.totalDonations == 0 && u.totalPickups == 0 && u.ratingCount == 0 && u.rating == 0.0
    ensures u.email == NormalizeEmail(email) && u.name == Trim(name) && u.phone == Trim(phone)
  {
    User(uid, Trim(name), NormalizeEmail(email), Trim(phone), role, false, false, "", None,
         organizationName, organizationType, 0, 0, 0.0, 0, now, now)
  }
}
