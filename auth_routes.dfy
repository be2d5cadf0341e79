/**
 * The account routes: registration with its duplicate check, login with
 * its not-found and blocked checks, and the partial profile update.
 * Firebase's answer for a token is an input (`AuthMiddleware.Verification`).
 */
module AuthRoutes {
  import opened Common
  import opened Text
  import opened UserModel
  import opened Store
  import opened AuthMiddleware

  // ---------------------------------------------------------------- register

  datatype RegisterBody = RegisterBody(
    firebaseToken: Option<string>, name: Option<string>, email: Option<string>,
    phone: Option<string>, role: Option<string>,
    organizationName: Option<string>, organizationType: Option<string>)

  /** The five fields `/register` insists on, tested for JavaScript truthiness. */
  predicate HasRequired(b: RegisterBody) {
    Truthy(b.firebaseToken) && Truthy(b.name) && Truthy(b.email) && Truthy(b.phone) && Truthy(b.role)
  }

  /** `User.findOne({$or: [{firebaseUid: uid}, {email}]})` finds a document.
      The query casts `email` through the schema's `lowercase` and `trim` setters. */
  predicate Taken(users: map<Id, User>, uid: string, email: string) {
    exists id :: id in users && (users[id].firebaseUid == uid || users[id].email == NormalizeEmail(email))
  }

  /** The record `new User({...})` builds: organisation fields default to ""
      and the account starts unverified; an unknown role is a cast failure. */
  function Candidate(b: RegisterBody, uid: string, now: Time): (u: Option<User>)
    requires HasRequired(b)
    ensures u.Some? <==> ParseRole(b.role.value).Some?
    ensures u.Some? ==>
      && !u.value.isVerified && !u.value.isBlocked
      && u.value.firebaseUid == uid
      && u.value.role == ParseRole(b.role.value).value
      && u.value.organizationName == OrElse(b.organizationName, "")
      && u.value.organizationType == OrElse(b.organizationType, "")
      && u.value.email == NormalizeEmail(b.email.value)
  {
    match ParseRole(b.role.value)
    case None => None
    case Some(role) =>
      Some(NewUser(uid, b.name.value, b.email.value, b.phone.value, role,
                   OrElse(b.organizationName, ""), OrElse(b.organizationType, ""), now))
  }

  /** The error `/register` ends in, checked in the route's order, or `None`. */
  function RegisterRefusal(users: map<Id, User>, b: RegisterBody, v: Verification, now: Time): (e: Option<Error>)
    ensures e.None? <==>
      && HasRequired(b) && v.Verified? && !Taken(users, v.uid, b.email.value)
      && Candidate(b, v.uid, now).Some? && ValidUser(Candidate(b, v.uid, now).value)
    ensures e == Some(ApiError(400, "Missing required fields")) <==> !HasRequired(b)
    ensures e == Some(ApiError(400, "User already exists")) <==>
      HasRequired(b) && v.Verified? && Taken(users, v.uid, b.email.value)
    ensures e == Some(TokenRejected) <==> HasRequired(b) && !v.Verified?
  {
    if !HasRequired(b) then Some(ApiError(400, "Missing required fields"))
    else if !v.Verified? then Some(TokenRejected)
    else if Taken(users, v.uid, b.email.value) then Some(ApiError(400, "User already exists"))
    else
      var u := Candidate(b, v.uid, now);
      if u.None? || !ValidUser(u.value) then Some(ValidationFailed) else None
  }

  /** A valid account under the next id, with a uid and an email no one
      else has, extends a consistent store. */
  lemma AddUserKeepsConsistent(users: map<Id, User>, donations: map<Id, DonationModel.Donation>,
                               requests: map<Id, RequestModel.Request>,
                               notifications: map<Id, NotificationModel.Notification>, next: Id, u: User)
    requires ConsistentState(users, donations, requests, notifications, next)
    requires ValidUser(u)
    requires forall id :: id in users ==> users[id].firebaseUid != u.firebaseUid && users[id].email != u.email
    ensures next !in users
    ensures ConsistentState(users[next := u], donations, requests, notifications, next + 1)
  {
  }

  /** `POST /api/auth/register`. */
  method Register(db: Database, b: RegisterBody, v: Verification, now: Time) returns (r: Result<Id>)
    requires db.Consistent()
    modifies db
    ensures db.Consistent()
    ensures db.donations == old(db.donations) && db.requests == old(db.requests)
    ensures db.notifications == old(db.notifications)
    ensures old(RegisterRefusal(db.users, b, v, now)).Some? ==>
      && r == Err(old(RegisterRefusal(db.users, b, v, now)).value)
      && db.users == old(db.users) && db.nextId == old(db.nextId)
    ensures old(RegisterRefusal(db.users, b, v, now)).None? ==>
      && r == Ok(old(db.nextId)) && db.nextId == old(db.nextId) + 1
      && old(db.nextId) !in old(db.users)
      && db.users == old(db.users)[old(db.nextId) := Candidate(b, v.uid, now).value]
  {
    var refusal := RegisterRefusal(db.users, b, v, now);
    if refusal.Some? {
      return Err(refusal.value);
    }
    var u := Candidate(b, v.uid, now).value;
    forall id | id in db.users ensures db.users[id].firebaseUid != u.firebaseUid && db.users[id].email != u.email {
      assert !Taken(db.users, v.uid, b.email.value);
    }
    var id := AddAccount(db, u);
    r := Ok(id);
  }

  /** `User.create` for an account with a uid and an email no one else has. */
  method AddAccount(db: Database, u: User) returns (id: Id)
    requires db.Consistent() && ValidUser(u)
    requires forall k :: k in db.users ==> db.users[k].firebaseUid != u.firebaseUid && db.users[k].email != u.email
    modifies db
    ensures db.Consistent()
    ensures db.donations == old(db.donations) && db.requests == old(db.requests)
    ensures db.notifications == old(db.notifications)
    ensures id == old(db.nextId) && id !in old(db.users) && db.nextId == id + 1
    ensures db.users == old(db.users)[id := u]
  {
    AddUserKeepsConsistent(db.users, db.donations, db.requests, db.notifications, db.nextId, u);
    id := db.NewId();
    db.users := db.users[id := u];
  }

  /** Once an account holds a uid or an email, a registration that brings
      either of them is refused as a duplicate. */
  lemma RegisterOnce(users: map<Id, User>, id: Id, b: RegisterBody, v: Verification)
    requires id in users && HasRequired(b) && v.Verified?
    requires users[id].firebaseUid == v.uid || users[id].email == NormalizeEmail(b.email.value)
    ensures forall now :: RegisterRefusal(users, b, v, now) == Some(ApiError(400, "User already exists"))
  {
  }

  /** Two spellings of one address that differ only in the case of their
      letters and in surrounding whitespace are one account: a registration
      with either is refused exactly when one with the other is. */
  lemma EmailCase(users: map<Id, User>, uid: string, e1: string, e2: string, w1: string, w2: string)
    requires ToLower(e1) == ToLower(e2) && IsBlank(w1) && IsBlank(w2)
    ensures Taken(users, uid, w1 + e2 + w2) <==> Taken(users, uid, e1)
  {
    SameAddress(e1, e2, w1, w2);
    SameNormalTaken(users, uid, w1 + e2 + w2, e1);
  }

  lemma SameNormalTaken(users: map<Id, User>, uid: string, a: string, b: string)
    requires NormalizeEmail(a) == NormalizeEmail(b)
    ensures Taken(users, uid, a) <==> Taken(users, uid, b)
  {
  }

  lemma SameAddress(e1: string, e2: string, w1: string, w2: string)
    requires ToLower(e1) == ToLower(e2) && IsBlank(w1) && IsBlank(w2)
    ensures NormalizeEmail(w1 + e2 + w2) == NormalizeEmail(e1)
  {
    PaddedTrim(w1, e2, w2);
    ToLowerTrim(e1);
    ToLowerTrim(e2);
  }

  /** Lower-casing before `trim` or after gives the same address. */
  lemma ToLowerTrim(s: string)
    ensures NormalizeEmail(ToLower(s)) == NormalizeEmail(s)
  {
    LowerTrimStart(s);
    LowerTrimEnd(TrimStart(s));
    ToLowerIdempotent(TrimEnd(TrimStart(s)));
  }

  lemma LowerKeepsWhitespace(c: char)
    ensures IsWhitespace(LowerChar(c)) <==> IsWhitespace(c)
  {
  }

  lemma {:induction false} LowerTrimStart(s: string)
    ensures TrimStart(ToLower(s)) == ToLower(TrimStart(s))
  {
    if |s| > 0 {
      var l := ToLower(s);
      LowerKeepsWhitespace(s[0]);
      assert l[0] == LowerChar(s[0]);
      if IsWhitespace(s[0]) {
        assert l[1..] == ToLower(s[1..]);
        assert TrimStart(l) == TrimStart(l[1..]);
        assert TrimStart(s) == TrimStart(s[1..]);
        LowerTrimStart(s[1..]);
      } else {
        assert TrimStart(l) == l;
        assert TrimStart(s) == s;
      }
    }
  }

  lemma {:induction false} LowerTrimEnd(s: string)
    ensures TrimEnd(ToLower(s)) == ToLower(TrimEnd(s))
  {
    if |s| > 0 {
      var l := ToLower(s);
      LowerKeepsWhitespace(s[|s| - 1]);
      if IsWhitespace(s[|s| - 1]) {
        assert l[..|s| - 1] == ToLower(s[..|s| - 1]);
        LowerTrimEnd(s[..|s| - 1]);
      }
    }
  }

  // ---------------------------------------------------------------- login

  /** `POST /api/auth/login`: the account a token logs into, or the error,
      checked in order: no token, a token Firebase refuses, no account for
      the uid, a blocked account. Nothing is written. */
  function Login(users: map<Id, User>, token: Option<string>, v: Verification): (r: Result<Id>)
    requires UniqueAccounts(users)
    ensures r.Ok? <==> Truthy(token) && v.Verified? && UserByUid(users, v.uid).Some? &&
                       !users[UserByUid(users, v.uid).value].isBlocked
    ensures r.Ok? ==> r.value in users && users[r.value].firebaseUid == v.uid && !users[r.value].isBlocked
    ensures r == Err(ApiError(400, "Firebase token required")) <==> !Truthy(token)
    ensures r == Err(TokenRejected) <==> Truthy(token) && !v.Verified?
    ensures r == Err(ApiError(404, "User not found. Please register first.")) <==>
      Truthy(token) && v.Verified? && forall id :: id in users ==> users[id].firebaseUid != v.uid
    ensures r == Err(ApiError(403, "Your account has been blocked")) <==>
      Truthy(token) && v.Verified? && exists id :: id in users && users[id].firebaseUid == v.uid && users[id].isBlocked
  {
    if !Truthy(token) then Err(ApiError(400, "Firebase token required"))
    else if !v.Verified? then Err(TokenRejected)
    else
      match UserByUid(users, v.uid)
      case None => Err(ApiError(404, "User not found. Please register first."))
      case Some(id) =>
        if users[id].isBlocked then Err(ApiError(403, "Your account has been blocked")) else Ok(id)
  }

  // ---------------------------------------------------------------- profile

  datatype ProfileBody = ProfileBody(
    name: Option<string>, phone: Option<string>, organizationName: Option<string>,
    organizationType: Option<string>, address: Option<Address>, profileImage: Option<string>)

  /** The `updateData` object: the paths `findByIdAndUpdate` sets. */
  datatype ProfileUpdate = ProfileUpdate(
    name: Option<string>, phone: Option<string>, organizationName: Option<string>,
    organizationType: Option<string>, address: Option<Address>, profileImage: Option<string>)

  /** `updateData` as the route builds it: name, phone and profile image
      only when truthy, the address whenever given (an object is truthy),
      and both organisation fields whenever not `undefined`, the empty
      string included. */
  method CollectProfileUpdate(b: ProfileBody) returns (upd: ProfileUpdate)
    ensures upd.name.Some? <==> Truthy(b.name)
    ensures upd.phone.Some? <==> Truthy(b.phone)
    ensures upd.profileImage.Some? <==> Truthy(b.profileImage)
    ensures upd.name.Some? ==> upd.name == b.name
    ensures upd.phone.Some? ==> upd.phone == b.phone
    ensures upd.profileImage.Some? ==> upd.profileImage == b.profileImage
    ensures upd.organizationName == b.organizationName && upd.organizationType == b.organizationType
    ensures upd.address == b.address
  {
    upd := ProfileUpdate(None, None, None, None, None, None);
    if Truthy(b.name) {
      upd := upd.(name := b.name);
    }
    if Truthy(b.phone) {
      upd := upd.(phone := b.phone);
    }
    if b.organizationName.Some? {
      upd := upd.(organizationName := b.organizationName);
    }
    if b.organizationType.Some? {
      upd := upd.(organizationType := b.organizationType);
    }
    if b.address.Some? {
      upd := upd.(address := b.address);
    }
    if Truthy(b.profileImage) {
      upd := upd.(profileImage := b.profileImage);
    }
  }

  /** The account after the update: each set path takes its value (name
      and phone through the `trim` setter), every other field stays. No
      save runs, so `updatedAt` stays too. */
  function ApplyProfile(u: User, upd: ProfileUpdate): (v: User)
    ensures v.name == (if upd.name.Some? then Trim(upd.name.value) else u.name)
    ensures v.phone == (if upd.phone.Some? then Trim(upd.phone.value) else u.phone)
    ensures v.organizationName == upd.organizationName.GetOr(u.organizationName)
    ensures v.organizationType == upd.organizationType.GetOr(u.organizationType)
    ensures v.address == (if upd.address.Some? then upd.address else u.address)
    ensures v.profileImage == upd.profileImage.GetOr(u.profileImage)
    ensures v.(name := u.name, phone := u.phone, organizationName := u.organizationName,
               organizationType := u.organizationType, address := u.address,
               profileImage := u.profileImage) == u
  {
    u.(name := if upd.name.Some? then Trim(upd.name.value) else u.name,
       phone := if upd.phone.Some? then Trim(upd.phone.value) else u.phone,
       organizationName := upd.organizationName.GetOr(u.organizationName),
       organizationType := upd.organizationType.GetOr(u.organizationType),
       address := if upd.address.Some? then upd.address else u.address,
       profileImage := upd.profileImage.GetOr(u.profileImage))
  }

  /** `runValidators` checks only the paths set, so a valid account stays
      valid exactly when the new name and phone are not blank and the new
      organisation type is in its enum. */
  lemma ProfileValidity(u: User, upd: ProfileUpdate)
    requires ValidUser(u)
    ensures ValidUser(ApplyProfile(u, upd)) <==>
      && (upd.name.Some? ==> !IsBlank(upd.name.value))
      && (upd.phone.Some? ==> !IsBlank(upd.phone.value))
      && (upd.organizationType.Some? ==> upd.organizationType.value in OrganizationTypes)
  {
    if upd.name.Some? {
      TrimEmptyIffBlank(upd.name.value);
      TrimmedIffFixed(upd.name.value);
    }
    if upd.phone.Some? {
      TrimEmptyIffBlank(upd.phone.value);
      TrimmedIffFixed(upd.phone.value);
    }
  }

  /** A body that names nothing the route copies changes nothing. */
  lemma EmptyProfile(u: User)
    ensures ApplyProfile(u, ProfileUpdate(None, None, None, None, None, None)) == u
  {
  }

  /** `PUT /api/auth/profile` for the signed-in account. Mongoose refuses
      the whole update when a set path fails its validator. */
  method UpdateProfile(db: Database, caller: Id, b: ProfileBody) returns (r: Result<User>)
    requires db.Consistent() && caller in db.users
    modifies db
    ensures db.Consistent()
    ensures db.donations == old(db.donations) && db.requests == old(db.requests)
    ensures db.notifications == old(db.notifications) && db.nextId == old(db.nextId)
    ensures
      var upd := ProfileUpdate(if Truthy(b.name) then b.name else None,
                               if Truthy(b.phone) then b.phone else None,
                               b.organizationName, b.organizationType, b.address,
                               if Truthy(b.profileImage) then b.profileImage else None);
      var v := ApplyProfile(old(db.users[caller]), upd);
      if ValidUser(v) then r == Ok(v) && db.users == old(db.users)[caller := v]
      else r == Err(ValidationFailed) && db.users == old(db.users)
  {
    var upd := CollectProfileUpdate(b);
    var v := ApplyProfile(db.users[caller], upd);
    if !ValidUser(v) {
      return Err(ValidationFailed);
    }
    ReplaceUserKeepsConsistent(db.users, db.donations, db.requests, db.notifications, db.nextId, caller, v);
    db.users := db.users[caller := v];
    r := Ok(v);
  }
}
