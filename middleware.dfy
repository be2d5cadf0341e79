/**
 * The authentication middleware: the Bearer header parse, the account
 * lookup by Firebase uid, and the role and verification gates.
 */
module AuthMiddleware {
  import opened Common
  import opened Text
  import opened UserModel
  import opened Store

  /** What Firebase's `verifyIdToken` answers for a token; the Firebase
      Admin SDK is outside the model, so this answer is an input. */
  datatype Verification = Verified(uid: string) | Expired | Rejected

  /** A middleware either calls `next()` or answers with a status and a message. */
  datatype Outcome = Next | Respond(status: int, message: string)

  const BearerPrefix: string := "Bearer "

  lemma {:induction false} BearerSplit(h: string)
    requires StartsWith(h, BearerPrefix)
    ensures |Split(h, ' ')| >= 2 && Split(h, ' ')[1] == Split(h[|BearerPrefix|..], ' ')[0]
  {
    assert h == "Bearer" + [' '] + h[|BearerPrefix|..];
    SplitHead("Bearer", ' ', h[|BearerPrefix|..]);
  }

  /** The token `verifyToken` hands to Firebase: nothing unless the header
      starts with "Bearer ", otherwise `authHeader.split(" ")[1]`. */
  function BearerToken(header: Option<string>): (token: Option<string>)
    ensures token.Some? <==> header.Some? && StartsWith(header.value, BearerPrefix)
    ensures token.Some? ==> ' ' !in token.value
  {
    if header.Some? && header.value != "" && StartsWith(header.value, BearerPrefix) then
      BearerSplit(header.value);
      Some(Split(header.value, ' ')[1])
    else None
  }

  /** Section 2.1 of RFC 6750 sends credentials as "Bearer" followed by a
      token without spaces; for such a header the token comes back unchanged. */
  lemma BearerRoundTrip(t: string)
    requires ' ' !in t
    ensures BearerToken(Some(BearerPrefix + t)) == Some(t)
  {
    var h := BearerPrefix + t;
    assert h[|BearerPrefix|..] == t;
    BearerSplit(h);
    SplitNoSep(t, ' ');
  }

  /** Whatever follows the token after a space is ignored. */
  lemma BearerIgnoresRest(t: string, rest: string)
    requires ' ' !in t
    ensures BearerToken(Some(BearerPrefix + t + " " + rest)) == Some(t)
  {
    var h := BearerPrefix + t + " " + rest;
    assert h[|BearerPrefix|..] == t + [' '] + rest;
    BearerSplit(h);
    SplitHead(t, ' ', rest);
  }

  /** The grammar of RFC 6750 also admits several spaces after "Bearer";
      `split(" ")[1]` is then the empty string, which Firebase rejects. */
  lemma BearerExtraSpace(t: string)
    ensures BearerToken(Some(BearerPrefix + " " + t)) == Some("")
  {
    var h := BearerPrefix + " " + t;
    assert h[|BearerPrefix|..] == [] + [' '] + t;
    BearerSplit(h);
    SplitHead([], ' ', t);
  }

  /** `User.findOne({ firebaseUid })`: uids are unique, so at most one user matches. */
  function UserByUid(users: map<Id, User>, uid: string): (r: Option<Id>)
    requires UniqueAccounts(users)
    ensures r.Some? ==> r.value in users && users[r.value].firebaseUid == uid
    ensures r.None? ==> forall id :: id in users ==> users[id].firebaseUid != uid
  {
    if exists id :: id in users && users[id].firebaseUid == uid then
      var id :| id in users && users[id].firebaseUid == uid;
      Some(id)
    else None
  }

  /** The per-request state the middleware writes: `req.user` and `req.firebaseUser`. */
  class RequestContext {
    var user: Option<Id>
    var firebaseUid: Option<string>

    constructor ()
      ensures user.None? && firebaseUid.None?
    {
      user, firebaseUid := None, None;
    }
  }

  /** `verifyToken`: 401 without a Bearer header, for a token Firebase
      refuses ("Token expired" or "Invalid token") and for an unknown uid;
      403 for a blocked account; otherwise the user is attached and the
      request goes on. Nothing is attached on any refusal. */
  method VerifyToken(ctx: RequestContext, db: Database, header: Option<string>,
                     verify: string -> Verification)
    returns (out: Outcome)
    requires UniqueAccounts(db.users)
    modifies ctx
    ensures out.Respond? ==> ctx.user == old(ctx.user) && ctx.firebaseUid == old(ctx.firebaseUid)
    ensures BearerToken(header).None? ==> out == Respond(401, "No token provided")
    ensures BearerToken(header).Some? ==>
      var v := verify(BearerToken(header).value);
      && (v == Expired ==> out == Respond(401, "Token expired"))
      && (v == Rejected ==> out == Respond(401, "Invalid token"))
      && (v.Verified? && UserByUid(db.users, v.uid).None? ==> out == Respond(401, "User not found in database"))
      && (v.Verified? && UserByUid(db.users, v.uid).Some? ==>
            var id := UserByUid(db.users, v.uid).value;
            if db.users[id].isBlocked then out == Respond(403, "Your account has been blocked")
            else out == Next && ctx.user == Some(id) && ctx.firebaseUid == Some(v.uid))
  {
    var token := BearerToken(header);
    if token.None? {
      return Respond(401, "No token provided");
    }
    var v := verify(token.value);
    if v == Expired {
      return Respond(401, "Token expired");
    }
    if v == Rejected {
      return Respond(401, "Invalid token");
    }
    var found := UserByUid(db.users, v.uid);
    if found.None? {
      return Respond(401, "User not found in database");
    }
    if db.users[found.value].isBlocked {
      return Respond(403, "Your account has been blocked");
    }
    ctx.user := found;
    ctx.firebaseUid := Some(v.uid);
    out := Next;
  }

  function RoleNames(roles: seq<Role>): seq<string> {
    if roles == [] then [] else [RoleName(roles[0])] + RoleNames(roles[1..])
  }

  /** `requireRole(...roles)`: 401 without a user, 403 when the user's role is not listed. */
  function RequireRole(roles: seq<Role>, user: Option<User>): (out: Outcome)
    ensures out == Next <==> user.Some? && user.value.role in roles
    ensures user.None? ==> out == Respond(401, "Authentication required")
    ensures user.Some? && user.value.role !in roles ==>
      out == Respond(403, "Access denied. Required role: " + Join(RoleNames(roles), " or "))
  {
    if user.None? then Respond(401, "Authentication required")
    else if user.value.role !in roles then
      Respond(403, "Access denied. Required role: " + Join(RoleNames(roles), " or "))
    else Next
  }

  /** `requireVerified`: passes exactly the verified users and the admins. */
  function RequireVerified(user: Option<User>): (out: Outcome)
    ensures out == Next <==> user.Some? && (user.value.isVerified || user.value.role == Admin)
    ensures user.None? ==> out == Respond(401, "Authentication required")
    ensures user.Some? && out.Respond? ==> out == Respond(403, "Account verification required")
  {
    if user.None? then Respond(401, "Authentication required")
    else if !user.value.isVerified && user.value.role != Admin then
      Respond(403, "Account verification required")
    else Next
  }

  /** `optionalAuth`: never answers itself; attaches the user only for a
      Firebase-accepted token whose uid belongs to an account that is not blocked. */
  method OptionalAuth(ctx: RequestContext, db: Database, header: Option<string>,
                      verify: string -> Verification)
    requires UniqueAccounts(db.users)
    modifies ctx
    ensures
      var token := BearerToken(header);
      var attach := token.Some? && verify(token.value).Verified? &&
                    UserByUid(db.users, verify(token.value).uid).Some? &&
                    !db.users[UserByUid(db.users, verify(token.value).uid).value].isBlocked;
      if attach then
        ctx.user == UserByUid(db.users, verify(token.value).uid) && ctx.firebaseUid == Some(verify(token.value).uid)
      else ctx.user == old(ctx.user) && ctx.firebaseUid == old(ctx.firebaseUid)
  {
    var token := BearerToken(header);
    if token.None? {
      return;
    }
    var v := verify(token.value);
    if !v.Verified? {
      return;
    }
    var found := UserByUid(db.users, v.uid);
    if found.Some? && !db.users[found.value].isBlocked {
      ctx.user := found;
      ctx.firebaseUid := Some(v.uid);
    }
  }
}
