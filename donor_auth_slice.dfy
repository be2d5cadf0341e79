/**
 * The donor app's session store: the signed-in account, the Firebase
 * user, the ID token and the loading and error flags.
 */
module DonorAuthSlice {
  import opened Common

  /** The account record the API returns, as its fields by key. */
  type Profile = map<string, string>

  /** What register, login and refresh resolve to. The Firebase user is
      kept as its uid. */
  datatype Session = Session(user: Profile, token: string, firebaseUser: string)

  /** The store's intended invariant: signed in exactly when an account is held. */
  predicate CoherentValues(user: Option<Profile>, isAuthenticated: bool) {
    isAuthenticated <==> user.Some?
  }

  /** `{ ...state.user, ...payload }`: spreading `null` adds nothing, so the
      result is always an account, the payload's keys winning. */
  function ProfileMerged(user: Option<Profile>, payload: Profile): (r: Option<Profile>)
    ensures r.Some? && r.value.Keys == user.GetOr(map[]).Keys + payload.Keys
    ensures forall k :: k in payload ==> r.value[k] == payload[k]
    ensures forall k :: k in user.GetOr(map[]) && k !in payload ==> r.value[k] == user.value[k]
  {
    Some(user.GetOr(map[]) + payload)
  }

  /** Merging the same payload again changes nothing. */
  lemma ProfileMergeIdempotent(user: Option<Profile>, payload: Profile)
    ensures ProfileMerged(ProfileMerged(user, payload), payload) == ProfileMerged(user, payload)
  {
    var m := user.GetOr(map[]) + payload;
    assert m + payload == m;
  }

  /** A profile update that lands after sign-out leaves an account in the
      store while `isAuthenticated` stays false: the one reducer that breaks
      the invariant. */
  lemma ProfileMergeBreaksCoherence()
    ensures CoherentValues(None, false)
    ensures !CoherentValues(ProfileMerged(None, map["name" := "A"]), false)
  {
  }

  /** While signed in, a profile update keeps the invariant. */
  lemma ProfileMergeWhileSignedIn(user: Option<Profile>, payload: Profile)
    requires CoherentValues(user, true)
    ensures CoherentValues(ProfileMerged(user, payload), true)
  {
  }

  class AuthState {
    var user: Option<Profile>
    var firebaseUser: Option<string>
    var token: Option<string>
    var isLoading: bool
    var isAuthenticated: bool
    var error: Option<string>

    predicate Coherent()
      reads this
    {
      CoherentValues(user, isAuthenticated)
    }

    /** `initialState`; the token is whatever `localStorage` holds, given
        as `storedToken`. */
    constructor (storedToken: Option<string>)
      ensures user.None? && firebaseUser.None? && token == storedToken
      ensures isLoading && !isAuthenticated && error.None?
      ensures Coherent()
    {
      user, firebaseUser, token := None, None, storedToken;
      isLoading, isAuthenticated, error := true, false, None;
    }

    /** `setUser`: signed in exactly when an account is given. */
    method SetUser(u: Option<Profile>)
      modifies this`user, this`isAuthenticated
      ensures user == u && (isAuthenticated <==> u.Some?)
      ensures Coherent()
    {
      user := u;
      isAuthenticated := u.Some?;
    }

    method SetFirebaseUser(f: Option<string>)
      modifies this`firebaseUser
      ensures firebaseUser == f
      ensures old(Coherent()) ==> Coherent()
    {
      firebaseUser := f;
    }

    method SetLoading(b: bool)
      modifies this`isLoading
      ensures isLoading == b
      ensures old(Coherent()) ==> Coherent()
    {
      isLoading := b;
    }

    method ClearError()
      modifies this`error
      ensures error.None?
      ensures old(Coherent()) ==> Coherent()
    {
      error := None;
    }

    /** The `pending` case of register and login. */
    method Pending()
      modifies this`isLoading, this`error
      ensures isLoading && error.None?
      ensures old(Coherent()) ==> Coherent()
    {
      isLoading, error := true, None;
    }

    /** `refreshToken.pending`, which keeps the error. */
    method RefreshPending()
      modifies this`isLoading
      ensures isLoading
      ensures old(Coherent()) ==> Coherent()
    {
      isLoading := true;
    }

    /** The `fulfilled` case of register, login and refresh. */
    method SignedIn(s: Session)
      modifies this`isLoading, this`user, this`token, this`firebaseUser, this`isAuthenticated
      ensures !isLoading && isAuthenticated
      ensures user == Some(s.user) && token == Some(s.token) && firebaseUser == Some(s.firebaseUser)
      ensures Coherent()
    {
      isLoading := false;
      user := Some(s.user);
      token := Some(s.token);
      firebaseUser := Some(s.firebaseUser);
      isAuthenticated := true;
    }

    /** The `rejected` case of register and login: the session is untouched. */
    method Rejected(message: string)
      modifies this`isLoading, this`error
      ensures !isLoading && error == Some(message)
      ensures old(Coherent()) ==> Coherent()
    {
      isLoading, error := false, Some(message);
    }

    /** `logoutUser.fulfilled`. */
    method LogoutFulfilled()
      modifies this`user, this`firebaseUser, this`token, this`isAuthenticated, this`isLoading
      ensures user.None? && firebaseUser.None? && token.None?
      ensures !isAuthenticated && !isLoading
      ensures Coherent()
    {
      user, firebaseUser, token := None, None, None;
      isAuthenticated, isLoading := false, false;
    }

    /** `refreshToken.rejected`: signs out, and records no error. */
    method RefreshRejected()
      modifies this`user, this`firebaseUser, this`token, this`isAuthenticated, this`isLoading
      ensures user.None? && firebaseUser.None? && token.None?
      ensures !isAuthenticated && !isLoading
      ensures Coherent()
    {
      isLoading := false;
      user, firebaseUser, token := None, None, None;
      isAuthenticated := false;
    }

    /** `updateUserProfile.fulfilled`: the payload is merged over the account,
        with `isAuthenticated` left as it was. */
    method UpdateProfileFulfilled(payload: Profile)
      modifies this`user
      ensures user == ProfileMerged(old(user), payload)
      ensures old(isAuthenticated) ==> (old(Coherent()) ==> Coherent())
    {
      user := ProfileMerged(user, payload);
    }
  }
}
