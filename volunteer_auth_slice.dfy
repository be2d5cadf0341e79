/**
 * The volunteer app's session store: the signed-in account with the
 * loading and error flags. Unlike the donor app it keeps no token here.
 */
module VolunteerAuthSlice {
  import opened Common

  /** The account record the API returns, as its fields by key. */
  type Profile = map<string, string>

  /** Signed in exactly when an account is held. */
  predicate CoherentValues(user: Option<Profile>, isAuthenticated: bool) {
    isAuthenticated <==> user.Some?
  }

  /** `updateUserProfile.fulfilled` stores the returned record in place of
      the account, dropping keys the payload lacks, and leaves
      `isAuthenticated` alone: coherent again exactly when it was signed in. */
  function ProfileReplaced(user: Option<Profile>, payload: Profile): (r: Option<Profile>)
    ensures r == Some(payload)
    ensures CoherentValues(r, true) && !CoherentValues(r, false)
  {
    Some(payload)
  }

  /** Unlike a merge, a replacement forgets the keys the payload omits. */
  lemma ReplaceForgets(user: Profile, payload: Profile, k: string)
    requires k in user && k !in payload
    ensures k !in ProfileReplaced(Some(user), payload).value
  {
  }

  class AuthState {
    var user: Option<Profile>
    var isAuthenticated: bool
    var isLoading: bool
    var error: Option<string>

    predicate Coherent()
      reads this
    {
      CoherentValues(user, isAuthenticated)
    }

    /** `initialState`: nobody signed in, nothing loading. */
    constructor ()
      ensures user.None? && !isAuthenticated && !isLoading && error.None?
      ensures Coherent()
    {
      user, isAuthenticated, isLoading, error := None, false, false, None;
    }

    method ClearError()
      modifies this`error
      ensures error.None?
      ensures old(Coherent()) ==> Coherent()
    {
      error := None;
    }

    /** `setUser`: signed in exactly when an account is given. */
    method SetUser(u: Option<Profile>)
      modifies this`user, this`isAuthenticated
      ensures user == u && (isAuthenticated <==> u.Some?)
      ensures Coherent()
    {
      user := u;
      isAuthenticated := u.Some?;
    }

    /** The `pending` case of register and login. */
    method Pending()
      modifies this`isLoading, this`error
      ensures isLoading && error.None?
      ensures old(Coherent()) ==> Coherent()
    {
      isLoading, error := true, None;
    }

    /** The `fulfilled` case of register and login. */
    method SignedIn(u: Profile)
      modifies this`isLoading, this`user, this`isAuthenticated
      ensures !isLoading && user == Some(u) && isAuthenticated
      ensures Coherent()
    {
      isLoading := false;
      user := Some(u);
      isAuthenticated := true;
    }

    /** The `rejected` case of register and login. */
    method Rejected(message: string)
      modifies this`isLoading, this`error
      ensures !isLoading && error == Some(message)
      ensures old(Coherent()) ==> Coherent()
    {
      isLoading, error := false, Some(message);
    }

    /** `refreshToken.fulfilled`: like a sign-in, but `isLoading` is untouched. */
    method RefreshFulfilled(u: Profile)
      modifies this`user, this`isAuthenticated
      ensures user == Some(u) && isAuthenticated
      ensures Coherent()
    {
      user := Some(u);
      isAuthenticated := true;
    }

    /** `logoutUser.fulfilled` and `refreshToken.rejected`: signed out, with
        `isLoading` and the error untouched. */
    method SignedOut()
      modifies this`user, this`isAuthenticated
      ensures user.None? && !isAuthenticated
      ensures Coherent()
    {
      user := None;
      isAuthenticated := false;
    }

    /** `updateUserProfile.fulfilled`. */
    method UpdateProfileFulfilled(payload: Profile)
      modifies this`user
      ensures user == ProfileReplaced(old(user), payload)
      ensures Coherent() <==> isAuthenticated
    {
      user := ProfileReplaced(user, payload);
    }
  }
}
