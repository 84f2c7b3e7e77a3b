/** The session (`AuthContext.tsx`): the signed-in user's profile as the app holds it, and how it is created and changed. */
module AuthContext {
  import opened Wrappers
  import opened Entities
  import opened Service

  /** The account the auth provider reports; `None` stands for a `null` field. */
  datatype AuthUser = AuthUser(uid: Uid, email: Option<string>, displayName: Option<string>, photoURL: Option<string>)

  const NoUserMessage := "No user logged in"

  /** `x || undefined`: a missing or empty text becomes absent. */
  function NonEmpty(s: Option<string>): (r: Option<string>)
    ensures r.Some? <==> s.Some? && s.value != ""
    ensures r.Some? ==> r.value == s.value
  {
    if s.Some? && s.value != "" then s else None
  }

  /** The profile every new account starts with: a viewer with no bio, no phone and contact details hidden. */
  function ViewerProfile(uid: Uid, email: string, displayName: string, photoURL: Option<string>, now: Time): (u: User)
    ensures u.uid == uid && u.role == Viewer && !u.showContactInfo && u.bio == "" && u.phoneNumber == ""
    ensures u.email == email && u.displayName == displayName && u.photoURL == photoURL
    ensures u.createdAt == now && u.updatedAt == now
  {
    User(uid, email, displayName, photoURL, "", Viewer, false, "", now, now)
  }

  /** The profile the auth-state handler creates for an account without one (`photoURL || ''`). */
  function FirstSignInProfile(a: AuthUser, now: Time): User {
    ViewerProfile(a.uid, a.email.GetOr(""), a.displayName.GetOr(""), Some(a.photoURL.GetOr("")), now)
  }

  class Provider {
    const store: Store
    var user: Option<User>
    var loading: bool

    constructor (store: Store)
      ensures this.store == store && user == None && loading
    {
      this.store := store;
      user := None;
      loading := true;
    }

    /**
     * The `onAuthStateChanged` handler: a signed-in account gets its stored profile, or a new viewer profile
     * stored and held when it has none; signing out clears the user. Either way loading ends.
     * `now` is the browser's clock, which stamps the locally held copy of a new profile.
     */
    method OnAuthStateChanged(account: Option<AuthUser>, now: Time)
      requires store.Valid()
      modifies this`user, this`loading, store
      ensures store.Valid() && !loading
      ensures account.None? ==> user == None && store.users == old(store.users)
      ensures account.Some? ==> user.Some? && user.value.uid == account.value.uid && account.value.uid in store.users
      ensures account.Some? && account.value.uid in old(store.users) ==>
        user == Some(old(store.users)[account.value.uid]) && store.users == old(store.users)
      ensures account.Some? && account.value.uid !in old(store.users) ==>
        && user == Some(FirstSignInProfile(account.value, now))
        && user.value.role == Viewer
        && store.users == old(store.users)[account.value.uid :=
             FirstSignInProfile(account.value, now).(createdAt := old(store.clock), updatedAt := old(store.clock))]
      ensures store.applications == old(store.applications) && store.resources == old(store.resources)
      ensures store.ratings == old(store.ratings)
    {
      if account.Some? {
        var a := account.value;
        var existing := store.UserProfile(a.uid);
        if existing.Some? {
          user := existing;
        } else {
          var profile := FirstSignInProfile(a, now);
          store.CreateUserProfile(a.uid, profile);
          user := Some(profile);
        }
      } else {
        user := None;
      }
      loading := false;
    }

    /** `signOut`: the provider reports no account, and the handler clears the user. */
    method SignOut(now: Time)
      requires store.Valid()
      modifies this`user, this`loading, store
      ensures store.Valid() && user == None && !loading
      ensures store.users == old(store.users) && store.applications == old(store.applications)
      ensures store.resources == old(store.resources) && store.ratings == old(store.ratings)
    {
      OnAuthStateChanged(None, now);
    }

    /**
     * The profile part of `signUp`: the new account `uid` (issued by the auth provider) is stored as a viewer
     * with the given email and display name, overwriting whatever was stored under that uid.
     */
    method SignUp(uid: Uid, email: string, displayName: string, now: Time)
      requires store.Valid()
      modifies store
      ensures store.Valid()
      ensures store.users == old(store.users)[uid := ViewerProfile(uid, email, displayName, Some(""), old(store.clock))]
      ensures store.users[uid].role == Viewer
      ensures store.applications == old(store.applications) && store.resources == old(store.resources)
      ensures store.ratings == old(store.ratings)
    {
      store.CreateUserProfile(uid, ViewerProfile(uid, email, displayName, Some(""), now));
    }

    /**
     * The profile part of `signInWithGoogle`: a viewer profile is stored only when the account has none, so
     * signing in again never resets a stored profile (its role included).
     */
    method SignInWithGoogle(account: AuthUser, now: Time)
      requires store.Valid()
      modifies store
      ensures store.Valid()
      ensures account.uid in old(store.users) ==> store.users == old(store.users)
      ensures account.uid !in old(store.users) ==>
        store.users == old(store.users)[account.uid := ViewerProfile(account.uid, account.email.GetOr(""),
          account.displayName.GetOr(""), NonEmpty(account.photoURL), old(store.clock))]
      ensures account.uid in store.users
      ensures store.applications == old(store.applications) && store.resources == old(store.resources)
      ensures store.ratings == old(store.ratings)
    {
      var existing := store.UserProfile(account.uid);
      if existing.None? {
        store.CreateUserProfile(account.uid, ViewerProfile(account.uid, account.email.GetOr(""),
          account.displayName.GetOr(""), NonEmpty(account.photoURL), now));
      }
    }

    /**
     * The Firestore part of `updateUserProfile`: without a user it fails with "No user logged in"; otherwise
     * the stored profile is merged with the patch, and only then the held copy, each stamped by its own clock.
     */
    method UpdateUserProfile(patch: ProfilePatch, now: Time) returns (error: Option<string>)
      requires store.Valid()
      modifies this`user, store
      ensures store.Valid()
      ensures old(user).None? ==> error == Some(NoUserMessage) && user == old(user) && store.users == old(store.users)
      ensures old(user).Some? && old(user).value.uid !in old(store.users) ==>
        error == Some(Message(NoDocument("users"))) && user == old(user) && store.users == old(store.users)
      ensures old(user).Some? && old(user).value.uid in old(store.users) ==>
        && error == None
        && user == Some(Merge(old(user).value, patch).(updatedAt := now))
        && store.users == old(store.users)[old(user).value.uid := Merge(old(store.users)[old(user).value.uid], patch).(updatedAt := old(store.clock))]
      ensures old(user).Some? && old(user).value.uid in old(store.users) && old(user) == Some(old(store.users)[old(user).value.uid]) ==>
        user.value.(updatedAt := 0) == store.users[user.value.uid].(updatedAt := 0)
      ensures store.applications == old(store.applications) && store.resources == old(store.resources)
      ensures store.ratings == old(store.ratings)
    {
      if user.None? {
        return Some(NoUserMessage);
      }
      var current := user.value;
      var res := store.UpdateUserProfile(current.uid, patch);
      if res.Failure? {
        return Some(Message(res.error));
      }
      user := Some(Merge(current, patch).(updatedAt := now));
      return None;
    }
  }
}
