/**
 * The session context (src/contexts/AuthContext.tsx): the current user, the
 * user's profile and the loading flag, driven by the identity provider's
 * auth-state notifications; a missing profile is created on first sign-in.
 */
module Session {
  import opened Wrappers
  import opened Identity
  import opened Store

  const ErrNoProvider := "useAuth must be used within an AuthProvider"

  /** What `useAuth` hands to a component. */
  datatype AuthContextValue = AuthContextValue(
    currentUser: Option<AuthUser>,
    loading: bool,
    userProfile: Option<UserProfile>)

  /** `useAuth`: the provider's value, or an error outside any provider. */
  function UseAuth(context: Option<AuthContextValue>): (r: Result<AuthContextValue>)
    ensures r.Failure? <==> context.None?
    ensures r.Failure? ==> r.error == ErrNoProvider
    ensures r.Success? ==> r.value == context.value
  {
    if context.None? then Failure(ErrNoProvider) else Success(context.value)
  }

  /** `a || fallback` on an optional string. */
  function OrElse(o: Option<string>, fallback: string): (r: string)
    ensures Truthy(o) ==> r == o.value
    ensures !Truthy(o) ==> r == fallback
  {
    if Truthy(o) then o.value else fallback
  }

  /**
   * The profile created on first sign-in: the provider's uid, its display
   * name or "User", its e-mail or the empty string; empty optional claims
   * are dropped.
   */
  function NewProfile(user: AuthUser): (p: UserProfile)
    ensures p.uid == user.uid
    ensures p.displayName != ""
    ensures Truthy(user.displayName) ==> p.displayName == user.displayName.value
    ensures !Truthy(user.displayName) ==> p.displayName == "User"
    ensures Truthy(user.email) ==> p.email == user.email.value
    ensures p.email == "" <==> !Truthy(user.email)
    ensures Truthy(user.photoURL) ==> p.photoURL == user.photoURL
    ensures !Truthy(user.photoURL) ==> p.photoURL.None?
    ensures Truthy(user.phoneNumber) ==> p.phoneNumber == user.phoneNumber
    ensures !Truthy(user.phoneNumber) ==> p.phoneNumber.None?
  {
    UserProfile(
      user.uid,
      OrElse(user.displayName, "User"),
      OrElse(user.email, ""),
      if Truthy(user.photoURL) then user.photoURL else None,
      if Truthy(user.phoneNumber) then user.phoneNumber else None)
  }

  class AuthProvider {
    var currentUser: Option<AuthUser>
    var userProfile: Option<UserProfile>
    var loading: bool

    constructor ()
      ensures currentUser == None && userProfile == None && loading
    {
      currentUser, userProfile, loading := None, None, true;
    }

    function Value(): (v: AuthContextValue)
      reads this
      ensures v.currentUser == currentUser && v.loading == loading && v.userProfile == userProfile
    {
      AuthContextValue(currentUser, loading, userProfile)
    }

    /**
     * The `onAuthStateChanged` handler. `readOk` and `writeOk` are the
     * store's answers to the profile read and the profile write; the handler
     * has no error handling, so a failed call ends it before `loading` is
     * cleared.
     */
    method OnAuthStateChanged(user: Option<AuthUser>, db: DocumentStore, readOk: bool, writeOk: bool)
      requires db.Valid()
      modifies this, db
      ensures db.Valid() && db.items == old(db.items)
      ensures currentUser == user
      ensures user.None? ==> userProfile == None && !loading && db.users == old(db.users)
      ensures user.Some? && !readOk ==>
        userProfile == old(userProfile) && loading == old(loading) && db.users == old(db.users)
      ensures user.Some? && readOk && user.value.uid in old(db.users) ==>
        userProfile == Some(old(db.users)[user.value.uid]) && !loading && db.users == old(db.users)
      ensures user.Some? && readOk && user.value.uid !in old(db.users) && writeOk ==>
        && db.users == old(db.users)[user.value.uid := NewProfile(user.value)]
        && userProfile == Some(NewProfile(user.value)) && !loading
      ensures user.Some? && readOk && user.value.uid !in old(db.users) && !writeOk ==>
        userProfile == old(userProfile) && loading == old(loading) && db.users == old(db.users)
    {
      currentUser := user;
      if user.Some? {
        if !readOk {
          return;
        }
        var uid := user.value.uid;
        if uid in db.users {
          userProfile := Some(db.users[uid]);
        } else {
          var profile := NewProfile(user.value);
          var ok := db.SetUser(uid, profile, writeOk);
          if !ok {
            return;
          }
          userProfile := Some(profile);
        }
      } else {
        userProfile := None;
      }
      loading := false;
    }
  }
}
