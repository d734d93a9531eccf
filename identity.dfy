/** The signed-in identity and the stored user profile (src/contexts/AuthContext.tsx). */
module Identity {
  import opened Wrappers

  /** The identity provider's user; its optional claims may be missing or empty. */
  datatype AuthUser = AuthUser(
    uid: string,
    displayName: Option<string>,
    email: Option<string>,
    photoURL: Option<string>,
    phoneNumber: Option<string>)

  /** The profile document kept in the `users` collection under `uid`. */
  datatype UserProfile = UserProfile(
    uid: string,
    displayName: string,
    email: string,
    photoURL: Option<string>,
    phoneNumber: Option<string>)

  /** JavaScript truthiness of an optional string: present and non-empty. */
  predicate Truthy(o: Option<string>) {
    o.Some? && o.value != ""
  }

  /** Where a visitor without a session is sent to sign in. */
  const LoginRoute := "/login"
}
