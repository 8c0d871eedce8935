/** What the app reads from the identity provider: the signed-in user. */
module Firebase {
  import opened JavaLang

  /** A `FirebaseUser`: its stable id and its (possibly unset) display name. */
  datatype AuthUser = AuthUser(uid: string, displayName: Option<string>)
}
