/** `LoginActivity`: signs in with email and password and opens the profile
    screen under the user's display name. */
module Login {
  import opened JavaLang
  import opened Firebase
  import Profile

  const FallbackName: string := "Default User"
  const MissingInput: string := "Please enter both email and password"
  const AuthenticationFailed: string := "Authentication failed."

  /** The login button: sign in with the trimmed email and password, or
      report that one of them is missing. */
  datatype LoginAttempt = AskForBoth | SignIn(email: string, password: string)

  function CheckLoginInput(email: string, password: string): (a: LoginAttempt)
    ensures a.SignIn? <==> Trim(email) != [] && Trim(password) != []
    ensures a.SignIn? ==> a == SignIn(Trim(email), Trim(password))
  {
    var e := Trim(email);
    var p := Trim(password);
    if e == [] || p == [] then AskForBoth else SignIn(e, p)
  }

  /** `navigateToProfile`'s user name: the display name when it is non-null
      and non-empty, else "Default User" (also for a null user). */
  function ProfileName(user: Option<AuthUser>): (name: string)
    ensures name != []
    ensures user.Some? && HasText(user.value.displayName) ==> name == user.value.displayName.value
    ensures !(user.Some? && HasText(user.value.displayName)) ==> name == FallbackName
  {
    if user.Some? && HasText(user.value.displayName) then user.value.displayName.value else FallbackName
  }

  /** Every user without a usable display name lands on the same gallery
      key, while users with distinct display names get distinct keys. */
  lemma ProfileKeys(a: Option<AuthUser>, b: Option<AuthUser>)
    ensures !(a.Some? && HasText(a.value.displayName)) && !(b.Some? && HasText(b.value.displayName)) ==>
              Profile.StorageKey(ProfileName(a)) == Profile.StorageKey(ProfileName(b))
    ensures Profile.StorageKey(ProfileName(a)) == Profile.StorageKey(ProfileName(b)) ==> ProfileName(a) == ProfileName(b)
  {
    if Profile.StorageKey(ProfileName(a)) == Profile.StorageKey(ProfileName(b)) {
      Profile.StorageKeyInjective(ProfileName(a), ProfileName(b));
    }
  }

  /** `onStart`: an already signed-in user goes straight to the profile. */
  function OnStart(currentUser: Option<AuthUser>): (profile: Option<string>)
    ensures profile.Some? <==> currentUser.Some?
    ensures profile.Some? ==> profile.value == ProfileName(currentUser)
  {
    if currentUser.Some? then Some(ProfileName(currentUser)) else None
  }

  /** The sign-in listener: on success the profile screen opens for the
      user now signed in; on failure only a toast is shown. */
  function AfterSignIn(succeeded: bool, currentUser: Option<AuthUser>): (r: (Option<string>, Option<string>))
    ensures r.0.Some? <==> succeeded
    ensures succeeded ==> r == (Some(ProfileName(currentUser)), None)
    ensures !succeeded ==> r == (None, Some(AuthenticationFailed))
  {
    if succeeded then (Some(ProfileName(currentUser)), None) else (None, Some(AuthenticationFailed))
  }
}
