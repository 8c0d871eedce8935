/** `SettingsActivity`: the theme and notification switches kept in shared
    preferences, and the profile form that changes bio and username. */
module Settings {
  import opened JavaLang
  import opened Firebase

  /** The boolean entries of the "AppSettings" preferences file. */
  type Preferences = map<string, bool>

  const DarkModeKey: string := "darkMode"
  const NotificationsKey: string := "notifications"

  /** `getBoolean(key, default)`. */
  function GetBoolean(prefs: Preferences, key: string, default: bool): (b: bool)
    ensures key !in prefs ==> b == default
    ensures key in prefs ==> b == prefs[key]
  {
    if key in prefs then prefs[key] else default
  }

  /** The switches' initial states: dark mode off and notifications on
      unless stored otherwise. */
  function DarkModeOn(prefs: Preferences): bool
  {
    GetBoolean(prefs, DarkModeKey, false)
  }

  function NotificationsOn(prefs: Preferences): bool
  {
    GetBoolean(prefs, NotificationsKey, true)
  }

  /** `updateNotificationsText`. */
  function NotificationsText(enabled: bool): (text: string)
    ensures text == "Disable Notifications" <==> enabled
    ensures text == "Enable Notifications" <==> !enabled
  {
    if enabled then "Disable Notifications" else "Enable Notifications"
  }

  /** A switch listener's `putBoolean(key, isChecked)`. */
  function PutBoolean(prefs: Preferences, key: string, value: bool): (p: Preferences)
    ensures GetBoolean(p, key, !value) == value
    ensures forall k :: k != key ==> (k in p <==> k in prefs) && (k in prefs ==> p[k] == prefs[k])
  {
    prefs[key := value]
  }

  /** With nothing stored, dark mode is off, notifications are on, and the
      switch offers to disable them. */
  lemma FreshInstallDefaults()
    ensures !DarkModeOn(map[])
    ensures NotificationsOn(map[])
    ensures NotificationsText(NotificationsOn(map[])) == "Disable Notifications"
  {
  }

  /** A change of one switch is what the next screen reads for that switch,
      and leaves the other switch as it was. */
  lemma SwitchesAreIndependent(prefs: Preferences, isChecked: bool)
    ensures DarkModeOn(PutBoolean(prefs, DarkModeKey, isChecked)) == isChecked
    ensures NotificationsOn(PutBoolean(prefs, DarkModeKey, isChecked)) == NotificationsOn(prefs)
    ensures NotificationsOn(PutBoolean(prefs, NotificationsKey, isChecked)) == isChecked
    ensures DarkModeOn(PutBoolean(prefs, NotificationsKey, isChecked)) == DarkModeOn(prefs)
  {
    assert DarkModeKey != NotificationsKey by { assert DarkModeKey[0] != NotificationsKey[0]; }
  }

  /** The result of the uniqueness query on the new username: it failed, or
      it found that many users already having the name. */
  datatype UsernameLookup = LookupFailed | Found(matches: nat)

  /** What the submit button leads to. */
  datatype ProfileDecision =
    | NoSignedInUser
    | UsernameEmpty       // "Username cannot be empty" on the field
    | UsernameTaken       // "Username is already taken" on the field
    | LookupError         // "Error checking username availability"
    | ApplyUpdate(bio: string, username: string)

  /** The query is only made when the trimmed username differs from the
      current display name (a null display name always differs). */
  predicate NeedsLookup(user: AuthUser, usernameInput: string)
  {
    user.displayName != Some(Trim(usernameInput))
  }

  /** `updateUserProfile`. `lookup` is the query's result, consulted only
      when the query is made. */
  function DecideProfileUpdate(user: Option<AuthUser>, bioInput: string, usernameInput: string,
                               lookup: UsernameLookup): (d: ProfileDecision)
    ensures user.None? <==> d == NoSignedInUser
    ensures user.Some? && Trim(usernameInput) == [] <==> d == UsernameEmpty
    ensures d.ApplyUpdate? ==> d == ApplyUpdate(Trim(bioInput), Trim(usernameInput)) && d.username != []
    ensures user.Some? && Trim(usernameInput) != [] && !NeedsLookup(user.value, usernameInput) ==>
              d == ApplyUpdate(Trim(bioInput), Trim(usernameInput))
    ensures d == UsernameTaken <==>
              user.Some? && Trim(usernameInput) != [] && NeedsLookup(user.value, usernameInput)
              && lookup.Found? && lookup.matches > 0
    ensures d == LookupError <==>
              user.Some? && Trim(usernameInput) != [] && NeedsLookup(user.value, usernameInput) && lookup.LookupFailed?
  {
    if user.None? then NoSignedInUser
    else
      var newBio := Trim(bioInput);
      var newUsername := Trim(usernameInput);
      if newUsername == [] then UsernameEmpty
      else if NeedsLookup(user.value, usernameInput) then
        match lookup
        case LookupFailed => LookupError
        case Found(n) => if n > 0 then UsernameTaken else ApplyUpdate(newBio, newUsername)
      else ApplyUpdate(newBio, newUsername)
  }

  /** Keeping one's own name never depends on the query. */
  lemma UnchangedNameIgnoresLookup(user: AuthUser, bioInput: string, usernameInput: string,
                                   a: UsernameLookup, b: UsernameLookup)
    requires !NeedsLookup(user, usernameInput)
    ensures DecideProfileUpdate(Some(user), bioInput, usernameInput, a)
            == DecideProfileUpdate(Some(user), bioInput, usernameInput, b)
  {
  }

  /** A changed name is applied only when the query succeeded and found no
      user with it. */
  lemma ChangedNameNeedsFreeName(user: AuthUser, bioInput: string, usernameInput: string, lookup: UsernameLookup)
    requires NeedsLookup(user, usernameInput)
    requires DecideProfileUpdate(Some(user), bioInput, usernameInput, lookup).ApplyUpdate?
    ensures lookup == Found(0)
  {
    var d := DecideProfileUpdate(Some(user), bioInput, usernameInput, lookup);
    assert d != LookupError && d != UsernameTaken;
  }

  /** `updateUserData`'s listeners: the toast and the username the profile
      screen is reopened with. `storeUpdated` is the outcome of the document
      update, which is only attempted after the display name was set. */
  function AfterUserDataUpdate(profileUpdated: bool, storeUpdated: bool, username: string): (r: (string, Option<string>))
    ensures r.1.Some? <==> profileUpdated && storeUpdated
    ensures r.1.Some? ==> r == ("Profile updated successfully", Some(username))
    ensures r.1.None? ==> r.0 == "Error updating profile"
  {
    if profileUpdated && storeUpdated then ("Profile updated successfully", Some(username))
    else ("Error updating profile", None)
  }
}
