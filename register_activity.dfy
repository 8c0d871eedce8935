/** `RegisterActivity`: validates the sign-up form and routes the outcome of
    account creation and the display-name update. */
module Registration {
  import opened JavaLang
  import opened Firebase

  const FillAllFields: string := "Please fill all fields"
  const PasswordTooShort: string := "Password must be at least 6 characters"
  const PasswordsDiffer: string := "Passwords do not match"
  /** Firebase's minimum password length, which the form enforces. */
  const MinPasswordLength: int := 6

  /** The four text fields as typed. */
  datatype RegistrationForm = RegistrationForm(username: string, email: string, password: string, confirmPassword: string)

  /** What the submit button does: show one of the three messages, or
      create an account from the trimmed username, email and password. */
  datatype Submission = Rejected(message: string) | CreateAccount(username: string, email: string, password: string)

  predicate AnyFieldBlank(f: RegistrationForm)
  {
    Trim(f.username) == [] || Trim(f.email) == [] || Trim(f.password) == [] || Trim(f.confirmPassword) == []
  }

  /** The submit listener: every field is trimmed, then the first failing
      check of "all filled", "at least 6 characters" and "confirmation
      matches" decides the message; an account is created only when all
      three pass. */
  function Submit(f: RegistrationForm): (s: Submission)
    ensures AnyFieldBlank(f) ==> s == Rejected(FillAllFields)
    ensures !AnyFieldBlank(f) && |Trim(f.password)| < MinPasswordLength ==> s == Rejected(PasswordTooShort)
    ensures !AnyFieldBlank(f) && |Trim(f.password)| >= MinPasswordLength && Trim(f.password) != Trim(f.confirmPassword) ==>
              s == Rejected(PasswordsDiffer)
    ensures s.CreateAccount? <==>
              !AnyFieldBlank(f) && |Trim(f.password)| >= MinPasswordLength && Trim(f.password) == Trim(f.confirmPassword)
    ensures s.CreateAccount? ==> s == CreateAccount(Trim(f.username), Trim(f.email), Trim(f.password))
  {
    var username := Trim(f.username);
    var email := Trim(f.email);
    var password := Trim(f.password);
    var confirmPassword := Trim(f.confirmPassword);
    if username == [] || email == [] || password == [] || confirmPassword == [] then Rejected(FillAllFields)
    else if |password| < MinPasswordLength then Rejected(PasswordTooShort)
    else if password != confirmPassword then Rejected(PasswordsDiffer)
    else CreateAccount(username, email, password)
  }

  function TrimmedForm(f: RegistrationForm): RegistrationForm
  {
    RegistrationForm(Trim(f.username), Trim(f.email), Trim(f.password), Trim(f.confirmPassword))
  }

  /** Surrounding white space never changes the decision: submitting the
      trimmed form gives the same outcome. */
  lemma SubmitIgnoresSurroundingSpace(f: RegistrationForm)
    ensures Submit(TrimmedForm(f)) == Submit(f)
  {
    TrimIdempotent(f.username);
    TrimIdempotent(f.email);
    TrimIdempotent(f.password);
    TrimIdempotent(f.confirmPassword);
  }

  /** An account is only ever requested with a non-blank username, an email
      and a password of at least six characters, none with surrounding
      white space. */
  lemma CreatedAccountsAreWellFormed(f: RegistrationForm)
    requires Submit(f).CreateAccount?
    ensures var s := Submit(f);
            && s.username != [] && s.email != [] && |s.password| >= MinPasswordLength
            && Trim(s.username) == s.username && Trim(s.email) == s.email && Trim(s.password) == s.password
  {
    TrimIdempotent(f.username);
    TrimIdempotent(f.email);
    TrimIdempotent(f.password);
  }

  /** The outcome of `createUserWithEmailAndPassword`: a failure with its
      exception message, or success with the signed-in user afterwards. */
  datatype CreateResult = CreateFailed(errorMessage: Option<string>) | Created(currentUser: Option<AuthUser>)

  /** What follows account creation: the toast, whether the login screen is
      opened, and the display name requested from `updateProfile`. */
  datatype Routing = Routing(toast: string, toLogin: bool, requestedDisplayName: Option<string>)

  /** `registerUser`'s listener and `updateUserProfile`. `profileUpdated` is
      the outcome of `updateProfile`, consulted only when it is called. */
  function AfterCreate(result: CreateResult, username: string, profileUpdated: bool): (r: Routing)
    ensures r.toLogin <==> result.Created?
    ensures result.CreateFailed? ==> r == Routing("Registration failed: " + Show(result.errorMessage), false, None)
    ensures result.Created? && result.currentUser.None? ==>
              r == Routing("Registration completed but user data issue.", true, None)
    ensures result.Created? && result.currentUser.Some? ==> r.requestedDisplayName == Some(username)
    ensures result.Created? && result.currentUser.Some? ==>
              r.toast == (if profileUpdated then "Registration successful!"
                          else "Registration successful, but failed to set username.")
  {
    match result
    case CreateFailed(message) => Routing("Registration failed: " + Show(message), false, None)
    case Created(user) =>
      if user.None? then Routing("Registration completed but user data issue.", true, None)
      else if profileUpdated then Routing("Registration successful!", true, Some(username))
      else Routing("Registration successful, but failed to set username.", true, Some(username))
  }
}
