/** The account flows of frontend/lib/auth.ts: Firebase error codes turned
    into messages, the request wrapper that throws them, the sign-up and
    log-in sequences and the browser storage entry for the logged-in user.
    Every HTTP response is a parameter; the JSON encoding of the stored user
    is the parameter `dump`. A thrown error is an `Err`. */
module Auth {
  import opened Wrappers
  import opened Text
  import opened Types

  // ---------------------------------------------------------------- error codes

  const EmailExists := "EMAIL_EXISTS"
  const InvalidEmail := "INVALID_EMAIL"
  const InvalidPassword := "INVALID_PASSWORD"
  const UserDisabled := "USER_DISABLED"
  const EmailNotFound := "EMAIL_NOT_FOUND"
  const WeakPassword := "WEAK_PASSWORD"
  const WeakPasswordLong := "WEAK_PASSWORD : Password should be at least 6 characters"

  const EmailExistsMessage := "An account with this email already exists."
  const InvalidEmailMessage := "The email address is invalid."
  const InvalidPasswordMessage := "The password is incorrect."
  const UserDisabledMessage := "This account has been disabled."
  const EmailNotFoundMessage := "No account found with this email."
  const WeakPasswordMessage := "Password should be at least 6 characters long."

  /** The fixed message of a code the switch names, if it names it (auth.ts:65-78). */
  function KnownMessage(code: string): Option<string> {
    if code == EmailExists then Some(EmailExistsMessage)
    else if code == InvalidEmail then Some(InvalidEmailMessage)
    else if code == InvalidPassword then Some(InvalidPasswordMessage)
    else if code == UserDisabled then Some(UserDisabledMessage)
    else if code == EmailNotFound then Some(EmailNotFoundMessage)
    else if code == WeakPasswordLong || code == WeakPassword then Some(WeakPasswordMessage)
    else None
  }

  /** An absent or empty value (JavaScript falsy for an optional string). */
  predicate Falsy(v: Option<string>) {
    v.None? || v.value == ""
  }

  /** mapFirebaseError (auth.ts:64-82). */
  function MapFirebaseError(code: Option<string>): (r: Option<string>)
    ensures Falsy(code) <==> r.None?
    ensures !Falsy(code) && KnownMessage(code.value).Some? ==> r == KnownMessage(code.value)
    ensures !Falsy(code) && KnownMessage(code.value).None? ==> r == Some(Lower(ReplaceChar(code.value, '_', ' ')))
  {
    if code.Some? && KnownMessage(code.value).Some? then KnownMessage(code.value)
    else if !Falsy(code) then Some(Lower(ReplaceChar(code.value, '_', ' ')))
    else None
  }

  /** Each code the switch names has its own message, and both spellings of
      the weak-password code share one (auth.ts:65-78). */
  lemma KnownCodes()
    ensures MapFirebaseError(Some(EmailExists)) == Some(EmailExistsMessage)
    ensures MapFirebaseError(Some(InvalidEmail)) == Some(InvalidEmailMessage)
    ensures MapFirebaseError(Some(InvalidPassword)) == Some(InvalidPasswordMessage)
    ensures MapFirebaseError(Some(UserDisabled)) == Some(UserDisabledMessage)
    ensures MapFirebaseError(Some(EmailNotFound)) == Some(EmailNotFoundMessage)
    ensures MapFirebaseError(Some(WeakPassword)) == Some(WeakPasswordMessage)
    ensures MapFirebaseError(Some(WeakPasswordLong)) == Some(WeakPasswordMessage)
  {
    KnownCode(EmailExists, EmailExistsMessage);
    KnownCode(InvalidEmail, InvalidEmailMessage);
    KnownCode(InvalidPassword, InvalidPasswordMessage);
    KnownCode(UserDisabled, UserDisabledMessage);
    KnownCode(EmailNotFound, EmailNotFoundMessage);
    KnownCode(WeakPassword, WeakPasswordMessage);
    KnownCode(WeakPasswordLong, WeakPasswordMessage);
  }

  lemma KnownCode(code: string, message: string)
    requires KnownMessage(code) == Some(message)
    ensures MapFirebaseError(Some(code)) == Some(message)
  {
  }

  /** No fixed message is empty or the generic failure message. */
  lemma KnownMessageIsNoFallback(code: string)
    ensures KnownMessage(code).Some? ==> KnownMessage(code).value != "" && KnownMessage(code).value != RequestFailed
  {
    assert EmailExistsMessage != RequestFailed;
  }

  /** The message of an unknown code keeps its length, has a blank wherever the
      code has an underscore, and holds neither underscores nor capital letters. */
  lemma UnknownCodeMessage(code: string)
    requires code != "" && KnownMessage(code).None?
    ensures var m := MapFirebaseError(Some(code)).value;
      && |m| == |code|
      && (forall i :: 0 <= i < |code| ==> (code[i] == '_' <==> m[i] == ' ') || code[i] == ' ')
      && (forall i :: 0 <= i < |m| ==> m[i] != '_' && !('A' <= m[i] <= 'Z'))
  {
  }

  const RequestFailed := "Firebase request failed. Please try again."
  const ApiKeyMissing := "Firebase web API key is not configured. Please set NEXT_PUBLIC_FIREBASE_API_KEY."

  /** The message a failed request throws (auth.ts:94-98). */
  function FailureMessage(code: Option<string>): (r: string)
    ensures r != ""
    ensures Falsy(code) ==> r == RequestFailed
  {
    match MapFirebaseError(code)
    case Some(m) => if m != "" then m else RequestFailed
    case None => RequestFailed
  }

  /** A failed request throws the generic message exactly when its code maps to
      nothing: no mapped message is the generic one. */
  lemma {:induction false} FailureMessageFallback(code: Option<string>)
    ensures FailureMessage(code) != ""
    ensures FailureMessage(code) == RequestFailed <==> MapFirebaseError(code).None?
  {
    if !Falsy(code) {
      var m := MapFirebaseError(code).value;
      if KnownMessage(code.value).None? {
        assert m[0] == LowerChar(ReplaceChar(code.value, '_', ' ')[0]);
        assert m[0] != RequestFailed[0];
      } else {
        KnownMessageIsNoFallback(code.value);
      }
    }
  }

  /** What the authentication service answers: the data of a successful
      request, the `error.message` code of a failed one (possibly absent), or
      the error `fetch` or `response.json()` throws before the status is tested
      (a network failure, a body that is not JSON), with its own message. */
  datatype FirebaseResponse<T> = Success(data: T) | Failure(errorCode: Option<string>) | Thrown(message: string)

  /** firebaseRequest (auth.ts:84-101), with ensureApiKey (55-62) in front of it. */
  function FirebaseRequest<T>(apiKey: Option<string>, response: FirebaseResponse<T>): (r: Result<T, string>)
    ensures Falsy(apiKey) ==> r == Err(ApiKeyMissing)
    ensures !Falsy(apiKey) ==> (r.Ok? <==> response.Success?)
    ensures !Falsy(apiKey) && response.Success? ==> r.value == response.data
    ensures !Falsy(apiKey) && response.Failure? ==> r.error == FailureMessage(response.errorCode)
    ensures !Falsy(apiKey) && response.Thrown? ==> r.error == response.message
  {
    if Falsy(apiKey) then Err(ApiKeyMissing)
    else match response
      case Success(data) => Ok(data)
      case Failure(code) => Err(FailureMessage(code))
      case Thrown(message) => Err(message)
  }

  // ---------------------------------------------------------------- sign-up

  datatype SignupForm = SignupForm(email: string, password: string, name: string, age: string, gender: string)
  datatype SignupData = SignupData(localId: string, email: string, idToken: string)
  datatype SignupResult = SignupResult(uid: string, email: string)

  /** The profile sent to the user database (the parameters of syncUserProfile). */
  datatype ProfileSync = ProfileSync(uid: string, email: string, name: Option<string>,
                                     age: Option<ParsedInt>, gender: Option<string>, emailVerified: bool)

  const VerificationSendFailed := "Failed to send verification email. Please try again."

  /** The age sent at sign-up: `parseInt` of the form field when it is filled in (auth.ts:156). */
  function SignupAge(age: string): (r: Option<ParsedInt>)
    ensures r.None? <==> age == ""
  {
    if age != "" then Some(ParseInt(age)) else None
  }

  /** An age typed as a decimal number is sent as that number. */
  lemma SignupAgeOfNumber(n: int)
    ensures SignupAge(IntToString(n)) == Some(Int(n))
  {
    ParseIntOfIntToString(n);
  }

  /** The profile signup stores for a new account (auth.ts:152-159). */
  function SignupProfile(form: SignupForm, data: SignupData): (p: ProfileSync)
    ensures p.uid == data.localId && p.email == data.email && p.name == Some(form.name)
    ensures p.age == SignupAge(form.age)
    ensures p.gender.None? <==> form.gender == ""
    ensures p.gender.Some? ==> p.gender.value == form.gender
    ensures !p.emailVerified
  {
    ProfileSync(data.localId, data.email, Some(form.name), SignupAge(form.age),
                if form.gender != "" then Some(form.gender) else None, false)
  }

  /** signup (auth.ts:134-172): the account request, then the verification
      e-mail request; the new account's id and e-mail once both succeed. */
  function Signup(apiKey: Option<string>, signUp: FirebaseResponse<SignupData>,
                  sendVerification: FirebaseResponse<()>): (r: Result<SignupResult, string>)
    ensures r.Ok? <==> FirebaseRequest(apiKey, signUp).Ok? && FirebaseRequest(apiKey, sendVerification).Ok?
    ensures FirebaseRequest(apiKey, signUp).Err? ==> r == Err(FirebaseRequest(apiKey, signUp).error)
    ensures FirebaseRequest(apiKey, signUp).Ok? && FirebaseRequest(apiKey, sendVerification).Err? ==>
      r == Err(VerificationSendFailed)
    ensures r.Ok? ==> r.value == SignupResult(signUp.data.localId, signUp.data.email)
  {
    match FirebaseRequest(apiKey, signUp)
    case Err(m) => Err(m)
    case Ok(data) =>
      match FirebaseRequest(apiKey, sendVerification)
      case Err(_) => Err(VerificationSendFailed)
      case Ok(_) => Ok(SignupResult(data.localId, data.email))
  }

  // ---------------------------------------------------------------- log-in

  datatype SignInData = SignInData(localId: string, email: string, idToken: string)

  /** One entry of the account lookup's `users`. */
  datatype AccountUser = AccountUser(localId: string, email: Option<string>, emailVerified: Option<bool>,
                                     displayName: Option<string>)

  /** The error a failed log-in throws: its message and, for the verification gate, its code. */
  datatype AuthError = AuthError(message: string, code: Option<string>)

  const UserInfoMissing := "Unable to retrieve user information."
  const VerifyEmailMessage := "Please verify your email address. We have sent a new verification link to your inbox."
  const EmailNotVerified := "EMAIL_NOT_VERIFIED"
  const UserKey := "curez_user"

  /** The first value that is present and non-empty, else the second (JavaScript `a || b`). */
  function OrElse(a: Option<string>, b: Option<string>): Option<string> {
    if !Falsy(a) then a else b
  }

  /** The user record login builds (auth.ts:223-229) from the account, the e-mail
      typed in and the database profile (None when it could not be loaded). */
  function MergedUser(account: AccountUser, email: string, profile: Option<User>): (u: User)
    ensures u.uid == account.localId
    ensures u.email == if Falsy(account.email) then email else account.email.value
    ensures u.age == (if profile.Some? then profile.value.age else None)
    ensures u.gender == (if profile.Some? then profile.value.gender else None)
  {
    var profileName := if profile.Some? then profile.value.name else None;
    var name := OrElse(profileName, account.displayName);
    User(account.localId, if Falsy(account.email) then email else account.email.value,
         if Falsy(name) then None else name,
         if profile.Some? then profile.value.age else None,
         if profile.Some? then profile.value.gender else None)
  }

  /** The stored name is the profile's, else the account's display name, and
      never empty; it is absent only when neither is given. */
  lemma MergedUserName(account: AccountUser, email: string, profile: Option<User>)
    ensures var u := MergedUser(account, email, profile);
      var profileName := if profile.Some? then profile.value.name else None;
      && (u.name.Some? ==> u.name.value != "")
      && (!Falsy(profileName) ==> u.name == profileName)
      && (Falsy(profileName) ==> u.name == (if Falsy(account.displayName) then None else account.displayName))
      && (u.name.None? <==> Falsy(profileName) && Falsy(account.displayName))
      && (email != "" ==> u.email != "")
  {
  }

  /** The result of login (auth.ts:174-240), given every answer it waits for:
      sign-in, account lookup (`users` may be absent) and the profile. */
  function LoginOutcome(apiKey: Option<string>, email: string, signIn: FirebaseResponse<SignInData>,
                        lookup: FirebaseResponse<Option<seq<AccountUser>>>, profile: Option<User>): (r: Result<User, AuthError>)
    ensures Falsy(apiKey) ==> r == Err(AuthError(ApiKeyMissing, None))
    ensures r.Err? && r.error.code.Some? ==> r.error.code == Some(EmailNotVerified) && r.error.message == VerifyEmailMessage
    ensures r.Ok? ==> signIn.Success? && lookup.Success?
    ensures !Falsy(apiKey) && signIn.Thrown? ==> r == Err(AuthError(signIn.message, None))
    ensures !Falsy(apiKey) && signIn.Success? && lookup.Thrown? ==> r == Err(AuthError(lookup.message, None))
  {
    match FirebaseRequest(apiKey, signIn)
    case Err(m) => Err(AuthError(m, None))
    case Ok(_) =>
      match FirebaseRequest(apiKey, lookup)
      case Err(m) => Err(AuthError(m, None))
      case Ok(users) =>
        if users.None? || users.value == [] then Err(AuthError(UserInfoMissing, None))
        else
          var account := users.value[0];
          if account.emailVerified != Some(true) then Err(AuthError(VerifyEmailMessage, Some(EmailNotVerified)))
          else Ok(MergedUser(account, email, profile))
  }

  /** The verification gate: a log-in succeeds only for a verified first account,
      and an unverified one fails with code EMAIL_NOT_VERIFIED. */
  lemma LoginVerificationGate(apiKey: Option<string>, email: string, signIn: FirebaseResponse<SignInData>,
                              lookup: FirebaseResponse<Option<seq<AccountUser>>>, profile: Option<User>)
    ensures var r := LoginOutcome(apiKey, email, signIn, lookup, profile);
      && (r.Ok? <==>
            && FirebaseRequest(apiKey, signIn).Ok? && FirebaseRequest(apiKey, lookup).Ok?
            && lookup.data.Some? && lookup.data.value != [] && lookup.data.value[0].emailVerified == Some(true))
      && (r.Ok? ==> r.value == MergedUser(lookup.data.value[0], email, profile))
      && (r.Err? && r.error.code == Some(EmailNotVerified) <==>
            && FirebaseRequest(apiKey, signIn).Ok? && FirebaseRequest(apiKey, lookup).Ok?
            && lookup.data.Some? && lookup.data.value != [] && lookup.data.value[0].emailVerified != Some(true))
  {
  }

  /** The browser's localStorage. */
  class Storage {
    var entries: map<string, string>

    constructor ()
      ensures entries == map[]
    {
      entries := map[];
    }

    /** login's steps: the user is stored under "curez_user" only when the
        log-in succeeds; a failed one leaves storage as it was. */
    method Login(apiKey: Option<string>, email: string, signIn: FirebaseResponse<SignInData>,
                 lookup: FirebaseResponse<Option<seq<AccountUser>>>, profile: Option<User>,
                 dump: User -> string)
      returns (r: Result<User, AuthError>)
      modifies this
      ensures r == LoginOutcome(apiKey, email, signIn, lookup, profile)
      ensures r.Err? ==> entries == old(entries)
      ensures r.Ok? ==> entries == old(entries)[UserKey := dump(r.value)]
    {
      var signedIn := FirebaseRequest(apiKey, signIn);
      if signedIn.Err? {
        return Err(AuthError(signedIn.error, None));
      }
      var accountInfo := FirebaseRequest(apiKey, lookup);
      if accountInfo.Err? {
        return Err(AuthError(accountInfo.error, None));
      }
      if accountInfo.value.None? || accountInfo.value.value == [] {
        return Err(AuthError(UserInfoMissing, None));
      }
      var account := accountInfo.value.value[0];
      if account.emailVerified != Some(true) {
        return Err(AuthError(VerifyEmailMessage, Some(EmailNotVerified)));
      }
      var user := MergedUser(account, email, profile);
      entries := entries[UserKey := dump(user)];
      r := Ok(user);
    }

    /** logout (auth.ts:280-282). */
    method Logout()
      modifies this
      ensures entries == old(entries) - {UserKey}
      ensures UserKey !in entries
    {
      entries := entries - {UserKey};
    }
  }
}
