/** The user table of app/api/auth/routes.py: registration, password login,
    Google login, and the resolution of a bearer token to a user.

    bcrypt hashing and checking, JWT issuing and decoding, and Google ID-token
    verification are not interpreted: hashing, checking, issuing and decoding
    are function parameters, and Google verification is an outcome passed in. */
module Auth {
  import opened Common
  import opened Text

  /** A document of the `users` collection. `passwordHash` is absent for
      accounts created through Google, which carry `google: True` instead. */
  datatype User = User(id: string, email: string, passwordHash: Option<string>, google: bool)

  /** The body every successful login returns. */
  datatype TokenReply = TokenReply(accessToken: string, tokenType: string)

  /** What `id_token.verify_oauth2_token` does: raise, or return claims that
      may or may not carry an `email`. */
  datatype GoogleVerification = Rejected | Verified(email: Option<string>)

  /** What can be raised inside the `try` of `login_with_google`. */
  datatype Raised = HttpException(error: HttpError) | VerificationError

  const MissingFields := HttpError(400, "Email and password are required")
  const EmailTaken := HttpError(409, "Email already registered")
  const InvalidCredentials := HttpError(401, "Invalid credentials")
  const NotAuthenticated := HttpError(401, "Not authenticated")
  const InvalidToken := HttpError(401, "Invalid token")
  const UserNotFound := HttpError(401, "User not found")
  const MissingGoogleToken := HttpError(400, "Missing Google id_token or client id")
  const NoGoogleEmail := HttpError(400, "Google token has no email")
  const InvalidGoogleToken := HttpError(401, "Invalid Google token")

  function Bearer(token: string): TokenReply {
    TokenReply(token, "bearer")
  }

  /** The document `register` inserts. */
  function PasswordUser(email: string, hash: string): User {
    User(email, email, Some(hash), false)
  }

  /** The document `login_with_google` inserts. */
  function GoogleUser(email: string): User {
    User(email, email, None, true)
  }

  /** `find_one({"email": email})`: the first document with that email. */
  function FindByEmail(users: seq<User>, email: string): (r: Option<User>)
    ensures r.None? <==> forall i :: 0 <= i < |users| ==> users[i].email != email
    ensures r.Some? ==> exists i :: 0 <= i < |users| && users[i] == r.value && users[i].email == email &&
                                     forall j :: 0 <= j < i ==> users[j].email != email
  {
    if users == [] then None
    else if users[0].email == email then Some(users[0])
    else
      var r := FindByEmail(users[1..], email);
      assert r.Some? ==> exists i :: 1 <= i < |users| && users[i] == r.value && users[i].email == email &&
                                       forall j :: 0 <= j < i ==> users[j].email != email by {
        if r.Some? {
          var i :| 0 <= i < |users[1..]| && users[1..][i] == r.value && users[1..][i].email == email &&
                   forall j :: 0 <= j < i ==> users[1..][j].email != email;
          assert forall j :: 0 <= j < i + 1 ==> users[j].email != email by {
            forall j | 0 <= j < i + 1 ensures users[j].email != email {
              if j > 0 { assert users[j] == users[1..][j - 1]; }
            }
          }
        }
      }
      r
  }

  /** `find_one({"_id": id})`: the first document with that `_id`. */
  function FindById(users: seq<User>, id: string): (r: Option<User>)
    ensures r.None? <==> forall i :: 0 <= i < |users| ==> users[i].id != id
    ensures r.Some? ==> r.value in users && r.value.id == id
  {
    if users == [] then None
    else if users[0].id == id then Some(users[0])
    else FindById(users[1..], id)
  }

  /** `find_one({"_id": s}) or find_one({"email": s})`. */
  function Lookup(users: seq<User>, subject: string): (r: Option<User>)
    ensures r.None? <==> forall i :: 0 <= i < |users| ==> users[i].id != subject && users[i].email != subject
    ensures r.Some? ==> r.value in users && (r.value.id == subject || r.value.email == subject)
    ensures FindById(users, subject).Some? ==> r == FindById(users, subject)
  {
    match FindById(users, subject)
    case Some(u) => Some(u)
    case None => FindByEmail(users, subject)
  }

  /** The shape every table built by these handlers has: `_id` equals `email`,
      no email is empty, and no two documents share an email (hence an `_id`). */
  ghost predicate WellFormed(users: seq<User>) {
    (forall i :: 0 <= i < |users| ==> users[i].id == users[i].email && users[i].email != "") &&
    (forall i, j :: 0 <= i < j < |users| ==> users[i].email != users[j].email)
  }

  /** On such a table the `_id` lookup and the `email` lookup agree, so the
      fallback to `email` never finds a user the `_id` lookup missed. */
  lemma {:induction false} LookupIsEmailLookup(users: seq<User>, subject: string)
    requires WellFormed(users)
    ensures Lookup(users, subject) == FindByEmail(users, subject)
    ensures Lookup(users, subject) == FindById(users, subject)
  {
    if users != [] && users[0].id != subject {
      assert WellFormed(users[1..]);
      LookupIsEmailLookup(users[1..], subject);
    }
  }

  /** `get_current_user`: 401 "Not authenticated" without credentials, 401
      "Invalid token" when the token decodes to no subject, 401 "User not
      found" when neither `_id` nor `email` matches the subject. */
  function CurrentUser(users: seq<User>, credentials: Option<string>,
                       decode: string -> Option<string>): (r: Result<User, HttpError>)
    ensures r.Err? ==> r.error.status == 401
    ensures credentials.None? ==> r == Err(NotAuthenticated)
    ensures credentials.Some? && !Truthy(decode(credentials.value)) ==> r == Err(InvalidToken)
    ensures credentials.Some? && Truthy(decode(credentials.value)) ==>
      var subject := decode(credentials.value).value;
      && (r.Err? <==> forall i :: 0 <= i < |users| ==> users[i].id != subject && users[i].email != subject)
      && (r.Err? ==> r.error == UserNotFound)
      && (r.Ok? ==> r.value in users && (r.value.id == subject || r.value.email == subject))
  {
    if credentials.None? then Err(NotAuthenticated)
    else
      var subject := decode(credentials.value);
      if !Truthy(subject) then Err(InvalidToken)
      else
        match Lookup(users, subject.value)
        case None => Err(UserNotFound)
        case Some(u) => Ok(u)
  }

  /** `get_current_user_optional`: never raises; it yields the user exactly
      when `get_current_user` would, and None wherever that one raises. */
  function CurrentUserOptional(users: seq<User>, credentials: Option<string>,
                               decode: string -> Option<string>): (r: Option<User>)
    ensures r.Some? <==> CurrentUser(users, credentials, decode).Ok?
    ensures r.Some? ==> r.value == CurrentUser(users, credentials, decode).value
  {
    if credentials.None? then None
    else
      var subject := decode(credentials.value);
      if !Truthy(subject) then None
      else Lookup(users, subject.value)
  }

  /** `login`: the first user with the normalised email, if its stored hash
      (or "" for an account without one) checks against the password (or ""). */
  function Login(users: seq<User>, rawEmail: Option<string>, password: Option<string>,
                 verify: (string, string) -> bool, issue: string -> string): (r: Result<TokenReply, HttpError>)
    ensures r.Err? ==> r.error == InvalidCredentials
    ensures r.Ok? ==> r.value == Bearer(issue(Normalize(rawEmail)))
    ensures r.Ok? ==> exists i :: 0 <= i < |users| && users[i].email == Normalize(rawEmail) &&
                                  verify(password.GetOr(""), users[i].passwordHash.GetOr(""))
    ensures (forall i :: 0 <= i < |users| ==> users[i].email != Normalize(rawEmail)) ==> r == Err(InvalidCredentials)
  {
    var email := Normalize(rawEmail);
    match FindByEmail(users, email)
    case None => Err(InvalidCredentials)
    case Some(u) =>
      if !verify(password.GetOr(""), u.passwordHash.GetOr("")) then Err(InvalidCredentials)
      else Ok(Bearer(issue(email)))
  }

  /** A wrong password for an existing password account gets the very error an
      unknown email gets, so for such accounts the reply does not reveal that
      the email is registered. */
  lemma WrongPasswordLooksLikeUnknownEmail(users: seq<User>, rawEmail: Option<string>, password: Option<string>,
                                           verify: (string, string) -> bool, issue: string -> string, k: nat)
    requires WellFormed(users)
    requires k < |users| && users[k].email == Normalize(rawEmail) && users[k].passwordHash.Some?
    requires !verify(password.GetOr(""), users[k].passwordHash.GetOr(""))
    ensures Login(users, rawEmail, password, verify, issue) == Err(InvalidCredentials)
  {
    var u := FindByEmail(users, Normalize(rawEmail));
    assert u == Some(users[k]);
  }

  /** Once a password account exists, logging in with its password succeeds,
      whatever the letter case and surrounding whitespace of the email typed,
      provided the password check accepts the hash the account stores. */
  lemma RegisteredUserCanLogin(users: seq<User>, k: nat, s: string, p: string, q: string,
                               password: string, verify: (string, string) -> bool, issue: string -> string)
    requires WellFormed(users)
    requires k < |users| && users[k].passwordHash.Some?
    requires users[k].email == Normalize(Some(s)) && AllSpace(p) && AllSpace(q)
    requires verify(password, users[k].passwordHash.value)
    ensures Login(users, Some(p + s + q), Some(password), verify, issue) == Ok(Bearer(issue(users[k].email)))
  {
    NormalizeIgnoresCaseAndPadding(s, s, p, q);
    var u := FindByEmail(users, Normalize(Some(p + s + q)));
    assert u == Some(users[k]);
  }

  /** The body of the `try` in `login_with_google`, up to the table lookup, as
      it would end without the `except`: a failed verification raises, and a
      token without an email raises HTTPException(400). */
  function GoogleTry(v: GoogleVerification): (r: Result<string, Raised>)
    ensures r.Ok? <==> v.Verified? && Lower(v.email.GetOr("")) != ""
    ensures v.Rejected? ==> r == Err(VerificationError)
    ensures v.Verified? && Lower(v.email.GetOr("")) == "" ==> r == Err(HttpException(NoGoogleEmail))
    ensures r.Ok? ==> r.value == Lower(v.email.value)
  {
    match v
    case Rejected => Err(VerificationError)
    case Verified(claim) =>
      var email := Lower(claim.GetOr(""));
      if email == "" then Err(HttpException(NoGoogleEmail)) else Ok(email)
  }

  /** The same with the `except Exception` around it: everything raised,
      including the HTTPException(400) for a missing email, becomes 401. */
  function GoogleIdentity(v: GoogleVerification): (r: Result<string, HttpError>)
    ensures r.Err? ==> r.error == InvalidGoogleToken
    ensures r.Ok? <==> v.Verified? && Lower(v.email.GetOr("")) != ""
    ensures r.Ok? ==> r.value == Lower(v.email.value)
  {
    match GoogleTry(v)
    case Ok(email) => Ok(email)
    case Err(_) => Err(InvalidGoogleToken)
  }

  /** A verified Google token without an email raises 400 inside the `try`,
      yet the caller sees 401. */
  lemma NoGoogleEmailIsUnauthorized(claim: Option<string>)
    requires Lower(claim.GetOr("")) == ""
    ensures GoogleTry(Verified(claim)) == Err(HttpException(NoGoogleEmail))
    ensures GoogleIdentity(Verified(claim)) == Err(InvalidGoogleToken)
  {
  }

  /** The `users` collection. */
  class UserStore {
    /** The documents, in insertion (natural) order. */
    var users: seq<User>

    ghost predicate Valid()
      reads this
    {
      WellFormed(users)
    }

    constructor ()
      ensures Valid() && users == []
    {
      users := [];
    }

    /** `register`: 400 for a blank email or a missing password, 409 for an
        email already present, otherwise insert one password account and
        return a bearer token for the normalised email. */
    method Register(rawEmail: Option<string>, password: Option<string>,
                    hash: string -> string, issue: string -> string) returns (r: Result<TokenReply, HttpError>)
      requires Valid()
      modifies this
      ensures Valid()
      ensures Normalize(rawEmail) == "" || !Truthy(password) ==>
        r == Err(MissingFields) && users == old(users)
      ensures Normalize(rawEmail) != "" && Truthy(password) && FindByEmail(old(users), Normalize(rawEmail)).Some? ==>
        r == Err(EmailTaken) && users == old(users)
      ensures Normalize(rawEmail) != "" && Truthy(password) && FindByEmail(old(users), Normalize(rawEmail)).None? ==>
        && r == Ok(Bearer(issue(Normalize(rawEmail))))
        && users == old(users) + [PasswordUser(Normalize(rawEmail), hash(password.value))]
        && forall i :: 0 <= i < |old(users)| ==> old(users)[i].id != Normalize(rawEmail)
    {
      var email := Normalize(rawEmail);
      if email == "" || !Truthy(password) {
        return Err(MissingFields);
      }
      if FindByEmail(users, email).Some? {
        return Err(EmailTaken);
      }
      users := users + [PasswordUser(email, hash(password.value))];
      r := Ok(Bearer(issue(email)));
    }

    /** `login_with_google`: 400 before any verification when the token or the
        client id is missing; 401 for every failure after that; otherwise
        insert a Google account unless the lower-cased email already has one,
        and return a bearer token for it. */
    method LoginWithGoogle(idToken: Option<string>, clientId: Option<string>,
                           verification: GoogleVerification, issue: string -> string)
      returns (r: Result<TokenReply, HttpError>)
      requires Valid()
      modifies this
      ensures Valid()
      ensures !Truthy(idToken) || !Truthy(clientId) ==> r == Err(MissingGoogleToken) && users == old(users)
      ensures Truthy(idToken) && Truthy(clientId) && GoogleIdentity(verification).Err? ==>
        r == Err(InvalidGoogleToken) && users == old(users)
      ensures Truthy(idToken) && Truthy(clientId) && GoogleIdentity(verification).Ok? ==>
        var email := GoogleIdentity(verification).value;
        && r == Ok(Bearer(issue(email)))
        && users == (if FindByEmail(old(users), email).Some? then old(users) else old(users) + [GoogleUser(email)])
        && (users != old(users) ==> forall i :: 0 <= i < |old(users)| ==> old(users)[i].id != email)
    {
      if !Truthy(idToken) || !Truthy(clientId) {
        return Err(MissingGoogleToken);
      }
      match GoogleIdentity(verification)
      case Err(e) =>
        r := Err(e);
      case Ok(email) =>
        if FindByEmail(users, email).None? {
          users := users + [GoogleUser(email)];
        }
        r := Ok(Bearer(issue(email)));
    }
  }
}
