/** `generateToken`: the session token signs the user's id and profile type
    with `JWT_SECRET` for one day, and cannot be made without a secret.
    Signing itself is a parameter. */
module Tokens {
  import opened Wrappers
  import opened Ids

  datatype TokenPayload = TokenPayload(id: Id, profile_type: string)

  /** `jwt.sign(payload, secret, { expiresIn })`. */
  type Signer = (TokenPayload, string, string) -> string

  const ExpiresIn := "1d"

  /** An environment value JavaScript treats as true: set and not empty. */
  predicate IsSet(v: Option<string>)
  {
    v.Some? && v.value != ""
  }

  /** `None` is the configuration error `generateToken` throws. */
  function GenerateToken(id: Id, profileType: string, secret: Option<string>, sign: Signer): (r: Option<string>)
    ensures r.Some? <==> IsSet(secret)
    ensures r.Some? ==> r.value == sign(TokenPayload(id, profileType), secret.value, ExpiresIn)
  {
    if IsSet(secret) then Some(sign(TokenPayload(id, profileType), secret.value, ExpiresIn)) else None
  }
}

/** `registerUser`, `loginUser` and `logoutUser`. Hashing, its check and
    signing are parameters; a thrown error is the 500 reply of the
    handler's `catch`. */
module AuthController {
  import opened Wrappers
  import opened Ids
  import Strings
  import opened Http
  import opened UserModel
  import opened Database
  import opened Tokens

  const BadProfileType := "A valid 'profile_type' (adopter or seller) is required."
  const EmailExists := "A user with this email already exists. Please log in."
  const Registered := "User registered successfully."
  const RegisterError := "Server error during user registration."
  const InvalidCredentials := "Invalid credentials."
  const LoggedIn := "Logged in successfully."
  const LoginError := "Server error during login."
  const LoggedOut := "User logged out successfully."

  datatype RegisterBody = RegisterBody(
    name: Option<string>, email: Option<string>, password: Option<string>, contact: Option<string>,
    city: Option<string>, state: Option<string>, country: Option<string>, profile_type: Option<string>)

  datatype LoginBody = LoginBody(email: Option<string>, password: Option<string>)

  /** `{ message, token?, user: { id, name, email, profile_type } }`. */
  datatype AuthBody = AuthBody(message: string, token: Option<string>, user: Summary)

  /** The check before any lookup: present, and `adopter` or `seller` once lower-cased. */
  predicate ValidProfileType(v: Option<string>)
  {
    v.Some? && v.value != "" && Strings.Lower(v.value) in ProfileTypes
  }

  /** A registration that passes the profile-type check, names no stored
      email and carries a password to hash. */
  predicate Admitted(body: RegisterBody, users: map<Id, User>)
  {
    && ValidProfileType(body.profile_type)
    && !(body.email.Some? && EmailTaken(users, NormalEmail(body.email.value)))
    && body.password.Some?
  }

  /** The document `UserFromDB.create` is given. */
  function NewUser(body: RegisterBody, hash: string -> string): (f: UserFields)
    requires body.password.Some? && body.profile_type.Some?
    ensures f.password == Some(hash(body.password.value))
    ensures f.profile_type == Some(Strings.Lower(body.profile_type.value))
    ensures f.address == Some(Address(body.city, body.state, body.country, None))
    ensures f.bio.None? && f.picture.None? && f.listed_pets.None? && f.favorites.None?
  {
    UserFields(body.name, body.email, Some(hash(body.password.value)), body.contact, None,
               Some(Strings.Lower(body.profile_type.value)), None,
               Some(Address(body.city, body.state, body.country, None)), None, None)
  }

  /** `registerUser`. A failed validation or hash is a thrown error; a
      missing secret is thrown only after the user is stored. */
  method Register(db: Store, body: RegisterBody, newId: Id, hash: string -> string, sign: Signer,
                  secret: Option<string>, nodeEnv: string) returns (reply: Reply<AuthBody>)
    requires db.Unused(newId)
    modifies db
    ensures db.pets == old(db.pets) && db.applications == old(db.applications)
    ensures !ValidProfileType(body.profile_type) ==> reply == Respond(400, BadProfileType) && db.users == old(db.users)
    ensures ValidProfileType(body.profile_type) && body.email.Some? && EmailTaken(old(db.users), NormalEmail(body.email.value)) ==>
              reply == Respond(409, EmailExists) && db.users == old(db.users)
    ensures (ValidProfileType(body.profile_type) && !(body.email.Some? && EmailTaken(old(db.users), NormalEmail(body.email.value)))
               && body.password.None?) ==> reply == Respond(500, RegisterError) && db.users == old(db.users)
    ensures Admitted(body, old(db.users)) ==>
              match Create(NewUser(body, hash))
              case Err(_) => reply == Respond(500, RegisterError) && db.users == old(db.users)
              case Ok(u) =>
                && db.users == old(db.users)[newId := u]
                && (!IsSet(secret) ==> reply == Respond(500, RegisterError))
                && (IsSet(secret) ==>
                      reply == Reply(201, Data(AuthBody(Registered, None, SummaryOf(newId, u))),
                                     TokenCookie(sign(TokenPayload(newId, u.profile_type), secret.value, ExpiresIn), nodeEnv)))
    ensures old(db.Consistent()) ==> db.Consistent()
  {
    if body.profile_type.None? || body.profile_type.value == "" || Strings.Lower(body.profile_type.value) !in ProfileTypes {
      return Respond(400, BadProfileType);
    }
    if body.email.Some? {
      var existing := FindByEmail(db.users, body.email.value);
      if existing.Some? {
        return Respond(409, EmailExists);
      }
    }
    if body.password.None? {
      return Respond(500, RegisterError);
    }
    var created := Create(NewUser(body, hash));
    if created.Err? {
      return Respond(500, RegisterError);
    }
    var u := created.value;
    CreateValid(NewUser(body, hash), u);
    InsertUser(db, newId, u);
    var token := GenerateToken(newId, u.profile_type, secret, sign);
    if token.None? {
      return Respond(500, RegisterError);
    }
    reply := Reply(201, Data(AuthBody(Registered, None, SummaryOf(newId, u))), TokenCookie(token.value, nodeEnv));
  }

  /** The write of a registration: `UserFromDB.create` stores the new user. */
  method InsertUser(db: Store, newId: Id, u: User)
    requires db.Unused(newId) && !EmailTaken(db.users, u.email) && u.listed_pets == []
    modifies db
    ensures db.users == old(db.users)[newId := u] && db.pets == old(db.pets) && db.applications == old(db.applications)
    ensures old(db.Consistent()) ==> db.Consistent()
  {
    RegisterKeepsConsistent(db.users, db.pets, newId, u);
    db.users := db.users[newId := u];
  }

  /** Adding a user with a fresh id, an email nobody holds and no listings keeps the store consistent. */
  lemma RegisterKeepsConsistent(users: map<Id, User>, pets: map<Id, PetModel.Pet>, id: Id, u: User)
    requires id !in users && (forall p :: p in pets ==> pets[p].listed_by != id)
    requires !EmailTaken(users, u.email) && u.listed_pets == []
    ensures EmailsUnique(users) ==> EmailsUnique(users[id := u])
    ensures ListingsConsistent(users, pets) ==> ListingsConsistent(users[id := u], pets)
  {
  }

  /** The stored user keeps the hash and never the plain password once hashing changes it, and its profile type is lower-cased. */
  lemma StoredUserShape(body: RegisterBody, hash: string -> string, u: User)
    requires body.password.Some? && body.profile_type.Some?
    requires Create(NewUser(body, hash)) == Ok(u)
    ensures u.password == hash(body.password.value)
    ensures hash(body.password.value) != body.password.value ==> u.password != body.password.value
    ensures u.profile_type == Strings.Lower(body.profile_type.value) && u.profile_type in ProfileTypes
    ensures u.address == TrimAddress(Address(body.city, body.state, body.country, None))
    ensures u.email == NormalEmail(body.email.value) && Valid(u)
  {
    CreateValid(NewUser(body, hash), u);
  }

  /** What `loginUser` answers once `findOne` has found the user `id`. */
  function LoginOutcome(id: Id, u: User, password: Option<string>, verify: (string, string) -> bool, sign: Signer,
                        secret: Option<string>, nodeEnv: string): (r: Reply<AuthBody>)
    ensures r.status == 200 <==> password.Some? && verify(u.password, password.value) && IsSet(secret)
    ensures r.status == 401 <==> password.Some? && !verify(u.password, password.value)
    ensures r.status == 401 ==> r == Respond(401, InvalidCredentials)
    ensures r.status == 200 ==>
              r.body.Data? && r.body.value.user == SummaryOf(id, u) && r.cookie.SetToken? && r.body.value.token == Some(r.cookie.value)
  {
    if password.None? then Respond(500, LoginError)
    else if !verify(u.password, password.value) then Respond(401, InvalidCredentials)
    else
      var token := GenerateToken(id, u.profile_type, secret, sign);
      if token.None? then Respond(500, LoginError)
      else Reply(200, Data(AuthBody(LoggedIn, token, SummaryOf(id, u))), TokenCookie(token.value, nodeEnv))
  }

  /** `loginUser`. It reads the store and changes nothing. */
  method Login(db: Store, body: LoginBody, verify: (string, string) -> bool, sign: Signer,
               secret: Option<string>, nodeEnv: string) returns (reply: Reply<AuthBody>)
    ensures body.email.None? || !EmailTaken(db.users, NormalEmail(body.email.value)) ==> reply == Respond(401, InvalidCredentials)
    ensures reply.status != 401 ==> reply.status == 200 || reply.status == 500
    ensures forall id :: (body.email.Some? && id in db.users && db.users[id].email == NormalEmail(body.email.value)
                          && EmailsUnique(db.users)) ==> reply == LoginOutcome(id, db.users[id], body.password, verify, sign, secret, nodeEnv)
  {
    if body.email.None? {
      return Respond(401, InvalidCredentials);
    }
    var found := FindByEmail(db.users, body.email.value);
    if found.None? {
      return Respond(401, InvalidCredentials);
    }
    reply := LoginOutcome(found.value, db.users[found.value], body.password, verify, sign, secret, nodeEnv);
  }

  /** An unknown email and a wrong password get the same answer. */
  lemma UniformFailure(id: Id, u: User, password: string, verify: (string, string) -> bool, sign: Signer,
                       secret: Option<string>, nodeEnv: string)
    requires !verify(u.password, password)
    ensures LoginOutcome(id, u, Some(password), verify, sign, secret, nodeEnv) == Respond(401, InvalidCredentials)
  {
  }

  /** Register and login set the same session cookie for the same token. */
  lemma SameSessionCookie(id: Id, u: User, password: string, verify: (string, string) -> bool, sign: Signer,
                          secret: Option<string>, nodeEnv: string)
    requires verify(u.password, password) && IsSet(secret)
    ensures LoginOutcome(id, u, Some(password), verify, sign, secret, nodeEnv).cookie
      == TokenCookie(sign(TokenPayload(id, u.profile_type), secret.value, ExpiresIn), nodeEnv)
    ensures LoginOutcome(id, u, Some(password), verify, sign, secret, nodeEnv).cookie.maxAge == 86400000
    ensures LoginOutcome(id, u, Some(password), verify, sign, secret, nodeEnv).cookie.httpOnly
  {
  }

  /** `logoutUser`: always clears the token cookie and answers 200. */
  function Logout(): (r: Reply<AuthBody>)
    ensures r.status == 200 && r.cookie == ClearToken && r.body == Message(LoggedOut)
  {
    Reply(200, Message(LoggedOut), ClearToken)
  }
}
