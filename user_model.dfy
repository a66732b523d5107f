/** The `user` collection's schema: its paths, the `trim`/`lowercase`
    setters, the defaults, the validators and their messages, and the
    projections the handlers read a user through; `password` is
    `select: false`, so only a query that asks for it sees it. */
module UserModel {
  import opened Wrappers
  import opened Ids
  import Strings
  import opened Schema
  import EmailPattern

  /** The name `mongoose.model` registers the schema under. */
  const ModelName := "user"

  const ProfileTypes: seq<string> := ["adopter", "seller"]
  const DefaultPicture := "default-user-avatar.png"
  const MaxBio: nat := 500

  const NameRequired := "Name is required."
  const EmailRequired := "Email is required."
  const EmailInvalid := "Please fill a valid email address"
  const PasswordRequired := "Password is required."
  const BioTooLong := "Bio cannot be more than 500 characters."

  function UnsupportedProfileType(value: string): string
  {
    value + " is not a supported profile type."
  }

  datatype Address = Address(city: Option<string>, state: Option<string>, country: Option<string>, pincode: Option<string>)

  const NoAddress := Address(None, None, None, None)

  /** A stored user; `password` holds the hash. */
  datatype User = User(
    name: string,
    email: string,
    password: string,
    contact: Option<string>,
    picture: string,
    profile_type: string,
    favorites: seq<Id>,
    address: Address,
    bio: Option<string>,
    listed_pets: seq<Id>)

  /** The values a create or an update supplies, path by path. */
  datatype UserFields = UserFields(
    name: Option<string>,
    email: Option<string>,
    password: Option<string>,
    contact: Option<string>,
    picture: Option<string>,
    profile_type: Option<string>,
    favorites: Option<seq<Id>>,
    address: Option<Address>,
    bio: Option<string>,
    listed_pets: Option<seq<Id>>)

  const NoUserFields := UserFields(None, None, None, None, None, None, None, None, None, None)

  predicate AddressTrimmed(a: Address)
  {
    && (a.city.Some? ==> Strings.IsTrimmed(a.city.value))
    && (a.state.Some? ==> Strings.IsTrimmed(a.state.value))
    && (a.country.Some? ==> Strings.IsTrimmed(a.country.value))
    && (a.pincode.Some? ==> Strings.IsTrimmed(a.pincode.value))
  }

  /** The reference description of a user document the schema accepts. */
  predicate Valid(u: User)
  {
    && u.name != "" && Strings.IsTrimmed(u.name)
    && EmailPattern.Matches(u.email) && Strings.IsLower(u.email)
    && u.password != ""
    && (u.contact.Some? ==> Strings.IsTrimmed(u.contact.value))
    && u.profile_type in ProfileTypes
    && AddressTrimmed(u.address)
    && (u.bio.Some? ==> |u.bio.value| <= MaxBio)
  }

  /** `lowercase: true, trim: true` on the email path; the same cast runs on
      a query's `{ email }` filter. */
  function NormalEmail(e: string): (r: string)
    ensures Strings.IsLower(r) && Strings.IsTrimmed(r)
  {
    LowerTrimmed(e);
    Strings.Trim(Strings.Lower(e))
  }

  lemma LowerTrimmed(e: string)
    ensures Strings.IsLower(Strings.Trim(Strings.Lower(e)))
  {
    Strings.LowerIsLower(e);
    TrimKeepsLower(Strings.Lower(e));
  }

  lemma TrimKeepsLower(s: string)
    requires Strings.IsLower(s)
    ensures Strings.IsLower(Strings.Trim(s))
  {
    var i, j := Strings.TrimBounds(s);
    Strings.SliceKeepsLower(s, i, j);
  }

  function TrimAddress(a: Address): (r: Address)
    ensures AddressTrimmed(r)
  {
    Address(TrimOpt(a.city), TrimOpt(a.state), TrimOpt(a.country), TrimOpt(a.pincode))
  }

  function Setters(f: UserFields): UserFields
  {
    f.(name := TrimOpt(f.name),
       email := if f.email.Some? then Some(NormalEmail(f.email.value)) else None,
       contact := TrimOpt(f.contact),
       address := if f.address.Some? then Some(TrimAddress(f.address.value)) else None)
  }

  function Defaults(f: UserFields): UserFields
  {
    f.(picture := Some(f.picture.GetOr(DefaultPicture)), favorites := Some(f.favorites.GetOr([])),
       address := Some(f.address.GetOr(NoAddress)), listed_pets := Some(f.listed_pets.GetOr([])))
  }

  predicate TextOk(v: Option<string>, create: bool)
  {
    if v.None? then !create else v.value != ""
  }

  function EmailErrors(v: Option<string>, create: bool): (r: seq<string>)
    ensures r == [] <==> TextOk(v, create) && (v.Some? ==> EmailPattern.Matches(v.value))
  {
    if !TextOk(v, create) then [EmailRequired]
    else if v.Some? && !EmailPattern.Matches(v.value) then [EmailInvalid]
    else []
  }

  function ProfileTypeErrors(v: Option<string>, create: bool): (r: seq<string>)
    ensures r == [] <==> TextOk(v, create) && (v.Some? ==> v.value in ProfileTypes)
  {
    if !TextOk(v, create) then [RequiredMessage("profile_type")]
    else if v.Some? && v.value !in ProfileTypes then [UnsupportedProfileType(v.value)]
    else []
  }

  /** The messages of every failing path, in schema path order. */
  function Errors(f: UserFields, create: bool): (r: seq<string>)
    ensures r == [] <==>
      && TextOk(f.name, create)
      && EmailErrors(f.email, create) == []
      && TextOk(f.password, create)
      && ProfileTypeErrors(f.profile_type, create) == []
      && (f.bio.Some? ==> |f.bio.value| <= MaxBio)
  {
    Check(TextOk(f.name, create), NameRequired)
    + EmailErrors(f.email, create)
    + Check(TextOk(f.password, create), PasswordRequired)
    + ProfileTypeErrors(f.profile_type, create)
    + Check(f.bio.None? || |f.bio.value| <= MaxBio, BioTooLong)
  }

  /** Every path a stored user always holds is present. */
  predicate Filled(d: UserFields)
  {
    && d.name.Some? && d.email.Some? && d.password.Some? && d.profile_type.Some?
    && d.picture.Some? && d.favorites.Some? && d.address.Some? && d.listed_pets.Some?
  }

  function Build(d: UserFields): User
    requires Filled(d)
  {
    User(d.name.value, d.email.value, d.password.value, d.contact, d.picture.value, d.profile_type.value,
         d.favorites.value, d.address.value, d.bio, d.listed_pets.value)
  }

  /** `User.create(fields)`: setters, then defaults, then validation. */
  function Create(input: UserFields): Result<User, seq<string>>
  {
    var d := Defaults(Setters(input));
    if Errors(d, true) == [] then Ok(Build(d)) else Err(Errors(d, true))
  }

  /** Every path of a stored user, as the fields that would create it again. */
  function ToFields(u: User): UserFields
  {
    UserFields(Some(u.name), Some(u.email), Some(u.password), u.contact, Some(u.picture), Some(u.profile_type),
               Some(u.favorites), Some(u.address), u.bio, Some(u.listed_pets))
  }

  /** `findByIdAndUpdate(id, fields, { runValidators: true })`: the paths
      present are normalised, validated and written; `address` is replaced
      as a whole object. */
  function Update(u: User, patch: UserFields): Result<User, seq<string>>
  {
    var d := Setters(patch);
    if Errors(d, false) == [] then
      Ok(User(d.name.GetOr(u.name), d.email.GetOr(u.email), d.password.GetOr(u.password),
              if d.contact.Some? then d.contact else u.contact, d.picture.GetOr(u.picture),
              d.profile_type.GetOr(u.profile_type), d.favorites.GetOr(u.favorites),
              d.address.GetOr(u.address), if d.bio.Some? then d.bio else u.bio,
              d.listed_pets.GetOr(u.listed_pets)))
    else Err(Errors(d, false))
  }

  /** A user as `select('-password')` returns it. */
  datatype Profile = Profile(
    id: Id, name: string, email: string, contact: Option<string>, picture: string, profile_type: string,
    favorites: seq<Id>, address: Address, bio: Option<string>, listed_pets: seq<Id>)

  function WithoutPassword(id: Id, u: User): (v: Profile)
    ensures v.name == u.name && v.email == u.email && v.profile_type == u.profile_type
    ensures v.listed_pets == u.listed_pets && v.address == u.address && v.bio == u.bio
    ensures ToUser(v, u.password) == u
  {
    Profile(id, u.name, u.email, u.contact, u.picture, u.profile_type, u.favorites, u.address, u.bio, u.listed_pets)
  }

  /** The profile and the hidden hash together give the stored user back. */
  function ToUser(v: Profile, password: string): User
  {
    User(v.name, v.email, password, v.contact, v.picture, v.profile_type, v.favorites, v.address, v.bio, v.listed_pets)
  }

  /** `{ id, name, email, profile_type }`, the user object of the auth
      responses; also `select('name email profile_type')`. */
  datatype Summary = Summary(id: Id, name: string, email: string, profile_type: string)

  function SummaryOf(id: Id, u: User): (s: Summary)
    ensures s.id == id && s.name == u.name && s.email == u.email && s.profile_type == u.profile_type
  {
    Summary(id, u.name, u.email, u.profile_type)
  }

  /** `select('name email profile_type address bio listed_pets')`. */
  datatype PublicProfile = PublicProfile(
    id: Id, name: string, email: string, profile_type: string, address: Address, bio: Option<string>, listed_pets: seq<Id>)

  function PublicProfileOf(id: Id, u: User): (v: PublicProfile)
    ensures v.id == id && v.name == u.name && v.email == u.email && v.profile_type == u.profile_type
    ensures v.address == u.address && v.bio == u.bio && v.listed_pets == u.listed_pets
  {
    PublicProfile(id, u.name, u.email, u.profile_type, u.address, u.bio, u.listed_pets)
  }

  // ---------------------------------------------------------------- lemmas

  /** A created user satisfies the schema: trimmed name, lower-cased and
      trimmed email, and the defaults filled in. */
  lemma CreateValid(input: UserFields, u: User)
    requires Create(input) == Ok(u)
    ensures Valid(u)
    ensures u.name == Strings.Trim(input.name.value)
    ensures u.email == NormalEmail(input.email.value)
    ensures u.password == input.password.value
    ensures u.profile_type == input.profile_type.value
    ensures u.picture == input.picture.GetOr(DefaultPicture)
    ensures u.listed_pets == input.listed_pets.GetOr([]) && u.favorites == input.favorites.GetOr([])
  {
    var d := Defaults(Setters(input));
    assert Errors(d, true) == [];
    assert u == Build(d);
  }

  lemma AddressFixes(a: Address)
    requires AddressTrimmed(a)
    ensures TrimAddress(a) == a
  {
    TrimOptFixes(a.city);
    TrimOptFixes(a.state);
    TrimOptFixes(a.country);
    TrimOptFixes(a.pincode);
  }

  lemma TrimOptFixes(v: Option<string>)
    requires v.Some? ==> Strings.IsTrimmed(v.value)
    ensures TrimOpt(v) == v
  {
    if v.Some? { Strings.TrimFixesTrimmed(v.value); }
  }

  /** A valid stored email is its own normal form. */
  lemma NormalEmailFixes(e: string)
    requires EmailPattern.Matches(e) && Strings.IsLower(e)
    ensures NormalEmail(e) == e
  {
    var i :| 0 <= i < |e| && e[i] == '@' && EmailPattern.IsDottedWord(e[..i]) && EmailPattern.IsDomain(e[i + 1..]);
    EmailPattern.MatchShape(e, i);
    Strings.LowerFixesLower(e);
    Strings.TrimFixesTrimmed(e);
  }

  lemma SettersFixValid(u: User)
    requires Valid(u)
    ensures Setters(ToFields(u)) == ToFields(u)
  {
    var f := ToFields(u);
    TrimOptFixes(f.name);
    TrimOptFixes(f.contact);
    NormalEmailFixes(u.email);
    AddressFixes(u.address);
  }

  lemma ValidHasNoErrors(u: User)
    requires Valid(u)
    ensures Errors(ToFields(u), true) == []
  {
  }

  /** Every valid user is accepted again unchanged. */
  lemma CreateComplete(u: User)
    requires Valid(u)
    ensures Create(ToFields(u)) == Ok(u)
  {
    SettersFixValid(u);
    ValidHasNoErrors(u);
    BuildToFields(u);
  }

  lemma BuildToFields(u: User)
    ensures Filled(ToFields(u)) && Build(ToFields(u)) == u
  {
  }

  /** The rejections the schema promises, each with its message. */
  lemma CreateRejects(input: UserFields)
    ensures input.email.None? ==> Create(input).Err? && EmailRequired in Create(input).error
    ensures input.email.Some? && !EmailPattern.Matches(NormalEmail(input.email.value)) ==> Create(input).Err?
    ensures input.password.None? || input.password.value == "" ==> Create(input).Err? && PasswordRequired in Create(input).error
    ensures input.profile_type.Some? && input.profile_type.value != "" && input.profile_type.value !in ProfileTypes ==>
              Create(input).Err? && UnsupportedProfileType(input.profile_type.value) in Create(input).error
    ensures input.profile_type.None? ==> Create(input).Err? && RequiredMessage("profile_type") in Create(input).error
    ensures input.bio.Some? && |input.bio.value| > MaxBio ==> Create(input).Err? && BioTooLong in Create(input).error
  {
    var d := Defaults(Setters(input));
    var e := Errors(d, true);
    var n := Check(TextOk(d.name, true), NameRequired);
    assert e == n + EmailErrors(d.email, true) + Check(TextOk(d.password, true), PasswordRequired)
                + ProfileTypeErrors(d.profile_type, true) + Check(d.bio.None? || |d.bio.value| <= MaxBio, BioTooLong);
    if input.email.None? {
      assert e[|n|] == EmailRequired;
    }
  }

  /** An accepted update keeps a valid user valid, and changes only the paths it names. */
  lemma UpdateValid(u: User, patch: UserFields, v: User)
    requires Valid(u)
    requires Update(u, patch) == Ok(v)
    ensures Valid(v)
    ensures patch.email.None? ==> v.email == u.email
    ensures patch.password.None? ==> v.password == u.password
    ensures patch.profile_type.None? ==> v.profile_type == u.profile_type
    ensures patch.listed_pets.None? ==> v.listed_pets == u.listed_pets
    ensures patch.address.Some? ==> v.address == TrimAddress(patch.address.value)
  {
    var d := Setters(patch);
    assert Errors(d, false) == [];
  }

  /** The projections never carry the hash. */
  lemma ProjectionsHidePassword(id: Id, u: User, w: User)
    requires u.password != w.password
    requires u == w.(password := u.password)
    ensures WithoutPassword(id, u) == WithoutPassword(id, w)
    ensures SummaryOf(id, u) == SummaryOf(id, w)
    ensures PublicProfileOf(id, u) == PublicProfileOf(id, w)
  {
  }
}
