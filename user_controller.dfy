/** The user handlers: the list and lookup projections, the requester's own
    profile, the whitelisted profile update and the profile-type switch.
    The requester is the user the login middleware attached. */
module UserController {
  import opened Wrappers
  import opened Ids
  import Strings
  import opened Http
  import opened UserModel
  import opened Database

  const NotFound := "User not found."
  const FetchAllError := "Error fetching users."
  const FetchOneError := "Error fetching user."
  const UpdateError := "Error updating user profile."
  const SwitchError := "Error switching profile type."

  /** The body of a profile update; any other key the client sends is ignored. */
  datatype ProfileBody = ProfileBody(name: Option<string>, contact: Option<string>, bio: Option<string>, address: Option<Address>)

  /** `{ message, user: { id, name, email, profile_type } }`. */
  datatype SwitchBody = SwitchBody(message: string, user: Summary)

  /** `getAllUsers`: every user, each once, as `select('name email profile_type')`. */
  method GetAllUsers(db: Store) returns (reply: Reply<seq<Summary>>)
    ensures reply.status == 200 && reply.body.Data? && reply.cookie == NoCookie
    ensures forall k :: 0 <= k < |reply.body.value| ==>
              reply.body.value[k].id in db.users && reply.body.value[k] == SummaryOf(reply.body.value[k].id, db.users[reply.body.value[k].id])
    ensures forall id :: id in db.users ==> exists k :: 0 <= k < |reply.body.value| && reply.body.value[k].id == id
    ensures forall i, j :: 0 <= i < j < |reply.body.value| ==> reply.body.value[i].id != reply.body.value[j].id
  {
    var ids := Select(db.users, (u: User) => true);
    var rows: seq<Summary> := [];
    for i := 0 to |ids|
      invariant |rows| == i
      invariant forall k :: 0 <= k < i ==> rows[k] == SummaryOf(ids[k], db.users[ids[k]])
    {
      rows := rows + [SummaryOf(ids[i], db.users[ids[i]])];
    }
    forall id | id in db.users
      ensures exists k :: 0 <= k < |rows| && rows[k].id == id
    {
      var k :| 0 <= k < |ids| && ids[k] == id;
      assert rows[k].id == id;
    }
    reply := Send(200, rows);
  }

  /** `getUserById`: the public projection, 404 for an unknown id, 500 for a string that is no ObjectId. */
  method GetUserById(db: Store, id: string) returns (reply: Reply<PublicProfile>)
    ensures Cast(id).None? ==> reply == Respond(500, FetchOneError)
    ensures Cast(id).Some? && Cast(id).value !in db.users ==> reply == Respond(404, NotFound)
    ensures Cast(id).Some? && Cast(id).value in db.users ==>
              reply == Send(200, PublicProfileOf(Cast(id).value, db.users[Cast(id).value]))
  {
    var key := Cast(id);
    if key.None? {
      return Respond(500, FetchOneError);
    }
    if key.value !in db.users {
      return Respond(404, NotFound);
    }
    reply := Send(200, PublicProfileOf(key.value, db.users[key.value]));
  }

  /** `getMyProfile`: the stored profile without the password, or `null`, always with 200. */
  method GetMyProfile(db: Store, me: Profile) returns (reply: Reply<Option<Profile>>)
    ensures reply.status == 200 && reply.body.Data?
    ensures me.id in db.users <==> reply.body.value.Some?
    ensures me.id in db.users ==> reply.body.value.value == WithoutPassword(me.id, db.users[me.id])
  {
    if me.id in db.users {
      reply := Send(200, Some(WithoutPassword(me.id, db.users[me.id])));
    } else {
      reply := Send(200, None);
    }
  }

  /** The update `updateUserProfile` sends: the four whitelisted paths and nothing else. */
  function Whitelist(body: ProfileBody): (f: UserFields)
    ensures f.email.None? && f.password.None? && f.profile_type.None?
    ensures f.picture.None? && f.favorites.None? && f.listed_pets.None?
    ensures f.name == body.name && f.contact == body.contact && f.bio == body.bio && f.address == body.address
  {
    NoUserFields.(name := body.name, contact := body.contact, bio := body.bio, address := body.address)
  }

  /** The messages that make the validated update throw; they do not depend on the stored user. */
  function UpdateErrors(body: ProfileBody): seq<string>
  {
    Errors(Setters(Whitelist(body)), false)
  }

  /** `updateUserProfile`. Validation of the update comes before the lookup,
      so an invalid body gets 400 even for an unknown requester. */
  method UpdateUserProfile(db: Store, me: Profile, body: ProfileBody) returns (reply: Reply<Profile>)
    modifies db
    ensures db.pets == old(db.pets) && db.applications == old(db.applications)
    ensures UpdateErrors(body) != [] ==> reply == Respond(400, JoinMessages(UpdateErrors(body))) && db.users == old(db.users)
    ensures UpdateErrors(body) == [] && me.id !in old(db.users) ==> reply == Respond(404, NotFound) && db.users == old(db.users)
    ensures UpdateErrors(body) == [] && me.id in old(db.users) ==>
              var v := Update(old(db.users)[me.id], Whitelist(body));
              && v.Ok?
              && db.users == old(db.users)[me.id := v.value]
              && reply == Send(200, WithoutPassword(me.id, v.value))
    ensures old(db.Consistent()) ==> db.Consistent()
  {
    var patch := Whitelist(body);
    if UpdateErrors(body) != [] {
      return Respond(400, JoinMessages(UpdateErrors(body)));
    }
    if me.id !in db.users {
      return Respond(404, NotFound);
    }
    var u := db.users[me.id];
    var updated := Update(u, patch);
    var v := updated.value;
    WhitelistKeepsCredentials(u, body, v);
    ProfileUpdateKeepsConsistent(db.users, db.pets, me.id, v);
    db.users := db.users[me.id := v];
    reply := Send(200, WithoutPassword(me.id, v));
  }

  /** Whatever the body holds, the update leaves the email, the password, the
      profile type and the listings as they were. */
  lemma WhitelistKeepsCredentials(u: User, body: ProfileBody, v: User)
    requires Update(u, Whitelist(body)) == Ok(v)
    ensures v.email == u.email && v.password == u.password && v.profile_type == u.profile_type
    ensures v.listed_pets == u.listed_pets && v.favorites == u.favorites && v.picture == u.picture
    ensures body.name.Some? ==> v.name == Strings.Trim(body.name.value)
    ensures body.address.Some? ==> v.address == TrimAddress(body.address.value)
    ensures body.bio.Some? ==> v.bio == body.bio
  {
  }

  /** Replacing a user by one with the same email and listings keeps the store consistent. */
  lemma ProfileUpdateKeepsConsistent(users: map<Id, User>, pets: map<Id, PetModel.Pet>, id: Id, v: User)
    requires id in users && v.email == users[id].email && v.listed_pets == users[id].listed_pets
    ensures EmailsUnique(users) ==> EmailsUnique(users[id := v])
    ensures ListingsConsistent(users, pets) ==> ListingsConsistent(users[id := v], pets)
  {
  }

  /** The toggle: `adopter` becomes `seller`, anything else becomes `adopter`. */
  function NextProfileType(t: string): (r: string)
    ensures r in ProfileTypes && r != t
    ensures t == "adopter" <==> r == "seller"
  {
    if t == "adopter" then "seller" else "adopter"
  }

  /** On the two schema values the toggle is its own inverse. */
  lemma SwitchTwiceRestores(t: string)
    requires t in ProfileTypes
    ensures NextProfileType(NextProfileType(t)) == t
  {
  }

  function SwitchedMessage(t: string): string
  {
    "Profile successfully switched to " + t + "."
  }

  /** `switchUserProfileType`. `save()` validates the whole document. */
  method SwitchProfileType(db: Store, me: Profile) returns (reply: Reply<SwitchBody>)
    modifies db
    ensures db.pets == old(db.pets) && db.applications == old(db.applications)
    ensures me.id !in old(db.users) ==> reply == Respond(404, NotFound) && db.users == old(db.users)
    ensures me.id in old(db.users) ==>
              var v := old(db.users)[me.id].(profile_type := NextProfileType(old(db.users)[me.id].profile_type));
              if Errors(ToFields(v), true) == [] then
                && db.users == old(db.users)[me.id := v]
                && reply == Send(200, SwitchBody(SwitchedMessage(v.profile_type), SummaryOf(me.id, v)))
              else
                reply == Respond(500, SwitchError) && db.users == old(db.users)
    ensures old(db.Consistent()) ==> db.Consistent()
  {
    if me.id !in db.users {
      return Respond(404, NotFound);
    }
    var u := db.users[me.id];
    var v := u.(profile_type := NextProfileType(u.profile_type));
    if Errors(ToFields(v), true) != [] {
      return Respond(500, SwitchError);
    }
    ProfileUpdateKeepsConsistent(db.users, db.pets, me.id, v);
    db.users := db.users[me.id := v];
    reply := Send(200, SwitchBody(SwitchedMessage(v.profile_type), SummaryOf(me.id, v)));
  }

  /** A valid stored user is always switched, to the other schema value. */
  lemma SwitchValidSucceeds(u: User)
    requires Valid(u)
    ensures Valid(u.(profile_type := NextProfileType(u.profile_type)))
    ensures Errors(ToFields(u.(profile_type := NextProfileType(u.profile_type))), true) == []
  {
    ValidHasNoErrors(u.(profile_type := NextProfileType(u.profile_type)));
  }
}
