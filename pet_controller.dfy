/** The pet handlers: the public listing and lookup, and the seller-only
    create and owner-only update and delete, which keep the pet's
    `listed_by` and its owner's `listed_pets` describing the same listing.
    The requester is the user the login middleware attached. */
module PetController {
  import opened Wrappers
  import opened Ids
  import opened Http
  import opened PetModel
  import UserModel
  import opened Database

  const FetchAllError := "Error fetching pets."
  const NotFound := "Pet not found."
  const FetchOneError := "Error fetching pet details."
  const NotSeller := "Forbidden. Only users with a \"seller\" profile can list pets."
  const CreateError := "Error creating pet listing."
  const NotOwnerUpdate := "Forbidden. You can only update your own listings."
  const UpdateError := "Error updating pet listing."
  const NotOwnerDelete := "Forbidden. You can only delete your own listings."
  const Deleted := "Pet listing deleted successfully."
  const DeleteError := "Error deleting pet listing."

  /** `populate('listed_by', 'name city')`: users have no top-level `city`,
      so only the id and the name come back. */
  datatype Owner = Owner(id: Id, name: string)

  /** `populate('listed_by', 'name email contact')`. */
  datatype OwnerContact = OwnerContact(id: Id, name: string, email: string, contact: Option<string>)

  /** A pet document with `listed_by` populated; `None` is the `null` of a
      reference to a user that no longer exists. */
  datatype PetView<O> = PetView(id: Id, pet: Pet, owner: Option<O>)

  /** A pet document as the create and update responses return it. */
  datatype PetDoc = PetDoc(id: Id, pet: Pet)

  function OwnerOf(users: map<Id, UserModel.User>, id: Id): (r: Option<Owner>)
    ensures r.Some? <==> id in users
    ensures r.Some? ==> r.value == Owner(id, users[id].name)
  {
    if id in users then Some(Owner(id, users[id].name)) else None
  }

  function ContactOf(users: map<Id, UserModel.User>, id: Id): (r: Option<OwnerContact>)
    ensures r.Some? <==> id in users
    ensures r.Some? ==> r.value == OwnerContact(id, users[id].name, users[id].email, users[id].contact)
  {
    if id in users then Some(OwnerContact(id, users[id].name, users[id].email, users[id].contact)) else None
  }

  predicate IsAvailable(p: Pet)
  {
    p.status == "available"
  }

  /** `getAllPets`: every available pet, each once, with its owner's name. */
  method GetAllPets(db: Store) returns (reply: Reply<seq<PetView<Owner>>>)
    ensures reply.status == 200 && reply.body.Data? && reply.cookie == NoCookie
    ensures forall k :: 0 <= k < |reply.body.value| ==>
              var v := reply.body.value[k];
              v.id in db.pets && v.pet == db.pets[v.id] && IsAvailable(v.pet) && v.owner == OwnerOf(db.users, v.pet.listed_by)
    ensures forall id :: id in db.pets && IsAvailable(db.pets[id]) ==>
              exists k :: 0 <= k < |reply.body.value| && reply.body.value[k].id == id
    ensures forall i, j :: 0 <= i < j < |reply.body.value| ==> reply.body.value[i].id != reply.body.value[j].id
  {
    var ids := Select(db.pets, IsAvailable);
    var views: seq<PetView<Owner>> := [];
    for i := 0 to |ids|
      invariant |views| == i
      invariant forall k :: 0 <= k < i ==>
                  views[k].id == ids[k] && views[k].pet == db.pets[ids[k]] && views[k].owner == OwnerOf(db.users, views[k].pet.listed_by)
    {
      var p := db.pets[ids[i]];
      views := views + [PetView(ids[i], p, OwnerOf(db.users, p.listed_by))];
    }
    forall id | id in db.pets && IsAvailable(db.pets[id])
      ensures exists k :: 0 <= k < |views| && views[k].id == id
    {
      var k :| 0 <= k < |ids| && ids[k] == id;
      assert views[k].id == id;
    }
    reply := Send(200, views);
  }

  /** `getPetById`. An id that is not an ObjectId makes `findById` throw. */
  method GetPetById(db: Store, id: string) returns (reply: Reply<PetView<OwnerContact>>)
    ensures Cast(id).None? ==> reply == Respond(500, FetchOneError)
    ensures Cast(id).Some? && Cast(id).value !in db.pets ==> reply == Respond(404, NotFound)
    ensures Cast(id).Some? && Cast(id).value in db.pets ==>
              var key := Cast(id).value;
              reply == Send(200, PetView(key, db.pets[key], ContactOf(db.users, db.pets[key].listed_by)))
  {
    var key := Cast(id);
    if key.None? {
      return Respond(500, FetchOneError);
    }
    if key.value !in db.pets {
      return Respond(404, NotFound);
    }
    var p := db.pets[key.value];
    reply := Send(200, PetView(key.value, p, ContactOf(db.users, p.listed_by)));
  }

  /** The request body with `listed_by` replaced by the requester. */
  function WithOwner(body: Fields, me: Id): (f: Fields)
    ensures f.listed_by == Some(me)
    ensures f == body.(listed_by := Some(me))
  {
    body.(listed_by := Some(me))
  }

  /** `createPet`: refused for a non-seller; otherwise the body is validated
      as a new pet owned by the requester, stored under a fresh id, and the
      id is pushed onto the requester's `listed_pets`. */
  method CreatePet(db: Store, me: UserModel.Profile, body: Fields, newId: Id) returns (reply: Reply<PetDoc>)
    requires db.Unused(newId)
    modifies db
    ensures db.applications == old(db.applications)
    ensures me.profile_type != "seller" ==>
              reply == Respond(403, NotSeller) && db.pets == old(db.pets) && db.users == old(db.users)
    ensures me.profile_type == "seller" ==>
              match Create(WithOwner(body, me.id))
              case Err(errors) =>
                reply == Respond(400, JoinMessages(errors)) && db.pets == old(db.pets) && db.users == old(db.users)
              case Ok(p) =>
                && reply == Send(201, PetDoc(newId, p))
                && p.listed_by == me.id
                && db.pets == old(db.pets)[newId := p]
                && db.users == PushListing(old(db.users), me.id, newId)
    ensures old(db.Consistent()) ==> db.Consistent()
  {
    if me.profile_type != "seller" {
      reply := Respond(403, NotSeller);
    } else {
      var created := Create(WithOwner(body, me.id));
      if created.Err? {
        reply := Respond(400, JoinMessages(created.error));
      } else {
        var p := created.value;
        CreateValid(WithOwner(body, me.id), p);
        InsertListing(db, p, newId);
        reply := Send(201, PetDoc(newId, p));
      }
    }
  }

  /** The two writes of a create: `newPet.save()`, then the `$push` of the new
      id onto the owner's `listed_pets`. */
  method InsertListing(db: Store, p: Pet, newId: Id)
    requires db.Unused(newId)
    modifies db
    ensures db.pets == old(db.pets)[newId := p] && db.users == PushListing(old(db.users), p.listed_by, newId)
    ensures db.applications == old(db.applications)
    ensures old(db.Consistent()) ==> db.Consistent()
  {
    CreateKeepsListings(db.users, db.pets, newId, p);
    db.pets := db.pets[newId := p];
    db.users := PushListing(db.users, p.listed_by, newId);
  }

  /** The push that follows a create keeps the two sides of a listing in step. */
  lemma CreateKeepsListings(users: map<Id, UserModel.User>, pets: map<Id, Pet>, id: Id, p: Pet)
    requires id !in pets && forall u :: u in users ==> id !in users[u].listed_pets
    ensures EmailsUnique(users) ==> EmailsUnique(PushListing(users, p.listed_by, id))
    ensures ListingsConsistent(users, pets) ==> ListingsConsistent(PushListing(users, p.listed_by, id), pets[id := p])
  {
  }

  /** `updatePet`: only the owner may update; every path of the body is
      applied, `listed_by` included once cast to an ObjectId, each nested object of the body replaces
      the stored one whole, and the new document is returned. */
  method UpdatePet(db: Store, me: UserModel.Profile, id: string, patch: Patch) returns (reply: Reply<PetDoc>)
    modifies db
    ensures db.users == old(db.users) && db.applications == old(db.applications)
    ensures Cast(id).None? ==> reply == Respond(500, UpdateError) && db.pets == old(db.pets)
    ensures Cast(id).Some? && Cast(id).value !in old(db.pets) ==> reply == Respond(404, NotFound) && db.pets == old(db.pets)
    ensures Cast(id).Some? && Cast(id).value in old(db.pets) && old(db.pets)[Cast(id).value].listed_by != me.id ==>
              reply == Respond(403, NotOwnerUpdate) && db.pets == old(db.pets)
    ensures Cast(id).Some? && Cast(id).value in old(db.pets) && old(db.pets)[Cast(id).value].listed_by == me.id ==>
              var key := Cast(id).value;
              match Update(old(db.pets)[key], patch)
              case Err(_) => reply == Respond(500, UpdateError) && db.pets == old(db.pets)
              case Ok(q) => reply == Send(200, PetDoc(key, q)) && db.pets == old(db.pets)[key := q]
    ensures old(db.Consistent()) && (patch.listed_by.None? || Cast(patch.listed_by.value) == Some(me.id)) ==> db.Consistent()
  {
    var key := Cast(id);
    if key.None? {
      return Respond(500, UpdateError);
    }
    if key.value !in db.pets {
      return Respond(404, NotFound);
    }
    var p := db.pets[key.value];
    if p.listed_by != me.id {
      return Respond(403, NotOwnerUpdate);
    }
    var updated := Update(p, patch);
    if updated.Err? {
      return Respond(500, UpdateError);
    }
    UpdateChanges(p, patch, updated.value);
    ReplaceListing(db, key.value, updated.value);
    reply := Send(200, PetDoc(key.value, updated.value));
  }

  /** The write of an update: the stored pet replaced by the new document;
      the two sides of every listing stay in step while the owner stays. */
  method ReplaceListing(db: Store, key: Id, q: Pet)
    requires key in db.pets
    modifies db
    ensures db.pets == old(db.pets)[key := q] && db.users == old(db.users) && db.applications == old(db.applications)
    ensures old(db.Consistent()) && q.listed_by == old(db.pets)[key].listed_by ==> db.Consistent()
  {
    db.pets := db.pets[key := q];
  }

  /** A body that names another owner moves the pet without touching either
      user's `listed_pets`, so the two sides no longer agree. */
  lemma ReassignedOwnerBreaksListings(users: map<Id, UserModel.User>, pets: map<Id, Pet>, id: Id, q: Pet)
    requires ListingsConsistent(users, pets)
    requires id in pets && q.listed_by in users && q.listed_by != pets[id].listed_by
    ensures !ListingsConsistent(users, pets[id := q])
  {
    var after := pets[id := q];
    assert id !in users[q.listed_by].listed_pets;
    assert id in after && after[id].listed_by in users && id !in users[after[id].listed_by].listed_pets;
  }

  /** `deletePet`: only the owner may delete; the pet is removed and pulled
      from the owner's `listed_pets`. */
  method DeletePet(db: Store, me: UserModel.Profile, id: string) returns (reply: Reply<()>)
    modifies db
    ensures db.applications == old(db.applications)
    ensures Cast(id).None? ==> reply == Respond(500, DeleteError) && db.pets == old(db.pets) && db.users == old(db.users)
    ensures Cast(id).Some? && Cast(id).value !in old(db.pets) ==>
              reply == Respond(404, NotFound) && db.pets == old(db.pets) && db.users == old(db.users)
    ensures Cast(id).Some? && Cast(id).value in old(db.pets) && old(db.pets)[Cast(id).value].listed_by != me.id ==>
              reply == Respond(403, NotOwnerDelete) && db.pets == old(db.pets) && db.users == old(db.users)
    ensures Cast(id).Some? && Cast(id).value in old(db.pets) && old(db.pets)[Cast(id).value].listed_by == me.id ==>
              var key := Cast(id).value;
              && reply == Respond(200, Deleted)
              && db.pets == old(db.pets) - {key}
              && db.users == PullListing(old(db.users), me.id, key)
    ensures old(db.Consistent()) ==> db.Consistent()
  {
    var key := Cast(id);
    if key.None? {
      return Respond(500, DeleteError);
    }
    if key.value !in db.pets {
      return Respond(404, NotFound);
    }
    if db.pets[key.value].listed_by != me.id {
      return Respond(403, NotOwnerDelete);
    }
    DeleteKeepsListings(db.users, db.pets, key.value);
    db.pets := db.pets - {key.value};
    db.users := PullListing(db.users, me.id, key.value);
    reply := Respond(200, Deleted);
  }

  /** Removing a pet and pulling it from its owner keeps the two sides of every listing in step. */
  lemma DeleteKeepsListings(users: map<Id, UserModel.User>, pets: map<Id, Pet>, id: Id)
    requires id in pets
    ensures ListingsConsistent(users, pets) ==> ListingsConsistent(PullListing(users, pets[id].listed_by, id), pets - {id})
    ensures EmailsUnique(users) ==> EmailsUnique(PullListing(users, pets[id].listed_by, id))
  {
  }
}
