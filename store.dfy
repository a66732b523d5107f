/** The three collections the handlers read and write, held as maps from id
    to document, with the two facts the handlers between them keep: no two
    users share an email, and a pet is in a user's `listed_pets` exactly
    when its `listed_by` names that user. */
module Database {
  import opened Wrappers
  import opened Ids
  import opened PetModel
  import opened UserModel
  import opened ApplicationModel
  import opened Seqs

  /** No two users hold the same (normalised) email: the schema's `unique` index. */
  predicate EmailsUnique(users: map<Id, User>)
  {
    forall a, b :: a in users && b in users && users[a].email == users[b].email ==> a == b
  }

  /** `listed_pets` and `listed_by` describe the same relation. */
  predicate ListingsConsistent(users: map<Id, User>, pets: map<Id, Pet>)
  {
    && (forall u, p :: u in users && p in users[u].listed_pets ==> p in pets && pets[p].listed_by == u)
    && (forall p :: p in pets && pets[p].listed_by in users ==> p in users[pets[p].listed_by].listed_pets)
  }

  /** Some stored user holds this email. */
  predicate EmailTaken(users: map<Id, User>, email: string)
  {
    exists id :: id in users && users[id].email == email
  }

  /** `findByIdAndUpdate(uid, { $push: { listed_pets: pid } })`; no user, no change. */
  function PushListing(users: map<Id, User>, uid: Id, pid: Id): (r: map<Id, User>)
    ensures r.Keys == users.Keys
    ensures forall u :: u in users && u != uid ==> r[u] == users[u]
    ensures uid in users ==> r[uid] == users[uid].(listed_pets := users[uid].listed_pets + [pid])
  {
    if uid in users then users[uid := users[uid].(listed_pets := users[uid].listed_pets + [pid])] else users
  }

  /** `findByIdAndUpdate(uid, { $pull: { listed_pets: pid } })`; no user, no change. */
  function PullListing(users: map<Id, User>, uid: Id, pid: Id): (r: map<Id, User>)
    ensures r.Keys == users.Keys
    ensures forall u :: u in users && u != uid ==> r[u] == users[u]
    ensures uid in users ==> r[uid] == users[uid].(listed_pets := Without(users[uid].listed_pets, pid))
  {
    if uid in users then users[uid := users[uid].(listed_pets := Without(users[uid].listed_pets, pid))] else users
  }

  class Store {
    var users: map<Id, User>
    var pets: map<Id, Pet>
    var applications: map<Id, Application>

    constructor()
      ensures users == map[] && pets == map[] && applications == map[]
    {
      users := map[];
      pets := map[];
      applications := map[];
    }

    /** The invariant the handlers keep. */
    predicate Consistent()
      reads this
    {
      EmailsUnique(users) && ListingsConsistent(users, pets)
    }

    /** A newly generated ObjectId: no document has it and no document refers to it. */
    predicate Unused(id: Id)
      reads this
    {
      && IsCanonical(id)
      && id !in users && id !in pets && id !in applications
      && (forall p :: p in pets ==> pets[p].listed_by != id)
      && (forall u :: u in users ==> id !in users[u].listed_pets)
    }
  }

  /** `find(filter)` over a collection: the ids of the documents that pass,
      each once. */
  method Select<T>(m: map<Id, T>, keep: T -> bool) returns (ids: seq<Id>)
    ensures forall id :: id in ids <==> id in m && keep(m[id])
    ensures forall i, j :: 0 <= i < j < |ids| ==> ids[i] != ids[j]
  {
    ids := [];
    var rest := m.Keys;
    while rest != {}
      invariant rest <= m.Keys
      invariant forall id :: id in ids <==> id in m && id !in rest && keep(m[id])
      invariant forall i, j :: 0 <= i < j < |ids| ==> ids[i] != ids[j]
      invariant forall id :: id in ids ==> id !in rest
      decreases rest
    {
      var id :| id in rest;
      if keep(m[id]) {
        ids := ids + [id];
      }
      rest := rest - {id};
    }
  }

  /** `findOne({ email })`: the email goes through the path's setters first. */
  method FindByEmail(users: map<Id, User>, email: string) returns (r: Option<Id>)
    ensures r.Some? ==> r.value in users && users[r.value].email == NormalEmail(email)
    ensures r.None? <==> !EmailTaken(users, NormalEmail(email))
  {
    var e := NormalEmail(email);
    var found := Select(users, (u: User) => u.email == e);
    if found == [] {
      r := None;
      assert forall id :: id in users ==> users[id].email != e;
    } else {
      r := Some(found[0]);
    }
  }
}
