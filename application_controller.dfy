/** The adoption-application handlers: submitting an application as the
    logged-in user, and listing the requester's own applications with their
    pets. */
module ApplicationController {
  import opened Wrappers
  import opened Ids
  import opened Http
  import opened ApplicationModel
  import PetModel
  import UserModel
  import opened Database
  import Strings

  const Submitted := "Application submitted"
  const CreateFailed := "Failed to create application"
  const FetchFailed := "Failed to fetch applications"

  /** The body of a submission; an `applicant` in it is ignored. */
  datatype ApplicationBody = ApplicationBody(petId: Option<string>, adoption_intent: Option<string>, pet_location_plan: Option<string>)

  /** `{ message, application }` on success, `{ message, error: error.message }` on a thrown error. */
  datatype CreateBody =
    | Created(message: string, id: Id, application: Application)
    | Failed(message: string, error: string)

  /** An application with `pet` populated; `None` is the `null` of a pet that no longer exists. */
  datatype ApplicationView = ApplicationView(id: Id, application: Application, pet: Option<PetModel.Pet>)

  /** The document `new Application({...})` is given: the applicant is the requester. */
  function Submission(me: Id, body: ApplicationBody): (f: ApplicationFields)
    ensures f.applicant == Some(me) && f.status.None?
    ensures f.pet == body.petId && f.adoption_intent == body.adoption_intent && f.pet_location_plan == body.pet_location_plan
  {
    ApplicationFields(Some(me), body.petId, body.adoption_intent, body.pet_location_plan, None)
  }

  /** `createApplication`: the application is validated and stored under a
      fresh id; a validation error is answered with 500 and its message. */
  method CreateApplication(db: Store, me: UserModel.Profile, body: ApplicationBody, newId: Id) returns (reply: Reply<CreateBody>)
    requires db.Unused(newId)
    modifies db
    ensures db.users == old(db.users) && db.pets == old(db.pets)
    ensures Create(Submission(me.id, body)).Err? ==>
              && reply == Send(500, Failed(CreateFailed, ValidationMessage(Create(Submission(me.id, body)).error)))
              && db.applications == old(db.applications)
    ensures Create(Submission(me.id, body)).Ok? ==>
              var a := Create(Submission(me.id, body)).value;
              && reply == Send(201, Created(Submitted, newId, a))
              && db.applications == old(db.applications)[newId := a]
              && a.applicant == me.id && a.status == DefaultStatus
    ensures old(db.Consistent()) ==> db.Consistent()
  {
    var created := Create(Submission(me.id, body));
    if created.Err? {
      return Send(500, Failed(CreateFailed, ValidationMessage(created.error)));
    }
    var a := created.value;
    CreateValid(Submission(me.id, body), a);
    db.applications := db.applications[newId := a];
    reply := Send(201, Created(Submitted, newId, a));
  }

  /** A submission from a requester with a stored id, naming a pet by an
      ObjectId and answering both questions, is accepted as a pending
      application of that requester for that pet. */
  lemma SubmissionAccepted(me: Id, body: ApplicationBody)
    requires IsCanonical(me)
    requires body.petId.Some? && Cast(body.petId.value).Some?
    requires body.adoption_intent.Some? && body.adoption_intent.value != ""
    requires body.pet_location_plan.Some? && body.pet_location_plan.value != ""
    ensures Create(Submission(me, body)).Ok?
    ensures Create(Submission(me, body)).value
      == Application(me, Cast(body.petId.value).value, body.adoption_intent.value, body.pet_location_plan.value, "pending")
  {
  }

  /** A submission missing the pet, the intent or the plan is refused, and nothing is stored. */
  lemma SubmissionRefused(me: Id, body: ApplicationBody)
    requires body.petId.None? || body.adoption_intent.None? || body.pet_location_plan.None?
    ensures Create(Submission(me, body)).Err?
  {
    CreateRejects(Submission(me, body));
  }

  predicate ByApplicant(a: Application, me: Id)
  {
    a.applicant == me
  }

  /** The models the application registers, one per model file. Mongoose
      looks a `ref` up among them by its exact name, case included. */
  const RegisteredModels: set<string> := {UserModel.ModelName, PetModel.ModelName, ApplicationModel.ModelName}

  /** The message of the `MissingSchemaError` Mongoose throws for a `ref` that names no registered model. */
  function MissingSchemaMessage(name: string): string
  {
    "Schema hasn't been registered for model \"" + name + "\".\nUse mongoose.model(name, schema)"
  }

  /** The `pet` of an application as `populate` fills it in from a registered
      model: the pet document, or `null` for a pet that no longer exists. */
  function PetOf(pets: map<Id, PetModel.Pet>, id: Id): (r: Option<PetModel.Pet>)
    ensures r.Some? <==> id in pets
    ensures r.Some? ==> r.value == pets[id]
  {
    if id in pets then Some(pets[id]) else None
  }

  /** The `pet` ref differs from the pet model's registered name only in case, so it names no model. */
  lemma PetRefNamesNoModel()
    ensures ApplicationModel.PetRef !in RegisteredModels
    ensures Strings.Lower(ApplicationModel.PetRef) == PetModel.ModelName && PetModel.ModelName in RegisteredModels
  {
  }

  /** The body of a fetch: the populated applications, or `{ message, error: error.message }` from the catch. */
  datatype MineBody =
    | Found(applications: seq<ApplicationView>)
    | NotFetched(message: string, error: string)

  predicate HasApplied(apps: map<Id, Application>, me: Id)
  {
    exists id :: id in apps && apps[id].applicant == me
  }

  /** `Application.find({ applicant }).populate('pet')` with the `pet` path
      referring to the model named `petRef`, and the `res.json` or the catch
      that follows. Populating no documents looks nothing up; populating some
      through an unregistered name throws. */
  method FindByApplicant(db: Store, me: UserModel.Profile, petRef: string) returns (reply: Reply<MineBody>)
    ensures HasApplied(db.applications, me.id) && petRef !in RegisteredModels ==>
              reply == Send(500, NotFetched(FetchFailed, MissingSchemaMessage(petRef)))
    ensures !HasApplied(db.applications, me.id) || petRef in RegisteredModels ==>
              reply.status == 200 && reply.body.Data? && reply.body.value.Found? && reply.cookie == NoCookie
    ensures !HasApplied(db.applications, me.id) ==> reply == Send(200, Found([]))
    ensures reply.body.Data? && reply.body.value.Found? ==>
              var found := reply.body.value.applications;
              && (forall k :: 0 <= k < |found| ==>
                    var v := found[k];
                    v.id in db.applications && v.application == db.applications[v.id]
                    && v.application.applicant == me.id && v.pet == PetOf(db.pets, v.application.pet))
              && (forall id :: id in db.applications && db.applications[id].applicant == me.id ==>
                    exists k :: 0 <= k < |found| && found[k].id == id)
              && (forall i, j :: 0 <= i < j < |found| ==> found[i].id != found[j].id)
  {
    var ids := Select(db.applications, (a: Application) => ByApplicant(a, me.id));
    if ids != [] {
      assert HasApplied(db.applications, me.id) by {
        assert db.applications[ids[0]].applicant == me.id;
      }
    }
    if ids != [] && petRef !in RegisteredModels {
      return Send(500, NotFetched(FetchFailed, MissingSchemaMessage(petRef)));
    }
    var views: seq<ApplicationView> := [];
    for i := 0 to |ids|
      invariant |views| == i
      invariant forall k :: 0 <= k < i ==>
                  views[k].id == ids[k] && views[k].application == db.applications[ids[k]]
                  && views[k].pet == PetOf(db.pets, views[k].application.pet)
    {
      var a := db.applications[ids[i]];
      views := views + [ApplicationView(ids[i], a, PetOf(db.pets, a.pet))];
    }
    forall id | id in db.applications && db.applications[id].applicant == me.id
      ensures exists k :: 0 <= k < |views| && views[k].id == id
    {
      var k :| 0 <= k < |ids| && ids[k] == id;
      assert views[k].id == id;
    }
    reply := Send(200, Found(views));
  }

  /** `getMyApplications` as written: `ref: 'Pet'` names no registered model,
      so a requester without applications gets an empty list and any other
      requester the 500 of the catch. */
  method GetMyApplications(db: Store, me: UserModel.Profile) returns (reply: Reply<MineBody>)
    ensures !HasApplied(db.applications, me.id) ==> reply == Send(200, Found([]))
    ensures HasApplied(db.applications, me.id) ==>
              reply == Send(500, NotFetched(FetchFailed, MissingSchemaMessage("Pet")))
  {
    PetRefNamesNoModel();
    reply := FindByApplicant(db, me, ApplicationModel.PetRef);
  }

  /** `getMyApplications` with the `pet` ref naming the registered `pet`
      model: exactly the requester's applications, each once, with its pet. */
  method GetMyApplicationsFixed(db: Store, me: UserModel.Profile) returns (reply: Reply<MineBody>)
    ensures reply.status == 200 && reply.body.Data? && reply.body.value.Found? && reply.cookie == NoCookie
    ensures forall k :: 0 <= k < |reply.body.value.applications| ==>
              var v := reply.body.value.applications[k];
              v.id in db.applications && v.application == db.applications[v.id]
              && v.application.applicant == me.id && v.pet == PetOf(db.pets, v.application.pet)
    ensures forall id :: id in db.applications && db.applications[id].applicant == me.id ==>
              exists k :: 0 <= k < |reply.body.value.applications| && reply.body.value.applications[k].id == id
    ensures forall i, j :: 0 <= i < j < |reply.body.value.applications| ==>
              reply.body.value.applications[i].id != reply.body.value.applications[j].id
  {
    PetRefNamesNoModel();
    reply := FindByApplicant(db, me, PetModel.ModelName);
  }
}
