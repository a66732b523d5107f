/** The `Application` collection's schema: an adoption application names its
    applicant and its pet by id, carries two required answers, and has a
    status that starts as `pending`. */
module ApplicationModel {
  import opened Wrappers
  import opened Ids
  import Strings
  import opened Schema

  /** The name `mongoose.model` registers the schema under. */
  const ModelName := "Application"
  /** The model the `pet` path's `ref` names, and so the one `populate('pet')` looks up. */
  const PetRef := "Pet"

  const Statuses: seq<string> := ["pending", "approved", "rejected"]
  const DefaultStatus := "pending"

  datatype Application = Application(
    applicant: Id,
    pet: Id,
    adoption_intent: string,
    pet_location_plan: string,
    status: string)

  /** The values a new application is built from; `pet` is the request's
      string, cast to an id when the document is validated. */
  datatype ApplicationFields = ApplicationFields(
    applicant: Option<Id>,
    pet: Option<string>,
    adoption_intent: Option<string>,
    pet_location_plan: Option<string>,
    status: Option<string>)

  /** One failing path and its message, as a `ValidationError` lists it. */
  datatype PathError = PathError(path: string, message: string)

  predicate Valid(a: Application)
  {
    && IsCanonical(a.applicant) && IsCanonical(a.pet)
    && a.adoption_intent != "" && a.pet_location_plan != ""
    && a.status in Statuses
  }

  function Required(path: string, ok: bool): (r: seq<PathError>)
    ensures ok <==> r == []
  {
    if ok then [] else [PathError(path, RequiredMessage(path))]
  }

  function PetErrors(v: Option<string>): (r: seq<PathError>)
    ensures r == [] <==> v.Some? && Cast(v.value).Some?
  {
    if v.None? then [PathError("pet", RequiredMessage("pet"))]
    else if Cast(v.value).None? then [PathError("pet", CastMessage(v.value, "pet"))]
    else []
  }

  /** The validation messages, in schema path order. A present applicant
      that is not a canonical id is reported here with the `required`
      message, where Mongoose would report a cast error; the handlers never
      pass one, since the applicant is always the requester's stored id. */
  function Errors(f: ApplicationFields): (r: seq<PathError>)
    ensures r == [] <==>
      && (f.applicant.Some? && IsCanonical(f.applicant.value))
      && (f.pet.Some? && Cast(f.pet.value).Some?)
      && (f.adoption_intent.Some? && f.adoption_intent.value != "")
      && (f.pet_location_plan.Some? && f.pet_location_plan.value != "")
      && (f.status.None? || f.status.value in Statuses)
  {
    Required("applicant", f.applicant.Some? && IsCanonical(f.applicant.value))
    + PetErrors(f.pet)
    + Required("adoption_intent", f.adoption_intent.Some? && f.adoption_intent.value != "")
    + Required("pet_location_plan", f.pet_location_plan.Some? && f.pet_location_plan.value != "")
    + (if f.status.Some? && f.status.value !in Statuses
       then [PathError("status", EnumMessage(f.status.value, "status"))] else [])
  }

  /** `new Application(fields).save()`: defaults, then validation. */
  function Create(f: ApplicationFields): Result<Application, seq<PathError>>
  {
    if Errors(f) == [] then
      Ok(Application(f.applicant.value, Cast(f.pet.value).value, f.adoption_intent.value,
                     f.pet_location_plan.value, f.status.GetOr(DefaultStatus)))
    else Err(Errors(f))
  }

  /** `error.message` of a `ValidationError`: the model's name, then each
      failing path with its message. */
  function ValidationMessage(errors: seq<PathError>): string
  {
    "Application validation failed: " + Strings.Join(PathMessages(errors), ", ")
  }

  function PathMessages(errors: seq<PathError>): (r: seq<string>)
    ensures |r| == |errors|
    ensures forall k :: 0 <= k < |errors| ==> r[k] == errors[k].path + ": " + errors[k].message
  {
    if errors == [] then [] else [errors[0].path + ": " + errors[0].message] + PathMessages(errors[1..])
  }

  // ---------------------------------------------------------------- lemmas

  /** A saved application is valid, holds the given values, and is pending
      unless a status was given. */
  lemma CreateValid(f: ApplicationFields, a: Application)
    requires Create(f) == Ok(a)
    ensures Valid(a)
    ensures a.applicant == f.applicant.value && Cast(f.pet.value) == Some(a.pet)
    ensures a.adoption_intent == f.adoption_intent.value && a.pet_location_plan == f.pet_location_plan.value
    ensures f.status.None? ==> a.status == "pending"
  {
  }

  /** A missing applicant, pet, intent or plan, an uncastable pet id, or an unknown status, is refused. */
  lemma CreateRejects(f: ApplicationFields)
    ensures f.applicant.None? || f.pet.None? || f.adoption_intent.None? || f.pet_location_plan.None? ==> Create(f).Err?
    ensures f.pet.Some? && Cast(f.pet.value).None? ==> Create(f).Err?
    ensures f.status.Some? && f.status.value !in Statuses ==> Create(f).Err?
  {
  }

  /** Each missing path is reported under its own name with the `required` message. */
  lemma MissingPathMessages(f: ApplicationFields)
    ensures f.applicant.None? ==> Errors(f)[0] == PathError("applicant", RequiredMessage("applicant"))
    ensures f.pet.None? ==> PathError("pet", RequiredMessage("pet")) in Errors(f)
    ensures f.adoption_intent.None? ==> PathError("adoption_intent", RequiredMessage("adoption_intent")) in Errors(f)
  {
    var a := Required("applicant", f.applicant.Some? && IsCanonical(f.applicant.value));
    var b := PetErrors(f.pet);
    var c := Required("adoption_intent", f.adoption_intent.Some? && f.adoption_intent.value != "");
    var d := Required("pet_location_plan", f.pet_location_plan.Some? && f.pet_location_plan.value != "");
    var s := if f.status.Some? && f.status.value !in Statuses
             then [PathError("status", EnumMessage(f.status.value, "status"))] else [];
    assert Errors(f) == a + b + c + d + s;
  }

  /** Every valid application is accepted again as it is. */
  lemma CreateComplete(a: Application)
    requires Valid(a)
    ensures Create(ApplicationFields(Some(a.applicant), Some(a.pet), Some(a.adoption_intent),
                                     Some(a.pet_location_plan), Some(a.status))) == Ok(a)
  {
    CastCanonical(a.pet);
  }
}
