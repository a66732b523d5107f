/** The three-step "list a pet" wizard: the form's schema, the validation
    each step asks for before moving on, the image list it keeps beside the
    form, the buttons each step shows, the "Listing Active" switch and the
    nested payload it submits. The upload widget and the request are
    parameters: their results arrive as arguments. */
module ListPetForm {
  import opened Wrappers
  import Seqs
  import Zod

  const SpeciesValues: set<string> := {"dog", "cat", "rabbit", "bird", "other"}
  const GenderValues: set<string> := {"male", "female"}
  const StatusValues: set<string> := {"available", "pending", "adopted"}

  const IncompleteStep := "Please fill out all required fields before continuing."
  const Listed := "Pet listed successfully!"
  const ListingFailed := "Failed to list pet. Please try again."

  /** The form's values; numbers are the numbers the inputs coerce to, and an
      unset optional field is `None`. */
  datatype PetFormValues = PetFormValues(
    name: string, species: Option<string>, description: string, adoption_fee: int,
    city: string, country: string, images: seq<string>, breed: Option<string>,
    age: Option<int>, gender: Option<string>, height: Option<int>, weight: Option<int>,
    vaccinated: bool, special_needs: bool, state: Option<string>, status: string)

  /** The form's `defaultValues`. */
  const Defaults := PetFormValues("", None, "", 0, "", "", [], Some(""), None, None, None, None, false, false, Some(""), "available")

  /** The fields of the schema, in its order. */
  datatype Field =
    | Name | Species | Description | AdoptionFee | City | Country | Images | Breed
    | Age | Gender | Height | Weight | Vaccinated | SpecialNeeds | State | Status

  /** The schema's rule for one field. */
  predicate FieldValid(v: PetFormValues, f: Field)
  {
    match f
    case Name => |v.name| >= 2
    case Species => v.species.Some? && v.species.value in SpeciesValues
    case Description => |v.description| >= 10
    case AdoptionFee => v.adoption_fee >= 0
    case City => |v.city| >= 2
    case Country => |v.country| >= 2
    case Images => |v.images| >= 1
    case Age => Zod.PositiveOrAbsent(v.age)
    case Gender => Zod.InOrAbsent(v.gender, GenderValues)
    case Height => Zod.PositiveOrAbsent(v.height)
    case Weight => Zod.PositiveOrAbsent(v.weight)
    case Status => v.status in StatusValues
    case Breed => true
    case Vaccinated => true
    case SpecialNeeds => true
    case State => true
  }

  /** The whole schema, written out rule by rule. */
  predicate FormValid(v: PetFormValues)
  {
    && |v.name| >= 2 && v.species.Some? && v.species.value in SpeciesValues
    && |v.description| >= 10 && v.adoption_fee >= 0
    && |v.city| >= 2 && |v.country| >= 2 && |v.images| >= 1
    && Zod.PositiveOrAbsent(v.age) && Zod.InOrAbsent(v.gender, GenderValues)
    && Zod.PositiveOrAbsent(v.height) && Zod.PositiveOrAbsent(v.weight)
    && v.status in StatusValues
  }

  /** The schema holds exactly when every field's rule holds. */
  lemma FormValidIffFields(v: PetFormValues)
    ensures FormValid(v) <==> forall f: Field :: FieldValid(v, f)
  {
    if forall f: Field :: FieldValid(v, f) {
      assert FieldValid(v, Name) && FieldValid(v, Species) && FieldValid(v, Description);
      assert FieldValid(v, AdoptionFee) && FieldValid(v, City) && FieldValid(v, Country);
      assert FieldValid(v, Images) && FieldValid(v, Age) && FieldValid(v, Gender);
      assert FieldValid(v, Height) && FieldValid(v, Weight) && FieldValid(v, Status);
    }
  }

  /** The defaults do not pass: the name, the species, the description, the
      place and the images are still missing. */
  lemma DefaultsInvalid()
    ensures !FieldValid(Defaults, Name) && !FieldValid(Defaults, Species) && !FieldValid(Defaults, Description)
    ensures !FieldValid(Defaults, City) && !FieldValid(Defaults, Country) && !FieldValid(Defaults, Images)
    ensures FieldValid(Defaults, AdoptionFee) && FieldValid(Defaults, Status)
  {
  }

  // ---------------------------------------------------------------- steps

  /** `fieldsToValidate` for the step. */
  function StepFields(step: int): (fs: seq<Field>)
    ensures step == 1 ==> fs == [Name, Description, Images]
    ensures step == 2 ==> fs == [Species]
    ensures step != 1 && step != 2 ==> fs == []
  {
    if step == 1 then [Name, Description, Images] else if step == 2 then [Species] else []
  }

  /** `form.trigger(fieldsToValidate)` resolves to true. */
  predicate StepValid(v: PetFormValues, step: int)
  {
    forall f :: f in StepFields(step) ==> FieldValid(v, f)
  }

  /** Step 1 checks the name, the description and the images, and step 2 the species, and nothing else. */
  lemma StepChecks(v: PetFormValues)
    ensures StepValid(v, 1) <==> |v.name| >= 2 && |v.description| >= 10 && |v.images| >= 1
    ensures StepValid(v, 2) <==> v.species.Some? && v.species.value in SpeciesValues
  {
    assert StepFields(1) == [Name, Description, Images];
    if |v.name| >= 2 && |v.description| >= 10 && |v.images| >= 1 {
      forall f | f in StepFields(1) ensures FieldValid(v, f) {
      }
    }
    if StepValid(v, 1) {
      assert Name in StepFields(1) && Description in StepFields(1) && Images in StepFields(1);
      assert FieldValid(v, Name) && FieldValid(v, Description) && FieldValid(v, Images);
    }
    assert Species in StepFields(2);
  }

  /** A form that satisfies the whole schema passes both steps' checks. */
  lemma FormValidPassesSteps(v: PetFormValues)
    requires FormValid(v)
    ensures StepValid(v, 1) && StepValid(v, 2)
  {
    StepChecks(v);
  }

  /** The buttons of the footer. */
  predicate BackShown(step: int) { step > 1 }
  predicate ContinueShown(step: int) { step < 3 }
  predicate SaveShown(step: int) { step == 3 }

  /** On every step exactly one of Continue and Save is shown, Back everywhere but the first. */
  lemma ButtonsPerStep(step: int)
    requires 1 <= step <= 3
    ensures ContinueShown(step) != SaveShown(step)
    ensures BackShown(step) <==> step != 1
  {
  }

  // ---------------------------------------------------------------- switch

  /** The switch is on for an available listing. */
  predicate SwitchChecked(status: string)
  {
    status == "available"
  }

  /** `checked ? "available" : "pending"`. */
  function SwitchStatus(checked: bool): (status: string)
    ensures status in StatusValues
    ensures SwitchChecked(status) <==> checked
  {
    if checked then "available" else "pending"
  }

  /** The switch shows what it sets, and sets back an available or pending status it shows. */
  lemma SwitchRoundTrip(status: string)
    requires status == "available" || status == "pending"
    ensures SwitchStatus(SwitchChecked(status)) == status
  {
  }

  // ---------------------------------------------------------------- payload

  datatype HealthStatus = HealthStatus(vaccinated: bool, special_needs: bool)
  datatype Size = Size(height: Option<int>, weight: Option<int>)
  datatype Location = Location(city: string, country: string, state: Option<string>)

  /** `CreatePetPayload`. */
  datatype CreatePetPayload = CreatePetPayload(
    name: string, species: Option<string>, description: string, adoption_fee: int,
    images: seq<string>, breed: Option<string>, age: Option<int>, gender: Option<string>,
    health_status: HealthStatus, size: Size, status: string, location: Location)

  /** `petDataForApi`: the flags, the measurements and the place nested, the rest copied. */
  function Payload(data: PetFormValues): CreatePetPayload
  {
    CreatePetPayload(
      data.name, data.species, data.description, data.adoption_fee, data.images, data.breed, data.age, data.gender,
      HealthStatus(data.vaccinated, data.special_needs), Size(data.height, data.weight), data.status,
      Location(data.city, data.country, data.state))
  }

  /** The form values a payload was built from, read back out of its nesting. */
  function Flatten(p: CreatePetPayload): PetFormValues
  {
    PetFormValues(
      p.name, p.species, p.description, p.adoption_fee, p.location.city, p.location.country, p.images,
      p.breed, p.age, p.gender, p.size.height, p.size.weight,
      p.health_status.vaccinated, p.health_status.special_needs, p.location.state, p.status)
  }

  /** Nesting loses and invents nothing: every form value is in the payload, and every payload was built from one. */
  lemma PayloadRoundTrip(data: PetFormValues, p: CreatePetPayload)
    ensures Flatten(Payload(data)) == data
    ensures Payload(Flatten(p)) == p
  {
  }

  /** What follows the request: the new pet's page, or the server's message
      (when the error carries one) in the toast. */
  datatype SubmitOutcome = SubmitOutcome(navigate: Option<string>, toast: string)

  function AfterSubmit(created: Result<string, Option<string>>): (o: SubmitOutcome)
    ensures o.navigate.Some? <==> created.Ok?
    ensures created.Ok? ==> o == SubmitOutcome(Some("/pets/" + created.value), Listed)
    ensures created.Err? && created.error.Some? && created.error.value != "" ==> o.toast == created.error.value
    ensures created.Err? && (created.error.None? || created.error.value == "") ==> o.toast == ListingFailed
  {
    match created
    case Ok(id) => SubmitOutcome(Some("/pets/" + id), Listed)
    case Err(message) =>
      SubmitOutcome(None, if message.Some? && message.value != "" then message.value else ListingFailed)
  }

  // ---------------------------------------------------------------- image list

  /** An upload followed by the removal of a URL that was not there before
      removes it from the new URLs only: the old list stays in front, untouched. */
  lemma UploadThenDelete(images: seq<string>, urls: seq<string>, url: string)
    requires url !in images
    ensures Seqs.Without(images + urls, url) == images + Seqs.Without(urls, url)
  {
    Seqs.WithoutConcat(images, urls, url);
    Seqs.WithoutAbsent(images, url);
  }

  // ---------------------------------------------------------------- the wizard

  /** The wizard: the step the parent page holds, the image list kept beside
      the form, and the form's values. */
  class Wizard {
    var currentStep: int
    var images: seq<string>
    var values: PetFormValues

    /** The step is one of the three and the form's `images` mirror the list. */
    predicate Valid()
      reads this
    {
      1 <= currentStep <= 3 && values.images == images
    }

    constructor()
      ensures Valid() && currentStep == 1 && images == [] && values == Defaults
    {
      currentStep := 1;
      images := [];
      values := Defaults;
    }

    /** `handleImagesUploaded`: the new URLs go after the existing ones. */
    method HandleImagesUploaded(urls: seq<string>)
      requires Valid()
      modifies this
      ensures Valid()
      ensures images == old(images) + urls
      ensures values == old(values).(images := images) && currentStep == old(currentStep)
    {
      var newImages := images + urls;
      images := newImages;
      values := values.(images := newImages);
    }

    /** `handleDeleteImage`: every copy of the URL goes, the others keep their order. */
    method HandleDeleteImage(url: string)
      requires Valid()
      modifies this
      ensures Valid()
      ensures images == Seqs.Without(old(images), url)
      ensures values == old(values).(images := images) && currentStep == old(currentStep)
    {
      var newImages := Seqs.Without(images, url);
      images := newImages;
      values := values.(images := newImages);
    }

    /** `handleNextStep`, reachable through Continue: one step on when the
        step's fields pass, otherwise the same step and the error toast. */
    method HandleNextStep() returns (toast: Option<string>)
      requires Valid() && ContinueShown(currentStep)
      modifies this
      ensures Valid()
      ensures StepValid(old(values), old(currentStep)) ==> currentStep == old(currentStep) + 1 && toast == None
      ensures !StepValid(old(values), old(currentStep)) ==> currentStep == old(currentStep) && toast == Some(IncompleteStep)
      ensures images == old(images) && values == old(values)
    {
      var fields := StepFields(currentStep);
      var isValid := forall f :: f in fields ==> FieldValid(values, f);
      if isValid {
        currentStep := currentStep + 1;
        toast := None;
      } else {
        toast := Some(IncompleteStep);
      }
    }

    /** Back, shown after the first step. */
    method Back()
      requires Valid() && BackShown(currentStep)
      modifies this
      ensures Valid()
      ensures currentStep == old(currentStep) - 1 && images == old(images) && values == old(values)
    {
      currentStep := currentStep - 1;
    }

    /** The "Listing Active" switch. */
    method SetListingActive(checked: bool)
      requires Valid()
      modifies this
      ensures Valid()
      ensures values == old(values).(status := SwitchStatus(checked))
      ensures images == old(images) && currentStep == old(currentStep)
    {
      values := values.(status := SwitchStatus(checked));
    }
  }
}
