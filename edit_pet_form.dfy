/** The form that edits an existing listing: the values it starts from, its
    schema, the payload it sends, and where the page goes after a save or a
    deletion. The two requests are parameters: whether they succeeded
    arrives as an argument. */
module EditPetForm {
  import opened Wrappers
  import Zod
  import ListPetForm

  const DescriptionMessage := "Description is required."
  const StatusValues: set<string> := {"available", "pending", "adopted"}
  const MyListings := "/my-listings"

  const Saved := "Listing updated successfully!"
  const SaveFailed := "Failed to update listing."
  const Deleted := "Listing deleted successfully."
  const DeleteFailed := "Failed to delete listing."

  /** The stored flags, either of which may be missing. */
  datatype HealthFlags = HealthFlags(vaccinated: Option<bool>, special_needs: Option<bool>)

  /** The parts of the stored pet the form reads; any of them may be missing in what the server sent. */
  datatype StoredPet = StoredPet(
    id: string, description: Option<string>, age: Option<int>, status: string,
    health_status: Option<HealthFlags>, images: Option<seq<string>>)

  /** The form's values. */
  datatype EditValues = EditValues(
    description: string, age: Option<int>, status: string,
    vaccinated: bool, special_needs: bool, images: Option<seq<string>>)

  /** `pet.health_status?.<flag> ?? false`, for either flag. */
  function Flag(h: Option<HealthFlags>, vaccinated: bool): bool
  {
    if h.None? then false
    else if vaccinated then h.value.vaccinated.GetOr(false)
    else h.value.special_needs.GetOr(false)
  }

  /** `defaultValues`. */
  function Defaults(pet: StoredPet): EditValues
  {
    EditValues(pet.description.GetOr(""), pet.age, pet.status,
               Flag(pet.health_status, true), Flag(pet.health_status, false), Some(pet.images.GetOr([])))
  }

  /** The form starts from the stored values where there are any: a missing
      description is empty, missing images are none, and missing flags are off. */
  lemma DefaultsFromStored(pet: StoredPet)
    ensures pet.description.Some? ==> Defaults(pet).description == pet.description.value
    ensures pet.description.None? ==> Defaults(pet).description == ""
    ensures Defaults(pet).images.Some?
    ensures Defaults(pet).images.value == (if pet.images.Some? then pet.images.value else [])
    ensures Defaults(pet).age == pet.age && Defaults(pet).status == pet.status
    ensures pet.health_status.None? ==> !Defaults(pet).vaccinated && !Defaults(pet).special_needs
    ensures pet.health_status.Some? && pet.health_status.value.vaccinated.Some? ==>
              Defaults(pet).vaccinated == pet.health_status.value.vaccinated.value
    ensures pet.health_status.Some? && pet.health_status.value.special_needs.Some? ==>
              Defaults(pet).special_needs == pet.health_status.value.special_needs.value
  {
  }

  /** `editPetFormSchema`: the issue each field raises, in field order. */
  function Issues(v: EditValues): (issues: seq<string>)
    ensures DescriptionMessage in issues <==> |v.description| < 10
  {
    Zod.MinLength(v.description, 10, DescriptionMessage)
  }

  predicate EditValid(v: EditValues)
  {
    Issues(v) == [] && Zod.PositiveOrAbsent(v.age) && v.status in StatusValues
  }

  /** The schema asks for a description of ten characters, a positive age if
      any, and a status of the three; the flags and images are free. */
  lemma EditValidIff(v: EditValues)
    ensures EditValid(v) <==> |v.description| >= 10 && Zod.PositiveOrAbsent(v.age) && v.status in StatusValues
  {
  }

  /** A stored pet whose description is long enough, whose age is positive or
      missing and whose status is one of the three opens as a form that can be
      saved unchanged. */
  lemma SoundPetSavesUnchanged(pet: StoredPet)
    requires pet.description.Some? && |pet.description.value| >= 10
    requires Zod.PositiveOrAbsent(pet.age) && pet.status in StatusValues
    ensures EditValid(Defaults(pet))
  {
  }

  /** `dataForApi`: the form's data spread, plus `health_status` built from the two flags. */
  datatype UpdatePayload = UpdatePayload(
    description: string, age: Option<int>, status: string, vaccinated: bool, special_needs: bool,
    images: Option<seq<string>>, health_status: ListPetForm.HealthStatus)

  function Payload(data: EditValues): UpdatePayload
  {
    UpdatePayload(data.description, data.age, data.status, data.vaccinated, data.special_needs, data.images,
                  ListPetForm.HealthStatus(data.vaccinated, data.special_needs))
  }

  /** The form data a payload spreads. */
  function DataOf(p: UpdatePayload): EditValues
  {
    EditValues(p.description, p.age, p.status, p.vaccinated, p.special_needs, p.images)
  }

  /** The payload carries the form's data unchanged, and its `health_status` mirrors the two flags. */
  lemma PayloadMirrorsFlags(data: EditValues)
    ensures DataOf(Payload(data)) == data
    ensures Payload(data).health_status.vaccinated == data.vaccinated
    ensures Payload(data).health_status.special_needs == data.special_needs
  {
  }

  /** Where the page goes afterwards, and the toast it shows. */
  datatype Outcome = Outcome(navigate: Option<string>, toast: string)

  /** `onSubmit`: to the listings page whether the update succeeded or not. */
  function AfterSave(succeeded: bool): (o: Outcome)
    ensures o.navigate == Some(MyListings)
    ensures o.toast == (if succeeded then Saved else SaveFailed)
  {
    Outcome(Some(MyListings), if succeeded then Saved else SaveFailed)
  }

  /** `handleDelete`: to the listings page only when the deletion succeeded. */
  function AfterDelete(succeeded: bool): (o: Outcome)
    ensures o.navigate.Some? <==> succeeded
    ensures succeeded ==> o == Outcome(Some(MyListings), Deleted)
    ensures !succeeded ==> o.toast == DeleteFailed
  {
    if succeeded then Outcome(Some(MyListings), Deleted) else Outcome(None, DeleteFailed)
  }
}
