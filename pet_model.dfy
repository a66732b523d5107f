/** The `pet` collection's schema: which values a pet document may hold, the
    setters that normalise them (`trim`, `lowercase`), the defaults that fill
    absent paths, and the messages its validators report. */
module PetModel {
  import opened Wrappers
  import opened Ids
  import Strings
  import opened Schema

  /** The name `mongoose.model` registers the schema under. */
  const ModelName := "pet"

  const Species: seq<string> := ["dog", "cat", "rabbit", "bird", "other"]
  const Genders: seq<string> := ["male", "female"]
  const Statuses: seq<string> := ["available", "pending", "adopted"]
  const MaxDescription: nat := 1000

  const NameRequired := "Pet name is required."
  const AgeNegative := "Age cannot be negative."
  const DescriptionRequired := "A description is required."
  const DescriptionTooLong := "Description is too long."
  const FeeNegative := "Adoption fee cannot be negative."
  const ImageRequired := "At least one image is required."

  /** A stored pet. The nested `size`, `health_status` and `location` paths are flattened. */
  datatype Pet = Pet(
    name: string,
    species: string,
    breed: Option<string>,
    age: Option<int>,
    gender: Option<string>,
    height: Option<int>,
    weight: Option<int>,
    description: string,
    vaccinated: bool,
    special_needs: bool,
    adoption_fee: int,
    city: string,
    state: Option<string>,
    country: string,
    images: seq<string>,
    listed_by: Id,
    status: string)

  /** The values a create or an update supplies, path by path; `None` is an absent path. */
  datatype Fields = Fields(
    name: Option<string>,
    species: Option<string>,
    breed: Option<string>,
    age: Option<int>,
    gender: Option<string>,
    height: Option<int>,
    weight: Option<int>,
    description: Option<string>,
    vaccinated: Option<bool>,
    special_needs: Option<bool>,
    adoption_fee: Option<int>,
    city: Option<string>,
    state: Option<string>,
    country: Option<string>,
    images: Option<seq<string>>,
    listed_by: Option<Id>,
    status: Option<string>)

  /** The reference description of a pet document the schema accepts. */
  predicate Valid(p: Pet)
  {
    && p.name != "" && Strings.IsTrimmed(p.name)
    && p.species in Species
    && (p.breed.Some? ==> Strings.IsTrimmed(p.breed.value))
    && (p.age.Some? ==> p.age.value >= 0)
    && (p.gender.Some? ==> p.gender.value in Genders)
    && (p.height.Some? ==> p.height.value >= 0)
    && (p.weight.Some? ==> p.weight.value >= 0)
    && p.description != "" && |p.description| <= MaxDescription
    && p.adoption_fee >= 0
    && p.city != "" && Strings.IsTrimmed(p.city)
    && (p.state.Some? ==> Strings.IsTrimmed(p.state.value))
    && p.country != "" && Strings.IsTrimmed(p.country)
    && (forall k :: 0 <= k < |p.images| ==> p.images[k] != "")
    && p.status in Statuses
  }

  /** The paths' setters: `trim` on name, breed and the location parts,
      `lowercase` on species and gender. */
  function Setters(f: Fields): Fields
  {
    f.(name := TrimOpt(f.name), species := LowerOpt(f.species), breed := TrimOpt(f.breed),
       gender := LowerOpt(f.gender), city := TrimOpt(f.city), state := TrimOpt(f.state),
       country := TrimOpt(f.country))
  }

  /** The schema defaults, applied to absent paths when a document is created. */
  function Defaults(f: Fields): Fields
  {
    f.(vaccinated := Some(f.vaccinated.GetOr(false)), special_needs := Some(f.special_needs.GetOr(false)),
       adoption_fee := Some(f.adoption_fee.GetOr(0)), images := Some(f.images.GetOr([])),
       status := Some(f.status.GetOr("available")))
  }

  /** `required` on a string path. On create an absent path fails; on update
      only the paths present in the update are validated. */
  predicate TextOk(v: Option<string>, create: bool)
  {
    if v.None? then !create else v.value != ""
  }

  function ImageErrors(images: seq<string>): (r: seq<string>)
    ensures (forall k :: 0 <= k < |images| ==> images[k] != "") <==> r == []
    ensures forall k :: 0 <= k < |r| ==> r[k] == ImageRequired
  {
    if images == [] then []
    else Check(images[0] != "", ImageRequired) + ImageErrors(images[1..])
  }

  function SpeciesErrors(v: Option<string>, create: bool): (r: seq<string>)
    ensures r == [] <==> TextOk(v, create) && (v.Some? ==> v.value in Species)
  {
    if !TextOk(v, create) then [RequiredMessage("species")]
    else if v.Some? && v.value !in Species then [v.value + " is not a supported species."]
    else []
  }

  function DescriptionErrors(v: Option<string>, create: bool): (r: seq<string>)
    ensures r == [] <==> TextOk(v, create) && (v.Some? ==> |v.value| <= MaxDescription)
  {
    if !TextOk(v, create) then [DescriptionRequired]
    else if v.Some? && |v.value| > MaxDescription then [DescriptionTooLong]
    else []
  }

  function FeeErrors(v: Option<int>, create: bool): (r: seq<string>)
    ensures r == [] <==> (v.Some? || !create) && (v.Some? ==> v.value >= 0)
  {
    if v.None? && create then [RequiredMessage("adoption_fee")]
    else if v.Some? && v.value < 0 then [FeeNegative]
    else []
  }

  function EnumErrors(v: Option<string>, values: seq<string>, path: string): (r: seq<string>)
    ensures r == [] <==> (v.Some? ==> v.value in values)
  {
    if v.Some? && v.value !in values then [EnumMessage(v.value, path)] else []
  }

  function MinZeroErrors(v: Option<int>, path: string): (r: seq<string>)
    ensures r == [] <==> (v.Some? ==> v.value >= 0)
  {
    if v.Some? && v.value < 0 then [MinMessage(path, v.value, 0)] else []
  }

  /** The messages of every failing path, in schema path order. */
  function Errors(f: Fields, create: bool): seq<string>
  {
    Check(TextOk(f.name, create), NameRequired)
    + SpeciesErrors(f.species, create)
    + Check(f.age.None? || f.age.value >= 0, AgeNegative)
    + EnumErrors(f.gender, Genders, "gender")
    + MinZeroErrors(f.height, "size.height")
    + MinZeroErrors(f.weight, "size.weight")
    + DescriptionErrors(f.description, create)
    + FeeErrors(f.adoption_fee, create)
    + Check(TextOk(f.city, create), RequiredMessage("location.city"))
    + Check(TextOk(f.country, create), RequiredMessage("location.country"))
    + (if f.images.Some? then ImageErrors(f.images.value) else [])
    + Check(f.listed_by.Some? || !create, RequiredMessage("listed_by"))
    + EnumErrors(f.status, Statuses, "status")
  }

  function Build(d: Fields): Pet
    requires Errors(d, true) == []
    requires d.vaccinated.Some? && d.special_needs.Some? && d.images.Some? && d.status.Some?
  {
    Pet(d.name.value, d.species.value, d.breed, d.age, d.gender, d.height, d.weight, d.description.value,
        d.vaccinated.value, d.special_needs.value, d.adoption_fee.value, d.city.value, d.state,
        d.country.value, d.images.value, d.listed_by.value, d.status.value)
  }

  /** `Pet.create(fields)`: setters, then defaults, then validation. */
  function Create(input: Fields): Result<Pet, seq<string>>
  {
    var d := Defaults(Setters(input));
    if Errors(d, true) == [] then Ok(Build(d)) else Err(Errors(d, true))
  }

  /** The nested objects an update body may hold. */
  datatype SizePatch = SizePatch(height: Option<int>, weight: Option<int>)
  datatype HealthPatch = HealthPatch(vaccinated: Option<bool>, special_needs: Option<bool>)
  datatype LocationPatch = LocationPatch(city: Option<string>, state: Option<string>, country: Option<string>)

  /** An update body as `req.body` holds it: the top-level paths, and the
      `size`, `health_status` and `location` objects, each of which the
      update's `$set` writes whole, so that a sub-path it omits is gone. */
  datatype Patch = Patch(
    name: Option<string>,
    species: Option<string>,
    breed: Option<string>,
    age: Option<int>,
    gender: Option<string>,
    size: Option<SizePatch>,
    description: Option<string>,
    health_status: Option<HealthPatch>,
    adoption_fee: Option<int>,
    location: Option<LocationPatch>,
    images: Option<seq<string>>,
    listed_by: Option<string>,
    status: Option<string>)

  /** The body that names no path. */
  const NoChanges := Patch(None, None, None, None, None, None, None, None, None, None, None, None, None)

  /** The leaf paths a body writes, with the sub-paths of its nested objects;
      `listed_by` is the ObjectId its string casts to (`Update` refuses an
      uncastable one before it gets here). */
  function Leaves(d: Patch): Fields
  {
    Fields(d.name, d.species, d.breed, d.age, d.gender,
           if d.size.Some? then d.size.value.height else None,
           if d.size.Some? then d.size.value.weight else None,
           d.description,
           if d.health_status.Some? then d.health_status.value.vaccinated else None,
           if d.health_status.Some? then d.health_status.value.special_needs else None,
           d.adoption_fee,
           if d.location.Some? then d.location.value.city else None,
           if d.location.Some? then d.location.value.state else None,
           if d.location.Some? then d.location.value.country else None,
           d.images, if d.listed_by.Some? then Cast(d.listed_by.value) else None, d.status)
  }

  /** Overwriting `location` whole leaves a `city` or `country` it omits
      undefined, and the update validators check every sub-path of the
      overwritten object, so the `required` ones fail. */
  function ReplacedLocationErrors(l: Option<LocationPatch>): (r: seq<string>)
    ensures r == [] <==> l.None? || (l.value.city.Some? && l.value.country.Some?)
  {
    if l.None? then []
    else Check(l.value.city.Some?, RequiredMessage("location.city"))
         + Check(l.value.country.Some?, RequiredMessage("location.country"))
  }

  /** The new document: a top-level path the body names is overwritten, a
      nested object it names replaces the stored one whole (an omitted flag
      reads back as its default `false`), and the rest is kept. `f` is the
      body's leaves after the setters. */
  function Apply(p: Pet, d: Patch, f: Fields): Pet
    requires d.location.Some? ==> f.city.Some? && f.country.Some?
  {
    Pet(f.name.GetOr(p.name), f.species.GetOr(p.species), if f.breed.Some? then f.breed else p.breed,
        if f.age.Some? then f.age else p.age, if f.gender.Some? then f.gender else p.gender,
        if d.size.Some? then f.height else p.height, if d.size.Some? then f.weight else p.weight,
        f.description.GetOr(p.description),
        if d.health_status.Some? then f.vaccinated.GetOr(false) else p.vaccinated,
        if d.health_status.Some? then f.special_needs.GetOr(false) else p.special_needs,
        f.adoption_fee.GetOr(p.adoption_fee),
        if d.location.Some? then f.city.value else p.city,
        if d.location.Some? then f.state else p.state,
        if d.location.Some? then f.country.value else p.country,
        f.images.GetOr(p.images), f.listed_by.GetOr(p.listed_by), f.status.GetOr(p.status))
  }

  /** The messages of an update: those of the paths it writes, then those of
      an overwritten location's missing required parts. */
  function UpdateErrors(d: Patch): seq<string>
  {
    Errors(Setters(Leaves(d)), false) + ReplacedLocationErrors(d.location)
  }

  /** The cast of the body to the schema's types, which the update performs
      before any setter or validator: a `listed_by` that is not an ObjectId
      throws a `CastError`. */
  function UpdateCastErrors(d: Patch): (r: seq<string>)
    ensures r == [] <==> d.listed_by.None? || Cast(d.listed_by.value).Some?
  {
    if d.listed_by.Some? && Cast(d.listed_by.value).None? then [CastMessage(d.listed_by.value, "listed_by")]
    else []
  }

  /** `findByIdAndUpdate(id, body, { new: true, runValidators: true })` on an
      existing pet: the body is cast, then setters and validators run on the
      paths it writes, and the result is the new document. */
  function Update(p: Pet, patch: Patch): Result<Pet, seq<string>>
  {
    var f := Setters(Leaves(patch));
    if UpdateCastErrors(patch) != [] then Err(UpdateCastErrors(patch))
    else if UpdateErrors(patch) == [] then
      assert ReplacedLocationErrors(patch.location) == [];
      Ok(Apply(p, patch, f))
    else Err(UpdateErrors(patch))
  }

  /** Every path of a stored pet, as the fields that would create it again. */
  function ToFields(p: Pet): Fields
  {
    Fields(Some(p.name), Some(p.species), p.breed, p.age, p.gender, p.height, p.weight,
           Some(p.description), Some(p.vaccinated), Some(p.special_needs), Some(p.adoption_fee),
           Some(p.city), p.state, Some(p.country), Some(p.images), Some(p.listed_by), Some(p.status))
  }

  // ---------------------------------------------------------------- lemmas

  lemma EnumsAreLower()
    ensures forall s :: s in Species ==> Strings.IsLower(s)
    ensures forall s :: s in Genders ==> Strings.IsLower(s)
  {
  }

  /** A created pet satisfies the schema, its strings normalised by the setters
      and its absent paths filled with the defaults. */
  lemma CreateValid(input: Fields, p: Pet)
    requires Create(input) == Ok(p)
    ensures Valid(p)
    ensures p.name == Strings.Trim(input.name.value)
    ensures p.species == Strings.Lower(input.species.value)
    ensures p.description == input.description.value
    ensures p.listed_by == input.listed_by.value
    ensures p.adoption_fee == input.adoption_fee.GetOr(0)
    ensures p.vaccinated == input.vaccinated.GetOr(false) && p.special_needs == input.special_needs.GetOr(false)
    ensures p.images == input.images.GetOr([])
    ensures p.status == input.status.GetOr("available")
  {
  }

  /** The setters leave a valid pet's strings as they are. */
  lemma SettersFixValid(p: Pet)
    requires Valid(p)
    ensures Setters(ToFields(p)) == ToFields(p)
  {
    var f := ToFields(p);
    var g := Setters(f);
    TrimOptFixes(f.name);
    TrimOptFixes(f.breed);
    TrimOptFixes(f.city);
    TrimOptFixes(f.state);
    TrimOptFixes(f.country);
    EnumsAreLower();
    LowerOptFixes(f.species);
    LowerOptFixes(f.gender);
  }

  lemma TrimOptFixes(v: Option<string>)
    requires v.Some? ==> Strings.IsTrimmed(v.value)
    ensures TrimOpt(v) == v
  {
    if v.Some? { Strings.TrimFixesTrimmed(v.value); }
  }

  lemma LowerOptFixes(v: Option<string>)
    requires v.Some? ==> Strings.IsLower(v.value)
    ensures LowerOpt(v) == v
  {
    if v.Some? { Strings.LowerFixesLower(v.value); }
  }

  /** Every valid pet is accepted again unchanged: validation rejects nothing it should accept. */
  lemma CreateComplete(p: Pet)
    requires Valid(p)
    ensures Create(ToFields(p)) == Ok(p)
  {
    SettersFixValid(p);
    var d := ToFields(p);
    assert Defaults(d) == d;
    ValidHasNoErrors(p);
    assert Build(d) == p;
  }

  lemma ValidHasNoErrors(p: Pet)
    requires Valid(p)
    ensures Errors(ToFields(p), true) == []
  {
    var d := ToFields(p);
    ErrorsEmpty(d, true);
    assert ImageErrors(p.images) == [];
  }

  /** The message list is empty exactly when every path passes. */
  lemma ErrorsEmpty(f: Fields, create: bool)
    ensures Errors(f, create) == [] <==>
      && TextOk(f.name, create)
      && SpeciesErrors(f.species, create) == []
      && (f.age.None? || f.age.value >= 0)
      && EnumErrors(f.gender, Genders, "gender") == []
      && MinZeroErrors(f.height, "size.height") == []
      && MinZeroErrors(f.weight, "size.weight") == []
      && DescriptionErrors(f.description, create) == []
      && FeeErrors(f.adoption_fee, create) == []
      && TextOk(f.city, create)
      && TextOk(f.country, create)
      && (f.images.Some? ==> ImageErrors(f.images.value) == [])
      && (f.listed_by.Some? || !create)
      && EnumErrors(f.status, Statuses, "status") == []
  {
  }

  /** The rejections the schema promises, each with its message. */
  lemma CreateRejects(input: Fields)
    ensures input.name.None? || Strings.Trim(input.name.value) == "" ==>
              Create(input).Err? && NameRequired in Create(input).error
    ensures input.species.Some? && Strings.Lower(input.species.value) != "" && Strings.Lower(input.species.value) !in Species ==>
              Create(input).Err? && Strings.Lower(input.species.value) + " is not a supported species." in Create(input).error
    ensures input.age.Some? && input.age.value < 0 ==> Create(input).Err? && AgeNegative in Create(input).error
    ensures input.height.Some? && input.height.value < 0 ==> Create(input).Err?
    ensures input.weight.Some? && input.weight.value < 0 ==> Create(input).Err?
    ensures input.description.Some? && |input.description.value| > MaxDescription ==>
              Create(input).Err? && DescriptionTooLong in Create(input).error
    ensures input.adoption_fee.Some? && input.adoption_fee.value < 0 ==> Create(input).Err? && FeeNegative in Create(input).error
    ensures input.city.None? ==> Create(input).Err? && RequiredMessage("location.city") in Create(input).error
    ensures input.country.None? ==> Create(input).Err? && RequiredMessage("location.country") in Create(input).error
    ensures input.status.Some? && input.status.value !in Statuses ==> Create(input).Err?
  {
    var d := Defaults(Setters(input));
    if input.name.None? || Strings.Trim(input.name.value) == "" {
      assert Errors(d, true)[0] == NameRequired;
    }
  }

  /** Without a state the location is still accepted: only city and country are required. */
  lemma StateOptional(p: Pet)
    requires Valid(p)
    ensures Create(ToFields(p).(state := None)) == Ok(p.(state := None))
  {
    CreateComplete(p.(state := None));
  }

  /** An accepted update keeps a valid pet valid. */
  lemma UpdateValid(p: Pet, patch: Patch, q: Pet)
    requires Valid(p)
    requires Update(p, patch) == Ok(q)
    ensures Valid(q)
  {
    var g := Leaves(patch);
    assert UpdateCastErrors(patch) == [];
    assert Errors(Setters(g), false) == [] && ReplacedLocationErrors(patch.location) == [];
    ApplyValid(p, patch, g);
  }

  /** Applying leaves that passed the setters and the update validators keeps a valid pet valid. */
  lemma ApplyValid(p: Pet, d: Patch, g: Fields)
    requires Valid(p)
    requires d.location.Some? ==> g.city.Some? && g.country.Some?
    requires Errors(Setters(g), false) == []
    ensures Valid(Apply(p, d, Setters(g)))
  {
    var f := Setters(g);
    ErrorsEmpty(f, false);
    if f.images.Some? {
      assert ImageErrors(f.images.value) == [];
    }
  }

  /** An update changes exactly the paths it names, through their setters,
      replaces each nested object it names whole, and keeps the others. */
  lemma UpdateChanges(p: Pet, patch: Patch, q: Pet)
    requires Update(p, patch) == Ok(q)
    ensures q.name == (if patch.name.Some? then Strings.Trim(patch.name.value) else p.name)
    ensures q.species == (if patch.species.Some? then Strings.Lower(patch.species.value) else p.species)
    ensures q.breed == (if patch.breed.Some? then TrimOpt(patch.breed) else p.breed)
    ensures q.gender == (if patch.gender.Some? then LowerOpt(patch.gender) else p.gender)
    ensures q.age == (if patch.age.Some? then patch.age else p.age)
    ensures q.description == patch.description.GetOr(p.description)
    ensures q.adoption_fee == patch.adoption_fee.GetOr(p.adoption_fee)
    ensures q.images == patch.images.GetOr(p.images)
    ensures patch.listed_by.None? ==> q.listed_by == p.listed_by
    ensures patch.listed_by.Some? ==>
              Cast(patch.listed_by.value).Some? && q.listed_by == Cast(patch.listed_by.value).value
    ensures q.status == patch.status.GetOr(p.status)
    ensures patch.size.Some? ==> q.height == patch.size.value.height && q.weight == patch.size.value.weight
    ensures patch.size.None? ==> q.height == p.height && q.weight == p.weight
    ensures patch.health_status.Some? ==>
              && q.vaccinated == patch.health_status.value.vaccinated.GetOr(false)
              && q.special_needs == patch.health_status.value.special_needs.GetOr(false)
    ensures patch.health_status.None? ==> q.vaccinated == p.vaccinated && q.special_needs == p.special_needs
    ensures patch.location.Some? ==>
              && patch.location.value.city.Some? && patch.location.value.country.Some?
              && q.city == Strings.Trim(patch.location.value.city.value)
              && q.state == TrimOpt(patch.location.value.state)
              && q.country == Strings.Trim(patch.location.value.country.value)
    ensures patch.location.None? ==> q.city == p.city && q.state == p.state && q.country == p.country
  {
    var f := Setters(Leaves(patch));
    assert ReplacedLocationErrors(patch.location) == [];
    assert q == Apply(p, patch, f);
  }

  /** An update that names no path leaves the pet as it is. */
  lemma EmptyUpdate(p: Pet)
    ensures Update(p, NoChanges) == Ok(p)
  {
    assert UpdateErrors(NoChanges) == [];
  }

  /** A location without its state replaces the stored one whole: the stored state is gone. */
  lemma ReplacedLocationDropsState(p: Pet)
    ensures Update(p, NoChanges.(location := Some(LocationPatch(Some("Paris"), None, Some("France")))))
         == Ok(p.(city := "Paris", state := None, country := "France"))
  {
    var d := NoChanges.(location := Some(LocationPatch(Some("Paris"), None, Some("France"))));
    var leaves := Fields(None, None, None, None, None, None, None, None, None, None, None,
                         Some("Paris"), None, Some("France"), None, None, None);
    assert Leaves(d) == leaves;
    LocationLeavesAccepted(leaves);
    assert UpdateErrors(d) == [];
    assert Apply(p, d, leaves) == p.(city := "Paris", state := None, country := "France");
  }

  lemma LocationLeavesAccepted(leaves: Fields)
    requires leaves == Fields(None, None, None, None, None, None, None, None, None, None, None,
                              Some("Paris"), None, Some("France"), None, None, None)
    ensures Setters(leaves) == leaves && Errors(leaves, false) == []
  {
    Strings.TrimFixesTrimmed("Paris");
    Strings.TrimFixesTrimmed("France");
    ErrorsEmpty(leaves, false);
  }

  /** An update whose `listed_by` is not an ObjectId, that names a path with
      an invalid value, or a location without its city or its country, is
      refused as a whole. A failed cast is the only error reported: the
      validators do not run after it. */
  lemma UpdateRejects(p: Pet, patch: Patch)
    ensures patch.listed_by.Some? && Cast(patch.listed_by.value).None? ==>
              Update(p, patch) == Err([CastMessage(patch.listed_by.value, "listed_by")])
    ensures patch.status.Some? && patch.status.value !in Statuses ==> Update(p, patch).Err?
    ensures patch.description.Some? && patch.description.value == "" ==>
              && Update(p, patch).Err?
              && (UpdateCastErrors(patch) == [] ==> DescriptionRequired in Update(p, patch).error)
    ensures patch.adoption_fee.Some? && patch.adoption_fee.value < 0 ==> Update(p, patch).Err?
    ensures patch.location.Some? && patch.location.value.city.None? ==>
              && Update(p, patch).Err?
              && (UpdateCastErrors(patch) == [] ==> RequiredMessage("location.city") in Update(p, patch).error)
    ensures patch.location.Some? && patch.location.value.country.None? ==>
              && Update(p, patch).Err?
              && (UpdateCastErrors(patch) == [] ==> RequiredMessage("location.country") in Update(p, patch).error)
  {
  }
}
