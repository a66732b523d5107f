/** The labels of a pet's details panel: the species icon, the age, gender,
    size, health and fee texts, and the status badge. */
module PetInfo {
  import opened Wrappers
  import Strings
  import opened ApplicationCards

  const NotAvailable := "N/A"

  datatype SpeciesIcon = DogIcon | CatIcon | BirdIcon | RabbitIcon | PawPrintIcon

  /** The entries of `speciesIcons`. */
  function IconEntry(key: string): Option<SpeciesIcon>
  {
    if key == "dog" then Some(DogIcon)
    else if key == "cat" then Some(CatIcon)
    else if key == "bird" then Some(BirdIcon)
    else if key == "rabbit" then Some(RabbitIcon)
    else if key == "other" then Some(PawPrintIcon)
    else None
  }

  /** `speciesIcons[species.toLowerCase()] || speciesIcons.other`. */
  function IconOf(species: string): (icon: SpeciesIcon)
    ensures icon == DogIcon <==> Strings.Lower(species) == "dog"
    ensures icon == CatIcon <==> Strings.Lower(species) == "cat"
    ensures icon == BirdIcon <==> Strings.Lower(species) == "bird"
    ensures icon == RabbitIcon <==> Strings.Lower(species) == "rabbit"
  {
    IconEntry(Strings.Lower(species)).GetOr(PawPrintIcon)
  }

  /** Any capitalisation of a known species gets its icon. */
  lemma IconIgnoresCase(a: string, b: string)
    requires Strings.Lower(a) == Strings.Lower(b)
    ensures IconOf(a) == IconOf(b)
  {
  }

  /** A number JavaScript treats as true; missing is false. */
  predicate Truthy(n: Option<int>)
  {
    n.Some? && n.value != 0
  }

  /** `pet.age ? \`${pet.age} years\` : 'N/A'`. */
  function AgeLabel(age: Option<int>): string
  {
    if Truthy(age) then Strings.IntToString(age.value) + " years" else NotAvailable
  }

  /** A missing or zero age reads N/A, and two ages that are given read differently when they differ. */
  lemma AgeLabelFaithful(a: Option<int>, b: Option<int>)
    ensures !Truthy(a) ==> AgeLabel(a) == NotAvailable
    ensures Truthy(a) ==> AgeLabel(a) != NotAvailable
    ensures Truthy(a) && Truthy(b) && AgeLabel(a) == AgeLabel(b) ==> a == b
  {
    if Truthy(a) {
      assert AgeLabel(a)[|AgeLabel(a)| - 1] == 's';
    }
    if Truthy(a) && Truthy(b) && AgeLabel(a) == AgeLabel(b) {
      var sa, sb := Strings.IntToString(a.value), Strings.IntToString(b.value);
      assert |sa| == |sb|;
      assert sa == AgeLabel(a)[..|sa|] && sb == AgeLabel(b)[..|sb|];
      Strings.IntToStringInjective(a.value, b.value);
    }
  }

  /** The gender with its first letter upper-cased, or N/A when missing or empty. */
  function GenderLabel(gender: Option<string>): (s: string)
    ensures gender.None? || gender.value == "" ==> s == NotAvailable
    ensures gender.Some? && gender.value != "" ==>
              |s| == |gender.value| && s[0] == Strings.UpperChar(gender.value[0]) && s[1..] == gender.value[1..]
  {
    if gender.Some? && gender.value != "" then Strings.Capitalize(gender.value) else NotAvailable
  }

  /** `value ? \`${value} <unit>\` : undefined`, for the height in cm and the weight in kg. */
  function MeasureLabel(value: Option<int>, unit: string): (s: Option<string>)
    ensures s.Some? <==> Truthy(value)
    ensures s.Some? ==> s.value == Strings.IntToString(value.value) + " " + unit
  {
    if Truthy(value) then Some(Strings.IntToString(value.value) + " " + unit) else None
  }

  /** Two measures that are given, in the same unit, read differently when they differ. */
  lemma MeasureLabelInjective(a: Option<int>, b: Option<int>, unit: string)
    requires Truthy(a) && Truthy(b) && MeasureLabel(a, unit) == MeasureLabel(b, unit)
    ensures a == b
  {
    var sa, sb := Strings.IntToString(a.value), Strings.IntToString(b.value);
    assert |sa| == |sb|;
    assert sa == MeasureLabel(a, unit).value[..|sa|] && sb == MeasureLabel(b, unit).value[..|sb|];
    Strings.IntToStringInjective(a.value, b.value);
  }

  function YesNo(b: bool): string
  {
    if b then "Yes" else "No"
  }

  /** `$${pet.adoption_fee}`. */
  function FeeLabel(fee: int): (s: string)
    ensures |s| >= 2 && s[0] == '$' && s[1..] == Strings.IntToString(fee)
  {
    "$" + Strings.IntToString(fee)
  }

  /** A fee the schema accepts (`min: 0`) is read back from its label's digits. */
  lemma {:induction false} FeeLabelReadsBack(fee: int)
    requires fee >= 0
    ensures forall i :: 1 <= i < |FeeLabel(fee)| ==> Strings.IsDigit(FeeLabel(fee)[i])
    ensures Strings.DigitsValue(FeeLabel(fee)[1..]) == fee
  {
    assert FeeLabel(fee)[1..] == Strings.NatToString(fee);
    Strings.NatToStringRoundTrip(fee);
  }

  /** The status badge: the default variant only for an available pet. */
  function StatusVariant(status: string): (v: BadgeVariant)
    ensures v == Default <==> status == "available"
    ensures v == Default || v == Secondary
  {
    if status == "available" then Default else Secondary
  }
}
