/** The browse grid's pet card: where a click leads, the age line and the tags it shows. */
module PetCard {
  import opened Wrappers
  import Strings

  const LoginRequired := "You must be logged in to view pet details."

  /** Where a click leads, and the error toast shown on the way, if any. */
  datatype Click = Click(navigate: string, toast: Option<string>)

  /** `handleCardClick`: a logged-in user opens the pet's page, a guest is sent to log in. */
  function ClickOf(loggedIn: bool, petId: string): (c: Click)
    ensures loggedIn ==> c == Click("/pets/" + petId, None)
    ensures !loggedIn ==> c == Click("/login", Some(LoginRequired))
  {
    if loggedIn then Click("/pets/" + petId, None) else Click("/login", Some(LoginRequired))
  }

  /** A guest never reaches a pet's page, whatever the id. */
  lemma GuestsNeverSeeDetails(petId: string)
    ensures ClickOf(false, petId).navigate != "/pets/" + petId
  {
    assert ("/pets/" + petId)[1] == 'p';
  }

  /** `pet.age === 1 ? 'year' : 'years'`. */
  function AgeUnit(age: Option<int>): (unit: string)
    ensures unit == "year" <==> age == Some(1)
    ensures unit == "years" <==> age != Some(1)
  {
    if age == Some(1) then "year" else "years"
  }

  /** The age line: the age (nothing when missing), the unit and "old". */
  function AgeLine(age: Option<int>): (line: string)
    ensures |line| >= |AgeUnit(age)| + 5
    ensures line[|line| - |AgeUnit(age)| - 4..] == AgeUnit(age) + " old"
    ensures age.Some? ==>
              |Strings.IntToString(age.value)| < |line| && line[..|Strings.IntToString(age.value)|] == Strings.IntToString(age.value)
    ensures age.None? ==> line == " years old"
  {
    (if age.Some? then Strings.IntToString(age.value) else "") + " " + AgeUnit(age) + " old"
  }

  /** One year reads in the singular; a missing age leaves only the unit, in the plural. */
  lemma AgeLineExamples()
    ensures AgeLine(Some(1)) == "1 year old"
    ensures AgeLine(Some(3)) == "3 years old"
    ensures AgeLine(None) == " years old"
  {
  }

  datatype Tag = AvailableTag | PendingTag | VaccinatedTag

  /** The tags, in the card's order. */
  function Tags(status: string, vaccinated: bool): (tags: seq<Tag>)
    ensures AvailableTag in tags <==> status == "available"
    ensures PendingTag in tags <==> status == "pending"
    ensures VaccinatedTag in tags <==> vaccinated
    ensures !(AvailableTag in tags && PendingTag in tags)
    ensures forall i, j :: 0 <= i < j < |tags| ==> tags[i] != tags[j]
  {
    (if status == "available" then [AvailableTag] else [])
    + (if status == "pending" then [PendingTag] else [])
    + (if vaccinated then [VaccinatedTag] else [])
  }

  /** An adopted pet shows no status tag, only the vaccination one if it has it. */
  lemma AdoptedHasNoStatusTag(vaccinated: bool)
    ensures Tags("adopted", vaccinated) == (if vaccinated then [VaccinatedTag] else [])
  {
  }
}
