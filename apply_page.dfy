/** The adoption form page: it loads the pet named in the route, shows a
    spinner until the pet is there, checks the two answers and sends them
    with the pet's id. The fetch and the submission are parameters: their
    results arrive as arguments. */
module ApplyPage {
  import opened Wrappers
  import Zod
  import Ids
  import ApplicationModel
  import ApplicationController

  const IntentMessage := "Please explain your intent to adopt."
  const PlanMessage := "Please describe where the pet will stay."
  const SubmittedToast := "Application submitted! The seller will be notified."
  const FailedToast := "Failed to submit application. Please try again."
  const MyApplications := "/my-applications"

  datatype PetSummary = PetSummary(id: string, name: string)

  /** `schema`. */
  function Issues(intent: string, plan: string): seq<string>
  {
    Zod.MinLength(intent, 10, IntentMessage) + Zod.MinLength(plan, 5, PlanMessage)
  }

  lemma IssuesIff(intent: string, plan: string)
    ensures Issues(intent, plan) == [] <==> |intent| >= 10 && |plan| >= 5
    ensures IntentMessage in Issues(intent, plan) <==> |intent| < 10
    ensures PlanMessage in Issues(intent, plan) <==> |plan| < 5
  {
  }

  /** A route parameter JavaScript treats as true. */
  predicate Truthy(petId: Option<string>)
  {
    petId.Some? && petId.value != ""
  }

  /** `onSubmit`: nothing without a pet id, otherwise `{ petId, ...data }`. */
  function Submission(petId: Option<string>, intent: string, plan: string): (body: Option<ApplicationController.ApplicationBody>)
    ensures body.Some? <==> Truthy(petId)
    ensures body.Some? ==> body.value == ApplicationController.ApplicationBody(petId, Some(intent), Some(plan))
  {
    if Truthy(petId) then Some(ApplicationController.ApplicationBody(petId, Some(intent), Some(plan))) else None
  }

  /** A form that passes the client's schema, for a pet id the server can
      cast and a logged-in requester, is stored as that requester's pending
      application for that pet with the two answers unchanged. */
  lemma ValidFormIsAccepted(me: Ids.Id, petId: string, intent: string, plan: string)
    requires Ids.IsCanonical(me) && Ids.Cast(petId).Some? && petId != ""
    requires Issues(intent, plan) == []
    ensures Submission(Some(petId), intent, plan).Some?
    ensures var body := Submission(Some(petId), intent, plan).value;
            ApplicationModel.Create(ApplicationController.Submission(me, body))
            == Ok(ApplicationModel.Application(me, Ids.Cast(petId).value, intent, plan, "pending"))
  {
    IssuesIff(intent, plan);
    ApplicationController.SubmissionAccepted(me, Submission(Some(petId), intent, plan).value);
  }

  /** After the submission: the applications page and its toast on success, only a toast otherwise. */
  datatype AfterSubmit = AfterSubmit(navigate: Option<string>, toast: string)

  function AfterSubmitOf(succeeded: bool): (a: AfterSubmit)
    ensures a.navigate.Some? <==> succeeded
    ensures succeeded ==> a == AfterSubmit(Some(MyApplications), SubmittedToast)
    ensures !succeeded ==> a.toast == FailedToast
  {
    if succeeded then AfterSubmit(Some(MyApplications), SubmittedToast) else AfterSubmit(None, FailedToast)
  }

  class Page {
    var pet: Option<PetSummary>

    constructor()
      ensures pet == None
    {
      pet := None;
    }

    /** The spinner is all the page shows while there is no pet. */
    predicate ShowsSpinner()
      reads this
    {
      pet.None?
    }

    /** The effect: without a pet id nothing is fetched; otherwise the pet is
        the fetched one, or none when the fetch fails. */
    method LoadPet(petId: Option<string>, fetched: Option<PetSummary>)
      modifies this
      ensures !Truthy(petId) ==> pet == old(pet)
      ensures Truthy(petId) ==> pet == fetched
      ensures Truthy(petId) && fetched.None? ==> ShowsSpinner()
    {
      if !Truthy(petId) {
        return;
      }
      pet := fetched;
    }
  }
}
