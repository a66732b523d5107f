/** The seller's page for one pet's applications: it loads the pet and its
    applications, refuses to show them to anyone but the pet's owner,
    filters them by status, and applies an approval or a rejection to the
    list it holds. The two fetches and the status request are parameters:
    their results arrive as arguments. */
module ViewApplications {
  import opened Wrappers
  import opened ApplicationCards
  import Seqs

  const MissingPetId := "Pet ID is missing from the URL."
  const NotAuthorized := "You are not authorized to view these applications."
  const LoadFailed := "Could not load data. Please refresh the page."
  const UpdateFailed := "Failed to update status. Please try again."

  /** The pet header: its id, its owner and its status. */
  datatype PetHeader = PetHeader(id: string, ownerId: string, name: string, status: string)

  // ---------------------------------------------------------------- filter

  /** `applications.filter(app => app.status === status)`. */
  function WithStatus(apps: seq<ApplicationDetails>, status: string): (r: seq<ApplicationDetails>)
    ensures |r| <= |apps|
    ensures forall k :: 0 <= k < |r| ==> r[k].status == status && r[k] in apps
  {
    if apps == [] then []
    else (if apps[0].status == status then [apps[0]] else []) + WithStatus(apps[1..], status)
  }

  /** `filteredApplications`: `'all'` shows everything. */
  function Filtered(apps: seq<ApplicationDetails>, filter: string): seq<ApplicationDetails>
  {
    if filter == "all" then apps else WithStatus(apps, filter)
  }

  /** Every application with the chosen status is kept, so the filter drops only the others. */
  lemma {:induction false} WithStatusComplete(apps: seq<ApplicationDetails>, status: string)
    ensures forall a :: a in apps && a.status == status ==> a in WithStatus(apps, status)
  {
    if apps != [] {
      WithStatusComplete(apps[1..], status);
    }
  }

  /** The filter keeps the original order: filtering a concatenation filters each part. */
  lemma {:induction false} WithStatusConcat(a: seq<ApplicationDetails>, b: seq<ApplicationDetails>, status: string)
    ensures WithStatus(a + b, status) == WithStatus(a, status) + WithStatus(b, status)
  {
    if a == [] {
      assert a + b == b;
    } else {
      assert (a + b)[0] == a[0] && (a + b)[1..] == a[1..] + b;
      WithStatusConcat(a[1..], b, status);
      Seqs.AppendAssoc(if a[0].status == status then [a[0]] else [], WithStatus(a[1..], status), WithStatus(b, status));
    }
  }

  /** A list whose every application already has the status is kept as it is. */
  lemma {:induction false} WithStatusKeepsMatching(apps: seq<ApplicationDetails>, status: string)
    requires forall k :: 0 <= k < |apps| ==> apps[k].status == status
    ensures WithStatus(apps, status) == apps
  {
    if apps != [] {
      WithStatusKeepsMatching(apps[1..], status);
      assert apps == [apps[0]] + apps[1..];
    }
  }

  /** `'all'` is the whole list; another filter is exactly the applications with that status. */
  lemma FilteredSpec(apps: seq<ApplicationDetails>, filter: string)
    ensures filter == "all" ==> Filtered(apps, filter) == apps
    ensures filter != "all" ==>
              forall a :: a in Filtered(apps, filter) <==> a in apps && a.status == filter
  {
    if filter != "all" {
      WithStatusComplete(apps, filter);
    }
  }

  // ---------------------------------------------------------------- updaters

  function ApproveOne(a: ApplicationDetails, id: string): ApplicationDetails
  {
    if a.id == id then a.(status := "approved")
    else if a.status == "pending" then a.(status := "rejected")
    else a
  }

  /** The updater after an approval: the target is approved and every other pending one is rejected. */
  function Approve(apps: seq<ApplicationDetails>, id: string): (r: seq<ApplicationDetails>)
    ensures |r| == |apps|
    ensures forall k :: 0 <= k < |r| ==> r[k] == ApproveOne(apps[k], id)
  {
    seq(|apps|, k requires 0 <= k < |apps| => ApproveOne(apps[k], id))
  }

  /** The updater after a rejection: only the target changes. */
  function SetStatus(apps: seq<ApplicationDetails>, id: string, status: string): (r: seq<ApplicationDetails>)
    ensures |r| == |apps|
    ensures forall k :: 0 <= k < |r| ==> r[k] == (if apps[k].id == id then apps[k].(status := status) else apps[k])
  {
    seq(|apps|, k requires 0 <= k < |apps| => if apps[k].id == id then apps[k].(status := status) else apps[k])
  }

  /** After an approval nothing is pending, the order and every other field stay, settled applications other than
      the target stay as they were, and exactly the target and the previously approved ones are approved. */
  lemma ApproveSpec(apps: seq<ApplicationDetails>, id: string)
    ensures forall k :: 0 <= k < |apps| ==> Approve(apps, id)[k].status != "pending"
    ensures forall k :: 0 <= k < |apps| ==> Approve(apps, id)[k] == apps[k].(status := Approve(apps, id)[k].status)
    ensures forall k :: 0 <= k < |apps| && apps[k].id != id && apps[k].status != "pending" ==> Approve(apps, id)[k] == apps[k]
    ensures forall k :: 0 <= k < |apps| ==>
              (Approve(apps, id)[k].status == "approved" <==> apps[k].id == id || apps[k].status == "approved")
  {
  }

  /** A rejection changes only the target's status, and rejecting twice is rejecting once. */
  lemma RejectSpec(apps: seq<ApplicationDetails>, id: string)
    ensures forall k :: 0 <= k < |apps| && apps[k].id != id ==> SetStatus(apps, id, "rejected")[k] == apps[k]
    ensures SetStatus(SetStatus(apps, id, "rejected"), id, "rejected") == SetStatus(apps, id, "rejected")
    ensures (forall k :: 0 <= k < |apps| ==> apps[k].id != id) ==> SetStatus(apps, id, "rejected") == apps
  {
  }

  // ---------------------------------------------------------------- the page

  class ApplicationsPage {
    var pet: Option<PetHeader>
    var applications: seq<ApplicationDetails>
    var isLoading: bool
    var error: Option<string>
    var statusFilter: string

    constructor()
      ensures pet == None && applications == [] && isLoading && error == None && statusFilter == "all"
    {
      pet := None;
      applications := [];
      isLoading := true;
      error := None;
      statusFilter := "all";
    }

    /** What the list shows. */
    function Visible(): seq<ApplicationDetails>
      reads this
    {
      Filtered(applications, statusFilter)
    }

    /** The page's effect. `fetched` is `None` when either request fails; `userId` is the logged-in user's id. */
    method FetchData(petId: Option<string>, userId: Option<string>, fetched: Option<(PetHeader, seq<ApplicationDetails>)>)
      modifies this
      ensures !isLoading && statusFilter == old(statusFilter)
      ensures (petId.None? || petId.value == "") ==>
                error == Some(MissingPetId) && pet == old(pet) && applications == old(applications)
      ensures petId.Some? && petId.value != "" && fetched.None? ==>
                error == Some(LoadFailed) && pet == old(pet) && applications == old(applications)
      ensures petId.Some? && petId.value != "" && fetched.Some? && userId != Some(fetched.value.0.ownerId) ==>
                error == Some(NotAuthorized) && pet == old(pet) && applications == old(applications)
      ensures petId.Some? && petId.value != "" && fetched.Some? && userId == Some(fetched.value.0.ownerId) ==>
                error == old(error) && pet == Some(fetched.value.0) && applications == fetched.value.1
    {
      if petId.None? || petId.value == "" {
        error := Some(MissingPetId);
        isLoading := false;
        return;
      }
      if fetched.None? {
        error := Some(LoadFailed);
      } else {
        var (p, apps) := fetched.value;
        if userId != Some(p.ownerId) {
          error := Some(NotAuthorized);
        } else {
          pet := Some(p);
          applications := apps;
        }
      }
      isLoading := false;
    }

    method SetFilter(filter: string)
      modifies this
      ensures statusFilter == filter
      ensures pet == old(pet) && applications == old(applications) && isLoading == old(isLoading) && error == old(error)
    {
      statusFilter := filter;
    }

    /** `handleStatusUpdate`: on success the list is updated, and an approval
        marks the pet adopted; on failure nothing changes. The toast text is returned. */
    method HandleStatusUpdate(id: string, newStatus: string, succeeded: bool) returns (toast: string)
      requires newStatus == "approved" || newStatus == "rejected"
      modifies this
      ensures isLoading == old(isLoading) && error == old(error) && statusFilter == old(statusFilter)
      ensures !succeeded ==> toast == UpdateFailed && pet == old(pet) && applications == old(applications)
      ensures succeeded ==> toast == "Application has been " + newStatus + "."
      ensures succeeded && newStatus == "approved" ==>
                applications == Approve(old(applications), id)
                && pet == (if old(pet).Some? then Some(old(pet).value.(status := "adopted")) else None)
      ensures succeeded && newStatus == "rejected" ==>
                applications == SetStatus(old(applications), id, "rejected") && pet == old(pet)
      ensures |applications| == |old(applications)|
      ensures forall k :: 0 <= k < |applications| ==> applications[k].id == old(applications)[k].id
    {
      if !succeeded {
        return UpdateFailed;
      }
      if newStatus == "approved" {
        applications := Approve(applications, id);
        if pet.Some? {
          pet := Some(pet.value.(status := "adopted"));
        }
      } else {
        applications := SetStatus(applications, id, newStatus);
      }
      toast := "Application has been " + newStatus + ".";
    }
  }
}
