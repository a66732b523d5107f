/** What the two application cards show: the status badge, the applicant's
    initials and contact row, the avatar fallbacks, and the ids the
    seller's buttons hand back. */
module ApplicationCards {
  import opened Wrappers
  import Strings

  /** The badge variants of the UI kit. */
  datatype BadgeVariant = Default | Secondary | Destructive | Outline

  /** The applicant as the seller's view receives it. */
  datatype Applicant = Applicant(id: string, name: string, email: string, contact: Option<string>, picture: string)

  /** An application with its applicant and its pet's name, as the seller's page lists it. */
  datatype ApplicationDetails = ApplicationDetails(
    id: string, status: string, applicant: Applicant, petName: string, adoption_intent: string, pet_location_plan: string)

  /** `getStatusBadgeVariant`, written the same way in both cards. */
  function StatusBadge(status: string): (v: BadgeVariant)
    ensures v != Outline
    ensures v == Default <==> status == "approved"
    ensures v == Destructive <==> status == "rejected"
    ensures v == Secondary <==> status != "approved" && status != "rejected"
  {
    if status == "approved" then Default
    else if status == "rejected" then Destructive
    else Secondary
  }

  /** The three application statuses get three different badges. */
  lemma StatusesLookDifferent()
    ensures StatusBadge("approved") != StatusBadge("rejected")
    ensures StatusBadge("approved") != StatusBadge("pending")
    ensures StatusBadge("rejected") != StatusBadge("pending")
  {
  }

  /** The state the "Contact Adopter" link carries to the contact page. */
  datatype ContactState = ContactState(recipient: Applicant, petName: string)

  /** What the seller's card renders and wires. */
  datatype SellerCard = SellerCard(
    initials: string, badge: BadgeVariant, email: string, phone: Option<string>,
    contactLink: ContactState, rejectArg: string, approveArg: string)

  function SellerCardOf(app: ApplicationDetails): (c: SellerCard)
    ensures c.initials == Strings.Initials(app.applicant.name)
    ensures c.badge == StatusBadge(app.status) && c.email == app.applicant.email
    ensures c.phone.Some? <==> app.applicant.contact.Some? && app.applicant.contact.value != ""
    ensures c.phone.Some? ==> c.phone == app.applicant.contact
    ensures c.contactLink.recipient == app.applicant && c.contactLink.petName == app.petName
    ensures c.rejectArg == app.id && c.approveArg == app.id
  {
    SellerCard(Strings.Initials(app.applicant.name), StatusBadge(app.status), app.applicant.email,
               if app.applicant.contact.Some? && app.applicant.contact.value != "" then app.applicant.contact else None,
               ContactState(app.applicant, app.petName), app.id, app.id)
  }

  /** An application with its pet, as the adopter's list shows it. */
  datatype ApplicationWithPet = ApplicationWithPet(id: string, status: string, petName: string, petImages: seq<string>, ownerName: string)

  const PlaceholderImage := "/placeholder-pet.jpg"

  /** `images[0] || '/placeholder-pet.jpg'`. */
  function AvatarImage(images: seq<string>): (src: string)
    ensures src != ""
    ensures |images| > 0 && images[0] != "" ==> src == images[0]
    ensures (|images| == 0 || images[0] == "") ==> src == PlaceholderImage
  {
    if |images| > 0 && images[0] != "" then images[0] else PlaceholderImage
  }

  /** What the adopter's card renders. */
  datatype AdopterCard = AdopterCard(image: string, fallback: string, title: string, listedBy: string, badge: BadgeVariant)

  function AdopterCardOf(app: ApplicationWithPet): (c: AdopterCard)
    ensures c.image == AvatarImage(app.petImages) && c.badge == StatusBadge(app.status)
    ensures |c.fallback| <= 1 && (app.petName != "" ==> c.fallback == [app.petName[0]])
    ensures c.title == app.petName && c.listedBy == app.ownerName
  {
    AdopterCard(AvatarImage(app.petImages), Strings.FirstChar(app.petName), app.petName, app.ownerName, StatusBadge(app.status))
  }

  /** The applicant's initials are one letter per word of a name written with single spaces. */
  lemma InitialsOfApplicant(words: seq<string>)
    requires |words| >= 1
    requires forall k :: 0 <= k < |words| ==> words[k] != "" && ' ' !in words[k]
    ensures |Strings.Initials(Strings.Join(words, " "))| == |words|
    ensures forall k :: 0 <= k < |words| ==> Strings.Initials(Strings.Join(words, " "))[k] == words[k][0]
  {
    Strings.InitialsOfWords(words);
  }
}
