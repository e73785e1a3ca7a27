/** The visit-request board: a status filter, a card per request, and the
    actions each request's status offers. */
module VisitsView {
  import opened Common

  const Pending := "pending"
  const Confirmed := "confirmed"
  const Accepted := "accepted"
  const Completed := "completed"
  const Rejected := "rejected"
  const AllFilter := "all"

  /** The reason a cancellation is sent with. */
  const CancelReason := "Annulation par l'administrateur"

  /** The filter buttons, in display order. */
  const Filters: seq<string> := [AllFilter, Pending, Confirmed, Accepted, Completed, Rejected]

  /** A visit request as a card shows it; missing texts are `""`. */
  datatype Visit = Visit(id: int, status: string, propertyTitle: string, customerName: string)

  /** The status parameter of the fetch: none for the 'all' filter, the
      filter itself otherwise. */
  function StatusParam(filter: string): (r: Option<string>)
    ensures r.None? <==> filter == AllFilter
    ensures r.Some? ==> r.value == filter
  {
    if filter == AllFilter then None else Some(filter)
  }

  /** The filter button labels; the last branch of the chain also catches
      any value that is not one of the first five. */
  function FilterLabel(filter: string): (r: string)
    ensures filter == AllFilter ==> r == "Toutes"
    ensures filter == Pending ==> r == "En Attente"
    ensures filter == Confirmed ==> r == "Confirmées"
    ensures filter == Accepted ==> r == "Acceptées"
    ensures filter == Completed ==> r == "Effectuées"
    ensures filter !in {AllFilter, Pending, Confirmed, Accepted, Completed} ==> r == "Rejetées"
  {
    if filter == AllFilter then "Toutes"
    else if filter == Pending then "En Attente"
    else if filter == Confirmed then "Confirmées"
    else if filter == Accepted then "Acceptées"
    else if filter == Completed then "Effectuées"
    else "Rejetées"
  }

  /** The six filter buttons carry six different labels. */
  lemma FilterLabelsDistinct()
    ensures forall i, j :: 0 <= i < j < |Filters| ==> FilterLabel(Filters[i]) != FilterLabel(Filters[j])
  {
  }

  /** The status badge of a card; an unknown status shows none. */
  function Badge(status: string): (r: Option<string>)
    ensures r.Some? <==> status in {Pending, Confirmed, Accepted, Completed, Rejected}
    ensures status == Pending ==> r == Some("En attente")
    ensures status == Confirmed ==> r == Some("Confirmé")
    ensures status == Rejected ==> r == Some("Rejeté")
    ensures status == Accepted ==> r == Some("Accepté")
    ensures status == Completed ==> r == Some("Effectuée")
  {
    if status == Pending then Some("En attente")
    else if status == Confirmed then Some("Confirmé")
    else if status == Rejected then Some("Rejeté")
    else if status == Accepted then Some("Accepté")
    else if status == Completed then Some("Effectuée")
    else None
  }

  /** The card's title and client line fallbacks. */
  function TitleText(v: Visit): (r: string)
    ensures r != ""
    ensures v.propertyTitle != "" ==> r == v.propertyTitle
    ensures v.propertyTitle == "" ==> r == "Titre inconnu"
  {
    if v.propertyTitle != "" then v.propertyTitle else "Titre inconnu"
  }

  function CustomerText(v: Visit): (r: string)
    ensures r != ""
    ensures v.customerName != "" ==> r == v.customerName
    ensures v.customerName == "" ==> r == "Inconnu"
  {
    if v.customerName != "" then v.customerName else "Inconnu"
  }

  /** The buttons of a card. "Accept" confirms the visit. */
  datatype VisitAction = Accept | Refuse | MarkCompleted | Cancel

  /** The buttons a status offers, in the order they are rendered. */
  function Actions(status: string): (r: seq<VisitAction>)
    ensures Accept in r <==> status == Pending
    ensures Refuse in r <==> status == Pending
    ensures MarkCompleted in r <==> status == Accepted
    ensures Cancel in r <==> status == Confirmed || status == Accepted
    ensures Distinct(r)
  {
    if status == Pending then [Accept, Refuse]
    else if status == Confirmed then [Cancel]
    else if status == Accepted then [MarkCompleted, Cancel]
    else []
  }

  /** Rejected, completed and unknown statuses offer nothing. */
  lemma SettledVisitsOfferNothing(status: string)
    requires status !in [Pending, Confirmed, Accepted]
    ensures Actions(status) == []
  {
  }

  /** The calls the handlers make. A rejection carries its reason. */
  datatype VisitCall = ConfirmVisit(id: int) | RejectVisit(id: int, reason: string) | CompleteVisit(id: int)

  /** `handleReject`: the prompt's answer (`None` when dismissed) must be a
      non-empty reason. */
  function RejectCall(id: int, answer: Option<string>): (r: Option<VisitCall>)
    ensures r.Some? <==> answer.Some? && answer.value != ""
    ensures r.Some? ==> r.value == RejectVisit(id, answer.value)
  {
    if answer.Some? && answer.value != "" then Some(RejectVisit(id, answer.value)) else None
  }

  /** `handleCancel`: after confirmation, a rejection with the fixed
      reason. */
  function CancelCall(id: int, confirmed: bool): (r: Option<VisitCall>)
    ensures r.Some? <==> confirmed
    ensures r.Some? ==> r.value.RejectVisit? && r.value.id == id && r.value.reason == CancelReason
  {
    if confirmed then Some(RejectVisit(id, CancelReason)) else None
  }

  /** A confirmed cancellation is exactly the rejection an admin would type
      with the fixed reason. */
  lemma CancelIsAdminReject(id: int)
    ensures CancelCall(id, true) == RejectCall(id, Some(CancelReason))
  {
  }

  /** `handleComplete`: after confirmation. */
  function CompleteCall(id: int, confirmed: bool): (r: Option<VisitCall>)
    ensures r.Some? <==> confirmed
    ensures r.Some? ==> r.value == CompleteVisit(id)
  {
    if confirmed then Some(CompleteVisit(id)) else None
  }

  /** Pressing a button: `answer` is what the reason prompt returned and
      `confirmed` what the confirmation dialog returned, for the buttons
      that ask. */
  function Press(v: Visit, a: VisitAction, answer: Option<string>, confirmed: bool): (r: Option<VisitCall>)
    ensures a == Accept ==> r == Some(ConfirmVisit(v.id))
    ensures a == Refuse ==> r == RejectCall(v.id, answer)
    ensures a == MarkCompleted ==> r == CompleteCall(v.id, confirmed)
    ensures a == Cancel ==> r == CancelCall(v.id, confirmed)
    ensures r.Some? ==> (match r.value
      case ConfirmVisit(id) => id == v.id
      case RejectVisit(id, _) => id == v.id
      case CompleteVisit(id) => id == v.id)
  {
    match a
    case Accept => Some(ConfirmVisit(v.id))
    case Refuse => RejectCall(v.id, answer)
    case MarkCompleted => CompleteCall(v.id, confirmed)
    case Cancel => CancelCall(v.id, confirmed)
  }

  /** What the board can send for a visit, given the buttons its status
      offers: only a pending visit is confirmed, only an accepted one is
      completed, and a rejection of a visit that is not pending always
      carries the cancellation reason. */
  lemma CallsFollowStatus(v: Visit, a: VisitAction, answer: Option<string>, confirmed: bool)
    requires a in Actions(v.status)
    ensures var r := Press(v, a, answer, confirmed);
      r.Some? ==>
        (r.value.ConfirmVisit? ==> v.status == Pending)
        && (r.value.CompleteVisit? ==> v.status == Accepted)
        && (r.value.RejectVisit? && v.status != Pending ==>
              r.value.reason == CancelReason
              && (v.status == Confirmed || v.status == Accepted))
  {
    if a == Refuse {
      assert v.status == Pending;
    }
  }
}
