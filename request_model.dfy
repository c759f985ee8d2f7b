/** The pickup-request record of models/Request.ts: who asks for which
    listing, from which donor, and where the request stands. */
module RequestModel {
  import opened Shared

  /** The status enumeration of the schema. */
  datatype Status = Pending | Accepted | Rejected | Cancelled

  /** The text the store keeps for a status. */
  function StatusName(s: Status): (r: string)
    ensures r in {"Pending", "Accepted", "Rejected", "Cancelled"}
  {
    match s
    case Pending => "Pending"
    case Accepted => "Accepted"
    case Rejected => "Rejected"
    case Cancelled => "Cancelled"
  }

  /** The schema's enum validator: a stored text is a status exactly when it
      is one of the four names. */
  function ParseStatus(t: string): (r: Option<Status>)
    ensures r.Some? <==> t in {"Pending", "Accepted", "Rejected", "Cancelled"}
  {
    if t == "Pending" then Some(Pending)
    else if t == "Accepted" then Some(Accepted)
    else if t == "Rejected" then Some(Rejected)
    else if t == "Cancelled" then Some(Cancelled)
    else None
  }

  /** Every status survives being stored as text and read back. */
  lemma ParseStatusName(s: Status)
    ensures ParseStatus(StatusName(s)) == Some(s)
  {
  }

  /** Every text the validator accepts is the name of the status it yields. */
  lemma StatusNameParse(t: string)
    ensures ParseStatus(t).Some? ==> StatusName(ParseStatus(t).value) == t
  {
  }

  /** A request that still binds the requester to the listing: the
      `$in: ["Pending", "Accepted"]` filter of the handlers. */
  predicate IsOpen(s: Status) {
    s == Pending || s == Accepted
  }

  /** The optional snapshot of donor contact details; each part is optional. */
  datatype DonorDetails = DonorDetails(name: Option<string>, phone: Option<string>, address: Option<string>)

  /** A stored request. `postId`, `donorId` and `requesterId` are required
      and always present; `createdAt`/`updatedAt` come from the schema's
      timestamps, as milliseconds. */
  datatype Request = Request(
    id: ObjectId,
    postId: ObjectId,
    donorId: Uid,
    requesterId: Uid,
    status: Status,
    donorDetails: Option<DonorDetails>,
    createdAt: int,
    updatedAt: int)

  /** A freshly created request document: a status left out takes the schema
      default Pending, no contact snapshot, both timestamps at `now`. */
  function NewRequest(id: ObjectId, postId: ObjectId, donorId: Uid, requesterId: Uid,
                      status: Option<Status>, now: int): (r: Request)
    ensures r.id == id && r.postId == postId
    ensures r.donorId == donorId && r.requesterId == requesterId
    ensures status.None? ==> r.status == Pending
    ensures status.Some? ==> r.status == status.value
    ensures r.donorDetails.None? && r.createdAt == now && r.updatedAt == now
  {
    Request(id, postId, donorId, requesterId,
            if status.Some? then status.value else Pending, None, now, now)
  }
}
