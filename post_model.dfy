/** The food listing record of models/Post.ts. */
module PostModel {
  import opened Shared

  /** A stored listing. Every field but `completed` is required, and a
      required text field refuses the empty string, hence `NonEmpty`.
      `donorId` is a user id of the same kind as a request's `donorId` and
      `requesterId`. Times are milliseconds; `createdAt` comes from the
      schema's timestamps. */
  datatype Post = Post(
    id: ObjectId,
    donorId: Uid,
    donorName: NonEmpty,
    foodName: NonEmpty,
    description: NonEmpty,
    photoUrl: NonEmpty,
    expiryAt: int,
    locationText: NonEmpty,
    lat: real,
    lng: real,
    completed: bool,
    createdAt: int)

  /** A freshly created listing document: `completed` left out takes the
      schema default false, and the creation time is `now`. */
  function NewPost(id: ObjectId, donorId: Uid, donorName: NonEmpty, foodName: NonEmpty,
                   description: NonEmpty, photoUrl: NonEmpty, expiryAt: int,
                   locationText: NonEmpty, lat: real, lng: real,
                   completed: Option<bool>, now: int): (r: Post)
    ensures r.id == id && r.donorId == donorId && r.donorName == donorName
    ensures r.foodName == foodName && r.description == description && r.photoUrl == photoUrl
    ensures r.expiryAt == expiryAt && r.locationText == locationText
    ensures r.lat == lat && r.lng == lng && r.createdAt == now
    ensures completed.None? ==> !r.completed
    ensures completed.Some? ==> r.completed == completed.value
  {
    Post(id, donorId, donorName, foodName, description, photoUrl, expiryAt,
         locationText, lat, lng, completed.Some? && completed.value, now)
  }

  /** The fields of a listing the request list joins onto each request
      (`select("foodName expiryAt donorName locationText")`). */
  datatype PostBrief = PostBrief(id: ObjectId, foodName: string, expiryAt: int,
                                 donorName: string, locationText: string)

  function Brief(p: Post): (r: PostBrief)
    ensures r.id == p.id && r.foodName == p.foodName && r.expiryAt == p.expiryAt
    ensures r.donorName == p.donorName && r.locationText == p.locationText
  {
    PostBrief(p.id, p.foodName, p.expiryAt, p.donorName, p.locationText)
  }
}
