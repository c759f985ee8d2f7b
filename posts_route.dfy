/** The listing endpoint of app/api/posts/route.ts: GET lists listings a page
    at a time, searched, sorted and annotated with the caller's open
    requests; POST creates a listing for the caller. */
module PostsRoute {
  import opened Shared
  import opened Text
  import opened Query
  import opened RequestModel
  import opened PostModel
  import opened RequestsRoute

  // ---------------------------------------------------------------- GET

  /** The search filter: the food name or the location text contains the
      search text, ignoring case. */
  predicate Found(p: Post, search: string) {
    ContainsIgnoreCase(p.foodName, search) || ContainsIgnoreCase(p.locationText, search)
  }

  /** The listings the filter keeps: all of them without a search text. */
  function Searched(posts: seq<Post>, search: Option<string>): (r: seq<Post>)
    ensures forall k :: 0 <= k < |r| ==> r[k] in posts && (Truthy(search) ==> Found(r[k], search.value))
    ensures forall k :: 0 <= k < |posts| && (!Truthy(search) || Found(posts[k], search.value)) ==> posts[k] in r
  {
    if Truthy(search) then Filter(posts, (p: Post) => Found(p, search.value)) else posts
  }

  /** The filter holds each matching listing exactly as often as the
      collection does, and no other listing. */
  lemma SearchedMultiplicity(posts: seq<Post>, search: Option<string>, x: Post)
    ensures multiset(Searched(posts, search))[x]
              == if !Truthy(search) || Found(x, search.value) then multiset(posts)[x] else 0
  {
    if Truthy(search) {
      FilterMultiplicity(posts, (p: Post) => Found(p, search.value), x);
    }
  }

  /** `sort({ expiryAt: 1 })`. */
  function EarliestExpiry(p: Post): int {
    p.expiryAt
  }

  /** `sort({ createdAt: -1 })`. */
  function NewestPost(p: Post): int {
    -p.createdAt
  }

  /** The sort key chosen by the `sort` parameter, "createdAt" by default. */
  function SortKey(sort: Option<string>): Post -> int {
    if sort == Some("expiryAt") then EarliestExpiry else NewestPost
  }

  /** The listings matching the search, in the chosen order. */
  function Ordered(posts: seq<Post>, search: Option<string>, sort: Option<string>): (r: seq<Post>)
    ensures SortedBy(r, SortKey(sort))
    ensures multiset(r) == multiset(Searched(posts, search))
    ensures forall k :: 0 <= k < |r| ==> r[k] in posts && (Truthy(search) ==> Found(r[k], search.value))
    ensures forall k :: 0 <= k < |posts| && (!Truthy(search) || Found(posts[k], search.value)) ==> posts[k] in r
  {
    var found := Searched(posts, search);
    var sorted := SortBy(found, SortKey(sort));
    SameItems(sorted, found);
    sorted
  }

  /** When no two matching listings share a sort key, the order is forced:
      any arrangement of exactly the matching listings in the chosen order
      is the one listed, however the store breaks ties. */
  lemma OrderIsForced(posts: seq<Post>, search: Option<string>, sort: Option<string>, r: seq<Post>)
    requires SortedBy(r, SortKey(sort)) && DistinctKeys(r, SortKey(sort))
    requires forall x :: multiset(r)[x] == if !Truthy(search) || Found(x, search.value) then multiset(posts)[x] else 0
    ensures r == Ordered(posts, search, sort)
  {
    var o := Ordered(posts, search, sort);
    forall x ensures multiset(r)[x] == multiset(o)[x] {
      SearchedMultiplicity(posts, search, x);
    }
    assert multiset(r) == multiset(o);
    SortedIsUnique(r, o, SortKey(sort));
  }

  /** A listing on a page, with the `requestedByMe` annotation. */
  datatype Listed = Listed(post: Post, requestedByMe: bool)

  /** The annotation: asked for with `includeRequested=true`, and the caller
      holds a Pending or Accepted request on the listing. */
  function Annotate(requests: seq<Request>, caller: Option<Uid>, wanted: bool, p: Post): (l: Listed)
    ensures l.post == p
    ensures l.requestedByMe <==> (wanted && caller.Some?
              && exists k :: 0 <= k < |requests| && Matches(requests[k], p.id, caller.value, false))
  {
    Listed(p, wanted && caller.Some? && FindMatch(requests, p.id, caller.value, false).Some?)
  }

  /** The annotated page: `posts.map(p => ({ ...p, requestedByMe }))`. */
  function AnnotateAll(requests: seq<Request>, caller: Option<Uid>, wanted: bool, w: seq<Post>): (r: seq<Listed>)
    ensures |r| == |w| && forall k :: 0 <= k < |w| ==> r[k] == Annotate(requests, caller, wanted, w[k])
  {
    Map(w, (p: Post) => Annotate(requests, caller, wanted, p))
  }

  /** The GET handler. It needs no caller; `caller` is the uid of a valid
      token when there is one. A negative skip is refused by the driver and
      surfaces as 500. */
  function ListPosts(posts: seq<Post>, requests: seq<Request>, caller: Option<Uid>,
                     page: Option<int>, limit: Option<int>, includeRequested: Option<string>,
                     search: Option<string>, sort: Option<string>): (r: Reply<Page<Listed>>)
    ensures var pg := NumberOr(page, 1); var lim := NumberOr(limit, 10);
      (r.Err? <==> (pg - 1) * lim < 0) && (r.Err? ==> r.status == 500)
      && (r.Ok? ==> r.data.page == pg && r.data.limit == lim && (r.data.hasMore <==> |r.data.data| == lim))
    ensures r.Ok? ==> forall k :: 0 <= k < |r.data.data| ==>
      var l := r.data.data[k];
      l.post in posts && (Truthy(search) ==> Found(l.post, search.value))
      && l == Annotate(requests, caller, includeRequested == Some("true"), l.post)
  {
    var pg := NumberOr(page, 1);
    var lim := NumberOr(limit, 10);
    var ordered := Ordered(posts, search, sort);
    match Window(ordered, pg, lim)
    case None => Err(500, "Internal Server Error")
    case Some(w) =>
      var wanted := includeRequested == Some("true");
      Ok(Page(AnnotateAll(requests, caller, wanted, w), pg, lim, |w| == lim))
  }

  /** With a positive page and limit, page n holds the n-th run of `limit`
      listings of the searched and sorted collection. */
  lemma ListPostsPage(posts: seq<Post>, requests: seq<Request>, caller: Option<Uid>, page: int, limit: int,
                      includeRequested: Option<string>, search: Option<string>, sort: Option<string>)
    requires page >= 1 && limit > 0
    ensures var all := Ordered(posts, search, sort);
      var skip := (page - 1) * limit;
      var r := ListPosts(posts, requests, caller, Some(page), Some(limit), includeRequested, search, sort);
      0 <= skip && r.Ok?
      && r.data.data == AnnotateAll(requests, caller, includeRequested == Some("true"),
                                    all[Min(skip, |all|)..Min(skip + limit, |all|)])
  {
    assert (page - 1) * limit >= 0;
    WindowIsSlice(Ordered(posts, search, sort), page, limit);
  }

  /** Without `includeRequested=true`, or without a caller, no listing is
      marked as requested. */
  lemma NoAnnotationWithoutCaller(posts: seq<Post>, requests: seq<Request>, caller: Option<Uid>,
                                  page: Option<int>, limit: Option<int>, includeRequested: Option<string>,
                                  search: Option<string>, sort: Option<string>)
    requires includeRequested != Some("true") || caller.None?
    ensures var r := ListPosts(posts, requests, caller, page, limit, includeRequested, search, sort);
      r.Ok? ==> forall k :: 0 <= k < |r.data.data| ==> !r.data.data[k].requestedByMe
  {
  }

  // ---------------------------------------------------------------- POST

  /** The form fields of the POST body; absent fields are None. `expiryAt`
      is the date text, `lat`/`lng` None for null or absent. */
  datatype PostBody = PostBody(
    foodName: Option<string>,
    description: Option<string>,
    photoUrl: Option<string>,
    expiryAt: Option<string>,
    locationText: Option<string>,
    lat: Option<real>,
    lng: Option<real>)

  /** The body guard: every text field truthy, `lat` and `lng` not null
      (0 is accepted). */
  predicate Complete(b: PostBody) {
    Truthy(b.foodName) && Truthy(b.description) && Truthy(b.photoUrl) && Truthy(b.expiryAt)
    && Truthy(b.locationText) && b.lat.Some? && b.lng.Some?
  }

  /** The listing collection with the POST handler as its writer. */
  class PostStore {
    var posts: seq<Post>
    var nextId: ObjectId

    ghost predicate Valid()
      reads this
    {
      (forall k :: 0 <= k < |posts| ==> posts[k].id < nextId)
      && (forall i, j :: 0 <= i < j < |posts| ==> posts[i].id != posts[j].id)
    }

    constructor ()
      ensures Valid() && posts == [] && nextId == 0
    {
      posts := [];
      nextId := 0;
    }

    /** The POST handler. `expiryTime` is `new Date(expiryAt)` in
        milliseconds, None for an invalid date, which the store refuses
        (500). */
    method Create(caller: Option<Token>, body: PostBody, expiryTime: Option<int>, now: int)
      returns (reply: Reply<Post>)
      requires Valid()
      modifies this
      ensures Valid()
      ensures caller.None? ==> reply == Err(401, "Unauthorized")
      ensures caller.Some? && !Complete(body) ==> reply == Err(400, "Missing fields")
      ensures caller.Some? && Complete(body) && expiryTime.None? ==> reply.Err? && reply.status == 500
      ensures reply.Err? ==> posts == old(posts) && nextId == old(nextId)
      ensures reply.Ok? <==> caller.Some? && Complete(body) && expiryTime.Some?
      ensures reply.Ok? ==>
        var p := reply.data;
        var t := caller.value;
        posts == old(posts) + [p] && nextId == old(nextId) + 1 && p.id == old(nextId)
        && p.donorId == t.uid && !p.completed && p.createdAt == now
        && p.donorName == NameOrEmailPrefix(t.name, t.email, "Donor")
        && p.foodName == body.foodName.value && p.description == body.description.value
        && p.photoUrl == body.photoUrl.value && p.locationText == body.locationText.value
        && p.expiryAt == expiryTime.value && p.lat == body.lat.value && p.lng == body.lng.value
    {
      if caller.None? {
        return Err(401, "Unauthorized");
      }
      var user := caller.value;
      if !Complete(body) {
        return Err(400, "Missing fields");
      }
      if expiryTime.None? {
        return Err(500, "Internal Server Error");
      }
      var donorName := NameOrEmailPrefix(user.name, user.email, "Donor");
      var created := NewPost(nextId, user.uid, donorName, body.foodName.value, body.description.value,
                             body.photoUrl.value, expiryTime.value, body.locationText.value,
                             body.lat.value, body.lng.value, Some(false), now);
      posts := posts + [created];
      nextId := nextId + 1;
      return Ok(created);
    }
  }
}
