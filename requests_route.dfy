/** The pickup-request endpoint of app/api/requests/route.ts: POST creates or
    cancels the caller's request on a listing, GET lists the caller's sent
    or received requests a page at a time, each joined with its listing.
    The document store is the request sequence of a `RequestStore` and a
    sequence of listings; `requireUser` is an optional caller uid. */
module RequestsRoute {
  import opened Shared
  import opened Query
  import opened RequestModel
  import opened PostModel

  // ---------------------------------------------------------------- store queries

  /** `PostModel.findById(id)`. */
  function LookupPost(posts: seq<Post>, id: ObjectId): (r: Option<Post>)
    ensures r.Some? ==> r.value in posts && r.value.id == id
    ensures r.None? <==> forall k :: 0 <= k < |posts| ==> posts[k].id != id
  {
    if posts == [] then None
    else if posts[0].id == id then Some(posts[0])
    else
      assert forall k :: 1 <= k < |posts| ==> posts[k] == posts[1..][k - 1];
      LookupPost(posts[1..], id)
  }

  /** The `findOne` filters of the toggle: the caller's request on the
      listing that is Pending (`pendingOnly`) or Pending or Accepted. */
  predicate Matches(r: Request, postId: ObjectId, uid: Uid, pendingOnly: bool) {
    r.postId == postId && r.requesterId == uid
    && (if pendingOnly then r.status == Pending else IsOpen(r.status))
  }

  /** `findOne`: the position of the first matching request, if any. */
  function FindMatch(rs: seq<Request>, postId: ObjectId, uid: Uid, pendingOnly: bool): (r: Option<nat>)
    ensures r.Some? ==> r.value < |rs| && Matches(rs[r.value], postId, uid, pendingOnly)
    ensures r.Some? ==> forall k :: 0 <= k < r.value ==> !Matches(rs[k], postId, uid, pendingOnly)
    ensures r.None? <==> forall k :: 0 <= k < |rs| ==> !Matches(rs[k], postId, uid, pendingOnly)
  {
    if rs == [] then None
    else if Matches(rs[0], postId, uid, pendingOnly) then Some(0)
    else
      assert forall k :: 1 <= k < |rs| ==> rs[k] == rs[1..][k - 1];
      match FindMatch(rs[1..], postId, uid, pendingOnly)
      case None => None
      case Some(k) => Some(k + 1)
  }

  // ---------------------------------------------------------------- store invariant

  predicate SamePair(a: Request, b: Request) {
    a.postId == b.postId && a.requesterId == b.requesterId
  }

  /** At most one Pending or Accepted request per (listing, requester). */
  ghost predicate AtMostOneOpen(rs: seq<Request>) {
    forall i, j :: 0 <= i < j < |rs| && IsOpen(rs[i].status) && IsOpen(rs[j].status) ==> !SamePair(rs[i], rs[j])
  }

  /** Every id is below the next one to hand out, and no two requests share one. */
  ghost predicate FreshIds(rs: seq<Request>, nextId: ObjectId) {
    (forall k :: 0 <= k < |rs| ==> rs[k].id < nextId)
    && (forall i, j :: 0 <= i < j < |rs| ==> rs[i].id != rs[j].id)
  }

  // ---------------------------------------------------------------- POST

  /** What one toggle call answers and leaves in the store. */
  datatype Outcome = Outcome(reply: Reply<Request>, requests: seq<Request>, nextId: ObjectId)

  /** The POST handler as a function of the store before the call. The guards
      are tried in the handler's order; the body's `postId` is None when
      absent or falsy, `action` None when absent. */
  function ToggleOutcome(rs: seq<Request>, nextId: ObjectId, caller: Option<Uid>, posts: seq<Post>,
                         postId: Option<ObjectId>, action: Option<string>, now: int): (o: Outcome)
    ensures o.reply.Err? ==> o.requests == rs && o.nextId == nextId
    ensures o.reply.Ok? ==> action == Some("request") || action == Some("cancel")
    ensures caller.None? <==> o.reply == Err(401, "Unauthorized")
    ensures caller.Some? && (postId.None? || !Truthy(action)) ==> o.reply == Err(400, "Missing fields")
    ensures caller.Some? && postId.Some? && Truthy(action) && LookupPost(posts, postId.value).None?
            ==> o.reply == Err(404, "Post not found")
    ensures caller.Some? && postId.Some? && Truthy(action) && action.value != "request" && action.value != "cancel"
            && (var p := LookupPost(posts, postId.value); p.Some? && p.value.donorId != caller.value && !p.value.completed)
            ==> o.reply == Err(400, "Invalid action")
  {
    if caller.None? then Outcome(Err(401, "Unauthorized"), rs, nextId)
    else if postId.None? || !Truthy(action) then Outcome(Err(400, "Missing fields"), rs, nextId)
    else
      var uid := caller.value;
      match LookupPost(posts, postId.value)
      case None => Outcome(Err(404, "Post not found"), rs, nextId)
      case Some(post) =>
        if post.donorId == uid then Outcome(Err(400, "Cannot request your own post"), rs, nextId)
        else if post.completed then Outcome(Err(400, "Post already completed"), rs, nextId)
        else if action.value == "request" then
          match FindMatch(rs, post.id, uid, false)
          case Some(k) => Outcome(Ok(rs[k]), rs, nextId)
          case None =>
            var created := NewRequest(nextId, post.id, post.donorId, uid, Some(Pending), now);
            Outcome(Ok(created), rs + [created], nextId + 1)
        else if action.value == "cancel" then
          match FindMatch(rs, post.id, uid, true)
          case None => Outcome(Err(404, "No pending request"), rs, nextId)
          case Some(k) =>
            var cancelled := rs[k].(status := Cancelled, updatedAt := now);
            Outcome(Ok(cancelled), rs[k := cancelled], nextId)
        else Outcome(Err(400, "Invalid action"), rs, nextId)
  }

  /** The listing checks come before either action: an own listing or a
      completed one is refused and nothing changes. */
  lemma ListingGuards(rs: seq<Request>, nextId: ObjectId, caller: Option<Uid>, posts: seq<Post>,
                      postId: Option<ObjectId>, action: Option<string>, now: int)
    requires caller.Some? && postId.Some? && Truthy(action)
    requires LookupPost(posts, postId.value).Some?
    ensures var post := LookupPost(posts, postId.value).value;
      var o := ToggleOutcome(rs, nextId, caller, posts, postId, action, now);
      (post.donorId == caller.value ==> o.reply == Err(400, "Cannot request your own post"))
      && (post.donorId != caller.value && post.completed ==> o.reply == Err(400, "Post already completed"))
      && (o.reply.Ok? ==> post.donorId != caller.value && !post.completed)
  {
  }

  /** A "request" that succeeds either hands back the caller's open request on
      the listing and changes nothing, or appends exactly one Pending request
      from the caller to the listing's donor. */
  lemma RequestOutcome(rs: seq<Request>, nextId: ObjectId, caller: Option<Uid>, posts: seq<Post>,
                       postId: Option<ObjectId>, now: int)
    requires ToggleOutcome(rs, nextId, caller, posts, postId, Some("request"), now).reply.Ok?
    ensures var o := ToggleOutcome(rs, nextId, caller, posts, postId, Some("request"), now);
      var post := LookupPost(posts, postId.value).value;
      var got := o.reply.data;
      Matches(got, postId.value, caller.value, false)
      && ((got in rs && o.requests == rs && o.nextId == nextId)
          || (FindMatch(rs, postId.value, caller.value, false).None?
              && o.requests == rs + [got] && o.nextId == nextId + 1
              && got.id == nextId && got.status == Pending && got.donorId == post.donorId
              && got.createdAt == now && got.donorDetails.None?))
  {
  }

  /** A "cancel" that succeeds turns the caller's first Pending request on the
      listing into a Cancelled one and leaves every other record as it was;
      without a Pending request it answers 404 and changes nothing. */
  lemma CancelOutcome(rs: seq<Request>, nextId: ObjectId, caller: Option<Uid>, posts: seq<Post>,
                      postId: Option<ObjectId>, now: int)
    requires caller.Some? && postId.Some?
    requires var p := LookupPost(posts, postId.value); p.Some? && p.value.donorId != caller.value && !p.value.completed
    ensures var o := ToggleOutcome(rs, nextId, caller, posts, postId, Some("cancel"), now);
      match FindMatch(rs, postId.value, caller.value, true)
      case None => o.reply == Err(404, "No pending request") && o.requests == rs
      case Some(k) =>
        rs[k].status == Pending && o.nextId == nextId
        && |o.requests| == |rs| && o.requests[k].status == Cancelled && o.reply == Ok(o.requests[k])
        && o.requests[k] == rs[k].(status := Cancelled, updatedAt := now)
        && (forall j :: 0 <= j < |rs| && j != k ==> o.requests[j] == rs[j])
  {
  }

  /** Run one after the other, toggles never give a (listing, requester)
      pair a second open request, and ids stay fresh. */
  lemma ToggleKeepsInvariant(rs: seq<Request>, nextId: ObjectId, caller: Option<Uid>, posts: seq<Post>,
                             postId: Option<ObjectId>, action: Option<string>, now: int)
    requires AtMostOneOpen(rs) && FreshIds(rs, nextId)
    ensures var o := ToggleOutcome(rs, nextId, caller, posts, postId, action, now);
      AtMostOneOpen(o.requests) && FreshIds(o.requests, o.nextId)
  {
    var o := ToggleOutcome(rs, nextId, caller, posts, postId, action, now);
    if o.reply.Ok? && action == Some("request") && o.requests != rs {
      RequestOutcome(rs, nextId, caller, posts, postId, now);
      AppendKeepsInvariant(rs, nextId, o.reply.data);
    } else if o.reply.Ok? && action == Some("cancel") {
      CancelOutcome(rs, nextId, caller, posts, postId, now);
    }
  }

  /** A new record with the next id and no open request of its pair before
      it keeps both invariants. */
  lemma AppendKeepsInvariant(rs: seq<Request>, nextId: ObjectId, got: Request)
    requires AtMostOneOpen(rs) && FreshIds(rs, nextId) && got.id == nextId
    requires forall k :: 0 <= k < |rs| ==> !Matches(rs[k], got.postId, got.requesterId, false)
    ensures AtMostOneOpen(rs + [got]) && FreshIds(rs + [got], nextId + 1)
  {
    var after := rs + [got];
    forall i, j | 0 <= i < j < |after| && IsOpen(after[i].status) && IsOpen(after[j].status)
      ensures !SamePair(after[i], after[j])
    {
      assert after[i] == rs[i];
      if j < |rs| {
        assert after[j] == rs[j];
      }
    }
  }

  /** "request" is idempotent: asking again right after a successful request
      returns the same record and changes nothing. */
  lemma {:induction false} RequestIsIdempotent(rs: seq<Request>, nextId: ObjectId, caller: Option<Uid>,
                                               posts: seq<Post>, postId: Option<ObjectId>, now: int, later: int)
    requires ToggleOutcome(rs, nextId, caller, posts, postId, Some("request"), now).reply.Ok?
    ensures var o := ToggleOutcome(rs, nextId, caller, posts, postId, Some("request"), now);
      ToggleOutcome(o.requests, o.nextId, caller, posts, postId, Some("request"), later) == o
  {
    var o := ToggleOutcome(rs, nextId, caller, posts, postId, Some("request"), now);
    RequestOutcome(rs, nextId, caller, posts, postId, now);
    var post := LookupPost(posts, postId.value).value;
    var first := FindMatch(rs, post.id, caller.value, false);
    if first.None? {
      var again := FindMatch(o.requests, post.id, caller.value, false);
      assert Matches(o.requests[|rs|], post.id, caller.value, false);
      assert again.Some? && again.value == |rs| by {
        forall k | 0 <= k < |rs| ensures !Matches(o.requests[k], post.id, caller.value, false) {
          assert o.requests[k] == rs[k];
        }
      }
    }
  }

  /** Under the invariant, a successful "cancel" leaves the caller with no open
      request on the listing, so a following "request" creates a new one. */
  lemma CancelClosesPair(rs: seq<Request>, nextId: ObjectId, caller: Option<Uid>, posts: seq<Post>,
                         postId: Option<ObjectId>, now: int)
    requires AtMostOneOpen(rs)
    requires ToggleOutcome(rs, nextId, caller, posts, postId, Some("cancel"), now).reply.Ok?
    ensures var o := ToggleOutcome(rs, nextId, caller, posts, postId, Some("cancel"), now);
      FindMatch(o.requests, postId.value, caller.value, false).None?
  {
    var o := ToggleOutcome(rs, nextId, caller, posts, postId, Some("cancel"), now);
    var k := FindMatch(rs, postId.value, caller.value, true).value;
    CancelOutcome(rs, nextId, caller, posts, postId, now);
    forall j | 0 <= j < |o.requests| ensures !Matches(o.requests[j], postId.value, caller.value, false) {
      if j != k {
        assert o.requests[j] == rs[j] && IsOpen(rs[k].status);
        if j < k {
          assert !(IsOpen(rs[j].status) && SamePair(rs[j], rs[k]));
        } else {
          assert !(IsOpen(rs[j].status) && SamePair(rs[k], rs[j]));
        }
      }
    }
  }

  /** The request collection with the toggle as its only writer. */
  class RequestStore {
    var requests: seq<Request>
    var nextId: ObjectId

    ghost predicate Valid()
      reads this
    {
      AtMostOneOpen(requests) && FreshIds(requests, nextId)
    }

    constructor ()
      ensures Valid() && requests == [] && nextId == 0
    {
      requests := [];
      nextId := 0;
    }

    /** The POST handler. */
    method Toggle(caller: Option<Uid>, posts: seq<Post>, postId: Option<ObjectId>, action: Option<string>, now: int)
      returns (reply: Reply<Request>)
      requires Valid()
      modifies this
      ensures Valid()
      ensures var o := ToggleOutcome(old(requests), old(nextId), caller, posts, postId, action, now);
        reply == o.reply && requests == o.requests && nextId == o.nextId
    {
      ToggleKeepsInvariant(requests, nextId, caller, posts, postId, action, now);
      if caller.None? {
        return Err(401, "Unauthorized");
      }
      var uid := caller.value;
      if postId.None? || !Truthy(action) {
        return Err(400, "Missing fields");
      }
      var found := LookupPost(posts, postId.value);
      if found.None? {
        return Err(404, "Post not found");
      }
      var post := found.value;
      if post.donorId == uid {
        return Err(400, "Cannot request your own post");
      }
      if post.completed {
        return Err(400, "Post already completed");
      }
      if action.value == "request" {
        var existing := FindMatch(requests, post.id, uid, false);
        if existing.Some? {
          return Ok(requests[existing.value]);
        }
        var created := NewRequest(nextId, post.id, post.donorId, uid, Some(Pending), now);
        requests := requests + [created];
        nextId := nextId + 1;
        return Ok(created);
      } else if action.value == "cancel" {
        var pending := FindMatch(requests, post.id, uid, true);
        if pending.None? {
          return Err(404, "No pending request");
        }
        var k := pending.value;
        var cancelled := requests[k].(status := Cancelled, updatedAt := now);
        requests := requests[k := cancelled];
        return Ok(cancelled);
      }
      return Err(400, "Invalid action");
    }
  }

  // ---------------------------------------------------------------- GET

  /** A listed request with the joined listing, or None when the listing no
      longer exists. */
  datatype Item = Item(request: Request, post: Option<PostBrief>)

  /** `tab === "received"` selects by donor, anything else (default "sent")
      by requester. */
  predicate Selects(received: bool, uid: Uid, r: Request) {
    if received then r.donorId == uid else r.requesterId == uid
  }

  /** The sort key of `sort({ createdAt: -1 })`. */
  function NewestFirst(q: Request): int {
    -q.createdAt
  }

  /** The caller's requests on the chosen tab, newest first. */
  function Selection(rs: seq<Request>, uid: Uid, tab: Option<string>): (r: seq<Request>)
    ensures var received := tab == Some("received");
      (forall k :: 0 <= k < |r| ==> r[k] in rs && Selects(received, uid, r[k]))
      && (forall k :: 0 <= k < |rs| && Selects(received, uid, rs[k]) ==> rs[k] in r)
      && SortedBy(r, NewestFirst)
  {
    var received := tab == Some("received");
    var chosen := Filter(rs, (q: Request) => Selects(received, uid, q));
    var sorted := SortBy(chosen, NewestFirst);
    SameItems(sorted, chosen);
    assert forall k :: 0 <= k < |rs| && Selects(received, uid, rs[k]) ==> rs[k] in chosen;
    sorted
  }

  /** The selection holds each of the caller's requests on the tab exactly
      as often as the collection does, and no other request. */
  lemma SelectionMultiplicity(rs: seq<Request>, uid: Uid, tab: Option<string>, x: Request)
    ensures multiset(Selection(rs, uid, tab))[x]
              == if Selects(tab == Some("received"), uid, x) then multiset(rs)[x] else 0
  {
    var received := tab == Some("received");
    var p := (q: Request) => Selects(received, uid, q);
    assert Selection(rs, uid, tab) == SortBy(Filter(rs, p), NewestFirst);
    FilterMultiplicity(rs, p, x);
  }

  /** When no two of the caller's requests share a creation time, the order
      is forced: any newest-first arrangement of exactly those requests is
      the selection, however the store breaks ties. */
  lemma SelectionIsForced(rs: seq<Request>, uid: Uid, tab: Option<string>, r: seq<Request>)
    requires SortedBy(r, NewestFirst) && DistinctKeys(r, NewestFirst)
    requires forall x :: multiset(r)[x] == if Selects(tab == Some("received"), uid, x) then multiset(rs)[x] else 0
    ensures r == Selection(rs, uid, tab)
  {
    var sel := Selection(rs, uid, tab);
    forall x ensures multiset(r)[x] == multiset(sel)[x] {
      SelectionMultiplicity(rs, uid, tab, x);
    }
    assert multiset(r) == multiset(sel);
    SortedIsUnique(r, sel, NewestFirst);
  }

  /** The listing joined onto a request. */
  function Join(posts: seq<Post>, r: Request): (it: Item)
    ensures it.request == r
    ensures LookupPost(posts, r.postId).None? ==> it.post.None?
    ensures LookupPost(posts, r.postId).Some? ==> it.post == Some(Brief(LookupPost(posts, r.postId).value))
  {
    match LookupPost(posts, r.postId)
    case None => Item(r, None)
    case Some(p) => Item(r, Some(Brief(p)))
  }

  /** A numeric query parameter: `Number(param || fallback)`. */
  function NumberOr(param: Option<int>, fallback: int): int {
    if param.Some? then param.value else fallback
  }

  /** The GET handler: 401 without a caller; 500 when the driver refuses a
      negative skip; otherwise one page of the selection with its listing. */
  function ListRequests(rs: seq<Request>, posts: seq<Post>, caller: Option<Uid>, tab: Option<string>,
                        page: Option<int>, limit: Option<int>): (r: Reply<Page<Item>>)
    ensures caller.None? ==> r == Err(401, "Unauthorized")
    ensures caller.Some? ==> var pg := NumberOr(page, 1); var lim := NumberOr(limit, 10);
      (r.Err? <==> (pg - 1) * lim < 0)
      && (r.Err? ==> r.status == 500)
      && (r.Ok? ==>
            r.data.page == pg && r.data.limit == lim
            && (r.data.hasMore <==> |r.data.data| == lim)
            && (forall k :: 0 <= k < |r.data.data| ==>
                  r.data.data[k] == Join(posts, r.data.data[k].request)
                  && r.data.data[k].request in rs
                  && Selects(tab == Some("received"), caller.value, r.data.data[k].request)))
  {
    if caller.None? then Err(401, "Unauthorized")
    else
      var pg := NumberOr(page, 1);
      var lim := NumberOr(limit, 10);
      var chosen := Selection(rs, caller.value, tab);
      match Window(chosen, pg, lim)
      case None => Err(500, "Internal Server Error")
      case Some(w) =>
        Ok(Page(Map(w, (q: Request) => Join(posts, q)), pg, lim, |w| == lim))
  }

  /** With a positive page and limit, page n of the list is the n-th run of
      `limit` requests of the newest-first selection. */
  lemma ListRequestsPage(rs: seq<Request>, posts: seq<Post>, uid: Uid, tab: Option<string>, page: int, limit: int)
    requires page >= 1 && limit > 0
    ensures var sel := Selection(rs, uid, tab);
      var skip := (page - 1) * limit;
      var r := ListRequests(rs, posts, Some(uid), tab, Some(page), Some(limit));
      0 <= skip && r.Ok? && Window(sel, page, limit).Some?
      && r.data.data == Map(Window(sel, page, limit).value, (q: Request) => Join(posts, q))
      && Window(sel, page, limit).value == sel[Min(skip, |sel|)..Min(skip + limit, |sel|)]
  {
    assert (page - 1) * limit >= 0;
    WindowIsSlice(Selection(rs, uid, tab), page, limit);
  }
}
