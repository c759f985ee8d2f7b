/** The badge counts of app/api/requests/stats/route.ts: how many of the
    caller's sent requests, and how many requests on the caller's listings,
    are still Pending. */
module RequestStats {
  import opened Shared
  import opened RequestModel
  import opened PostModel
  import opened RequestsRoute

  /** A request the count for `uid` includes: Pending, with `uid` as party. */
  predicate Counted(r: Request, uid: Uid, asDonor: bool) {
    Party(r, uid, asDonor) && r.status == Pending
  }

  /** `uid` is the request's requester (`asDonor` false) or its donor. */
  predicate Party(r: Request, uid: Uid, asDonor: bool) {
    if asDonor then r.donorId == uid else r.requesterId == uid
  }

  /** `countDocuments` on that filter. */
  function PendingCount(rs: seq<Request>, uid: Uid, asDonor: bool): nat
  {
    if rs == [] then 0
    else PendingCount(rs[..|rs| - 1], uid, asDonor) + (if Counted(rs[|rs| - 1], uid, asDonor) then 1 else 0)
  }

  /** The positions of the counted requests. */
  ghost function CountedAt(rs: seq<Request>, uid: Uid, asDonor: bool): set<nat> {
    set k: nat | k < |rs| && Counted(rs[k], uid, asDonor)
  }

  /** The count is the number of counted requests in the collection. */
  lemma {:induction false} PendingCountIsSize(rs: seq<Request>, uid: Uid, asDonor: bool)
    ensures PendingCount(rs, uid, asDonor) == |CountedAt(rs, uid, asDonor)|
  {
    if rs != [] {
      var n := |rs| - 1;
      var front := rs[..n];
      PendingCountIsSize(front, uid, asDonor);
      var before := CountedAt(front, uid, asDonor);
      var after := CountedAt(rs, uid, asDonor);
      assert forall k: nat :: k in after <==> k in before || (k == n && Counted(rs[n], uid, asDonor)) by {
        assert forall k: nat :: k < n ==> rs[k] == front[k];
      }
      if Counted(rs[n], uid, asDonor) {
        assert n !in before && after == before + {n};
      } else {
        assert after == before;
      }
    }
  }

  /** Replacing one record changes the count by what the old and the new
      record contribute. */
  lemma {:induction false} PendingCountUpdate(rs: seq<Request>, k: nat, c: Request, uid: Uid, asDonor: bool)
    requires k < |rs|
    ensures PendingCount(rs[k := c], uid, asDonor) + (if Counted(rs[k], uid, asDonor) then 1 else 0)
         == PendingCount(rs, uid, asDonor) + (if Counted(c, uid, asDonor) then 1 else 0)
  {
    var n := |rs| - 1;
    if k == n {
      assert rs[k := c][..n] == rs[..n];
    } else {
      assert rs[k := c][..n] == rs[..n][k := c];
      PendingCountUpdate(rs[..n], k, c, uid, asDonor);
    }
  }

  datatype Stats = Stats(sentPendingCount: nat, receivedPendingCount: nat)

  /** The GET handler: 401 without a caller, otherwise both counts. */
  function GetStats(rs: seq<Request>, caller: Option<Uid>): (r: Reply<Stats>)
    ensures caller.None? <==> r == Err(401, "Unauthorized")
    ensures caller.Some? ==> (r.Ok?
      && r.data.sentPendingCount == |set k: nat | k < |rs| && rs[k].requesterId == caller.value && rs[k].status == Pending|
      && r.data.receivedPendingCount == |set k: nat | k < |rs| && rs[k].donorId == caller.value && rs[k].status == Pending|)
  {
    if caller.None? then Err(401, "Unauthorized")
    else
      var uid := caller.value;
      PendingCountIsSize(rs, uid, false);
      PendingCountIsSize(rs, uid, true);
      assert CountedAt(rs, uid, false) == set k: nat | k < |rs| && rs[k].requesterId == uid && rs[k].status == Pending;
      assert CountedAt(rs, uid, true) == set k: nat | k < |rs| && rs[k].donorId == uid && rs[k].status == Pending;
      Ok(Stats(PendingCount(rs, uid, false), PendingCount(rs, uid, true)))
  }

  /** A toggle that creates a request adds one to the count of every party of
      the new request; one that cancels takes one from each party's count;
      every other call leaves all counts where they were. */
  lemma ToggleMovesCounts(rs: seq<Request>, nextId: ObjectId, caller: Option<Uid>, posts: seq<Post>,
                          postId: Option<ObjectId>, action: Option<string>, now: int, uid: Uid, asDonor: bool)
    ensures var o := ToggleOutcome(rs, nextId, caller, posts, postId, action, now);
      var before := PendingCount(rs, uid, asDonor);
      var after := PendingCount(o.requests, uid, asDonor);
      var bump := if o.reply.Ok? && Party(o.reply.data, uid, asDonor) then 1 else 0;
      (o.requests == rs ==> after == before)
      && (o.requests != rs && action == Some("request") ==> after == before + bump)
      && (o.requests != rs && action != Some("request") ==> after + bump == before)
  {
    var o := ToggleOutcome(rs, nextId, caller, posts, postId, action, now);
    if o.requests != rs {
      if action == Some("request") {
        RequestOutcome(rs, nextId, caller, posts, postId, now);
        assert o.requests[..|o.requests| - 1] == rs;
      } else {
        ListingGuards(rs, nextId, caller, posts, postId, action, now);
        CancelOutcome(rs, nextId, caller, posts, postId, now);
        var k := FindMatch(rs, postId.value, caller.value, true).value;
        PendingCountUpdate(rs, k, o.requests[k], uid, asDonor);
      }
    }
  }

  /** A created request shows in the requester's sent badge and the donor's
      received badge. */
  lemma CreateRaisesBadges(rs: seq<Request>, nextId: ObjectId, caller: Option<Uid>, posts: seq<Post>,
                           postId: Option<ObjectId>, now: int)
    requires var o := ToggleOutcome(rs, nextId, caller, posts, postId, Some("request"), now);
      o.reply.Ok? && o.requests != rs
    ensures var o := ToggleOutcome(rs, nextId, caller, posts, postId, Some("request"), now);
      var donor := o.reply.data.donorId;
      PendingCount(o.requests, caller.value, false) == PendingCount(rs, caller.value, false) + 1
      && PendingCount(o.requests, donor, true) == PendingCount(rs, donor, true) + 1
  {
    var o := ToggleOutcome(rs, nextId, caller, posts, postId, Some("request"), now);
    RequestOutcome(rs, nextId, caller, posts, postId, now);
    ToggleMovesCounts(rs, nextId, caller, posts, postId, Some("request"), now, caller.value, false);
    ToggleMovesCounts(rs, nextId, caller, posts, postId, Some("request"), now, o.reply.data.donorId, true);
  }

  /** A cancelled request leaves both badges. */
  lemma CancelLowersBadges(rs: seq<Request>, nextId: ObjectId, caller: Option<Uid>, posts: seq<Post>,
                           postId: Option<ObjectId>, now: int)
    requires ToggleOutcome(rs, nextId, caller, posts, postId, Some("cancel"), now).reply.Ok?
    ensures var o := ToggleOutcome(rs, nextId, caller, posts, postId, Some("cancel"), now);
      var donor := o.reply.data.donorId;
      PendingCount(o.requests, caller.value, false) + 1 == PendingCount(rs, caller.value, false)
      && PendingCount(o.requests, donor, true) + 1 == PendingCount(rs, donor, true)
  {
    var o := ToggleOutcome(rs, nextId, caller, posts, postId, Some("cancel"), now);
    ListingGuards(rs, nextId, caller, posts, postId, Some("cancel"), now);
    CancelOutcome(rs, nextId, caller, posts, postId, now);
    var k := FindMatch(rs, postId.value, caller.value, true).value;
    assert o.requests[k] != rs[k];
    ToggleMovesCounts(rs, nextId, caller, posts, postId, Some("cancel"), now, caller.value, false);
    ToggleMovesCounts(rs, nextId, caller, posts, postId, Some("cancel"), now, o.reply.data.donorId, true);
  }
}
