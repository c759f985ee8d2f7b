/** The requests page of app/request/page.tsx: the infinite list of the
    caller's sent or received requests, the buttons each request offers,
    and the Pending-count badges on the two tabs. */
module RequestPage {
  import opened Shared
  import Text
  import opened Query
  import opened RequestModel
  import opened PostModel
  import opened RequestsRoute
  import opened RequestStats

  // ---------------------------------------------------------------- infinite list

  /** The query `getKey` asks for: `/api/requests?tab=…&page=…&limit=…`. */
  datatype RequestKey = RequestKey(tab: string, page: nat, limit: nat)

  function Url(k: RequestKey): string {
    "/api/requests?tab=" + k.tab + "&page=" + Text.NatToString(k.page) + "&limit=" + Text.NatToString(k.limit)
  }

  /** `getKey`: no further page once the previous one reports no more;
      otherwise the next page, ten at a time, on the current tab. */
  function GetKey<T>(tab: string, pageIndex: nat, prev: Option<Page<T>>): (k: Option<RequestKey>)
    ensures k.None? <==> prev.Some? && !prev.value.hasMore
    ensures k.Some? ==> k.value == RequestKey(tab, pageIndex + 1, 10)
  {
    if prev.Some? && !prev.value.hasMore then None
    else Some(RequestKey(tab, pageIndex + 1, 10))
  }

  /** What the handler answers for a key of this page. */
  function Answer(rs: seq<Request>, posts: seq<Post>, uid: Uid, k: RequestKey): Reply<Page<Item>> {
    ListRequests(rs, posts, Some(uid), Some(k.tab), Some(k.page), Some(k.limit))
  }

  /** Every key `getKey` hands out is answered with a page. */
  lemma AnswerIsPage(rs: seq<Request>, posts: seq<Post>, uid: Uid, tab: string, page: int)
    requires page >= 1
    ensures Answer(rs, posts, uid, RequestKey(tab, page, 10)).Ok?
  {
    assert (page - 1) * 10 >= 0;
  }

  /** The page the handler replies with for a key. A key `getKey` builds
      has page 1 or more, which the handler never refuses (AnswerIsPage);
      an empty last page stands in for a refusal. */
  function Served(rs: seq<Request>, posts: seq<Post>, uid: Uid): RequestKey -> Page<Item> {
    (k: RequestKey) =>
      match Answer(rs, posts, uid, k)
      case Ok(p) => p
      case Err(_, _) => Page([], k.page, k.limit, false)
  }

  /** The first n pages the list loads from `serve`, each under the key
      `getKey` gives for it, while the previous one still reports more. */
  function Loaded(serve: RequestKey -> Page<Item>, tab: string, n: nat): (pages: seq<Page<Item>>)
    ensures |pages| <= n && (n > 0 ==> |pages| > 0)
    ensures forall i :: 0 <= i < |pages| ==> pages[i] == serve(RequestKey(tab, i + 1, 10))
    ensures |pages| < n ==> |pages| > 0 && !pages[|pages| - 1].hasMore
  {
    if n == 0 then []
    else
      var before := Loaded(serve, tab, n - 1);
      var prev := if before == [] then None else Some(before[|before| - 1]);
      if |before| < n - 1 then before
      else match GetKey(tab, n - 1, prev)
        case None => before
        case Some(k) => before + [serve(k)]
  }

  /** Page `page` as the list receives it: the handler's page-th run of ten. */
  lemma ServedIsWindow(rs: seq<Request>, posts: seq<Post>, uid: Uid, tab: string, page: nat)
    requires page >= 1
    ensures var sel := Selection(rs, uid, Some(tab));
      Window(sel, page, 10).Some?
      && Mapped(Served(rs, posts, uid)(RequestKey(tab, page, 10)).data, Window(sel, page, 10).value, Joined(posts))
      && (Served(rs, posts, uid)(RequestKey(tab, page, 10)).hasMore
          <==> |Served(rs, posts, uid)(RequestKey(tab, page, 10)).data| == 10)
  {
    AnswerIsPage(rs, posts, uid, tab, page);
    ListRequestsPage(rs, posts, uid, Some(tab), page, 10);
  }

  /** The join the list's pages apply to each request. */
  function Joined(posts: seq<Post>): Request -> Item {
    (q: Request) => Join(posts, q)
  }

  /** Whatever number of pages has loaded, the list shows the caller's
      requests on the tab, newest first, each with its listing, from the
      first one on and without gaps or repeats. */
  lemma ListIsPrefixOfSelection(rs: seq<Request>, posts: seq<Post>, uid: Uid, tab: string, n: nat)
    ensures var pages := Loaded(Served(rs, posts, uid), tab, n);
      var sel := Selection(rs, uid, Some(tab));
      Mapped(Flatten(pages), sel[..Min(|pages| * 10, |sel|)], Joined(posts))
  {
    var sel := Selection(rs, uid, Some(tab));
    forall page: nat | page >= 1
      ensures Mapped(Served(rs, posts, uid)(RequestKey(tab, page, 10)).data, Window(sel, page, 10).value, Joined(posts))
    {
      ServedIsWindow(rs, posts, uid, tab, page);
    }
    LoadedIsPrefix(Served(rs, posts, uid), tab, sel, Joined(posts), n);
  }

  /** Whatever serves the list's keys: when it answers page p of the tab
      with the p-th run of ten items through f, the loaded pages hold, in
      order, the first ten per loaded page. */
  lemma LoadedIsPrefix(serve: RequestKey -> Page<Item>, tab: string, sel: seq<Request>, f: Request -> Item, n: nat)
    requires forall page: nat :: page >= 1 ==> Mapped(serve(RequestKey(tab, page, 10)).data, Window(sel, page, 10).value, f)
    ensures var pages := Loaded(serve, tab, n);
      Mapped(Flatten(pages), sel[..Min(|pages| * 10, |sel|)], f)
  {
    var pages := Loaded(serve, tab, n);
    forall i | 0 <= i < |pages| ensures Mapped(pages[i].data, Window(sel, i + 1, 10).value, f) {
      assert pages[i] == serve(RequestKey(tab, i + 1, 10));
    }
    FlattenOfWindows(pages, sel, 10, f);
  }

  /** Once the list stops asking for pages, it shows every one of the
      caller's requests on the tab. */
  lemma StoppedListShowsAll(rs: seq<Request>, posts: seq<Post>, uid: Uid, tab: string, n: nat)
    requires |Loaded(Served(rs, posts, uid), tab, n)| < n
    ensures var sel := Selection(rs, uid, Some(tab));
      Mapped(Flatten(Loaded(Served(rs, posts, uid), tab, n)), sel, Joined(posts))
  {
    var pages := Loaded(Served(rs, posts, uid), tab, n);
    var sel := Selection(rs, uid, Some(tab));
    StopMeansShortPage(rs, posts, uid, tab, n);
    ListIsPrefixOfSelection(rs, posts, uid, tab, n);
    assert sel[..Min(|pages| * 10, |sel|)] == sel;
  }

  /** The list stops only after a page that reports no more, which is
      shorter than the limit, so nothing of the selection is left. */
  lemma StopMeansShortPage(rs: seq<Request>, posts: seq<Post>, uid: Uid, tab: string, n: nat)
    requires |Loaded(Served(rs, posts, uid), tab, n)| < n
    ensures var pages := Loaded(Served(rs, posts, uid), tab, n);
      |pages| > 0 && !pages[|pages| - 1].hasMore
      && Min(|pages| * 10, |Selection(rs, uid, Some(tab))|) == |Selection(rs, uid, Some(tab))|
  {
    var pages := Loaded(Served(rs, posts, uid), tab, n);
    var m := |pages|;
    var sel := Selection(rs, uid, Some(tab));
    ServedIsWindow(rs, posts, uid, tab, m);
    WindowIsSlice(sel, m, 10);
    assert |pages[m - 1].data| < 10;
    assert (m - 1) * 10 + 10 == m * 10;
  }

  // ---------------------------------------------------------------- one request's row

  /** The listing's name, or "N/A" when the listing is gone. */
  function FoodLabel(it: Item): (s: string)
    ensures it.post.Some? && it.post.value.foodName != "" ==> s == it.post.value.foodName
    ensures it.post.None? || it.post.value.foodName == "" ==> s == "N/A"
  {
    if it.post.Some? && it.post.value.foodName != "" then it.post.value.foodName else "N/A"
  }

  /** The donor's contact line is shown only for an Accepted request that
      carries it. */
  predicate ShowsDonorDetails(r: Request) {
    r.status == Accepted && r.donorDetails.Some?
  }

  /** The buttons a row offers. */
  datatype Actions = NoActions | CancelButton | AcceptAndReject

  function RowActions(tab: string, r: Request): (a: Actions)
    ensures a == CancelButton <==> tab == "sent" && r.status == Pending
    ensures a == AcceptAndReject <==> tab == "received" && r.status == Pending
  {
    if tab == "sent" && r.status == Pending then CancelButton
    else if tab == "received" && r.status == Pending then AcceptAndReject
    else NoActions
  }

  /** Only Pending requests offer a button, so a row never offers one next
      to the donor's contact details. */
  lemma ButtonsOnlyWhilePending(tab: string, r: Request)
    ensures RowActions(tab, r) != NoActions ==> r.status == Pending && !ShowsDonorDetails(r)
  {
  }

  /** The `address` the row's accept dialog starts from: the listing's
      location, absent when the listing is gone. */
  function DialogAddress(it: Item): (a: Option<string>)
    ensures a.Some? <==> it.post.Some?
    ensures a.Some? ==> a.value == it.post.value.locationText
  {
    if it.post.Some? then Some(it.post.value.locationText) else None
  }

  /** The loading placeholder shows while a page loads or while the last
      page reports more; the "Load more" button only in the second case. */
  function ShowsPlaceholder<T>(isLoading: bool, pages: seq<Page<T>>): (b: bool)
    ensures b <==> isLoading || ShowsLoadMore(pages)
  {
    isLoading || (|pages| > 0 && pages[|pages| - 1].hasMore)
  }

  predicate ShowsLoadMore<T>(pages: seq<Page<T>>) {
    |pages| > 0 && pages[|pages| - 1].hasMore
  }

  /** Out of loading, the placeholder and its "Load more" button are offered
      exactly when asking for one more page loads one more page; once the
      list has stopped they are gone. */
  lemma PlaceholderMeansMoreToLoad(serve: RequestKey -> Page<Item>, tab: string, n: nat)
    ensures var pages := Loaded(serve, tab, n);
      (n > 0 ==> (ShowsPlaceholder(false, pages) <==> |Loaded(serve, tab, n + 1)| == |pages| + 1))
      && (|pages| < n ==> !ShowsPlaceholder(false, pages))
  {
  }

  /** A row names the listing its request points at and starts the accept
      dialog from that listing's location; when no listing has the
      request's `postId` it shows "N/A" and no address. */
  lemma RowShowsItsListing(posts: seq<Post>, q: Request)
    ensures var it := Join(posts, q);
      it.request == q
      && ((forall k :: 0 <= k < |posts| ==> posts[k].id != q.postId) <==> DialogAddress(it).None?)
      && (DialogAddress(it).None? ==> FoodLabel(it) == "N/A")
      && (DialogAddress(it).Some? ==>
            exists p :: (p in posts && p.id == q.postId
                         && DialogAddress(it) == Some(p.locationText)
                         && FoodLabel(it) == (if p.foodName != "" then p.foodName else "N/A")))
  {
  }

  // ---------------------------------------------------------------- badges

  /** `stats?.data?.sentPendingCount || 0` and its received twin: 0 until
      the counts arrive. */
  function TabCount(stats: Option<Stats>, received: bool): (n: nat)
    ensures stats.None? ==> n == 0
    ensures stats.Some? ==> n == if received then stats.value.receivedPendingCount else stats.value.sentPendingCount
  {
    if stats.None? then 0
    else if received then stats.value.receivedPendingCount
    else stats.value.sentPendingCount
  }

  /** `Badge`: nothing for 0, otherwise the count. */
  function Badge(count: nat): (b: Option<string>)
    ensures b.None? <==> count == 0
    ensures b.Some? ==> b.value == Text.NatToString(count)
  {
    if count == 0 then None else Some(Text.NatToString(count))
  }

  /** A tab shows a badge exactly when the caller has a Pending request on
      that side, and the badge names how many. */
  lemma BadgeShowsPending(rs: seq<Request>, uid: Uid, received: bool)
    ensures var st := GetStats(rs, Some(uid)).data;
      var b := Badge(TabCount(Some(st), received));
      (b.None? <==> forall k :: 0 <= k < |rs| ==> !Counted(rs[k], uid, received))
      && (b.Some? ==> b.value == Text.NatToString(PendingCount(rs, uid, received)))
  {
    var st := GetStats(rs, Some(uid)).data;
    PendingCountIsSize(rs, uid, received);
    var counted := CountedAt(rs, uid, received);
    assert TabCount(Some(st), received) == |counted| by {
      if received {
        assert counted == set k: nat | k < |rs| && rs[k].donorId == uid && rs[k].status == Pending;
      } else {
        assert counted == set k: nat | k < |rs| && rs[k].requesterId == uid && rs[k].status == Pending;
      }
    }
    if exists k :: 0 <= k < |rs| && Counted(rs[k], uid, received) {
      var k :| 0 <= k < |rs| && Counted(rs[k], uid, received);
      assert k in counted;
    }
  }
}
