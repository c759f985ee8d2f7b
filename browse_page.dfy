/** The browse page of app/browse/page.tsx: an infinite grid of listings,
    nine a page, newest first, each marked with whether the viewer has
    asked for it. */
module BrowsePage {
  import opened Shared
  import opened Query
  import opened RequestModel
  import opened PostModel
  import opened RequestsRoute
  import opened PostsRoute

  /** The query `getKey` asks for: `/api/posts?page=…&limit=9&includeRequested=true`. */
  datatype PostsKey = PostsKey(page: nat, limit: nat, includeRequested: string)

  /** `getKey`: no further page once the previous one reports no more;
      otherwise the next page of nine, annotated. */
  function GetKey<T>(pageIndex: nat, prev: Option<Page<T>>): (k: Option<PostsKey>)
    ensures k.None? <==> prev.Some? && !prev.value.hasMore
    ensures k.Some? ==> k.value == PostsKey(pageIndex + 1, 9, "true")
  {
    if prev.Some? && !prev.value.hasMore then None
    else Some(PostsKey(pageIndex + 1, 9, "true"))
  }

  /** What the handler answers for a key of this page: no search, the
      default order. */
  function Answer(posts: seq<Post>, rs: seq<Request>, viewer: Option<Uid>, k: PostsKey): Reply<Page<Listed>> {
    ListPosts(posts, rs, viewer, Some(k.page), Some(k.limit), Some(k.includeRequested), None, None)
  }

  /** Every key `getKey` hands out is answered with a page. */
  lemma AnswerIsPage(posts: seq<Post>, rs: seq<Request>, viewer: Option<Uid>, page: int)
    requires page >= 1
    ensures Answer(posts, rs, viewer, PostsKey(page, 9, "true")).Ok?
  {
    assert (page - 1) * 9 >= 0;
  }

  /** The page the handler replies with for a key. A key `getKey` builds
      has page 1 or more, which the handler never refuses (AnswerIsPage);
      an empty last page stands in for a refusal. */
  function Served(posts: seq<Post>, rs: seq<Request>, viewer: Option<Uid>): PostsKey -> Page<Listed> {
    (k: PostsKey) =>
      match Answer(posts, rs, viewer, k)
      case Ok(p) => p
      case Err(_, _) => Page([], k.page, k.limit, false)
  }

  /** The first n pages the grid loads from `serve`, each under the key
      `getKey` gives for it, while the previous one still reports more. */
  function Loaded(serve: PostsKey -> Page<Listed>, n: nat): (pages: seq<Page<Listed>>)
    ensures |pages| <= n && (n > 0 ==> |pages| > 0)
    ensures forall i :: 0 <= i < |pages| ==> pages[i] == serve(PostsKey(i + 1, 9, "true"))
    ensures |pages| < n ==> |pages| > 0 && !pages[|pages| - 1].hasMore
  {
    if n == 0 then []
    else
      var before := Loaded(serve, n - 1);
      var prev := if before == [] then None else Some(before[|before| - 1]);
      if |before| < n - 1 then before
      else match GetKey(n - 1, prev)
        case None => before
        case Some(k) => before + [serve(k)]
  }

  /** The marking the grid's pages apply to each listing. */
  function Marked(rs: seq<Request>, viewer: Option<Uid>): Post -> Listed {
    (p: Post) => Annotate(rs, viewer, true, p)
  }

  /** The grid shows the listings newest first, from the first one on and
      without gaps or repeats, each marked exactly when the viewer holds an
      open request on it. */
  lemma GridIsPrefixOfListings(posts: seq<Post>, rs: seq<Request>, viewer: Option<Uid>, n: nat)
    ensures var pages := Loaded(Served(posts, rs, viewer), n);
      var all := Ordered(posts, None, None);
      Mapped(Flatten(pages), all[..Min(|pages| * 9, |all|)], Marked(rs, viewer))
  {
    var all := Ordered(posts, None, None);
    forall page: nat | page >= 1
      ensures Mapped(Served(posts, rs, viewer)(PostsKey(page, 9, "true")).data, Window(all, page, 9).value, Marked(rs, viewer))
    {
      PageIsWindow(posts, rs, viewer, page);
    }
    LoadedIsPrefix(Served(posts, rs, viewer), all, Marked(rs, viewer), n);
  }

  /** Whatever serves the grid's keys: when it answers page p with the p-th
      run of nine items through f, the loaded pages hold, in order, the first
      nine per loaded page. */
  lemma LoadedIsPrefix(serve: PostsKey -> Page<Listed>, all: seq<Post>, f: Post -> Listed, n: nat)
    requires forall page: nat :: page >= 1 ==> Mapped(serve(PostsKey(page, 9, "true")).data, Window(all, page, 9).value, f)
    ensures var pages := Loaded(serve, n);
      Mapped(Flatten(pages), all[..Min(|pages| * 9, |all|)], f)
  {
    var pages := Loaded(serve, n);
    forall i | 0 <= i < |pages| ensures Mapped(pages[i].data, Window(all, i + 1, 9).value, f) {
      assert pages[i] == serve(PostsKey(i + 1, 9, "true"));
    }
    FlattenOfWindows(pages, all, 9, f);
  }

  /** Page `page` is the page-th run of nine listings, annotated, and it
      reports more exactly when it is full. */
  lemma PageIsWindow(posts: seq<Post>, rs: seq<Request>, viewer: Option<Uid>, page: nat)
    requires page >= 1
    ensures Window(Ordered(posts, None, None), page, 9).Some?
      && Mapped(Served(posts, rs, viewer)(PostsKey(page, 9, "true")).data,
                Window(Ordered(posts, None, None), page, 9).value, Marked(rs, viewer))
      && (Served(posts, rs, viewer)(PostsKey(page, 9, "true")).hasMore
          <==> |Served(posts, rs, viewer)(PostsKey(page, 9, "true")).data| == 9)
  {
    AnswerIsPage(posts, rs, viewer, page);
    ListPostsPage(posts, rs, viewer, page, 9, Some("true"), None, None);
    WindowIsSlice(Ordered(posts, None, None), page, 9);
  }

  /** Once the grid stops asking for pages, it shows every listing. */
  lemma StoppedGridShowsAll(posts: seq<Post>, rs: seq<Request>, viewer: Option<Uid>, n: nat)
    requires |Loaded(Served(posts, rs, viewer), n)| < n
    ensures var all := Ordered(posts, None, None);
      Mapped(Flatten(Loaded(Served(posts, rs, viewer), n)), all, Marked(rs, viewer))
  {
    var pages := Loaded(Served(posts, rs, viewer), n);
    var all := Ordered(posts, None, None);
    var m := |pages|;
    PageIsWindow(posts, rs, viewer, m);
    WindowIsSlice(all, m, 9);
    assert |pages[m - 1].data| < 9;
    assert (m - 1) * 9 + 9 == m * 9;
    GridIsPrefixOfListings(posts, rs, viewer, n);
    assert all[..Min(m * 9, |all|)] == all;
  }

  /** The three skeleton cards show while a page loads or while the last
      page reports more. */
  function ShowsSkeletons<T>(isLoading: bool, pages: seq<Page<T>>): (b: bool)
    ensures b <==> isLoading || (|pages| > 0 && pages[|pages| - 1].hasMore)
    ensures |pages| > 0 && !pages[|pages| - 1].hasMore ==> (b <==> isLoading)
  {
    isLoading || (|pages| > 0 && pages[|pages| - 1].hasMore)
  }

  /** A stopped grid shows skeletons only while loading. */
  lemma StoppedGridHasNoSkeletons(posts: seq<Post>, rs: seq<Request>, viewer: Option<Uid>, n: nat)
    requires |Loaded(Served(posts, rs, viewer), n)| < n
    ensures !ShowsSkeletons(false, Loaded(Served(posts, rs, viewer), n))
  {
  }
}
