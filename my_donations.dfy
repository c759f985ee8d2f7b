/** The donor's own listings, app/my-donations/page.tsx: the first hundred
    listings filtered to the signed-in donor's, and the confirm-before-delete
    dialog. The DELETE handler itself is not part of this model. */
module MyDonations {
  import opened Shared
  import opened Query
  import opened RequestModel
  import opened PostModel
  import opened PostsRoute
  import opened FoodCard

  /** The filter of `mine`: the listing's donor is the signed-in user. With
      nobody signed in, `user?.uid` is undefined and matches no listing. */
  function OwnedBy(user: Option<Uid>): Listed -> bool {
    (l: Listed) => user.Some? && l.post.donorId == user.value
  }

  /** `mine`: the fetched listings of the signed-in donor, in fetched order. */
  function Mine(fetched: seq<Listed>, user: Option<Uid>): (r: seq<Listed>)
    ensures forall k :: 0 <= k < |r| ==> r[k] in fetched && user.Some? && r[k].post.donorId == user.value
    ensures forall k :: 0 <= k < |fetched| && user.Some? && fetched[k].post.donorId == user.value ==> fetched[k] in r
    ensures user.None? ==> r == []
  {
    var r := Filter(fetched, OwnedBy(user));
    assert forall k :: 0 <= k < |r| ==> OwnedBy(user)(r[k]);
    assert forall k :: 0 <= k < |fetched| ==> (OwnedBy(user)(fetched[k]) <==> user.Some? && fetched[k].post.donorId == user.value);
    CountIsFilterLength(fetched, OwnedBy(user));
    r
  }

  /** `mine` keeps the fetched order: it is the item-by-item filter, so the
      listings of two fetched runs come out run by run. */
  lemma MineKeepsOrder(a: seq<Listed>, b: seq<Listed>, user: Option<Uid>, l: Listed)
    ensures Mine(a + b, user) == Mine(a, user) + Mine(b, user)
    ensures Mine([l], user) == if user.Some? && l.post.donorId == user.value then [l] else []
  {
    FilterAppend(a, b, OwnedBy(user));
    assert [l][1..] == [];
  }

  /** The page's query asks without annotation, so none of the donor's own
      cards is marked as requested, and each card's request button is
      hidden, as the card is the donor's own. */
  lemma OwnCardsOfferNoRequest(posts: seq<Post>, rs: seq<Request>, uid: Uid)
    ensures var r := ListPosts(posts, rs, Some(uid), Some(1), Some(100), Some("false"), None, None);
      r.Ok? && forall k :: 0 <= k < |Mine(r.data.data, Some(uid))| ==>
        var l := Mine(r.data.data, Some(uid))[k];
        l.post in posts && l.post.donorId == uid && !l.requestedByMe
        && !ShowsButton(Some(false), Owned(Some(true), Some(uid), l.post.donorId), Some(l.post.completed))
  {
    ListPostsPage(posts, rs, Some(uid), 1, 100, Some("false"), None, None);
    NoAnnotationWithoutCaller(posts, rs, Some(uid), Some(1), Some(100), Some("false"), None, None);
  }

  /** What the page body shows. */
  datatype Body = Skeletons | NoPostsYet | Cards(listings: seq<Listed>)

  function Shown(isLoading: bool, mine: seq<Listed>): (b: Body)
    ensures isLoading ==> b == Skeletons
    ensures !isLoading && mine == [] ==> b == NoPostsYet
    ensures !isLoading && mine != [] ==> b == Cards(mine)
  {
    if isLoading then Skeletons else if |mine| == 0 then NoPostsYet else Cards(mine)
  }

  /** Once loaded, the page shows the empty message exactly when none of
      the fetched listings is the signed-in donor's, and otherwise the
      donor's cards, each a fetched listing of theirs. */
  lemma ShownListsOwn(fetched: seq<Listed>, user: Option<Uid>)
    ensures var b := Shown(false, Mine(fetched, user));
      (b == NoPostsYet <==> forall k :: 0 <= k < |fetched| ==> !(user.Some? && fetched[k].post.donorId == user.value))
      && (b != NoPostsYet ==> b.Cards? && forall k :: 0 <= k < |b.listings| ==>
            b.listings[k] in fetched && b.listings[k].post.donorId == user.value)
  {
    var m := Mine(fetched, user);
    if m != [] {
      assert m[0] in fetched;
    }
  }

  /** How a delete attempt ended: the list is refreshed, or an alert shows. */
  datatype DeleteEnd = Refresh | Failure(message: string)

  /** The delete dialog's state: which listing is up for deletion and which
      one is being deleted. */
  class DeleteDialog {
    var postToDelete: Option<ObjectId>
    var savingId: Option<ObjectId>

    constructor ()
      ensures postToDelete.None? && savingId.None?
    {
      postToDelete := None;
      savingId := None;
    }

    /** The dialog is open exactly while a listing is up for deletion. */
    predicate IsOpen()
      reads this
    {
      postToDelete.Some?
    }

    /** A card's delete button reads "Deleting..." and is disabled while that
        listing is being deleted. */
    predicate Deleting(id: ObjectId)
      reads this
    {
      savingId == Some(id)
    }

    /** `handleDeleteClick`: the listing goes up for deletion and the dialog
        opens. */
    method DeleteClick(id: ObjectId)
      modifies this
      ensures postToDelete == Some(id) && savingId == old(savingId)
      ensures IsOpen()
    {
      postToDelete := Some(id);
    }

    /** `handleCancelDelete`, also run when the dialog is closed: nothing is
        up for deletion any more. */
    method CancelDelete()
      modifies this
      ensures postToDelete.None? && savingId == old(savingId)
      ensures !IsOpen()
    {
      postToDelete := None;
    }

    /** The dialog's `onOpenChange`: closing it cancels the deletion, opening
        it changes nothing. */
    method OpenChange(open: bool)
      modifies this
      ensures !open ==> postToDelete.None? && savingId == old(savingId)
      ensures open ==> postToDelete == old(postToDelete) && savingId == old(savingId)
    {
      if !open {
        CancelDelete();
      }
    }

    /** `confirmDelete`: with nothing up for deletion, nothing happens;
        otherwise the listing is marked as being deleted and its DELETE
        goes out. */
    method ConfirmDelete() returns (deleteId: Option<ObjectId>)
      modifies this
      ensures old(postToDelete).None? ==> deleteId.None? && savingId == old(savingId)
      ensures old(postToDelete).Some? ==> deleteId == old(postToDelete) && savingId == old(postToDelete)
      ensures postToDelete == old(postToDelete)
      ensures deleteId.Some? ==> Deleting(deleteId.value)
    {
      if postToDelete.None? {
        return None;
      }
      savingId := postToDelete;
      return postToDelete;
    }

    /** The end of `confirmDelete`, success or failure: nothing is being
        deleted or up for deletion any more, so the dialog closes; a failure
        shows its message, or a default one. */
    method DeleteFinished(failure: Option<string>) returns (end: DeleteEnd)
      modifies this
      ensures savingId.None? && postToDelete.None? && !IsOpen()
      ensures failure.None? ==> end == Refresh
      ensures failure.Some? ==> end == Failure(OrElse(failure, "Failed to delete post. Please try again."))
    {
      if failure.None? {
        end := Refresh;
      } else {
        end := Failure(if failure.value != "" then failure.value else "Failed to delete post. Please try again.");
      }
      savingId := None;
      postToDelete := None;
    }
  }
}
