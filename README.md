# annadaana.in — a Dafny model of the food-sharing core

annadaana.in is a Next.js application. Donors post surplus food as
listings, and other users ask to pick a listing up by sending a request.
This project models the application's sequential core, with the document
store drawn as in-memory collections of listings (`Post`), pickup requests
(`Request`) and profiles (`Profile`):

- **The request toggle.** It creates or cancels the caller's request on a
  listing. It is a class holding the request sequence, proved against a
  function of the store before the call. The proofs cover the guards, that
  requesting twice changes nothing, and that no listing/requester pair gets
  two open requests.
- **The query side.** The request list (sent or received, newest first,
  paged with `hasMore`) and its join with each request's listing. The
  listing query (search, sort, paging and the `requestedByMe` mark). The
  Pending-only badge counts. All are pure functions of the store.
- **Listing creation and the profile endpoint.** Listing creation with its
  required-field guard and donor-name fallback. The profile endpoint with
  get-or-create and an upsert keyed by uid.
- **The client-side rules in the pages and components:**
  - the ten-digit phone rules;
  - the add-listing validator and submit step;
  - the image file guard and upload reset;
  - the food card's ownership, toggle action, 25-word truncation and expiry
    countdown;
  - the infinite-scroll page keys of the requests and browse pages. For a
    store unchanged between page loads, the loaded pages are proved to hold
    the server's ordering from the first item on, without gaps or repeats.
    That ordering is forced when no two items share a sort key;
  - the per-status buttons and the badges;
  - the my-donations owner filter and delete dialog;
  - sign-in error classification, nav-link highlighting and the
    authenticated fetcher.

Where the code updates state step by step, the model is a class:

- the request and listing stores;
- the profile store;
- the add form and the profile form;
- the accept dialog;
- the image uploader;
- the delete dialog;
- the sign-in state.

Each method's `ensures` gives the whole new state in terms of the old one.
The properties the application relies on are proved as lemmas about the
specification functions. Expressions and conditionals are modelled as
functions.

Clocks, the identity provider, the popup, HTTP responses, the file reader
and date parsing are not modelled. Each is a parameter instead: the clock
reading, the caller's uid or token claims, how the popup ended, how an
upload or fetch ended, and the parsed date.

Two behaviours of the code are worth stating plainly:

- The toggle's "cancel" of a request that is no longer Pending is not a
  rejected state transition. It answers 404 "No pending request".
- The toggle's duplicate check is a read followed by a create, not an
  atomic step. The one-open-request invariant is proved only for calls run
  one after another.

## Model

| member | source | states |
|---|---|---|
| RequestModel.StatusName | models/Request.ts:9-11 | every status is stored as one of the four enumerated names |
| RequestModel.ParseStatus | models/Request.ts:9-11 | a stored text passes the enum validator exactly when it is one of the four names |
| RequestModel.ParseStatusName | models/Request.ts:9-11 | a status stored as text reads back as the same status |
| RequestModel.StatusNameParse | models/Request.ts:9-11 | every text the validator accepts reads back as itself |
| UserModel.CreateProfile | models/User.ts:6-10 | creation is refused exactly when name or email is missing or empty; an accepted profile conforms, keeps the given fields, and its address defaults to "" |
| RequestsRoute.LookupPost | app/api/requests/route.ts:48 | a found listing is in the store with that id; nothing is found exactly when no listing has the id |
| RequestsRoute.FindMatch | app/api/requests/route.ts:54-58 | the first request of the caller on the listing with a wanted status; none exactly when no request matches |
| RequestsRoute.ToggleOutcome | app/api/requests/route.ts:41-80 | 401 exactly without a caller; 400 for a missing field; 404 for an unknown listing; 400 for another action; every error leaves the store unchanged; success only for "request" or "cancel" |
| RequestsRoute.ListingGuards | app/api/requests/route.ts:48-51 | an own listing and a completed listing are refused with 400 before either action, and a success implies neither |
| RequestsRoute.RequestOutcome | app/api/requests/route.ts:53-66 | a successful "request" returns an existing open request of the caller and changes nothing, or appends exactly one new request: fresh id, Pending, from the caller to the listing's donor, stamped now, with no contact snapshot |
| RequestsRoute.CancelOutcome | app/api/requests/route.ts:67-76 | "cancel" turns the caller's first Pending request on the listing into Cancelled and leaves every other record as it was; with none, 404 and no change |
| RequestsRoute.ToggleKeepsInvariant | app/api/requests/route.ts:53-76 | run one after another, toggles keep at most one Pending-or-Accepted request per listing/requester pair, and fresh distinct ids |
| RequestsRoute.RequestIsIdempotent | app/api/requests/route.ts:53-66 | repeating a successful "request" returns the same record and leaves the store as it was |
| RequestsRoute.CancelClosesPair | app/api/requests/route.ts:67-76 | after a successful "cancel" the caller holds no open request on the listing |
| RequestsRoute.RequestStore.constructor | models/Request.ts:36 | the empty request collection satisfies the store invariant |
| RequestsRoute.RequestStore.Toggle | app/api/requests/route.ts:41-80 | the POST handler answers and leaves the store as ToggleOutcome says, and keeps the store invariant |
| RequestsRoute.Selection | app/api/requests/route.ts:15-22 | tab "received" selects by donor, any other tab by requester; every selected request and only those, newest first |
| RequestsRoute.SelectionMultiplicity | app/api/requests/route.ts:15-22 | each of the caller's requests on the tab is selected exactly as often as it is stored; no other request is selected |
| RequestsRoute.SelectionIsForced | app/api/requests/route.ts:15-22 | when no two selected requests share a creation time, any newest-first arrangement of exactly the selected requests is the selection |
| RequestsRoute.ListRequests | app/api/requests/route.ts:9-37 | 401 without a caller; 500 exactly for a negative skip; otherwise page and limit echoed, `hasMore` exactly when the page is full, every item a joined request of the selection |
| RequestsRoute.ListRequestsPage | app/api/requests/route.ts:16-22 | page n with positive limit is the n-th run of `limit` items of the newest-first selection |
| RequestStats.PendingCountIsSize | app/api/requests/stats/route.ts:12-13 | the count is the number of Pending requests with the caller as party |
| RequestStats.PendingCountUpdate | app/api/requests/stats/route.ts:12-13 | replacing one record moves the count by what the old and new record contribute |
| RequestStats.GetStats | app/api/requests/stats/route.ts:7-15 | 401 exactly without a caller; otherwise the numbers of Pending requests as requester and as donor |
| RequestStats.ToggleMovesCounts | app/api/requests/stats/route.ts:12-13 | a toggle that leaves the store unchanged leaves every count unchanged; one that creates raises, and one that cancels lowers, the count of each party of the changed request by one |
| RequestStats.CreateRaisesBadges | app/api/requests/stats/route.ts:12-13 | a created request adds one to the requester's sent count and the donor's received count |
| RequestStats.CancelLowersBadges | app/api/requests/stats/route.ts:12-13 | a cancelled request takes one from the requester's sent count and the donor's received count |
| PostsRoute.Searched | app/api/posts/route.ts:19-25 | with a non-empty search a listing is kept exactly when its food name or location contains it ignoring case; without one all are kept |
| PostsRoute.SearchedMultiplicity | app/api/posts/route.ts:19-25 | each matching listing is kept exactly as often as it is stored; no other listing is kept |
| PostsRoute.Ordered | app/api/posts/route.ts:27-33 | the kept listings, ordered by expiry ascending for sort "expiryAt" and newest first otherwise |
| PostsRoute.OrderIsForced | app/api/posts/route.ts:19-33 | when no two matching listings share the sort key, any arrangement of exactly the matching listings in the chosen order is the listed one |
| PostsRoute.Annotate | app/api/posts/route.ts:46-62 | `requestedByMe` holds exactly when asked for, with a caller holding a Pending or Accepted request on the listing |
| PostsRoute.ListPosts | app/api/posts/route.ts:8-67 | 500 exactly for a negative skip; page and limit default to 1 and 10, `hasMore` exactly when the page is full; every item a kept listing with its annotation |
| PostsRoute.ListPostsPage | app/api/posts/route.ts:11-45 | page n with positive limit is the n-th run of `limit` ordered listings, annotated |
| PostsRoute.NoAnnotationWithoutCaller | app/api/posts/route.ts:47-62 | without `includeRequested=true` or without a caller no listing is marked |
| PostsRoute.PostStore.constructor | models/Post.ts:35 | the empty listing collection has fresh ids |
| PostsRoute.PostStore.Create | app/api/posts/route.ts:70-92 | 401 without a caller, 400 for a falsy text field or a null coordinate (0 accepted), 500 for an invalid date, each changing nothing; otherwise exactly one listing appended with the caller as donor, the name fallback, `completed` false |
| ProfileRoute.FirstVisit | app/api/profile/route.ts:12-21 | refused exactly for a token without an email; otherwise a conforming profile with the name from token name, email prefix, then "User", phone null, address "" and the token's email |
| ProfileRoute.GetAnswersStoredProfile | app/api/profile/route.ts:7-24 | GET succeeds exactly for a caller with a profile or a token email; the answer is the profile stored under the caller's uid; earlier profiles are kept and at most the caller's is added |
| ProfileRoute.PutOutcome | app/api/profile/route.ts:26-38 | 401 without a caller; otherwise the stored and returned profile has the caller's uid, each given name, phone and address, the earlier value of each field not given (none, none and "" for a new document), and the earlier email (none for a new document); every other profile is unchanged |
| ProfileRoute.OutcomesKeepKeys | models/User.ts:6 | both handlers keep each profile under its own uid, so uid stays unique |
| ProfileRoute.GetIsIdempotent | app/api/profile/route.ts:11-23 | a second GET returns the same record and creates nothing |
| ProfileRoute.GetAfterPut | app/api/profile/route.ts:26-38 | a GET after a PUT returns what the PUT stored |
| ProfileRoute.PutAndConformance | app/api/profile/route.ts:32-36 | the upsert runs no validators: it keeps a conforming profile conforming when the name it sets is non-empty, and a profile it creates never conforms |
| ProfileRoute.ProfileStore.constructor | models/User.ts:23 | the empty profile collection is keyed by uid |
| ProfileRoute.ProfileStore.Get | app/api/profile/route.ts:7-24 | the GET handler answers and leaves the store as GetOutcome says |
| ProfileRoute.ProfileStore.Put | app/api/profile/route.ts:26-38 | the PUT handler answers and leaves the store as PutOutcome says |
| Text.DigitsOnly | app/profile/page.tsx:42-45 | the result is the input filtered by IsDigit: every digit kept in its order, every other character dropped; so only digits remain, never more characters than the input had |
| Text.DigitsOnlyDropsNonDigits | app/profile/page.tsx:42-45 | a string holding no digit has an empty digit-only form |
| Text.DigitsOnlyConcat | app/profile/page.tsx:42-45 | the digit filter distributes over concatenation, so digits keep their order |
| Text.DigitsOnlyKeepsDigits | app/profile/page.tsx:42-45 | a string of digits is its own digit-only form |
| Text.DigitsOnlyIdempotent | app/profile/page.tsx:42-45 | filtering twice is filtering once |
| Text.DigitsOnlyOfSpace | app/profile/page.tsx:58-59 | white space holds no digits |
| Text.DigitsOnlyOfTrim | app/profile/page.tsx:58-59 | trimming never changes the digits a phone holds |
| Text.Trim | app/profile/page.tsx:58 | the text between leading and trailing white space; empty exactly for an all-space input |
| Text.Contains | app/api/posts/route.ts:22-23 | true exactly when the pattern occurs at some offset |
| Text.ContainsIgnoreCase | app/api/posts/route.ts:22-23 | true exactly when the pattern, with its ASCII letters lowered, occurs in the text with its ASCII letters lowered |
| Text.IgnoresCase | app/api/posts/route.ts:22-23 | lowering the ASCII letters of the text or of the pattern first changes no answer; a text matches its lowered self and each of its suffixes |
| Text.Split | components/food-card.tsx:74 | at least one piece, none of them holding the separator |
| Text.JoinSplit | components/food-card.tsx:74-76 | joining the pieces with the separator gives the string back |
| Text.SplitJoin | components/food-card.tsx:74-76 | splitting a join of separator-free pieces gives the pieces back |
| Text.JoinFirstPiecesIsPrefix | components/food-card.tsx:74-76 | the first k pieces joined are a prefix of the string, followed by the separator when pieces remain |
| Text.EmailPrefix | app/api/profile/route.ts:16 | the text before the first "@", a prefix of the email holding no "@" |
| Text.NameOrEmailPrefix | app/api/posts/route.ts:81 | the token name, else a non-empty email prefix, else the fallback; non-empty exactly when one of the three supplies text |
| Text.NatToString | components/food-card.tsx:142 | a non-empty digit string without a leading zero |
| Text.ParseNatToString | components/food-card.tsx:142 | the rendered number reads back as itself |
| Text.NatToStringInjective | components/food-card.tsx:142-148 | distinct numbers render as distinct texts |
| Query.SortBy | app/api/requests/route.ts:22 | sorted by the key and a permutation of the input |
| Query.SortedIsUnique | app/api/requests/route.ts:22 | two key-sorted arrangements of the same items whose keys are distinct are equal, so the order is forced |
| Query.Filter | app/api/requests/route.ts:20-22 | exactly the items satisfying the filter, each from the input |
| Query.FilterMultiplicity | app/api/requests/route.ts:20-22 | an item satisfying the filter is kept exactly as often as the input holds it; any other item not at all |
| Query.FilterAppend | app/my-donations/page.tsx:24 | filtering commutes with concatenation, so order is kept |
| Query.Count | app/api/requests/stats/route.ts:12-13 | at most the length; zero exactly when no item qualifies |
| Query.CountIsFilterLength | app/api/requests/stats/route.ts:12-13 | the count is the length of the filtered collection |
| Query.Limit | app/api/requests/route.ts:22 | a prefix; limit 0 keeps everything, any other limit keeps at most its absolute value |
| Query.Window | app/api/requests/route.ts:18-22 | refused exactly when the skip `(page-1)*limit` is negative; every item of a window is an item of the collection |
| Query.WindowIsSlice | app/api/requests/route.ts:18-22 | with positive page and limit the window is the slice from the skip, of at most `limit` items |
| Query.MappedAppend | app/request/page.tsx:28 | item-by-item correspondence survives concatenation |
| Query.FlattenOfWindows | app/request/page.tsx:28 | pages holding windows 1..n, concatenated, are the first n·limit items in order, with nothing skipped or repeated |
| Query.WindowStep | app/request/page.tsx:28 | the first k·limit items followed by window k+1 are the first (k+1)·limit items |
| PhoneRules.FormatPhoneNumber | app/profile/page.tsx:42-45 | the input filtered by IsDigit: its digits in their order and nothing else, never longer than the input |
| PhoneRules.FormatKeepsDigits | app/profile/page.tsx:42-45 | a string without digits becomes empty, a digit string is unchanged, and normal forms concatenate, so the input's digits keep their order |
| PhoneRules.PhonePassesIffTenDigits | components/accept-modal.tsx:51-66 | a phone passes exactly when it holds ten digits, whatever surrounds them |
| PhoneRules.AcceptedPhonePasses | components/accept-modal.tsx:159-167 | a phone the input accepted passes the check exactly when it is ten characters long |
| AddPage.Errors | app/add/page.tsx:114-123 | an error under each empty field and none under a filled one; a location error exactly when the text is empty or a coordinate is missing |
| AddPage.ValidateForm | app/add/page.tsx:114-127 | true exactly when every field is filled and both coordinates are present |
| AddPage.FormAgreesWithServer | app/add/page.tsx:114-126 | the form passes exactly when the body passes the listing POST handler's guard |
| AddPage.AddForm.constructor | app/add/page.tsx:22-30 | empty form, nothing touched, no errors, not loading |
| AddPage.AddForm.Blur | app/add/page.tsx:112-131 | while no photo uploads and no location is detected only the field is marked touched; while either runs nothing changes |
| AddPage.AddForm.Submit | app/add/page.tsx:133-178 | all five fields touched and every error shown; no call exactly when invalid; otherwise loading, PUT to `/api/posts/{id}` in edit mode or POST to `/api/posts`, with the form's body |
| AddPage.AddForm.SubmitFinished | app/add/page.tsx:182-184 | loading ends and nothing else changes |
| ProfilePage.BaselineHasNoChanges | app/profile/page.tsx:25-55 | a form showing its profile has nothing to save, whatever its email |
| ProfilePage.ProfileForm.constructor | app/profile/page.tsx:18-20 | empty fields, not saving, no error |
| ProfilePage.ProfileForm.Prefill | app/profile/page.tsx:25-34 | the profile is copied in only while the email is empty, after which there is nothing to save |
| ProfilePage.ProfileForm.PhoneChanged | app/profile/page.tsx:164-171 | an edit with more than ten digits is ignored; otherwise its digits are stored and the error cleared |
| ProfilePage.ProfileForm.Save | app/profile/page.tsx:57-90 | a failing phone sets its message and sends nothing; an unchanged form sends nothing; otherwise the error clears, saving starts, and a PUT goes out with the trimmed ten-digit phone |
| ProfilePage.ProfileForm.SaveFinished | app/profile/page.tsx:97-101 | saving stops; a failure shows its message or "Save failed" |
| AcceptModal.AcceptDialog.constructor | components/accept-modal.tsx:31-38 | closed; name, phone and address from the props or ""; no flags set |
| AcceptModal.AcceptDialog.ValidateForm | components/accept-modal.tsx:51-67 | passes exactly when the phone holds ten digits; the error becomes the check's message |
| AcceptModal.AcceptDialog.Confirm | components/accept-modal.tsx:69-78 | no accept call exactly when the phone fails; otherwise loading starts and the call carries the name and phone |
| AcceptModal.AcceptDialog.ConfirmFinished | components/accept-modal.tsx:79-86 | success closes the dialog; failure shows its message or the default; loading stops |
| AcceptModal.AcceptDialog.BeginProfileFetch | components/accept-modal.tsx:97-122 | a fetch starts exactly when open and not yet fetched |
| AcceptModal.AcceptDialog.ProfileFetched | components/accept-modal.tsx:102-117 | a non-empty stored name or phone replaces the field, an empty one does not; the address is never touched; a failure also marks the profile fetched |
| AcceptModal.AcceptDialog.OpenChange | components/accept-modal.tsx:126-131 | closing resets the fetched flag |
| AcceptModal.AcceptDialog.CancelClicked | components/accept-modal.tsx:188 | the Cancel button only closes the dialog |
| AcceptModal.AcceptDialog.AddressChanged | components/accept-modal.tsx:90-94 | a non-empty address prop replaces the shown address |
| AcceptModal.AcceptDialog.PhoneChanged | components/accept-modal.tsx:159-167 | the phone keeps at most ten digits and only digits |
| ImageUploader.SizeBoundIsInclusive | components/image-uploader.tsx:56-66 | for an image type, a file of exactly 5 MiB passes the guard and one byte more is refused with the size message |
| ImageUploader.FailureAlwaysHasMessage | components/image-uploader.tsx:86-130 | whatever fails the upload (no token, the network, an unparsable 2xx body, a non-2xx status) throws a non-empty message, so the catch block shows that message and never its default |
| ImageUploader.Uploader.constructor | components/image-uploader.tsx:17-28 | props default to "" and false; no file, preview, error or loading |
| ImageUploader.Uploader.ShowInitialImage | components/image-uploader.tsx:34-40 | a non-empty initial image becomes the preview and is reported |
| ImageUploader.Uploader.FileChanged | components/image-uploader.tsx:51-85 | nothing when disabled or no file; a rejected file only sets its message; otherwise error cleared, file recorded, upload started and the spinner shown |
| ImageUploader.Uploader.PreviewRead | components/image-uploader.tsx:72-76 | the data URL becomes the preview |
| ImageUploader.Uploader.UploadSettled | components/image-uploader.tsx:125-143 | success hands the body's URL (undefined when absent) to the parent; failure sets the error, clears preview, file and input, and shows the prompt again; loading stops |
| ImageUploader.Uploader.Remove | components/image-uploader.tsx:146-157 | the handler (defined, but bound to no element) drops the file, falls back to the initial image or no preview, clears the error, and reports "" exactly without an initial image |
| FoodCard.CardAgreesWithServer | components/food-card.tsx:36-88 | on a listing the caller may request the button shows; unmarked it reads "Request" and its click appends the caller's Pending request; marked it reads "Cancel Request" and its cancel succeeds exactly when the open request is Pending, and is answered 404 otherwise, so an Accepted request cannot be cancelled from the card |
| FoodCard.ButtonAndBadge | components/food-card.tsx:79-88 | a completed listing shows neither countdown badge nor request button; a shown button means a listing neither completed nor the viewer's, with its badge |
| FoodCard.TruncatedIsWordPrefix | components/food-card.tsx:74-76 | up to 25 words unchanged; otherwise a word-boundary prefix holding exactly the first 25 words, plus "..." |
| FoodCard.ComputeTimeLeft | components/food-card.tsx:104-117 | expired exactly at 0 ms or less; otherwise the whole hours left and the minutes of the hour begun, exact to the minute |
| FoodCard.StatusOfRemaining | components/food-card.tsx:104-151 | as a function of the milliseconds left: Expired at or below 0, minutes below an hour, hours below a day, Available from a day |
| FoodCard.StatusTextsAreDistinct | components/food-card.tsx:141-149 | distinct counts render distinct status texts |
| RequestPage.Loaded | app/request/page.tsx:22-28 | each loaded page is what the given server function answers for its key; loading stops only after a page without more |
| RequestPage.AnswerIsPage | app/request/page.tsx:22-26 | the handler answers every key `getKey` builds with a page, never an error |
| RequestPage.ServedIsWindow | app/request/page.tsx:22-28 | page n as the list receives it is the n-th run of ten of the selection, each joined with its listing, and reports more exactly when full |
| RequestPage.LoadedIsPrefix | app/request/page.tsx:22-28 | for any server function answering page p with the p-th run of ten, the loaded pages together are the selection's prefix |
| RequestPage.ListIsPrefixOfSelection | app/request/page.tsx:22-28 | for a store unchanged between page loads, the shown list is the newest-first selection's prefix, each request with its listing, without gaps or repeats |
| RequestPage.StoppedListShowsAll | app/request/page.tsx:22-28 | for a store unchanged between page loads, once loading stops the list shows every selected request |
| RequestPage.StopMeansShortPage | app/request/page.tsx:22-28 | loading stops only after a short page, which exhausts the selection |
| RequestPage.ButtonsOnlyWhilePending | app/request/page.tsx:43-70 | a row with buttons is Pending and never shows the donor's details |
| RequestPage.RowShowsItsListing | app/request/page.tsx:38-72 | a row names the listing with its request's `postId` ("N/A" when unnamed) and starts the accept dialog from its location; with no such listing "N/A" and no address |
| RequestPage.PlaceholderMeansMoreToLoad | app/request/page.tsx:97-105 | out of loading the placeholder and "Load more" show exactly when one more page request loads one more page; a stopped list shows neither |
| RequestPage.BadgeShowsPending | app/request/page.tsx:113-139 | a tab shows a badge exactly when the caller has a Pending request on that side, naming how many |
| BrowsePage.Loaded | app/browse/page.tsx:11-17 | each loaded page is what the given server function answers for its key; loading stops only after a page without more |
| BrowsePage.AnswerIsPage | app/browse/page.tsx:11-15 | the handler answers every key `getKey` builds with a page, never an error |
| BrowsePage.LoadedIsPrefix | app/browse/page.tsx:11-17 | for any server function answering page p with the p-th run of nine, the loaded pages together are the listings' prefix |
| BrowsePage.GridIsPrefixOfListings | app/browse/page.tsx:11-17 | for a store unchanged between page loads, the grid is the newest-first listings' prefix, each marked by the viewer's open requests, without gaps or repeats |
| BrowsePage.PageIsWindow | app/browse/page.tsx:13-14 | page n is the n-th run of nine listings, annotated, and reports more exactly when it is full |
| BrowsePage.StoppedGridShowsAll | app/browse/page.tsx:11-17 | for a store unchanged between page loads, once loading stops the grid shows every listing |
| BrowsePage.StoppedGridHasNoSkeletons | app/browse/page.tsx:37-38 | skeletons show while loading or while the last page reports more, so a stopped grid shows none when not loading |
| MyDonations.Mine | app/my-donations/page.tsx:24 | exactly the fetched listings whose donor is the signed-in user; none without a user |
| MyDonations.MineKeepsOrder | app/my-donations/page.tsx:24 | the filter works item by item, keeping the fetched order |
| MyDonations.OwnCardsOfferNoRequest | app/my-donations/page.tsx:23-68 | the donor's own cards are theirs, unmarked, and show no request button |
| MyDonations.ShownListsOwn | app/my-donations/page.tsx:24-64 | once loaded, the empty message shows exactly when no fetched listing is the donor's; otherwise the cards are the donor's fetched listings |
| MyDonations.DeleteDialog.constructor | app/my-donations/page.tsx:26-28 | nothing up for deletion or being deleted |
| MyDonations.DeleteDialog.DeleteClick | app/my-donations/page.tsx:30-32 | the listing is up for deletion and the dialog opens |
| MyDonations.DeleteDialog.CancelDelete | app/my-donations/page.tsx:34-36 | nothing up for deletion; the dialog closes |
| MyDonations.DeleteDialog.OpenChange | app/my-donations/page.tsx:87 | closing cancels the deletion; opening changes nothing |
| MyDonations.DeleteDialog.ConfirmDelete | app/my-donations/page.tsx:38-43 | with nothing selected nothing happens; otherwise that listing is being deleted and its DELETE goes out |
| MyDonations.DeleteDialog.DeleteFinished | app/my-donations/page.tsx:44-50 | after success or failure nothing is being deleted or selected; a failure shows its message or the default |
| Navbar.ProviderAndNavbarAgree | components/navbar.tsx:42-54 | for every `auth/` code the provider reports, the navbar's local message equals the provider's message when it sets one, so the shown message does not depend on which is read; a cancelled popup shows the generic message |
| Navbar.RefusedSignInShowsGeneric | components/navbar.tsx:51-53 | a refused second sign-in shows the generic message |
| Navbar.ShownMessageForCode | components/navbar.tsx:42-98 | after a sign-in nothing shows on success; a failed popup shows the closed-popup, blocked-popup or existing-account text for those codes and the generic message for every other code |
| Navbar.AtMostOneActive | components/navbar.tsx:65-76 | no path highlights two links |
| Navbar.EachPageHighlightsItsLink | components/navbar.tsx:65-76 | Home only on "/", each other link on its path and below it |
| Navbar.ButtonFollowsProvider | components/navbar.tsx:89-92 | while a sign-in runs the button is disabled and reads "Signing in...", so the provider's refusal is never reached from it; when clickable it reads "Sign in with Google" |
| AuthProvider.AuthState.constructor | components/auth-provider.tsx:23-35 | no user, loading, not signing in, no error |
| AuthProvider.AuthState.AuthChanged | components/auth-provider.tsx:26-30 | the reported user is taken and loading ends |
| AuthProvider.AuthState.ClearSignInError | components/auth-provider.tsx:37-39 | only the error is cleared |
| AuthProvider.AuthState.BeginSignIn | components/auth-provider.tsx:41-46 | while signing in the call is refused and nothing changes; otherwise signing in starts with the error cleared |
| AuthProvider.AuthState.FinishSignIn | components/auth-provider.tsx:56-85 | a success or the classified failure with its message; never signing in afterwards |
| AuthProvider.FetcherTokenReachesServer | components/auth-provider.tsx:120-127 | the server reads back the token the fetcher attached, and finds none when there is none |
| AuthProvider.FetcherSeesReply | components/auth-provider.tsx:129-136 | a handler's error reply (4xx or 5xx) reaches the page as a thrown error with its text; a 2xx success as its JSON, or null for 204 |
| Bearer.ParseBearer | lib/firebase-admin.ts:21-23 | a token exactly for a header starting "Bearer ", namely the first space-free piece after it |
| Bearer.SplitAfterScheme | lib/firebase-admin.ts:22-23 | such a header splits into "Bearer" followed by the pieces of the rest |
| Bearer.BearerRoundTrip | lib/firebase-admin.ts:22-23 | a space-free token sent as "Bearer token" is read back unchanged |

## Left out

- The accept, reject and cancel-by-id handlers, listing update and delete, the donor-contact snapshot and the cascade delete. Only their call sites are modelled (the accept dialog's call, the delete dialog's DELETE). The request rows' Cancel and Reject click handlers (app/request/page.tsx:54-64, 76-86) are not modelled either: their POST to `/api/requests/{id}/cancel` or `/reject` and the `canceling`/`rejecting` state they set. RequestPage.RowActions says only which buttons a row shows.
- Token verification. Checking the token's signature is a call into the identity provider. `requireUser` becomes an optional caller uid or set of token claims. Only the "Bearer " prefix check of section 2.1 of RFC 6750 is modelled.
- The upload route, the geocoding helpers and route, the location input, the database connection cache, the profile context, the token route, and the layout-only pages and skeletons. Each is I/O, a foreign service or layout.
- Concurrency. Every property holds for calls run one after another. The toggle's duplicate check is a read followed by a create and does not hold under concurrent calls.
- PostsRoute.Searched: the search text is a regular expression in the store. The model matches it as a plain substring, folding ASCII letters only.
- RequestsRoute.ListRequests, PostsRoute.ListPosts: numeric query parameters are integers. `Number` of a non-numeric `page` or `limit` text (NaN) is not modelled.
- RequestsRoute.ToggleOutcome, RequestsRoute.RequestStore.Toggle, PostsRoute.PostStore.Create, ProfileRoute.PutOutcome, ProfileRoute.ProfileStore.Put: each request body arrives already parsed into typed fields. A body that is not valid JSON makes `req.json()` throw, which answers 500 (app/api/requests/route.ts:45, app/api/posts/route.ts:74, app/api/profile/route.ts:30). In POST /api/posts a present `lat` or `lng` that is not a number, or a text field that is an object or array, fails the schema cast in `PostModel.create` (models/Post.ts:8-14), which also answers 500. Neither 500 is modelled; only the invalid-date cast is.
- RequestsRoute.ToggleOutcome: a malformed listing id, which the driver refuses with a cast error, is not modelled. Ids are numbers.
- ProfileRoute.PutOutcome, ProfileRoute.ProfileStore.Put, ProfileRoute.Upserted: an absent body field is left out of the update. An explicit JSON null is not distinguished from absence.
- ImageUploader.Settle: only whether a 2xx body parses and the `url` field it holds are modelled. A parsed body's other fields and a `url` that is not a string are not. A 2xx body that parses to `null` makes reading `res.url` throw, so the source ends in the catch block; the model has no such body and resolves every parsed body.
- Text.Lower: only the ASCII letters A to Z are lowered. The store's case-insensitive regular expression (`$options: "i"`) also folds non-ASCII letters.
- RequestPage.ListIsPrefixOfSelection: proved for one store snapshot, unchanged between page loads. Listings or requests created or cancelled while the list pages are not modelled.
- RequestPage.StoppedListShowsAll: proved for one store snapshot, unchanged between page loads.
- BrowsePage.GridIsPrefixOfListings: proved for one store snapshot, unchanged between page loads.
- BrowsePage.StoppedGridShowsAll: proved for one store snapshot, unchanged between page loads.
- The page-prefix lemmas above take the model's tie order for equal sort keys. PostsRoute.OrderIsForced and RequestsRoute.SelectionIsForced show that any store order agrees with it when no two items share a key. With shared keys, a store may order ties differently from page to page, which is not modelled.
- The phone inputs' `maxLength={10}` attribute (app/profile/page.tsx:175, components/accept-modal.tsx:174). It is a browser limit on typed characters. The change handlers' own ten-digit rule is modelled.
- FoodCard.ComputeTimeLeft: the expiry date's parsing is a parameter, so an invalid date (NaN) is not modelled. The badge's interval refresh is a timer and is not modelled.
- Query.SortBy: the store leaves the order of equal keys unspecified. The contract says only that the result is sorted and a permutation.
- Timers and progress: the navbar's three-second auto-dismiss, the upload progress bar and its reset, and SWR refresh intervals and revalidation.
- Floating point: coordinates are `real`. Their display and `toFixed` formatting are not modelled.
- ImageUploader.Uploader.Remove: `handleRemove` is defined but no element calls it (the `X` icon is imported and never rendered). The model keeps its state change as written.
- Display-only details:
  - the request row's `toLocaleString` expiry;
  - the "Cancelling..."/"Rejecting..." captions while those calls run;
  - the profile avatar's fallback letter;
  - the accept dialog's "Loading..." placeholders and "Confirming..." caption.
- Navigation side effects: router pushes, `location.assign` to the edit page, the sign-in redirect kept in session storage, and alerts.
- The add page's edit-mode effect that loads the listing into the form. The form's field edits are plain assignments and are not modelled either.
- The browse page's scroll sentinel. How many pages have been requested is the parameter `n` of `Loaded`.
- The profile page's and accept dialog's `validatePhoneNumber`. Neither file calls it.
- Sign-out. It is a call into the identity provider that changes no state of its own.
