/** The client's sign-in state of components/auth-provider.tsx: the guard
    against a second sign-in while one is running, the classification of
    the identity provider's error codes, the ID-token lookup, and the rules
    the authenticated fetcher applies to headers and responses. The popup,
    the provider's sign-out and the network are values handed in. */
module AuthProvider {
  import opened Shared
  import opened Bearer

  /** What `signInGoogle` resolves to. */
  datatype SignInResult = SignInResult(success: bool, error: Option<string>)

  /** How the popup sign-in ended: success, or an error with its `code`. */
  datatype PopupEnd = PopupOk | PopupError(code: Option<string>)

  /** The result and the `signInError` an error code leads to. */
  datatype Classified = Classified(result: SignInResult, signInError: Option<string>)

  const GenericMessage: string := "An error occurred during sign in. Please try again."

  /** The provider's texts for the three failures it explains. */
  const ClosedPopupMessage: string := "You canceled sign-in. Try again if you'd like to continue."
  const BlockedPopupMessage: string := "Please allow popups for this website to sign in with Google"
  const ExistingAccountMessage: string := "An account already exists with the same email but different sign-in credentials."

  /** The catch block of `signInGoogle`. */
  function Classify(code: Option<string>): (c: Classified)
    ensures !c.result.success && c.result.error.Some?
    ensures code == Some("auth/popup-closed-by-user") ==>
      c == Classified(SignInResult(false, Some("popup-closed")), Some(ClosedPopupMessage))
    ensures code == Some("auth/cancelled-popup-request") ==>
      c == Classified(SignInResult(false, Some("popup-cancelled")), None)
    ensures code == Some("auth/popup-blocked") ==>
      c == Classified(SignInResult(false, Some("popup-blocked")), Some(BlockedPopupMessage))
    ensures code == Some("auth/account-exists-with-different-credential") ==>
      c == Classified(SignInResult(false, Some("account-exists")), Some(ExistingAccountMessage))
    ensures code != Some("auth/popup-closed-by-user") && code != Some("auth/cancelled-popup-request")
            && code != Some("auth/popup-blocked") && code != Some("auth/account-exists-with-different-credential") ==>
      c == Classified(SignInResult(false, Some(OrElse(code, "unknown-error"))), Some(GenericMessage))
    ensures c.signInError.None? <==> code == Some("auth/cancelled-popup-request")
  {
    if code == Some("auth/popup-closed-by-user") then
      Classified(SignInResult(false, Some("popup-closed")), Some(ClosedPopupMessage))
    else if code == Some("auth/cancelled-popup-request") then
      Classified(SignInResult(false, Some("popup-cancelled")), None)
    else if code == Some("auth/popup-blocked") then
      Classified(SignInResult(false, Some("popup-blocked")), Some(BlockedPopupMessage))
    else if code == Some("auth/account-exists-with-different-credential") then
      Classified(SignInResult(false, Some("account-exists")), Some(ExistingAccountMessage))
    else
      Classified(SignInResult(false, Some(if code.Some? && code.value != "" then code.value else "unknown-error")),
                 Some(GenericMessage))
  }

  /** The signed-in user as the provider reports it; `idToken` is what
      `getIdToken()` on it resolves to. */
  datatype CurrentUser = CurrentUser(uid: Uid, idToken: string)

  /** `getIdToken`: no token without a current user. */
  function GetIdToken(current: Option<CurrentUser>): (t: Option<string>)
    ensures t.None? <==> current.None?
    ensures t.Some? ==> t.value == current.value.idToken
  {
    if current.None? then None else Some(current.value.idToken)
  }

  /** Every field of the provider's state. */
  datatype AuthView = AuthView(user: Option<CurrentUser>, loading: bool, isSigningIn: bool, signInError: Option<string>)

  class AuthState {
    var user: Option<CurrentUser>
    var loading: bool
    var isSigningIn: bool
    var signInError: Option<string>

    function View(): AuthView
      reads this
    {
      AuthView(user, loading, isSigningIn, signInError)
    }

    constructor ()
      ensures View() == AuthView(None, true, false, None)
    {
      user := None;
      loading := true;
      isSigningIn := false;
      signInError := None;
    }

    /** `onAuthStateChanged`: the reported user is taken and loading ends. */
    method AuthChanged(u: Option<CurrentUser>)
      modifies this
      ensures View() == old(View()).(user := u, loading := false)
    {
      user := u;
      loading := false;
    }

    method ClearSignInError()
      modifies this
      ensures View() == old(View()).(signInError := None)
    {
      signInError := None;
    }

    /** The start of `signInGoogle`: while a sign-in runs, a second one is
        refused and changes nothing; otherwise the sign-in starts with the
        error cleared. */
    method BeginSignIn() returns (refused: Option<SignInResult>)
      modifies this
      ensures old(isSigningIn) ==> refused == Some(SignInResult(false, Some("Sign in already in progress")))
                                   && View() == old(View())
      ensures !old(isSigningIn) ==> refused.None? && View() == old(View()).(isSigningIn := true, signInError := None)
    {
      if isSigningIn {
        return Some(SignInResult(false, Some("Sign in already in progress")));
      }
      isSigningIn := true;
      signInError := None;
      return None;
    }

    /** The end of `signInGoogle`: success, or the classified error and its
        message; either way no sign-in is running afterwards. */
    method FinishSignIn(popup: PopupEnd) returns (result: SignInResult)
      modifies this
      ensures popup.PopupOk? ==> result == SignInResult(true, None) && View() == old(View()).(isSigningIn := false)
      ensures popup.PopupError? ==> (var c := Classify(popup.code);
                result == c.result
                && View() == old(View()).(isSigningIn := false,
                                          signInError := if c.signInError.Some? then c.signInError else old(signInError)))
      ensures !isSigningIn
    {
      match popup {
        case PopupOk =>
          result := SignInResult(true, None);
        case PopupError(code) =>
          var c := Classify(code);
          if c.signInError.Some? {
            signInError := c.signInError;
          }
          result := c.result;
      }
      isSigningIn := false;
    }
  }

  // ---------------------------------------------------------------- authenticated fetcher

  /** The request headers: the caller's, plus `Authorization: Bearer …`
      exactly when a token is at hand. */
  function Headers(given: map<string, string>, token: Option<string>): (h: map<string, string>)
    ensures Truthy(token) ==> h == given["Authorization" := BearerHeader(token.value)]
    ensures !Truthy(token) ==> h == given
  {
    if token.Some? && token.value != "" then given["Authorization" := BearerHeader(token.value)] else given
  }

  /** A response as the fetcher reads it; `body` is its parsed JSON. */
  datatype Response<T> = Response(ok: bool, status: int, text: string, body: T)

  /** What the fetcher gives back: an error thrown with the body's text, no
      content, or the JSON. */
  datatype Fetched<T> = Thrown(message: string) | NoContent | Json(value: T)

  function HandleResponse<T>(res: Response<T>): (f: Fetched<T>)
    ensures !res.ok <==> f == Thrown(res.text)
    ensures res.ok && res.status == 204 ==> f == NoContent
    ensures res.ok && res.status != 204 ==> f == Json(res.body)
  {
    if !res.ok then Thrown(res.text)
    else if res.status == 204 then NoContent
    else Json(res.body)
  }

  /** A handler's reply as `fetch` receives it: `ok` exactly for a 2xx
      status; a success carries the given 2xx status and its data, an error
      its status and its text. */
  function Delivered<T>(r: Reply<T>, okStatus: int): (res: Response<Option<T>>)
    ensures res.ok <==> 200 <= res.status < 300
  {
    match r
    case Ok(data) => Response(200 <= okStatus < 300, okStatus, "", Some(data))
    case Err(status, text) => Response(200 <= status < 300, status, text, None)
  }

  /** Every error reply a handler sends (all of them 4xx or 5xx) reaches the
      page as a thrown error carrying its text, and every success sent with
      a 2xx status as its JSON, or as null for 204. */
  lemma FetcherSeesReply<T>(r: Reply<T>, okStatus: int)
    requires 200 <= okStatus < 300
    requires r.Err? ==> r.status >= 400
    ensures r.Err? ==> HandleResponse(Delivered(r, okStatus)) == Thrown(r.text)
    ensures r.Ok? && okStatus != 204 ==> HandleResponse(Delivered(r, okStatus)) == Json(Some(r.data))
    ensures r.Ok? && okStatus == 204 ==> HandleResponse(Delivered(r, okStatus)) == NoContent
  {
  }

  /** The token the fetcher attaches is the one the server reads back from
      the header, and without a token the server finds none (is given none,
      so answers 401). */
  lemma FetcherTokenReachesServer(given: map<string, string>, current: Option<CurrentUser>)
    requires "Authorization" !in given
    ensures var token := GetIdToken(current);
      var h := Headers(given, token);
      var header := if "Authorization" in h then Some(h["Authorization"]) else None;
      (Truthy(token) && ' ' !in token.value ==> ParseBearer(header) == token)
      && (!Truthy(token) ==> ParseBearer(header).None?)
  {
    var token := GetIdToken(current);
    if Truthy(token) {
      BearerRoundTrip(token.value);
    }
  }
}
