/** The navigation bar of components/navbar.tsx: the message a failed
    sign-in leaves, which of the four links is highlighted, and the sign-in
    button. The three-second auto-dismiss is a timer and is not modelled. */
module Navbar {
  import opened Shared
  import opened Text
  import opened AuthProvider

  /** The navbar's own texts for the three failures it recognises. */
  const CanceledMessage: string := "You canceled sign-in. Try again if you'd like to continue."
  const PopupsMessage: string := "Please allow popups for this website to sign in with Google"
  const AccountExistsMessage: string := "An account already exists with the same email but different sign-in credentials."

  /** `handleSignIn`'s local message for what `signInGoogle` resolved to:
      none for a success, a specific one for the three known failures, the
      generic one for any other. */
  function LocalError(result: SignInResult): (msg: Option<string>)
    ensures result.success <==> msg.None?
    ensures !result.success && result.error == Some("popup-closed") ==>
              msg == Some(CanceledMessage)
    ensures !result.success && result.error == Some("popup-blocked") ==>
              msg == Some(PopupsMessage)
    ensures !result.success && result.error == Some("account-exists") ==>
              msg == Some(AccountExistsMessage)
    ensures !result.success && result.error != Some("popup-closed") && result.error != Some("popup-blocked")
            && result.error != Some("account-exists") ==>
              msg == Some(GenericMessage)
  {
    if result.success then None
    else if result.error == Some("popup-closed") then Some(CanceledMessage)
    else if result.error == Some("popup-blocked") then Some(PopupsMessage)
    else if result.error == Some("account-exists") then Some(AccountExistsMessage)
    else Some(GenericMessage)
  }

  /** The message under the button: `signInError || localError`. */
  function Shown(signInError: Option<string>, localError: Option<string>): (m: Option<string>)
    ensures Truthy(signInError) ==> m == signInError
    ensures !Truthy(signInError) && Truthy(localError) ==> m == localError
    ensures m.Some? <==> Truthy(signInError) || Truthy(localError)
  {
    if Truthy(signInError) then signInError
    else if Truthy(localError) then localError
    else None
  }

  /** The provider and the navbar agree: for every error code the provider
      formats, the navbar's local message is the same text, so the shown one
      does not depend on which of the two is read. A cancelled popup, which
      the provider leaves silent, shows the navbar's generic message. The
      codes the provider reports are all prefixed "auth/", so none of them
      passes through as one of the navbar's short names. */
  lemma ProviderAndNavbarAgree(code: Option<string>)
    requires OrElse(code, "unknown-error") !in {"popup-closed", "popup-blocked", "account-exists"}
    ensures var c := Classify(code);
      (c.signInError.Some? ==> LocalError(c.result) == c.signInError)
      && (code == Some("auth/cancelled-popup-request") ==> Shown(c.signInError, LocalError(c.result)) == Some(GenericMessage))
      && Shown(c.signInError, LocalError(c.result)).Some?
  {
    var c := Classify(code);
    if code == Some("auth/popup-closed-by-user") {
      assert c.result.error == Some("popup-closed");
    } else if code == Some("auth/cancelled-popup-request") {
      assert c.result.error == Some("popup-cancelled");
    } else if code == Some("auth/popup-blocked") {
      assert c.result.error == Some("popup-blocked");
    } else if code == Some("auth/account-exists-with-different-credential") {
      assert c.result.error == Some("account-exists");
    } else {
      assert c.result.error == Some(OrElse(code, "unknown-error"));
      assert c.signInError == Some(GenericMessage);
    }
  }

  /** What the navbar shows after a sign-in: nothing for a success; for a
      failed popup the provider's explanation of a closed popup, a blocked
      popup or an existing account, and the generic message for every other
      code, whichever of the two messages is read. */
  lemma ShownMessageForCode(code: Option<string>)
    ensures Shown(None, LocalError(SignInResult(true, None))).None?
    ensures var c := Classify(code);
      Shown(c.signInError, LocalError(c.result))
        == Some(if code == Some("auth/popup-closed-by-user") then CanceledMessage
                else if code == Some("auth/popup-blocked") then PopupsMessage
                else if code == Some("auth/account-exists-with-different-credential") then AccountExistsMessage
                else GenericMessage)
  {
  }

  /** A sign-in refused because another is running shows the generic
      message. */
  lemma RefusedSignInShowsGeneric()
    ensures LocalError(SignInResult(false, Some("Sign in already in progress"))) == Some(GenericMessage)
  {
  }

  // ---------------------------------------------------------------- links

  const Links: seq<string> := ["/", "/browse", "/my-donations", "/request"]

  /** `NavLink`'s `active`: Home only on "/" itself, every other link on its
      own path and everything below it; nothing without a path. */
  predicate IsActive(href: string, pathname: Option<string>) {
    pathname.Some? && (if href == "/" then pathname.value == "/" else StartsWith(pathname.value, href))
  }

  /** Whatever the path, at most one of the four links is highlighted. */
  lemma AtMostOneActive(pathname: Option<string>, i: nat, j: nat)
    requires i < |Links| && j < |Links| && i != j
    ensures !(IsActive(Links[i], pathname) && IsActive(Links[j], pathname))
  {
    assert Links[1][1] == 'b' && Links[2][1] == 'm' && Links[3][1] == 'r';
    if pathname.Some? && i != 0 && j != 0 && IsActive(Links[i], pathname) {
      assert pathname.value[1] == Links[i][1];
    }
  }

  /** Each page's own path highlights its link, and the pages below
      `/browse` keep Browse highlighted. */
  lemma EachPageHighlightsItsLink(rest: string)
    ensures IsActive("/", Some("/")) && !IsActive("/", Some("/browse"))
    ensures IsActive("/browse", Some("/browse" + rest))
    ensures IsActive("/my-donations", Some("/my-donations" + rest))
    ensures IsActive("/request", Some("/request" + rest))
  {
    assert ("/browse" + rest)[..7] == "/browse";
    assert ("/my-donations" + rest)[..13] == "/my-donations";
    assert ("/request" + rest)[..8] == "/request";
  }

  // ---------------------------------------------------------------- sign-in button

  /** The button is disabled while the session loads or a sign-in runs. */
  function SignInDisabled(loading: bool, isSigningIn: bool): (b: bool)
    ensures b <==> loading || isSigningIn
  {
    loading || isSigningIn
  }

  function SignInLabel(isSigningIn: bool): (s: string)
    ensures isSigningIn <==> s == "Signing in..."
  {
    if isSigningIn then "Signing in..." else "Sign in with Google"
  }

  /** The button follows the provider's state: while a sign-in runs it is
      disabled and reads "Signing in...", so the provider's refusal of a
      second sign-in is never reached from it; whenever it can be clicked
      it reads "Sign in with Google". */
  lemma ButtonFollowsProvider(v: AuthView)
    ensures v.isSigningIn ==> SignInDisabled(v.loading, v.isSigningIn) && SignInLabel(v.isSigningIn) == "Signing in..."
    ensures !SignInDisabled(v.loading, v.isSigningIn) ==>
              !v.isSigningIn && !v.loading && SignInLabel(v.isSigningIn) == "Sign in with Google"
  {
  }
}
