/** The ten-digit phone rules app/profile/page.tsx and
    components/accept-modal.tsx both apply: the digit-only normal form, the
    check run before saving or accepting, and the filter on each edit of
    the phone input. */
module PhoneRules {
  import opened Shared
  import opened Text
  import Query

  /** `formatPhoneNumber`: only the digits of the input remain, in their
      order. */
  function FormatPhoneNumber(value: string): (r: string)
    ensures r == Query.Filter(value, IsDigit)
    ensures AllDigits(r) && |r| <= |value|
  {
    DigitsOnly(value)
  }

  /** The normal form keeps the input's digits and nothing else: a string
      without digits has an empty normal form, a digit string is its own normal
      form, and the normal form of a concatenation is the concatenation of
      the normal forms. */
  lemma FormatKeepsDigits(a: string, b: string)
    ensures (forall i :: 0 <= i < |a| ==> !IsDigit(a[i])) ==> FormatPhoneNumber(a) == []
    ensures AllDigits(a) ==> FormatPhoneNumber(a) == a
    ensures FormatPhoneNumber(a + b) == FormatPhoneNumber(a) + FormatPhoneNumber(b)
  {
    if forall i :: 0 <= i < |a| ==> !IsDigit(a[i]) {
      DigitsOnlyDropsNonDigits(a);
    }
    if AllDigits(a) {
      DigitsOnlyKeepsDigits(a);
    }
    DigitsOnlyConcat(a, b);
  }

  /** The phone check: the trimmed text must not be empty and must hold
      exactly ten digits. The message, or "" when the phone passes. */
  function PhoneError(phone: string): (msg: string)
    ensures Trim(phone) == "" ==> msg == "Phone number is required"
    ensures Trim(phone) != "" && |FormatPhoneNumber(Trim(phone))| != 10 ==> msg == "Phone number must be exactly 10 digits"
    ensures msg == "" <==> Trim(phone) != "" && |FormatPhoneNumber(Trim(phone))| == 10
  {
    var phoneValue := Trim(phone);
    if phoneValue == "" then "Phone number is required"
    else if |FormatPhoneNumber(phoneValue)| != 10 then "Phone number must be exactly 10 digits"
    else ""
  }

  /** Whatever surrounds them, a phone passes exactly when it holds ten
      digits: trimming removes no digit, and ten digits are never blank. */
  lemma {:induction false} PhonePassesIffTenDigits(phone: string)
    ensures PhoneError(phone) == "" <==> |FormatPhoneNumber(phone)| == 10
  {
    DigitsOnlyOfTrim(phone);
    if Trim(phone) == "" {
      assert FormatPhoneNumber(Trim(phone)) == "";
    }
  }

  /** The phone input's `onChange`: an edit is taken only when its digits
      number at most ten, and then the digits replace the input. */
  function PhoneEdit(value: string): (r: Option<string>)
    ensures r.Some? <==> |FormatPhoneNumber(value)| <= 10
    ensures r.Some? ==> AllDigits(r.value) && |r.value| <= 10 && r.value == FormatPhoneNumber(value)
  {
    var digits := FormatPhoneNumber(value);
    if |digits| <= 10 then Some(digits) else None
  }

  /** A phone the input accepted passes the check exactly when it is ten
      characters long. */
  lemma AcceptedPhonePasses(value: string)
    requires PhoneEdit(value).Some?
    ensures var p := PhoneEdit(value).value; PhoneError(p) == "" <==> |p| == 10
  {
    var p := PhoneEdit(value).value;
    PhonePassesIffTenDigits(p);
    FormatKeepsDigits(p, "");
  }
}
