/** The profile editor of app/profile/page.tsx: the form is prefilled from
    the stored profile once, compared with it to decide whether there is
    anything to save, and saved with a PUT once the phone passes the
    ten-digit check. */
module ProfilePage {
  import opened Shared
  import opened Text
  import opened UserModel
  import opened PhoneRules
  import opened ProfileRoute

  /** The form fields; `email` is None once it is prefilled from a profile
      without one. */
  datatype Fields = Fields(name: string, email: Option<string>, phone: string, address: string)

  /** The values a stored profile stands for in the form: each field with
      its default, the name falling back to the signed-in user's display
      name. */
  function Baseline(p: Profile, displayName: Option<string>): (f: Fields)
    ensures Truthy(p.name) ==> f.name == p.name.value
    ensures !Truthy(p.name) ==> f.name == OrElse(displayName, "")
    ensures f.email == p.email && f.address == p.address
    ensures f.phone == if Truthy(p.phone) then p.phone.value else ""
  {
    Fields(if Truthy(p.name) then p.name.value else OrElse(displayName, ""),
           p.email, OrElse(p.phone, ""), p.address)
  }

  /** `hasChanges`: false without a profile; otherwise whether name, phone or
      address differs from the profile's value. The email plays no part. */
  function HasChanges(form: Fields, profile: Option<Profile>, displayName: Option<string>): (b: bool)
    ensures profile.None? ==> !b
    ensures profile.Some? ==> (b <==> var base := Baseline(profile.value, displayName);
                               form.name != base.name || form.phone != base.phone || form.address != base.address)
  {
    profile.Some? &&
    var base := Baseline(profile.value, displayName);
    form.name != base.name || form.phone != base.phone || form.address != base.address
  }

  /** A form that shows exactly its profile has nothing to save, whatever
      the email field holds. */
  lemma BaselineHasNoChanges(p: Profile, displayName: Option<string>, email: Option<string>)
    ensures !HasChanges(Baseline(p, displayName).(email := email), Some(p), displayName)
  {
  }

  /** The page's state. */
  class ProfileForm {
    var form: Fields
    var saving: bool
    var error: string
    const displayName: Option<string>

    constructor (displayName: Option<string>)
      ensures form == Fields("", Some(""), "", "") && !saving && error == ""
      ensures this.displayName == displayName
    {
      form := Fields("", Some(""), "", "");
      saving := false;
      error := "";
      this.displayName := displayName;
    }

    /** The prefill effect: it copies the profile into the form only while the
        email field is still empty, so it happens once, after which there is
        nothing to save. */
    method Prefill(profile: Option<Profile>)
      modifies this
      ensures profile.Some? && old(form).email == Some("") ==> form == Baseline(profile.value, displayName)
      ensures profile.Some? && old(form).email == Some("") ==> !HasChanges(form, profile, displayName)
      ensures !(profile.Some? && old(form).email == Some("")) ==> form == old(form)
      ensures saving == old(saving) && error == old(error)
    {
      if profile.Some? && form.email == Some("") {
        form := Baseline(profile.value, displayName);
        BaselineHasNoChanges(profile.value, displayName, form.email);
      }
    }

    /** The phone input's `onChange`: an edit with more than ten digits is
        ignored; otherwise the digits are stored and the error cleared. */
    method PhoneChanged(value: string)
      modifies this
      ensures PhoneEdit(value).None? ==> form == old(form) && error == old(error)
      ensures PhoneEdit(value).Some? ==> form == old(form).(phone := PhoneEdit(value).value) && error == ""
      ensures saving == old(saving)
    {
      var digits := FormatPhoneNumber(value);
      if |digits| <= 10 {
        form := form.(phone := digits);
        if error != "" {
          error := "";
        }
      }
    }

    /** `save`: a failing phone sets its message and nothing is sent; an
        unchanged form sends nothing; otherwise the error is cleared, saving
        starts and the PUT body carries the name, the trimmed phone and the
        address. */
    method Save(profile: Option<Profile>) returns (call: Option<ProfileBody>)
      modifies this
      ensures form == old(form)
      ensures PhoneError(form.phone) != "" ==> call.None? && error == PhoneError(form.phone) && saving == old(saving)
      ensures PhoneError(form.phone) == "" && !HasChanges(form, profile, displayName)
              ==> call.None? && error == old(error) && saving == old(saving)
      ensures call.Some? <==> PhoneError(form.phone) == "" && HasChanges(form, profile, displayName)
      ensures call.Some? ==> (saving && error == ""
              && call.value == ProfileBody(Some(form.name), Some(Trim(form.phone)), Some(form.address))
              && |FormatPhoneNumber(call.value.phone.value)| == 10)
    {
      var phoneValue := Trim(form.phone);
      var digitsOnly := FormatPhoneNumber(phoneValue);
      if phoneValue == "" {
        error := "Phone number is required";
        return None;
      }
      if |digitsOnly| != 10 {
        error := "Phone number must be exactly 10 digits";
        return None;
      }
      if !HasChanges(form, profile, displayName) {
        return None;
      }
      error := "";
      saving := true;
      return Some(ProfileBody(Some(form.name), Some(phoneValue), Some(form.address)));
    }

    /** The end of `save`: saving stops; a failure shows its message, or
        "Save failed" when it has none. */
    method SaveFinished(failure: Option<string>)
      modifies this
      ensures !saving && form == old(form)
      ensures failure.None? ==> error == old(error)
      ensures failure.Some? ==> error == OrElse(failure, "Save failed")
    {
      if failure.Some? {
        error := if failure.value != "" then failure.value else "Save failed";
      }
      saving := false;
    }
  }
}
