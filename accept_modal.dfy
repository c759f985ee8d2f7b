/** The accept dialog of components/accept-modal.tsx: the donor confirms the
    name and phone to share, prefilled once per opening from the stored
    profile, and the dialog issues the accept call once the phone passes the
    ten-digit check. The accept handler itself is not part of this model. */
module AcceptModal {
  import opened Shared
  import opened Text
  import opened PhoneRules

  /** The accept call: its path and the `{ name, phone }` body. */
  datatype AcceptCall = AcceptCall(url: string, name: string, phone: string)

  /** What the profile fetch produced: a reply with `data`, a reply without
      it, or a failure. */
  datatype ProfileFetch = Data(name: Option<string>, phone: Option<string>) | NoData | Failed

  /** Every field of the dialog's state at one moment. */
  datatype DialogState = DialogState(open: bool, name: string, phone: string, loading: bool,
                                     isProfileLoading: bool, hasFetchedProfile: bool,
                                     currentAddress: string, error: string)

  class AcceptDialog {
    var open: bool
    var name: string
    var phone: string
    var loading: bool
    var isProfileLoading: bool
    var hasFetchedProfile: bool
    var currentAddress: string
    var error: string
    const requestId: string

    function State(): DialogState
      reads this
    {
      DialogState(open, name, phone, loading, isProfileLoading, hasFetchedProfile, currentAddress, error)
    }

    /** The initial state, from the component's props. */
    constructor (requestId: string, defaultName: Option<string>, defaultPhone: Option<string>, address: Option<string>)
      ensures this.requestId == requestId
      ensures State() == DialogState(false, OrElse(defaultName, ""), OrElse(defaultPhone, ""), false,
                                     false, false, OrElse(address, ""), "")
    {
      this.requestId := requestId;
      open := false;
      name := OrElse(defaultName, "");
      phone := OrElse(defaultPhone, "");
      loading := false;
      isProfileLoading := false;
      hasFetchedProfile := false;
      currentAddress := OrElse(address, "");
      error := "";
    }

    /** `validateForm`: the phone check's message becomes the error, and the
        form passes exactly when there is none, that is, when the phone holds
        ten digits. */
    method ValidateForm() returns (ok: bool)
      modifies this
      ensures ok <==> PhoneError(phone) == ""
      ensures ok <==> |FormatPhoneNumber(phone)| == 10
      ensures State() == old(State()).(error := PhoneError(phone))
    {
      PhonePassesIffTenDigits(phone);
      var phoneValue := Trim(phone);
      var digitsOnly := FormatPhoneNumber(phoneValue);
      if phoneValue == "" {
        error := "Phone number is required";
        return false;
      }
      if |digitsOnly| != 10 {
        error := "Phone number must be exactly 10 digits";
        return false;
      }
      error := "";
      return true;
    }

    /** `confirm`: no call unless the form passes; otherwise loading starts
        and the name and phone go out as they are. */
    method Confirm() returns (call: Option<AcceptCall>)
      modifies this
      ensures call.None? <==> PhoneError(phone) != ""
      ensures call.None? ==> State() == old(State()).(error := PhoneError(phone))
      ensures call.Some? ==> State() == old(State()).(error := "", loading := true)
      ensures call.Some? ==> call.value == AcceptCall("/api/requests/" + requestId + "/accept", name, phone)
    {
      var ok := ValidateForm();
      if !ok {
        return None;
      }
      loading := true;
      return Some(AcceptCall("/api/requests/" + requestId + "/accept", name, phone));
    }

    /** The end of `confirm`: a success closes the dialog; a failure keeps it
        open with its message, or a default one. Loading stops either way. */
    method ConfirmFinished(failure: Option<string>)
      modifies this
      ensures failure.None? ==> State() == old(State()).(open := false, loading := false)
      ensures failure.Some? ==> State() == old(State()).(loading := false,
                                  error := OrElse(failure, "Failed to accept. Please try again."))
    {
      if failure.None? {
        open := false;
      } else {
        error := if failure.value != "" then failure.value else "Failed to accept. Please try again.";
      }
      loading := false;
    }

    /** The fetch effect starts a profile fetch only while the dialog is open
        and no profile has been taken in since it opened. */
    method BeginProfileFetch() returns (fetching: bool)
      modifies this
      ensures fetching <==> old(open) && !old(hasFetchedProfile)
      ensures fetching ==> State() == old(State()).(isProfileLoading := true)
      ensures !fetching ==> State() == old(State())
    {
      if !open || hasFetchedProfile {
        return false;
      }
      isProfileLoading := true;
      return true;
    }

    /** The end of the profile fetch: a non-empty stored name or phone
        replaces the field, an empty one does not, and the address is never
        touched. A reply without data leaves the fetch to be tried again; a
        failure does not. */
    method ProfileFetched(result: ProfileFetch)
      modifies this
      ensures result.Data? ==> State() == old(State()).(name := OrElse(result.name, old(name)),
                                  phone := OrElse(result.phone, old(phone)),
                                  hasFetchedProfile := true, isProfileLoading := false)
      ensures result.NoData? ==> State() == old(State()).(isProfileLoading := false)
      ensures result.Failed? ==> State() == old(State()).(hasFetchedProfile := true, isProfileLoading := false)
      ensures currentAddress == old(currentAddress)
    {
      match result {
        case Data(profileName, profilePhone) =>
          if profileName.Some? && profileName.value != "" {
            name := profileName.value;
          }
          if profilePhone.Some? && profilePhone.value != "" {
            phone := profilePhone.value;
          }
          hasFetchedProfile := true;
        case NoData =>
        case Failed =>
          hasFetchedProfile := true;
      }
      isProfileLoading := false;
    }

    /** `onOpenChange`: closing resets the fetched flag, so the next opening
        fetches the profile again. */
    method OpenChange(isOpen: bool)
      modifies this
      ensures isOpen ==> State() == old(State()).(open := true)
      ensures !isOpen ==> State() == old(State()).(open := false, hasFetchedProfile := false)
    {
      open := isOpen;
      if !isOpen {
        hasFetchedProfile := false;
      }
    }

    /** The Cancel button closes the dialog directly, without `onOpenChange`,
        so the fetched flag stays as it was. */
    method CancelClicked()
      modifies this
      ensures State() == old(State()).(open := false)
    {
      open := false;
    }

    /** The address effect: a non-empty `address` prop replaces the shown one. */
    method AddressChanged(address: Option<string>)
      modifies this
      ensures State() == old(State()).(currentAddress := OrElse(address, old(currentAddress)))
    {
      if address.Some? && address.value != "" {
        currentAddress := address.value;
      }
    }

    /** The phone input's `onChange`: at most ten digits, and only digits. */
    method PhoneChanged(value: string)
      modifies this
      ensures PhoneEdit(value).None? ==> State() == old(State())
      ensures PhoneEdit(value).Some? ==> State() == old(State()).(phone := PhoneEdit(value).value, error := "")
      ensures AllDigits(old(phone)) && |old(phone)| <= 10 ==> AllDigits(phone) && |phone| <= 10
    {
      var digits := FormatPhoneNumber(value);
      if |digits| <= 10 {
        phone := digits;
        if error != "" {
          error := "";
        }
      }
    }
  }
}
