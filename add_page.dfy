/** The add/edit listing form of app/add/page.tsx: its validator, its
    per-field error messages and its submit step, which either marks the
    form's errors or issues one HTTP call. */
module AddPage {
  import opened Shared
  import opened PostsRoute

  /** The form state; `lat`/`lng` are None while undefined. */
  datatype Form = Form(foodName: string, description: string, photoUrl: string, expiryAt: string,
                       locationText: string, lat: Option<real>, lng: Option<real>)

  /** The field names the form reports errors and touches under. */
  const Fields: set<string> := {"foodName", "description", "photoUrl", "expiryAt", "location"}

  /** `validateForm`'s error dictionary, built one conditional entry at a
      time. */
  function Errors(f: Form): (e: map<string, string>)
    ensures e.Keys <= Fields
    ensures "foodName" in e <==> f.foodName == ""
    ensures "description" in e <==> f.description == ""
    ensures "photoUrl" in e <==> f.photoUrl == ""
    ensures "expiryAt" in e <==> f.expiryAt == ""
    ensures "location" in e <==> f.locationText == "" || f.lat.None? || f.lng.None?
    ensures forall k :: k in e ==> e[k] != ""
  {
    var e0: map<string, string> := map[];
    var e1 := if f.foodName == "" then e0["foodName" := FoodNameRequired] else e0;
    var e2 := if f.description == "" then e1["description" := DescriptionRequired] else e1;
    var e3 := if f.photoUrl == "" then e2["photoUrl" := PhotoRequired] else e2;
    var e4 := if f.expiryAt == "" then e3["expiryAt" := ExpiryRequired] else e3;
    if f.locationText == "" || f.lat.None? || f.lng.None? then e4["location" := LocationRequired] else e4
  }

  /** The five messages `validateForm` records. */
  const FoodNameRequired: string := "Food name is required"
  const DescriptionRequired: string := "Description is required"
  const PhotoRequired: string := "Photo is required"
  const ExpiryRequired: string := "Expiry date is required"
  const LocationRequired: string := "Location is required"

  /** `validateForm`'s answer: no error recorded. */
  function ValidateForm(f: Form): (ok: bool)
    ensures ok <==> f.foodName != "" && f.description != "" && f.photoUrl != "" && f.expiryAt != ""
                    && f.locationText != "" && f.lat.Some? && f.lng.Some?
  {
    |Errors(f).Keys| == 0
  }

  /** The seven body fields both calls send. */
  function Body(f: Form): (b: PostBody)
    ensures b.foodName == Some(f.foodName) && b.description == Some(f.description)
    ensures b.photoUrl == Some(f.photoUrl) && b.expiryAt == Some(f.expiryAt)
    ensures b.locationText == Some(f.locationText) && b.lat == f.lat && b.lng == f.lng
  {
    PostBody(Some(f.foodName), Some(f.description), Some(f.photoUrl), Some(f.expiryAt),
             Some(f.locationText), f.lat, f.lng)
  }

  /** The form accepts exactly what the listing POST handler's guard accepts. */
  lemma FormAgreesWithServer(f: Form)
    ensures ValidateForm(f) <==> Complete(Body(f))
  {
  }

  /** An HTTP call the page issues. */
  datatype Call = Call(verb: string, url: string, body: PostBody)

  /** The form component's state. `editId` is the `id` search parameter. */
  class AddForm {
    var form: Form
    var touched: map<string, bool>
    var errors: map<string, string>
    var loading: bool
    const editId: Option<string>

    constructor (editId: Option<string>)
      ensures this.editId == editId && touched == map[] && errors == map[] && !loading
      ensures form == Form("", "", "", "", "", None, None)
    {
      this.editId := editId;
      form := Form("", "", "", "", "", None, None);
      touched := map[];
      errors := map[];
      loading := false;
    }

    /** A field's error is shown once it is touched and its message is not empty. */
    predicate ShowsError(field: string)
      reads this
    {
      field in touched && touched[field] && field in errors && errors[field] != ""
    }

    /** A field's `onBlur`: `handleBlur` runs only while the form is not
        disabled, that is while no photo uploads and no location is being
        detected. */
    method Blur(field: string, isUploading: bool, isDetectingLocation: bool)
      modifies this
      ensures touched == if isUploading || isDetectingLocation then old(touched) else old(touched)[field := true]
      ensures form == old(form) && errors == old(errors) && loading == old(loading)
    {
      var isFormDisabled := isUploading || isDetectingLocation;
      if !isFormDisabled {
        touched := touched[field := true];
      }
    }

    /** `submit`: every field touched, the errors recomputed, and, only when
        the form is valid, loading set and a PUT to `/api/posts/{id}` in edit
        mode or a POST to `/api/posts` otherwise. */
    method Submit() returns (call: Option<Call>)
      modifies this
      ensures touched == map["foodName" := true, "description" := true, "photoUrl" := true,
                             "expiryAt" := true, "location" := true]
      ensures errors == Errors(form) && form == old(form)
      ensures forall field :: field in errors ==> ShowsError(field)
      ensures call.None? <==> !ValidateForm(form)
      ensures call.None? ==> loading == old(loading)
      ensures call.Some? ==> loading && call.value.body == Body(form)
      ensures call.Some? && Truthy(editId) ==> call.value.verb == "PUT" && call.value.url == "/api/posts/" + editId.value
      ensures call.Some? && !Truthy(editId) ==> call.value.verb == "POST" && call.value.url == "/api/posts"
    {
      touched := map["foodName" := true, "description" := true, "photoUrl" := true,
                     "expiryAt" := true, "location" := true];
      errors := Errors(form);
      if !ValidateForm(form) {
        return None;
      }
      loading := true;
      if editId.Some? && editId.value != "" {
        call := Some(Call("PUT", "/api/posts/" + editId.value, Body(form)));
      } else {
        call := Some(Call("POST", "/api/posts", Body(form)));
      }
    }

    /** The `finally` of `submit`: loading ends whatever the call's outcome. */
    method SubmitFinished()
      modifies this
      ensures !loading && form == old(form) && touched == old(touched) && errors == old(errors)
    {
      loading := false;
    }
  }
}
