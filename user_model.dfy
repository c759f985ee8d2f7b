/** The profile record of models/User.ts. */
module UserModel {
  import opened Shared

  /** A stored profile. A field the document lacks is None; `phone` is None
      for a stored null. */
  datatype Profile = Profile(
    uid: Uid,
    name: Option<string>,
    email: Option<string>,
    phone: Option<string>,
    address: string)

  /** The schema's `required` validators: a name and an email, neither empty.
      They run on `create` but not on an upserting update, so a stored
      profile need not conform. */
  predicate Conforms(p: Profile) {
    Truthy(p.name) && Truthy(p.email)
  }

  /** `create` with the given fields: the validators refuse a missing or
      empty name or email (None); a phone left out defaults to null and an
      address left out to "". */
  function CreateProfile(uid: Uid, name: Option<string>, email: Option<string>,
                         phone: Option<string>, address: Option<string>): (r: Option<Profile>)
    ensures r.Some? <==> Truthy(name) && Truthy(email)
    ensures r.Some? ==> Conforms(r.value) && r.value.uid == uid
    ensures r.Some? ==> r.value.name == name && r.value.email == email && r.value.phone == phone
    ensures r.Some? && address.None? ==> r.value.address == ""
    ensures r.Some? && address.Some? ==> r.value.address == address.value
  {
    if !Truthy(name) || !Truthy(email) then None
    else Some(Profile(uid, name, email, phone, if address.Some? then address.value else ""))
  }
}
