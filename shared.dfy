/** Types shared by every part of the model: optional values, HTTP replies and
    the identifiers the document store and the identity provider hand out. */
module Shared {

  datatype Option<+T> = None | Some(value: T)

  /** An HTTP reply of a route handler: a JSON body carrying `data`, or an
      error status with its plain-text body. */
  datatype Reply<+T> = Ok(data: T) | Err(status: nat, text: string)

  /** A document identifier (`_id`). The store hands out distinct ones; their
      textual rendering plays no part in the model. */
  type ObjectId = nat

  /** A user identifier issued by the identity provider; never empty. */
  type Uid = s: string | |s| > 0 witness "u"

  /** A string that a schema field marked `required: true` accepts. */
  type NonEmpty = s: string | |s| > 0 witness "x"

  /** The claims of a verified bearer token that the handlers read. */
  datatype Token = Token(uid: Uid, name: Option<string>, email: Option<string>)

  /** JavaScript truthiness of an optional string: present and not empty. */
  predicate Truthy(s: Option<string>) {
    s.Some? && s.value != ""
  }

  /** `s || fallback` for an optional string. */
  function OrElse(s: Option<string>, fallback: string): (r: string)
    ensures Truthy(s) ==> r == s.value
    ensures !Truthy(s) ==> r == fallback
  {
    if s.Some? && s.value != "" then s.value else fallback
  }
}
