/** The one local step of token verification in lib/firebase-admin.ts: the
    `Authorization` header must start with "Bearer ", and the token is its
    second space-separated piece (section 2.1 of RFC 6750). Checking the
    token's signature is a call into the identity provider and is not part
    of this model. */
module Bearer {
  import opened Shared
  import opened Text

  /** The token `verifyIdToken` goes on to check, or None when the header is
      missing or has another scheme. */
  function ParseBearer(header: Option<string>): (t: Option<string>)
    ensures t.Some? <==> header.Some? && StartsWith(header.value, "Bearer ")
    ensures t.Some? ==> t.value == Split(header.value[7..], ' ')[0] && ' ' !in t.value
  {
    if header.Some? && StartsWith(header.value, "Bearer ") then
      SplitAfterScheme(header.value);
      Some(Split(header.value, ' ')[1])
    else None
  }

  /** A header that starts with "Bearer " splits into at least two pieces,
      the first of them "Bearer". */
  lemma SplitAfterScheme(h: string)
    requires StartsWith(h, "Bearer ")
    ensures |Split(h, ' ')| >= 2 && Split(h, ' ')[0] == "Bearer"
    ensures Split(h, ' ') == ["Bearer"] + Split(h[7..], ' ')
  {
    assert h[6] == ' ' && ' ' !in h[..6];
    assert IndexOf(h, ' ') == 6;
    assert h[..6] == "Bearer";
  }

  /** The header the client builds, `Bearer ${token}`. */
  function BearerHeader(token: string): string {
    "Bearer " + token
  }

  /** The server reads back the token the client sent, provided the token
      holds no space (ID tokens are JWTs, which never do); from a token with
      a space it reads only the part before it. */
  lemma BearerRoundTrip(token: string)
    ensures ' ' !in token ==> ParseBearer(Some(BearerHeader(token))) == Some(token)
    ensures ParseBearer(Some(BearerHeader(token))).Some?
    ensures ParseBearer(Some(BearerHeader(token))).value == Split(token, ' ')[0]
  {
    var h := BearerHeader(token);
    assert h[..7] == "Bearer ";
    SplitAfterScheme(h);
    assert h[7..] == token;
  }
}
