/** The profile endpoint of app/api/profile/route.ts: GET returns the caller's
    profile, creating it from the token on the first visit; PUT overwrites
    name, phone and address, creating the profile when it is missing. The
    profile collection is a map keyed by uid, which makes the schema's
    unique uid index hold by construction. */
module ProfileRoute {
  import opened Shared
  import opened Text
  import opened UserModel

  /** The PUT body; absent fields are None and are left out of the update. */
  datatype ProfileBody = ProfileBody(name: Option<string>, phone: Option<string>, address: Option<string>)

  /** What one call answers and leaves in the collection. */
  datatype Outcome = Outcome(reply: Reply<Profile>, profiles: map<Uid, Profile>)

  /** Each profile is stored under its own uid. */
  ghost predicate KeyedByUid(m: map<Uid, Profile>) {
    forall u :: u in m ==> m[u].uid == u
  }

  /** The profile GET creates on a first visit: the name falls back from the
      token's name to the email prefix to "User", phone null, address "",
      email from the token. A token without an email fails the schema's
      `required` check (None). */
  function FirstVisit(t: Token): (r: Option<Profile>)
    ensures r.Some? <==> Truthy(t.email)
    ensures r.Some? ==> (Conforms(r.value) && r.value.uid == t.uid
      && r.value.name == Some(NameOrEmailPrefix(t.name, t.email, "User"))
      && r.value.email == t.email && r.value.phone.None? && r.value.address == "")
  {
    CreateProfile(t.uid, Some(NameOrEmailPrefix(t.name, t.email, "User")), t.email, None, Some(""))
  }

  /** The GET handler as a function of the collection before the call. */
  function GetOutcome(m: map<Uid, Profile>, caller: Option<Token>): (o: Outcome)
    ensures caller.None? ==> o == Outcome(Err(401, "Unauthorized"), m)
    ensures caller.Some? && caller.value.uid in m ==> o == Outcome(Ok(m[caller.value.uid]), m)
    ensures caller.Some? && caller.value.uid !in m ==>
      match FirstVisit(caller.value)
      case None => o.reply.Err? && o.reply.status == 500 && o.profiles == m
      case Some(p) => o.reply == Ok(p) && o.profiles == m[caller.value.uid := p]
  {
    if caller.None? then Outcome(Err(401, "Unauthorized"), m)
    else
      var uid := caller.value.uid;
      if uid in m then Outcome(Ok(m[uid]), m)
      else match FirstVisit(caller.value)
        case None => Outcome(Err(500, "Internal Server Error"), m)
        case Some(p) => Outcome(Ok(p), m[uid := p])
  }

  /** The document the upsert leaves: the given fields overwritten, the rest
      kept; a new document gets the schema defaults and no email. */
  function Upserted(existing: Option<Profile>, uid: Uid, body: ProfileBody): (p: Profile)
    requires existing.Some? ==> existing.value.uid == uid
    ensures p.uid == uid
    ensures body.name.Some? ==> p.name == body.name
    ensures body.phone.Some? ==> p.phone == body.phone
    ensures body.address.Some? ==> p.address == body.address.value
    ensures existing.Some? ==> (p.email == existing.value.email
      && (body.name.None? ==> p.name == existing.value.name)
      && (body.phone.None? ==> p.phone == existing.value.phone)
      && (body.address.None? ==> p.address == existing.value.address))
    ensures existing.None? ==> (p.email.None?
      && (body.name.None? ==> p.name.None?)
      && (body.phone.None? ==> p.phone.None?)
      && (body.address.None? ==> p.address == ""))
  {
    var base := if existing.Some? then existing.value else Profile(uid, None, None, None, "");
    Profile(uid,
            if body.name.Some? then body.name else base.name,
            base.email,
            if body.phone.Some? then body.phone else base.phone,
            if body.address.Some? then body.address.value else base.address)
  }

  /** The PUT handler as a function of the collection before the call. */
  function PutOutcome(m: map<Uid, Profile>, caller: Option<Token>, body: ProfileBody): (o: Outcome)
    requires KeyedByUid(m)
    ensures caller.None? ==> o == Outcome(Err(401, "Unauthorized"), m)
    ensures caller.Some? ==> (o.reply.Ok? && o.profiles.Keys == m.Keys + {caller.value.uid}
      && o.profiles[caller.value.uid] == o.reply.data
      && (forall u :: u in m && u != caller.value.uid ==> o.profiles[u] == m[u]))
    ensures caller.Some? ==> var uid := caller.value.uid; var p := o.reply.data;
      p.uid == uid
      && p.name == (if body.name.Some? then body.name else if uid in m then m[uid].name else None)
      && p.phone == (if body.phone.Some? then body.phone else if uid in m then m[uid].phone else None)
      && p.address == (if body.address.Some? then body.address.value else if uid in m then m[uid].address else "")
      && p.email == (if uid in m then m[uid].email else None)
  {
    if caller.None? then Outcome(Err(401, "Unauthorized"), m)
    else
      var uid := caller.value.uid;
      var p := Upserted(if uid in m then Some(m[uid]) else None, uid, body);
      Outcome(Ok(p), m[uid := p])
  }

  /** Both handlers keep every profile under its own uid. */
  lemma OutcomesKeepKeys(m: map<Uid, Profile>, caller: Option<Token>, body: ProfileBody)
    requires KeyedByUid(m)
    ensures KeyedByUid(GetOutcome(m, caller).profiles)
    ensures KeyedByUid(PutOutcome(m, caller, body).profiles)
  {
  }

  /** A GET answers the caller's stored profile: it succeeds exactly when
      the caller is signed in and either has a profile or a token email to
      create one from; on success the collection holds the answer under the
      caller's uid, every earlier profile is kept, and at most the caller's
      uid is added. */
  lemma GetAnswersStoredProfile(m: map<Uid, Profile>, caller: Option<Token>)
    requires KeyedByUid(m)
    ensures var o := GetOutcome(m, caller);
      (o.reply.Ok? <==> caller.Some? && (caller.value.uid in m || Truthy(caller.value.email)))
      && (o.reply.Ok? ==> caller.value.uid in o.profiles && o.profiles[caller.value.uid] == o.reply.data
                          && o.reply.data.uid == caller.value.uid)
      && (forall u :: u in m ==> u in o.profiles && o.profiles[u] == m[u])
      && (forall u :: u in o.profiles && u !in m ==> caller.Some? && u == caller.value.uid)
  {
  }

  /** A second GET answers the record the first one returned, and creates
      nothing. */
  lemma GetIsIdempotent(m: map<Uid, Profile>, caller: Option<Token>)
    requires GetOutcome(m, caller).reply.Ok?
    ensures var o := GetOutcome(m, caller);
      GetOutcome(o.profiles, caller) == o
  {
  }

  /** A GET after a PUT answers what the PUT stored. */
  lemma GetAfterPut(m: map<Uid, Profile>, caller: Option<Token>, body: ProfileBody)
    requires KeyedByUid(m) && caller.Some?
    ensures var o := PutOutcome(m, caller, body);
      GetOutcome(o.profiles, caller) == Outcome(o.reply, o.profiles)
  {
  }

  /** The PUT upsert runs no validators: on a profile the GET created it
      keeps the email, so a PUT that supplies a non-empty name keeps the
      profile conforming, while an upsert on a missing profile never
      conforms, having no email. */
  lemma PutAndConformance(m: map<Uid, Profile>, caller: Option<Token>, body: ProfileBody)
    requires KeyedByUid(m) && caller.Some?
    ensures var p := PutOutcome(m, caller, body).reply.data;
      (caller.value.uid in m && Conforms(m[caller.value.uid]) && (body.name.None? || Truthy(body.name)) ==> Conforms(p))
      && (caller.value.uid !in m ==> !Conforms(p))
  {
  }

  /** The profile collection. */
  class ProfileStore {
    var profiles: map<Uid, Profile>

    ghost predicate Valid()
      reads this
    {
      KeyedByUid(profiles)
    }

    constructor ()
      ensures Valid() && profiles == map[]
    {
      profiles := map[];
    }

    /** The GET handler. */
    method Get(caller: Option<Token>) returns (reply: Reply<Profile>)
      requires Valid()
      modifies this
      ensures Valid()
      ensures var o := GetOutcome(old(profiles), caller); reply == o.reply && profiles == o.profiles
    {
      OutcomesKeepKeys(profiles, caller, ProfileBody(None, None, None));
      if caller.None? {
        return Err(401, "Unauthorized");
      }
      var user := caller.value;
      if user.uid in profiles {
        return Ok(profiles[user.uid]);
      }
      var created := FirstVisit(user);
      if created.None? {
        return Err(500, "Internal Server Error");
      }
      profiles := profiles[user.uid := created.value];
      return Ok(created.value);
    }

    /** The PUT handler. */
    method Put(caller: Option<Token>, body: ProfileBody) returns (reply: Reply<Profile>)
      requires Valid()
      modifies this
      ensures Valid()
      ensures var o := PutOutcome(old(profiles), caller, body); reply == o.reply && profiles == o.profiles
    {
      OutcomesKeepKeys(profiles, caller, body);
      if caller.None? {
        return Err(401, "Unauthorized");
      }
      var uid := caller.value.uid;
      var updated := Upserted(if uid in profiles then Some(profiles[uid]) else None, uid, body);
      profiles := profiles[uid := updated];
      return Ok(updated);
    }
  }
}
