/** The listing card of components/food-card.tsx: who owns it, which action
    its button sends, how its description is shortened, and the expiry
    badge's countdown and status text. Remaining time is whole milliseconds;
    the clock reading is a parameter. */
module FoodCard {
  import opened Shared
  import opened Text
  import opened Query
  import opened RequestModel
  import opened PostModel
  import opened RequestsRoute
  import opened PostsRoute

  // ---------------------------------------------------------------- ownership and the button

  /** `computedIsOwner`: the `isOwner` prop, or the signed-in user is the donor. */
  function Owned(isOwner: Option<bool>, user: Option<Uid>, donorId: Uid): (b: bool)
    ensures b <==> isOwner == Some(true) || user == Some(donorId)
  {
    isOwner == Some(true) || (user.Some? && user.value == donorId)
  }

  /** The action the toggle sends. */
  function ToggleAction(requestedByMe: Option<bool>): (a: string)
    ensures a == "cancel" <==> requestedByMe == Some(true)
    ensures a == "request" <==> requestedByMe != Some(true)
  {
    if requestedByMe == Some(true) then "cancel" else "request"
  }

  /** The POST body the toggle sends. */
  datatype ToggleCall = ToggleCall(postId: ObjectId, action: string)

  /** What a click on the button does: without a signed-in user an alert and
      no call, otherwise the toggle call for this listing. */
  datatype Click = Alert(message: string) | Send(call: ToggleCall)

  function ToggleRequest(user: Option<Uid>, postId: ObjectId, requestedByMe: Option<bool>): (c: Click)
    ensures user.None? <==> c == Alert("Please sign in to request")
    ensures user.Some? ==> c == Send(ToggleCall(postId, ToggleAction(requestedByMe)))
  {
    if user.None? then Alert("Please sign in to request")
    else Send(ToggleCall(postId, ToggleAction(requestedByMe)))
  }

  /** The request button appears only when actions are shown (by default),
      the card is not owned and the listing is not completed. */
  function ShowsButton(showActions: Option<bool>, owned: bool, completed: Option<bool>): (b: bool)
    ensures b <==> showActions != Some(false) && !owned && completed != Some(true)
  {
    showActions != Some(false) && !owned && completed != Some(true)
  }

  /** The button's caption. */
  function ButtonLabel(loading: bool, requestedByMe: Option<bool>): (s: string)
    ensures loading ==> s == "Please wait..."
    ensures !loading ==> (s == "Cancel Request" <==> ToggleAction(requestedByMe) == "cancel")
    ensures !loading ==> (s == "Request" <==> ToggleAction(requestedByMe) == "request")
  {
    if loading then "Please wait..." else if requestedByMe == Some(true) then "Cancel Request" else "Request"
  }

  /** The expiry badge is shown exactly for listings that are not completed. */
  function ShowsExpiryBadge(completed: Option<bool>): (b: bool)
    ensures b <==> completed != Some(true)
  {
    completed != Some(true)
  }

  /** A completed listing's card shows neither the countdown badge nor the
      request button; a card showing the button is for a listing that is
      neither completed nor the viewer's own, and shows the badge too. */
  lemma ButtonAndBadge(showActions: Option<bool>, isOwner: Option<bool>, user: Option<Uid>, donorId: Uid,
                       completed: Option<bool>)
    ensures completed == Some(true) ==>
              !ShowsExpiryBadge(completed) && !ShowsButton(showActions, Owned(isOwner, user, donorId), completed)
    ensures ShowsButton(showActions, Owned(isOwner, user, donorId), completed) ==>
              ShowsExpiryBadge(completed) && user != Some(donorId) && isOwner != Some(true)
  {
  }

  /** The card and the server agree on a listing the caller may request:
      the card shows its button; a card not marked `requestedByMe` is
      captioned "Request" and its click sends "request" for this listing,
      which creates the caller's Pending request; a marked card is
      captioned "Cancel Request" and sends "cancel", which succeeds exactly
      when the open request is Pending — when it is Accepted the server
      answers 404 "No pending request". */
  lemma CardAgreesWithServer(rs: seq<Request>, nextId: ObjectId, uid: Uid, posts: seq<Post>, p: Post, now: int)
    requires LookupPost(posts, p.id) == Some(p) && p.donorId != uid && !p.completed
    ensures ShowsButton(None, Owned(None, Some(uid), p.donorId), Some(p.completed))
    ensures var marked := Annotate(rs, Some(uid), true, p).requestedByMe;
      var c := ToggleRequest(Some(uid), p.id, Some(marked));
      c.Send? && c.call.postId == p.id
      && ButtonLabel(false, Some(marked)) == (if marked then "Cancel Request" else "Request")
      && var o := ToggleOutcome(rs, nextId, Some(uid), posts, Some(c.call.postId), Some(c.call.action), now);
      (!marked ==> o.reply.Ok? && o.requests == rs + [o.reply.data] && o.reply.data.status == Pending)
      && (marked ==> (o.reply.Ok? <==> FindMatch(rs, p.id, uid, true).Some?))
      && (marked && FindMatch(rs, p.id, uid, true).None? ==> o.reply == Err(404, "No pending request"))
  {
    var marked := Annotate(rs, Some(uid), true, p).requestedByMe;
    assert ToggleRequest(Some(uid), p.id, Some(marked)).call == ToggleCall(p.id, ToggleAction(Some(marked)));
  }

  // ---------------------------------------------------------------- description

  /** The description shown: more than 25 space-separated words become the
      first 25 and "...". */
  function Truncated(description: string): (r: string)
  {
    var words := Split(description, ' ');
    if |words| > 25 then Text.Join(words[..25], ' ') + "..." else description
  }

  /** A short description is shown whole; a long one is cut just before its
      25th space, and what is kept are exactly its first 25 words. */
  lemma TruncatedIsWordPrefix(description: string)
    ensures |Split(description, ' ')| <= 25 ==> Truncated(description) == description
    ensures |Split(description, ' ')| > 25 ==>
      exists p: string :: Truncated(description) == p + "..."
        && |p| < |description| && description[..|p|] == p && description[|p|] == ' '
        && Split(p, ' ') == Split(description, ' ')[..25]
  {
    var words := Split(description, ' ');
    if |words| > 25 {
      var p := Text.Join(words[..25], ' ');
      JoinFirstPiecesIsPrefix(description, ' ', 25);
      SplitJoin(words[..25], ' ');
      assert Truncated(description) == p + "...";
    }
  }

  // ---------------------------------------------------------------- expiry countdown

  const MsPerHour: int := 1000 * 60 * 60
  const MsPerMinute: int := 1000 * 60

  /** The badge's `timeLeft`. */
  datatype TimeLeft = TimeLeft(hours: nat, minutes: nat, isExpired: bool)

  /** `updateTimeLeft`: nothing left at or after expiry; otherwise the whole
      hours left and the whole minutes of the hour begun. */
  function ComputeTimeLeft(expiryAt: int, now: int): (t: TimeLeft)
    ensures expiryAt - now <= 0 <==> t.isExpired
    ensures t.isExpired ==> t.hours == 0 && t.minutes == 0
    ensures !t.isExpired ==> (t.minutes < 60
      && t.hours * MsPerHour + t.minutes * MsPerMinute <= expiryAt - now
      && expiryAt - now < t.hours * MsPerHour + (t.minutes + 1) * MsPerMinute)
  {
    var difference := expiryAt - now;
    if difference <= 0 then TimeLeft(0, 0, true)
    else TimeLeft(difference / MsPerHour, (difference % MsPerHour) / MsPerMinute, false)
  }

  /** The badge's colour. */
  datatype Tone = Gray | Red | Green | Amber

  datatype Status = Status(text: string, tone: Tone)

  const ExpiresIn: string := "Expires in "

  /** What follows the count: the unit, with an "s" when plural. */
  function UnitText(unit: string, plural: bool): string {
    " " + unit + (if plural then "s" else "")
  }

  /** `Expires in ${n} unit` with the plural "s" when asked for. */
  function Plural(n: nat, unit: string, plural: bool): string {
    ExpiresIn + NatToString(n) + UnitText(unit, plural)
  }

  /** `getStatusInfo`. */
  function StatusInfo(t: Option<TimeLeft>): (s: Status)
    ensures t.None? ==> s == Status("Loading...", Gray)
    ensures t.Some? && t.value.isExpired ==> s == Status("Expired", Red)
    ensures t.Some? && !t.value.isExpired && t.value.hours >= 24 ==> s == Status("Available", Green)
    ensures t.Some? && !t.value.isExpired && 0 < t.value.hours < 24 ==>
              s == Status(Plural(t.value.hours, "hour", t.value.hours > 1), Amber)
    ensures t.Some? && !t.value.isExpired && t.value.hours == 0 ==>
              s == Status(Plural(t.value.minutes, "minute", t.value.minutes != 1), Amber)
  {
    if t.None? then Status("Loading...", Gray)
    else if t.value.isExpired then Status("Expired", Red)
    else if t.value.hours >= 24 then Status("Available", Green)
    else if t.value.hours > 0 then Status(Plural(t.value.hours, "hour", t.value.hours > 1), Amber)
    else Status(Plural(t.value.minutes, "minute", t.value.minutes != 1), Amber)
  }

  /** The status as a function of the milliseconds left: Expired at zero or
      below, counted in minutes below one hour, in hours below one day, and
      Available from a full day on. */
  lemma StatusOfRemaining(expiryAt: int, now: int)
    ensures var d := expiryAt - now; var s := StatusInfo(Some(ComputeTimeLeft(expiryAt, now)));
      (d <= 0 <==> s == Status("Expired", Red))
      && (d >= 24 * MsPerHour <==> s == Status("Available", Green))
      && (0 < d < MsPerHour ==> s == Status(Plural(d / MsPerMinute, "minute", d / MsPerMinute != 1), Amber))
      && (MsPerHour <= d < 24 * MsPerHour ==> s == Status(Plural(d / MsPerHour, "hour", d >= 2 * MsPerHour), Amber))
  {
    var d := expiryAt - now;
    var t := ComputeTimeLeft(expiryAt, now);
    if d <= 0 {
      assert t.isExpired;
    } else if d < MsPerHour {
      assert t.hours == 0 && t.minutes == d / MsPerMinute by {
        assert d / MsPerHour == 0 && d % MsPerHour == d;
      }
    } else if d < 24 * MsPerHour {
      assert 1 <= t.hours < 24 && (t.hours > 1 <==> d >= 2 * MsPerHour) by {
        assert t.hours * MsPerHour <= d < (t.hours + 1) * MsPerHour;
      }
    } else {
      assert t.hours >= 24 by {
        assert d < (t.hours + 1) * MsPerHour;
      }
    }
  }

  /** The amber texts name the count they were given: distinct hour counts
      (or minute counts) render as distinct texts. */
  lemma StatusTextsAreDistinct(m: nat, n: nat, unit: string, pm: bool, pn: bool)
    requires Plural(m, unit, pm) == Plural(n, unit, pn)
    ensures m == n
  {
    var xm := NatToString(m) + UnitText(unit, pm);
    var xn := NatToString(n) + UnitText(unit, pn);
    assert Plural(m, unit, pm) == ExpiresIn + xm;
    assert Plural(n, unit, pn) == ExpiresIn + xn;
    DropPrefix(ExpiresIn, xm, xn);
    SpaceEndsDigits(NatToString(m), NatToString(n), UnitText(unit, pm), UnitText(unit, pn));
    NatToStringInjective(m, n);
  }

  /** Equal texts with a common prefix agree after it. */
  lemma DropPrefix(p: string, a: string, b: string)
    requires p + a == p + b
    ensures a == b
  {
    assert a == (p + a)[|p|..];
    assert b == (p + b)[|p|..];
  }

  /** Two digit strings each followed by text starting with a space can only
      be split the same way. */
  lemma SpaceEndsDigits(a: string, b: string, x: string, y: string)
    requires AllDigits(a) && AllDigits(b) && |x| > 0 && |y| > 0 && x[0] == ' ' && y[0] == ' '
    requires a + x == b + y
    ensures a == b
  {
    var s := a + x;
    if |a| < |b| {
      CharAfterShorter(a, x, b, y);
      assert false;
    } else if |b| < |a| {
      CharAfterShorter(b, y, a, x);
      assert false;
    } else {
      assert a == s[..|a|] == b;
    }
  }

  /** Where the shorter prefix ends, the longer one continues with the
      shorter one's suffix. */
  lemma CharAfterShorter(a: string, x: string, b: string, y: string)
    requires a + x == b + y && |a| < |b| && |x| > 0
    ensures x[0] == b[|a|]
  {
    assert (a + x)[|a|] == x[0];
    assert (b + y)[|a|] == b[|a|];
  }
}
