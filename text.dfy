/** String operations of the JavaScript runtime that the core relies on:
    `replace(/\D/g, '')`, `trim`, `startsWith`, `split`/`join`, a
    case-insensitive search and the decimal rendering of a count. */
module Text {
  import opened Shared
  import Query

  // ---------------------------------------------------------------- digits

  predicate IsDigit(c: char) {
    '0' <= c <= '9'
  }

  predicate AllDigits(s: string) {
    forall i :: 0 <= i < |s| ==> IsDigit(s[i])
  }

  /** `s.replace(/\D/g, '')`: drop every character that is not 0-9. The
      result is the filter of the input by IsDigit: every digit is kept, as
      often and in the order it occurs, and every other character is
      dropped. */
  function DigitsOnly(s: string): (r: string)
    ensures r == Query.Filter(s, IsDigit)
    ensures AllDigits(r)
    ensures |r| <= |s|
  {
    if s == [] then []
    else (if IsDigit(s[0]) then [s[0]] else []) + DigitsOnly(s[1..])
  }

  /** Dropping non-digits distributes over concatenation: the digits of the
      input are kept, in their original order. */
  lemma {:induction false} DigitsOnlyConcat(a: string, b: string)
    ensures DigitsOnly(a + b) == DigitsOnly(a) + DigitsOnly(b)
  {
    if a != [] {
      assert (a + b)[0] == a[0];
      assert (a + b)[1..] == a[1..] + b;
      DigitsOnlyConcat(a[1..], b);
      var h := if IsDigit(a[0]) then [a[0]] else [];
      calc {
        DigitsOnly(a + b);
        h + DigitsOnly(a[1..] + b);
        h + (DigitsOnly(a[1..]) + DigitsOnly(b));
        (h + DigitsOnly(a[1..])) + DigitsOnly(b);
      }
    } else {
      assert a + b == b;
    }
  }

  /** A string of digits is its own digit-only form, so the filter is idempotent. */
  lemma {:induction false} DigitsOnlyKeepsDigits(s: string)
    requires AllDigits(s)
    ensures DigitsOnly(s) == s
  {
    if s != [] {
      DigitsOnlyKeepsDigits(s[1..]);
    }
  }

  /** A string holding no digit has an empty digit-only form. */
  lemma {:induction false} DigitsOnlyDropsNonDigits(s: string)
    requires forall i :: 0 <= i < |s| ==> !IsDigit(s[i])
    ensures DigitsOnly(s) == []
  {
    if s != [] {
      DigitsOnlyDropsNonDigits(s[1..]);
    }
  }

  lemma DigitsOnlyIdempotent(s: string)
    ensures DigitsOnly(DigitsOnly(s)) == DigitsOnly(s)
  {
    DigitsOnlyKeepsDigits(DigitsOnly(s));
  }

  // ---------------------------------------------------------------- trim

  /** The characters `String.prototype.trim` removes: ECMAScript WhiteSpace
      (including every Unicode space separator) and LineTerminator. */
  predicate IsSpace(c: char) {
    c == '\t' || c == '\n' || c == '\U{000B}' || c == '\U{000C}' || c == '\r' ||
    c == ' ' || c == '\U{00A0}' || c == '\U{1680}' || ('\U{2000}' <= c <= '\U{200A}') ||
    c == '\U{2028}' || c == '\U{2029}' || c == '\U{202F}' || c == '\U{205F}' ||
    c == '\U{3000}' || c == '\U{FEFF}'
  }

  predicate AllSpace(s: string) {
    forall i :: 0 <= i < |s| ==> IsSpace(s[i])
  }

  /** Index of the first character that is not white space (|s| if none). */
  function TrimStart(s: string): (i: nat)
    ensures i <= |s|
    ensures AllSpace(s[..i])
    ensures i < |s| ==> !IsSpace(s[i])
  {
    if s == [] || !IsSpace(s[0]) then 0
    else
      var k := TrimStart(s[1..]);
      assert s[..k + 1] == [s[0]] + s[1..][..k];
      k + 1
  }

  /** One past the index of the last character that is not white space. */
  function TrimEnd(s: string): (j: nat)
    ensures j <= |s|
    ensures AllSpace(s[j..])
    ensures j > 0 ==> !IsSpace(s[j - 1])
  {
    if s == [] || !IsSpace(s[|s| - 1]) then |s|
    else
      var k := TrimEnd(s[..|s| - 1]);
      assert s[k..] == s[..|s| - 1][k..] + [s[|s| - 1]];
      k
  }

  /** `s.trim()`: the text between leading and trailing white space. */
  function Trim(s: string): (r: string)
    ensures r == [] <==> AllSpace(s)
    ensures r != [] ==> !IsSpace(r[0]) && !IsSpace(r[|r| - 1])
    ensures exists i, j :: 0 <= i <= j <= |s| && r == s[i..j] && AllSpace(s[..i]) && AllSpace(s[j..])
  {
    var i := TrimStart(s);
    if i == |s| then
      assert s[..i] == s;
      assert s[..0] == [] && s[0..0] == [];
      []
    else
      var j := TrimEnd(s);
      assert i < j;
      assert !IsSpace(s[i]);
      s[i..j]
  }

  lemma {:induction false} DigitsOnlyOfSpace(s: string)
    requires AllSpace(s)
    ensures DigitsOnly(s) == []
  {
    if s != [] {
      assert AllSpace(s[1..]) by {
        forall k | 0 <= k < |s[1..]| ensures IsSpace(s[1..][k]) { assert s[1..][k] == s[k + 1]; }
      }
      DigitsOnlyOfSpace(s[1..]);
    }
  }

  /** Trimming never changes which digits a string holds. */
  lemma DigitsOnlyOfTrim(s: string)
    ensures DigitsOnly(Trim(s)) == DigitsOnly(s)
  {
    var i, j :| 0 <= i <= j <= |s| && Trim(s) == s[i..j] && AllSpace(s[..i]) && AllSpace(s[j..]);
    assert s == s[..i] + s[i..j] + s[j..];
    DigitsOnlyConcat(s[..i] + s[i..j], s[j..]);
    DigitsOnlyConcat(s[..i], s[i..j]);
    DigitsOnlyOfSpace(s[..i]);
    DigitsOnlyOfSpace(s[j..]);
  }

  // ---------------------------------------------------------------- prefixes and search

  /** `s.startsWith(p)`. */
  predicate StartsWith(s: string, p: string) {
    |p| <= |s| && s[..|p|] == p
  }

  /** `p` occurs in `t` at offset k. */
  predicate OccursAt(t: string, p: string, k: int) {
    0 <= k <= |t| - |p| && t[k..k + |p|] == p
  }

  /** `p` occurs in `t` at some offset. */
  function Contains(t: string, p: string): (b: bool)
    ensures b <==> exists k :: OccursAt(t, p, k)
    decreases |t|
  {
    if StartsWith(t, p) then
      assert OccursAt(t, p, 0);
      true
    else if t == [] then
      false
    else
      var b := Contains(t[1..], p);
      assert b ==> exists k :: OccursAt(t, p, k) by {
        if b {
          var k :| OccursAt(t[1..], p, k);
          assert t[1..][k..k + |p|] == t[k + 1..k + 1 + |p|];
          assert OccursAt(t, p, k + 1);
        }
      }
      assert (exists k :: OccursAt(t, p, k)) ==> b by {
        if exists k :: OccursAt(t, p, k) {
          var k :| OccursAt(t, p, k);
          assert k != 0;
          assert t[1..][k - 1..k - 1 + |p|] == t[k..k + |p|];
          assert OccursAt(t[1..], p, k - 1);
        }
      }
      b
  }

  /** ASCII upper-case letters folded to lower case. */
  function LowerChar(c: char): char {
    if 'A' <= c <= 'Z' then (c as int + 32) as char else c
  }

  function Lower(s: string): (r: string)
    ensures |r| == |s| && forall i :: 0 <= i < |s| ==> r[i] == LowerChar(s[i])
  {
    seq(|s|, i requires 0 <= i < |s| => LowerChar(s[i]))
  }

  /** A case-insensitive search for `p` inside `t`. */
  function ContainsIgnoreCase(t: string, p: string): (b: bool)
    ensures b <==> exists k :: OccursAt(Lower(t), Lower(p), k)
  {
    Contains(Lower(t), Lower(p))
  }

  /** Lowering twice is lowering once. */
  lemma LowerIdempotent(s: string)
    ensures Lower(Lower(s)) == Lower(s)
  {
  }

  /** The search ignores the case of ASCII letters on both sides: any
      text matches its own lower-cased form and every piece of itself,
      and lower-casing either argument first changes nothing. */
  lemma IgnoresCase(t: string, p: string, k: nat)
    ensures ContainsIgnoreCase(Lower(t), p) == ContainsIgnoreCase(t, p)
    ensures ContainsIgnoreCase(t, Lower(p)) == ContainsIgnoreCase(t, p)
    ensures ContainsIgnoreCase(t, Lower(t))
    ensures k <= |t| ==> ContainsIgnoreCase(t, t[k..])
  {
    LowerIdempotent(t);
    LowerIdempotent(p);
    assert OccursAt(Lower(t), Lower(Lower(t)), 0);
    if k <= |t| {
      assert Lower(t[k..]) == Lower(t)[k..];
      assert OccursAt(Lower(t), Lower(t[k..]), k);
    }
  }

  // ---------------------------------------------------------------- split and join

  function IndexOf(s: string, c: char): (i: nat)
    requires c in s
    ensures i < |s| && s[i] == c && c !in s[..i]
  {
    if s[0] == c then 0
    else
      var k := IndexOf(s[1..], c);
      assert s[..k + 1] == [s[0]] + s[1..][..k];
      k + 1
  }

  /** `s.split(c)` for a one-character separator: the pieces between the
      separators, empty pieces included. */
  function Split(s: string, c: char): (r: seq<string>)
    ensures |r| >= 1
    ensures forall k :: 0 <= k < |r| ==> c !in r[k]
    decreases |s|
  {
    if c !in s then [s]
    else
      var i := IndexOf(s, c);
      [s[..i]] + Split(s[i + 1..], c)
  }

  /** `ws.join(c)`. */
  function Join(ws: seq<string>, c: char): string
    decreases |ws|
  {
    if |ws| == 0 then ""
    else if |ws| == 1 then ws[0]
    else ws[0] + [c] + Join(ws[1..], c)
  }

  lemma JoinCons(w: string, ws: seq<string>, c: char)
    requires |ws| >= 1
    ensures Join([w] + ws, c) == w + [c] + Join(ws, c)
  {
    assert ([w] + ws)[1..] == ws;
  }

  /** Joining the pieces with the separator gives back the string. */
  lemma {:induction false} JoinSplit(s: string, c: char)
    ensures Join(Split(s, c), c) == s
    decreases |s|
  {
    if c in s {
      var i := IndexOf(s, c);
      JoinSplit(s[i + 1..], c);
      JoinCons(s[..i], Split(s[i + 1..], c), c);
      assert s == s[..i] + [c] + s[i + 1..];
    }
  }

  /** Splitting a join of separator-free pieces gives back the pieces. */
  lemma {:induction false} SplitJoin(ws: seq<string>, c: char)
    requires |ws| >= 1
    requires forall k :: 0 <= k < |ws| ==> c !in ws[k]
    ensures Split(Join(ws, c), c) == ws
    decreases |ws|
  {
    if |ws| > 1 {
      var s := Join(ws, c);
      var w := ws[0];
      assert s == w + [c] + Join(ws[1..], c);
      assert s[|w|] == c;
      assert s[..|w|] == w;
      var i := IndexOf(s, c);
      assert i == |w|;
      assert s[i + 1..] == Join(ws[1..], c);
      SplitJoin(ws[1..], c);
      assert ws == [w] + ws[1..];
    }
  }

  /** Joining k pieces, the separator, and the remaining pieces is joining all of them. */
  lemma {:induction false} JoinAt(ws: seq<string>, c: char, k: nat)
    requires 1 <= k < |ws|
    ensures Join(ws, c) == Join(ws[..k], c) + [c] + Join(ws[k..], c)
    decreases k
  {
    if k == 1 {
      assert ws[..1] == [ws[0]];
      assert ws[1..] == ws[k..];
    } else {
      JoinAt(ws[1..], c, k - 1);
      assert ws[1..][..k - 1] == ws[..k][1..];
      assert ws[1..][k - 1..] == ws[k..];
      assert ws[..k][0] == ws[0];
    }
  }

  /** The first k of the pieces of s, joined again, are a prefix of s, and a
      proper one followed by the separator when pieces remain. */
  lemma JoinFirstPiecesIsPrefix(s: string, c: char, k: nat)
    requires 1 <= k <= |Split(s, c)|
    ensures var p := Join(Split(s, c)[..k], c); |p| <= |s| && s[..|p|] == p
    ensures k < |Split(s, c)| ==> |Join(Split(s, c)[..k], c)| < |s| && s[|Join(Split(s, c)[..k], c)|] == c
  {
    var ws := Split(s, c);
    JoinSplit(s, c);
    if k == |ws| {
      assert ws[..k] == ws;
    } else {
      JoinAt(ws, c, k);
      var p := Join(ws[..k], c);
      assert s == p + [c] + Join(ws[k..], c);
      assert s[..|p|] == p;
      assert s[|p|] == c;
    }
  }

  // ---------------------------------------------------------------- email prefix

  /** `email.split("@")[0]`: the text before the first "@". */
  function EmailPrefix(email: string): (r: string)
    ensures |r| <= |email| && email[..|r|] == r
    ensures '@' !in r
    ensures |r| < |email| ==> email[|r|] == '@'
  {
    if '@' in email then
      var i := IndexOf(email, '@');
      assert Split(email, '@')[0] == email[..i];
      Split(email, '@')[0]
    else
      assert email[..|email|] == email;
      Split(email, '@')[0]
  }

  // ---------------------------------------------------------------- decimal numbers

  /** `name || email?.split("@")[0] || fallback`: the token's name, else the
      part of the email before its first "@", else the fallback. */
  function NameOrEmailPrefix(name: Option<string>, email: Option<string>, fallback: string): (r: string)
    ensures Truthy(name) ==> r == name.value
    ensures !Truthy(name) && email.Some? && EmailPrefix(email.value) != "" ==> r == EmailPrefix(email.value)
    ensures !Truthy(name) && (email.None? || EmailPrefix(email.value) == "") ==> r == fallback
    ensures r != "" <==> Truthy(name) || fallback != "" || (email.Some? && email.value != "" && email.value[0] != '@')
  {
    if Truthy(name) then name.value
    else if email.Some? && EmailPrefix(email.value) != "" then EmailPrefix(email.value)
    else fallback
  }

  function DigitChar(d: nat): (c: char)
    requires d < 10
    ensures IsDigit(c)
  {
    ('0' as int + d) as char
  }

  function DigitValue(c: char): (d: nat)
    requires IsDigit(c)
    ensures d < 10
  {
    c as int - '0' as int
  }

  /** The decimal text JavaScript renders for a non-negative integer. */
  function NatToString(n: nat): (r: string)
    ensures |r| >= 1 && AllDigits(r)
    ensures |r| > 1 ==> r[0] != '0'
  {
    if n < 10 then [DigitChar(n)]
    else NatToString(n / 10) + [DigitChar(n % 10)]
  }

  /** Reads a string of decimal digits back as a number. */
  function ParseNat(s: string): nat
    requires AllDigits(s)
  {
    if s == [] then 0
    else ParseNat(s[..|s| - 1]) * 10 + DigitValue(s[|s| - 1])
  }

  lemma {:induction false} ParseNatToString(n: nat)
    ensures ParseNat(NatToString(n)) == n
  {
    if n >= 10 {
      ParseNatToString(n / 10);
      var s := NatToString(n);
      assert s[..|s| - 1] == NatToString(n / 10);
    }
  }

  /** Distinct counts render as distinct texts. */
  lemma NatToStringInjective(m: nat, n: nat)
    requires NatToString(m) == NatToString(n)
    ensures m == n
  {
    ParseNatToString(m);
    ParseNatToString(n);
  }
}
