/**
 * The stateless confirmation tokens of the subscription service
 * (`_generate_token`, `_validate_token`): base64 of "<seconds>:<digest>",
 * where the digest is the site secret's keyed hash of the content id, the
 * email, the timestamp string and the action.
 *
 * The secret digest, base64 and URL quoting are library calls; they are the
 * function-valued fields of `Externals`, and the laws the protocol relies on
 * are stated in `Laws` and `DigestInjective`.
 */
module Tokens {
  import opened Wrappers
  import opened ContentTree

  /** The two confirmation actions a token is issued for. */
  datatype Action = ConfirmSubscription | ConfirmCancellation

  /** Library calls the service makes, supplied from outside. */
  datatype Externals = Externals(
    digest: (NodeId, string, string, Action) -> string,   // ISecretService.digest
    encode: string -> string,                              // s.encode('base64').strip()
    decode: string -> Option<string>,                      // s.decode('base64'); None when it raises
    quote: string -> string,                               // urllib.quote
    unquote: string -> string,                             // urllib.unquote
    isValidMailAddress: string -> bool)                    // z3c.schema.email.isValidMailAddress

  /**
   * What the protocol needs of the library calls: base64 decoding undoes
   * encoding, a digest never contains the ':' separator, and unquoting
   * undoes quoting.
   */
  ghost predicate Laws(x: Externals) {
    && (forall s :: x.decode(x.encode(s)) == Some(s))
    && (forall c, e, d, a :: ':' !in x.digest(c, e, d, a))
    && (forall s :: x.unquote(x.quote(s)) == s)
  }

  /** The keyed hash separates its inputs. */
  ghost predicate DigestInjective(x: Externals) {
    forall c1, e1, d1, a1, c2, e2, d2, a2 ::
      x.digest(c1, e1, d1, a1) == x.digest(c2, e2, d2, a2) ==> c1 == c2 && e1 == e2 && d1 == d2 && a1 == a2
  }

  /** Seconds per day: `timedelta.days` of a delay of `s` seconds is `s / Day`, rounded down. */
  const Day: int := 86400

  // ---------------------------------------------------------------------
  // decimal strings: `str(int(...))` and `int(...)`

  predicate IsDigit(c: char) {
    '0' <= c <= '9'
  }

  function DigitChar(d: nat): (c: char)
    requires d < 10
    ensures IsDigit(c) && c as int - '0' as int == d
  {
    ('0' as int + d) as char
  }

  /** `str(n)` for a non-negative integer: decimal digits, no leading zero. */
  function NatToString(n: nat): (s: string)
    ensures |s| >= 1 && forall i :: 0 <= i < |s| ==> IsDigit(s[i])
    ensures s[0] == '0' ==> n == 0
  {
    if n < 10 then [DigitChar(n)] else NatToString(n / 10) + [DigitChar(n % 10)]
  }

  predicate AllDigits(s: string) {
    forall i :: 0 <= i < |s| ==> IsDigit(s[i])
  }

  /** The value of a string of decimal digits, most significant first. */
  function DigitsValue(s: string): (v: nat)
    requires AllDigits(s)
  {
    if s == [] then 0 else DigitsValue(s[..|s| - 1]) * 10 + (s[|s| - 1] as int - '0' as int)
  }

  /** The whitespace `int()` skips around a literal. */
  predicate IsSpace(c: char) {
    c == ' ' || c == '\t' || c == '\n' || c == '\r' || c == 11 as char || c == 12 as char
  }

  function StripLeft(s: string): (r: string)
    ensures |r| <= |s| && s[|s| - |r|..] == r
    ensures r != [] ==> !IsSpace(r[0])
    ensures forall i :: 0 <= i < |s| - |r| ==> IsSpace(s[i])
  {
    if s != [] && IsSpace(s[0]) then StripLeft(s[1..]) else s
  }

  function StripRight(s: string): (r: string)
    ensures |r| <= |s| && s[..|r|] == r
    ensures r != [] ==> !IsSpace(r[|r| - 1])
    ensures forall i :: |r| <= i < |s| ==> IsSpace(s[i])
  {
    if s != [] && IsSpace(s[|s| - 1]) then StripRight(s[..|s| - 1]) else s
  }

  /**
   * `int(s)` on a byte string: surrounding whitespace, an optional sign and
   * at least one decimal digit; None where `int` raises ValueError.
   */
  function ParseInt(s: string): (r: Option<int>)
    ensures (forall i :: 0 <= i < |s| ==> IsSpace(s[i])) ==> r.None?
  {
    var u := StripRight(StripLeft(s));
    var body := if u != [] && (u[0] == '+' || u[0] == '-') then u[1..] else u;
    if body == [] || !AllDigits(body) then None
    else
      var v: int := DigitsValue(body);
      Some(if u[0] == '-' then -v else v)
  }

  lemma {:induction false} DigitsOfNat(n: nat)
    ensures DigitsValue(NatToString(n)) == n
  {
    if n >= 10 {
      var s := NatToString(n);
      DigitsOfNat(n / 10);
      assert s[..|s| - 1] == NatToString(n / 10);
    }
  }

  /** `int` of a non-empty string of digits is its value. */
  lemma ParseDigits(s: string)
    requires s != [] && AllDigits(s)
    ensures ParseInt(s) == Some(DigitsValue(s))
  {
    assert !IsSpace(s[0]) && !IsSpace(s[|s| - 1]);
    assert StripLeft(s) == s;
    assert StripRight(s) == s;
    assert s[0] != '+' && s[0] != '-';
  }

  /** Reading back what `str` wrote: `int(str(n)) == n`. */
  lemma ParseNatToString(n: nat)
    ensures ParseInt(NatToString(n)) == Some(n)
  {
    ParseDigits(NatToString(n));
    DigitsOfNat(n);
  }

  // ---------------------------------------------------------------------
  // ':'.join and str.split(':')

  /** `c.join(parts)`. */
  function Join(parts: seq<string>, c: char): (s: string)
    requires parts != []
    ensures parts[0] <= s
    ensures |parts| > 1 ==> |parts[0]| < |s| && s[|parts[0]|] == c
  {
    if |parts| == 1 then parts[0] else parts[0] + [c] + Join(parts[1..], c)
  }

  /** `s.count(c)`. */
  function Count(s: string, c: char): (k: nat)
    ensures k == 0 <==> c !in s
  {
    if s == [] then 0 else (if s[0] == c then 1 else 0) + Count(s[1..], c)
  }

  /** `s.split(c)`: the pieces between occurrences of `c`, one more than there are occurrences. */
  function Split(s: string, c: char): (parts: seq<string>)
    ensures |parts| == Count(s, c) + 1
    ensures forall i :: 0 <= i < |parts| ==> c !in parts[i]
    ensures Join(parts, c) == s
  {
    if s == [] then [[]]
    else
      var r := Split(s[1..], c);
      if s[0] == c then
        assert s == [] + [c] + Join(r, c);
        [[]] + r
      else
        var parts := [[s[0]] + r[0]] + r[1..];
        assert parts[1..] == r[1..];
        assert s == [s[0]] + Join(r, c);
        parts
  }

  /** Splitting a join of two separator-free pieces gives the pieces back. */
  lemma {:induction false} SplitJoin2(a: string, b: string, c: char)
    requires c !in a && c !in b
    ensures Split(a + [c] + b, c) == [a, b]
  {
    if a == [] {
      assert (a + [c] + b)[1..] == b;
      SplitNone(b, c);
    } else {
      assert (a + [c] + b)[1..] == a[1..] + [c] + b;
      SplitJoin2(a[1..], b, c);
      assert [a[0]] + a[1..] == a;
    }
  }

  /** A string without the separator splits into itself alone. */
  lemma {:induction false} SplitNone(s: string, c: char)
    requires c !in s
    ensures Split(s, c) == [s]
  {
    if s != [] {
      SplitNone(s[1..], c);
      assert [s[0]] + s[1..] == s;
    }
  }

  // ---------------------------------------------------------------------
  // issuing and checking tokens

  /** The plain text inside a token issued at second `now`. */
  function TokenText(x: Externals, cid: NodeId, email: string, action: Action, now: nat): (s: string)
    ensures NatToString(now) <= s && |NatToString(now)| < |s| && s[|NatToString(now)|] == ':'
  {
    Join([NatToString(now), x.digest(cid, email, NatToString(now), action)], ':')
  }

  /** `_generate_token`, with `int(time.time())` passed in as `now`. */
  function GenerateToken(x: Externals, cid: NodeId, email: string, action: Action, now: nat): (token: string)
    ensures x.decode(token) == Some(TokenText(x, cid, email, action, now)) <== Laws(x)
  {
    x.encode(TokenText(x, cid, email, action, now))
  }

  /**
   * `_validate_token` at second `now`: every failure, including those that
   * raise inside the `try`, yields false. `timedelta.days` of the delay is
   * the floor of the seconds over a day, which is what Dafny's division by a
   * positive divisor computes.
   */
  function ValidateToken(x: Externals, cid: NodeId, email: string, action: Action, token: string,
                         now: int, maximumDelay: int): (ok: bool)
    ensures x.decode(token).None? ==> !ok
    ensures x.decode(token).Some? && ':' !in x.decode(token).value ==> !ok
    ensures x.decode(token).Some? && Count(x.decode(token).value, ':') > 1 ==> !ok
  {
    match x.decode(token)
    case None => false
    case Some(text) =>
      if ':' !in text then false
      else
        var parts := Split(text, ':');
        if |parts| != 2 then false
        else
          var queryDate, queryKey := parts[0], parts[1];
          match ParseInt(queryDate)
          case None => false
          case Some(ts) =>
            if (now - ts) / Day > maximumDelay then false
            else
              queryKey == x.digest(cid, email, queryDate, action)
  }

  /** The two pieces of a two-piece join. */
  lemma Join2(parts: seq<string>, c: char)
    requires |parts| == 2
    ensures Join(parts, c) == parts[0] + [c] + parts[1]
  {
    assert parts[1..] == [parts[1]];
  }

  /**
   * Soundness: a token is only accepted when its text is some timestamp,
   * not too old, followed by the digest of exactly this content, email,
   * timestamp and action.
   */
  lemma AcceptedTokenCarriesDigest(x: Externals, cid: NodeId, email: string, action: Action, token: string,
                                   now: int, maximumDelay: int)
    requires ValidateToken(x, cid, email, action, token, now, maximumDelay)
    ensures exists date :: && x.decode(token) == Some(date + [':'] + x.digest(cid, email, date, action))
                           && ParseInt(date).Some? && (now - ParseInt(date).value) / Day <= maximumDelay
  {
    var parts := Split(x.decode(token).value, ':');
    Join2(parts, ':');
    assert x.decode(token) == Some(parts[0] + [':'] + x.digest(cid, email, parts[0], action));
  }

  /** The text inside a fresh token splits back into the timestamp and the digest. */
  lemma TokenTextSplits(x: Externals, cid: NodeId, email: string, action: Action, t: nat)
    requires Laws(x)
    ensures ':' in TokenText(x, cid, email, action, t)
    ensures Split(TokenText(x, cid, email, action, t), ':') ==
            [NatToString(t), x.digest(cid, email, NatToString(t), action)]
  {
    var d := x.digest(cid, email, NatToString(t), action);
    var s := NatToString(t);
    Join2([s, d], ':');
    assert ':' !in s;
    assert TokenText(x, cid, email, action, t) == s + [':'] + d;
    assert (s + [':'] + d)[|s|] == ':';
    SplitJoin2(s, d, ':');
  }

  /**
   * Round trip: a token issued at second `t` is accepted for the same content,
   * email and action exactly while the whole days elapsed do not exceed the
   * maximum delay.
   */
  lemma TokenRoundTrip(x: Externals, cid: NodeId, email: string, action: Action, t: nat, now: int, maximumDelay: int)
    requires Laws(x)
    ensures ValidateToken(x, cid, email, action, GenerateToken(x, cid, email, action, t), now, maximumDelay)
            <==> (now - t) / Day <= maximumDelay
  {
    TokenTextSplits(x, cid, email, action, t);
    ParseNatToString(t);
  }

  /** Expiry: once `maximumDelay + 1` whole days have passed the token is refused. */
  lemma TokenExpires(x: Externals, cid: NodeId, email: string, action: Action, t: nat, now: int, maximumDelay: int)
    requires Laws(x)
    requires now - t >= (maximumDelay + 1) * Day
    ensures !ValidateToken(x, cid, email, action, GenerateToken(x, cid, email, action, t), now, maximumDelay)
  {
    TokenRoundTrip(x, cid, email, action, t, now, maximumDelay);
    FloorDivLower(now - t, maximumDelay + 1);
  }

  lemma FloorDivLower(a: int, k: int)
    requires a >= k * Day
    ensures a / Day >= k
  {
    assert a == Day * (a / Day) + a % Day;
    assert a % Day < Day;
  }

  /**
   * Scoping: with an injective digest, a token issued for one content,
   * email and action is refused for any other content, email or action.
   */
  lemma TokenScoped(x: Externals, cid: NodeId, email: string, action: Action, t: nat,
                    cid': NodeId, email': string, action': Action, now: int, maximumDelay: int)
    requires Laws(x) && DigestInjective(x)
    requires ValidateToken(x, cid', email', action', GenerateToken(x, cid, email, action, t), now, maximumDelay)
    ensures cid' == cid && email' == email && action' == action
  {
    TokenTextSplits(x, cid, email, action, t);
  }
}
