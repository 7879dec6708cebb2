/**
 Model-proxy runtime tokens (haas/model_proxy/token.py): the session id travels inside the token as
 unpadded base64url (section 5 of RFC 4648) and is read back from it.
 */
module RuntimeTokens {
  import opened Wrappers
  import opened Text

  type Sextet = x: nat | x < 64

  // ----------------------------------------------------------------- base64url

  function Digit(n: Sextet): char {
    if n < 26 then 'A' + n as char
    else if n < 52 then 'a' + (n - 26) as char
    else if n < 62 then '0' + (n - 52) as char
    else if n == 62 then '-' else '_'
  }

  /** The decoder takes the standard alphabet's last two digits as well. */
  function Value(ch: char): Option<Sextet> {
    if 'A' <= ch <= 'Z' then Some((ch - 'A') as nat)
    else if 'a' <= ch <= 'z' then Some((ch - 'a') as nat + 26)
    else if '0' <= ch <= '9' then Some((ch - '0') as nat + 52)
    else if ch == '-' || ch == '+' then Some(62)
    else if ch == '_' || ch == '/' then Some(63)
    else None
  }

  predicate IsDigit(ch: char) {
    'A' <= ch <= 'Z' || 'a' <= ch <= 'z' || '0' <= ch <= '9' || ch == '-' || ch == '_'
  }

  lemma DigitValue(n: Sextet)
    ensures IsDigit(Digit(n)) && Value(Digit(n)) == Some(n)
  {
  }

  function Sextets(a: Byte, b: Byte, c: Byte): (Sextet, Sextet, Sextet, Sextet) {
    var x, y, z := a as nat, b as nat, c as nat;
    (x / 4, x % 4 * 16 + y / 16, y % 16 * 4 + z / 64, z % 64)
  }

  /** Four digits for every three bytes; the last group is padded with `=`. */
  function Encode64(b: Bytes): string
    decreases |b|
  {
    if b == [] then ""
    else if |b| == 1 then
      var s := Sextets(b[0], 0, 0);
      [Digit(s.0), Digit(s.1), '=', '=']
    else if |b| == 2 then
      var s := Sextets(b[0], b[1], 0);
      [Digit(s.0), Digit(s.1), Digit(s.2), '=']
    else
      var s := Sextets(b[0], b[1], b[2]);
      [Digit(s.0), Digit(s.1), Digit(s.2), Digit(s.3)] + Encode64(b[3..])
  }

  function Group(s0: Sextet, s1: Sextet, s2: Sextet, s3: Sextet): Bytes {
    [(s0 * 4 + s1 / 16) as Byte, (s1 % 16 * 16 + s2 / 4) as Byte, (s2 % 4 * 64 + s3) as Byte]
  }

  /** Strict decoding: whole groups, padding only at the very end. */
  function Decode64(s: string): Option<Bytes>
    decreases |s|
  {
    if s == "" then Some([])
    else if |s| < 4 then None
    else
      var v0, v1, v2, v3 := Value(s[0]), Value(s[1]), Value(s[2]), Value(s[3]);
      if v0.None? || v1.None? then None
      else if |s| == 4 && s[2] == '=' && s[3] == '=' then Some(Group(v0.value, v1.value, 0, 0)[..1])
      else if v2.None? then None
      else if |s| == 4 && s[3] == '=' then Some(Group(v0.value, v1.value, v2.value, 0)[..2])
      else if v3.None? then None
      else
        match Decode64(s[4..])
        case None => None
        case Some(rest) => Some(Group(v0.value, v1.value, v2.value, v3.value) + rest)
  }

  lemma GroupRoundTrip(a: Byte, b: Byte, c: Byte)
    ensures var s := Sextets(a, b, c);
            && Group(s.0, s.1, s.2, s.3) == [a, b, c]
            && (c == 0 ==> s.3 == 0) && (b == 0 && c == 0 ==> s.2 == 0)
  {
    var x, y, z := a as nat, b as nat, c as nat;
    Carry(x % 4, y / 16, 16);
    Carry(y % 16, z / 64, 4);
  }

  lemma Carry(high: nat, low: nat, base: nat)
    requires base == 16 || base == 4
    requires low < base
    ensures (high * base + low) / base == high && (high * base + low) % base == low
  {
  }

  lemma {:induction false} Base64RoundTrip(b: Bytes)
    ensures Decode64(Encode64(b)) == Some(b)
    decreases |b|
  {
    hide Group, Sextets, Digit, Value;
    var b0, b1, b2 := if |b| > 0 then b[0] else 0, if |b| > 1 then b[1] else 0, if |b| > 2 then b[2] else 0;
    var s := Sextets(b0, b1, b2);
    GroupRoundTrip(b0, b1, b2);
    DigitValue(s.0);
    DigitValue(s.1);
    DigitValue(s.2);
    DigitValue(s.3);
    if |b| == 1 {
      assert b == [b0, b1, b2][..1];
    } else if |b| == 2 {
      assert b == [b0, b1, b2][..2];
    } else if |b| > 2 {
      var code := [Digit(s.0), Digit(s.1), Digit(s.2), Digit(s.3)];
      assert Encode64(b) == code + Encode64(b[3..]);
      assert Encode64(b)[4..] == Encode64(b[3..]);
      Base64RoundTrip(b[3..]);
      assert b == [b0, b1, b2] + b[3..];
    }
  }

  // ------------------------------------------------------- padding and splitting

  /** `rstrip("=")` */
  function Unpadded(s: string): (r: string)
    ensures r <= s && (r != "" ==> r[|r| - 1] != '=')
  {
    if s != "" && s[|s| - 1] == '=' then Unpadded(s[..|s| - 1]) else s
  }

  /** `"=" * (-len % 4)` */
  function Padding(length: nat): string { Equals((4 - length % 4) % 4) }

  predicate AllDigits(s: string) { forall i :: 0 <= i < |s| ==> IsDigit(s[i]) }

  function Equals(n: nat): string { seq(n, _ => '=') }

  /** How many `=` the encoding of this many bytes ends with. */
  function Missing(length: nat): nat { if length % 3 == 0 then 0 else 3 - length % 3 }

  lemma ShortShape(b: Bytes)
    requires |b| <= 2
    ensures var e, n := Encode64(b), Missing(|b|);
            && n <= |e| && |e| % 4 == 0 && AllDigits(e[..|e| - n]) && e[|e| - n..] == Equals(n)
            && (b == [] <==> e[..|e| - n] == "")
  {
    hide Digit, Sextets;
    var s := Sextets(if |b| > 0 then b[0] else 0, if |b| > 1 then b[1] else 0, 0);
    DigitValue(s.0);
    DigitValue(s.1);
    DigitValue(s.2);
  }

  lemma EncodeFirst(b: Bytes)
    requires |b| > 2
    ensures |Encode64(b)| == 4 + |Encode64(b[3..])|
    ensures AllDigits(Encode64(b)[..4]) && Encode64(b)[4..] == Encode64(b[3..])
  {
    hide Digit, Sextets;
    var s := Sextets(b[0], b[1], b[2]);
    DigitValue(s.0);
    DigitValue(s.1);
    DigitValue(s.2);
    DigitValue(s.3);
    assert Encode64(b)[..4] == [Digit(s.0), Digit(s.1), Digit(s.2), Digit(s.3)];
  }

  /** The encoding is digits and then the padding that its digits call for. */
  lemma {:induction false} EncodeShape(b: Bytes)
    ensures var e, n := Encode64(b), Missing(|b|);
            && n <= |e| && |e| % 4 == 0 && AllDigits(e[..|e| - n]) && e[|e| - n..] == Equals(n)
            && (b == [] <==> e[..|e| - n] == "")
    decreases |b|
  {
    hide Encode64, IsDigit, Equals;
    if |b| <= 2 {
      ShortShape(b);
    } else {
      EncodeShape(b[3..]);
      EncodeFirst(b);
      var e, rest, n := Encode64(b), Encode64(b[3..]), Missing(|b|);
      assert n == Missing(|b[3..]|);
      assert e[..|e| - n] == e[..4] + rest[..|rest| - n] && e[|e| - n..] == rest[|rest| - n..];
    }
  }

  lemma {:induction false} UnpaddedIs(digits: string, n: nat)
    requires AllDigits(digits)
    ensures Unpadded(digits + Equals(n)) == digits
  {
    var s := digits + Equals(n);
    if n > 0 {
      assert s[..|s| - 1] == digits + Equals(n - 1);
      UnpaddedIs(digits, n - 1);
    } else {
      assert s == digits;
    }
  }

  /** Stripping the padding and putting it back is the identity on encodings. */
  lemma PaddingRestored(b: Bytes)
    ensures var e := Unpadded(Encode64(b));
            AllDigits(e) && e + Padding(|e|) == Encode64(b) && (e == "" <==> b == [])
  {
    hide Encode64, Unpadded, AllDigits;
    EncodeShape(b);
    var e, n := Encode64(b), Missing(|b|);
    var digits := e[..|e| - n];
    UnpaddedIs(digits, n);
    assert e == digits + e[|e| - n..];
    PaddingIs(|e|, n);
  }

  lemma PaddingIs(length: nat, n: nat)
    requires length % 4 == 0 && n <= 2 && n <= length
    ensures Padding(length - n) == Equals(n)
  {
  }

  /** Everything before the first dot, when there is one. */
  function BeforeDot(s: string): Option<string> {
    if s == "" then None
    else if s[0] == '.' then Some("")
    else
      match BeforeDot(s[1..])
      case None => None
      case Some(rest) => Some([s[0]] + rest)
  }

  lemma {:induction false} BeforeDotIs(head: string, tail: string)
    requires '.' !in head
    ensures BeforeDot(head + "." + tail) == Some(head)
  {
    var s := head + "." + tail;
    if head != "" {
      assert s[0] == head[0] && s[1..] == head[1..] + "." + tail;
      BeforeDotIs(head[1..], tail);
      assert [head[0]] + head[1..] == head;
    } else {
      assert s[0] == '.';
    }
  }

  lemma {:induction false} BeforeDotSplits(s: string)
    ensures match BeforeDot(s)
            case None => '.' !in s
            case Some(head) =>
              && |head| < |s| && '.' !in head && s[..|head|] == head && s[|head|] == '.'
  {
    if s != "" && s[0] != '.' { BeforeDotSplits(s[1..]); }
  }

  // ---------------------------------------------------------------------- tokens

  const PREFIX := "haas_mp_"

  /** UTF-8, as a given pair of functions. */
  datatype Codec = Codec(encode: string -> Bytes, decode: Bytes -> Option<string>)

  ghost predicate Lawful(c: Codec) {
    && (forall s :: c.decode(c.encode(s)) == Some(s))
    && (forall s :: c.encode(s) == [] <==> s == "")
  }

  predicate NoSpace(s: string) { forall i :: 0 <= i < |s| ==> !IsSpace(s[i]) }

  /** `_token_for`, given the decimal generation and the nonce. */
  function TokenFor(c: Codec, session: string, generation: string, nonce: string): string {
    PREFIX + Unpadded(Encode64(c.encode(session))) + "." + generation + "." + nonce
  }

  datatype Failure = InvalidToken | TokenExpired | NotAscii

  predicate IsAscii(s: string) { forall i :: 0 <= i < |s| ==> s[i] < '\U{80}' }

  /** `token_session_id`. The decoder's complaint about a character outside ASCII is not one of the two errors
      caught here, so it reaches the caller. */
  function SessionOf(c: Codec, token: string): Result<Option<string>, Failure> {
    if !(PREFIX <= token) then Ok(None)
    else
      match BeforeDot(token[|PREFIX|..])
      case None => Ok(None)
      case Some(encoded) =>
        if encoded == "" || !NoSpace(encoded) then Ok(None)
        else if !IsAscii(encoded) then Err(NotAscii)
        else
          match Decode64(encoded + Padding(|encoded|))
          case None => Ok(None)
          case Some(bytes) =>
            match c.decode(bytes)
            case None => Ok(None)
            case Some(session) => Ok(if session == "" || !NoSpace(session) then None else Some(session))
  }

  predicate GoodId(session: string) { session != "" && NoSpace(session) }

  /** A token gives back the session it was issued for exactly when the id is not empty and has no white
      space; otherwise it gives nothing. */
  lemma SessionRoundTripIff(c: Codec, session: string, generation: string, nonce: string)
    requires Lawful(c)
    ensures SessionOf(c, TokenFor(c, session, generation, nonce)) == Ok(if GoodId(session) then Some(session) else None)
  {
    hide Encode64, Decode64, Unpadded, Padding, BeforeDot;
    var bytes := c.encode(session);
    var e := Unpadded(Encode64(bytes));
    PaddingRestored(bytes);
    Base64RoundTrip(bytes);
    DigitsPlain(e);
    var token := TokenFor(c, session, generation, nonce);
    assert token == PREFIX + (e + "." + (generation + "." + nonce));
    assert token[|PREFIX|..] == e + "." + (generation + "." + nonce);
    BeforeDotIs(e, generation + "." + nonce);
  }

  lemma DigitsPlain(s: string)
    requires AllDigits(s)
    ensures NoSpace(s) && '.' !in s && IsAscii(s)
  {
  }

  /** A token's first part: what stands between the prefix and the first dot. */
  predicate HasPart(token: string, part: string) {
    && |PREFIX| + |part| < |token| && PREFIX <= token && '.' !in part
    && token[|PREFIX|..|PREFIX| + |part|] == part && token[|PREFIX| + |part|] == '.'
  }

  /** What a token of any origin gives: without a prefix and a part of plain characters, nothing; a part with a
      character outside ASCII raises; otherwise whatever the part decodes to, if that is a good id. */
  lemma AnyToken(c: Codec, token: string, part: string)
    ensures (forall p :: !HasPart(token, p)) ==> SessionOf(c, token) == Ok(None)
    ensures HasPart(token, part) && (part == "" || !NoSpace(part)) ==> SessionOf(c, token) == Ok(None)
    ensures HasPart(token, part) && part != "" && NoSpace(part) ==>
              (SessionOf(c, token) == Err(NotAscii) <==> exists i :: 0 <= i < |part| && part[i] >= '\U{80}')
    ensures SessionOf(c, token).Ok? && SessionOf(c, token).value.Some? ==> GoodId(SessionOf(c, token).value.value)
  {
    hide Decode64, Padding, BeforeDot, NoSpace;
    if PREFIX <= token {
      var rest := token[|PREFIX|..];
      BeforeDotSplits(rest);
      match BeforeDot(rest) {
        case None => forall p ensures !HasPart(token, p) { NoPart(token, p); }
        case Some(head) =>
          assert HasPart(token, head);
          if HasPart(token, part) { OnePart(token, head, part); }
      }
    }
  }

  lemma OnePart(token: string, p: string, q: string)
    requires HasPart(token, p) && HasPart(token, q)
    ensures p == q
  {
    assert forall i :: 0 <= i < |p| ==> token[|PREFIX| + i] == p[i];
    assert forall i :: 0 <= i < |q| ==> token[|PREFIX| + i] == q[i];
    assert |p| == |q|;
  }

  lemma NoPart(token: string, p: string)
    requires PREFIX <= token && '.' !in token[|PREFIX|..]
    ensures !HasPart(token, p)
  {
    if |PREFIX| + |p| < |token| { assert token[|PREFIX|..][|p|] == token[|PREFIX| + |p|]; }
  }

  /** The test vectors of section 10 of RFC 4648, and one for the two digits of its section 5. */
  lemma Vectors()
    ensures Encode64([102]) == "Zg==" && Encode64([102, 111]) == "Zm8=" && Encode64([102, 111, 111]) == "Zm9v"
    ensures Encode64([102, 111, 111, 98, 97, 114]) == "Zm9vYmFy"
    ensures Encode64([251, 255, 254]) == "-__-"
  {
    assert [102 as Byte, 111, 111, 98, 97, 114][3..] == [98, 97, 114];
    assert [98 as Byte, 97, 114][3..] == [] && [102 as Byte, 111, 111][3..] == [] && [251 as Byte, 255, 254][3..] == [];
  }

  /** Tokens of different good sessions are different, whatever the rest. */
  lemma TokensSeparateSessions(c: Codec, s: string, g: string, n: string, s': string, g': string, n': string)
    requires Lawful(c) && GoodId(s) && GoodId(s') && TokenFor(c, s, g, n) == TokenFor(c, s', g', n')
    ensures s == s'
  {
    hide TokenFor, SessionOf;
    SessionRoundTripIff(c, s, g, n);
    SessionRoundTripIff(c, s', g', n');
  }

  /** There is no dot after the one before the tail. */
  lemma NoLaterDot(head: string, tail: string)
    requires '.' !in tail
    ensures forall i :: |head| < i < |head + "." + tail| ==> (head + "." + tail)[i] != '.'
  {
    var t := head + "." + tail;
    assert forall i :: |head| < i < |t| ==> t[i] == tail[i - |head| - 1];
  }

  lemma AfterLastDot(head: string, tail: string, head': string, tail': string)
    requires '.' !in tail && '.' !in tail' && head + "." + tail == head' + "." + tail'
    ensures head == head' && tail == tail'
  {
    var t, t' := head + "." + tail, head' + "." + tail';
    assert t[|head|] == '.' && t'[|head'|] == '.';
    NoLaterDot(head, tail);
    NoLaterDot(head', tail');
    assert t[..|head|] == head && t'[..|head'|] == head';
    assert t[|head| + 1..] == tail && t'[|head'| + 1..] == tail';
  }

  /** A token holds all it was made of: with a nonce and a generation that have no dot, as theirs have not, two
      equal tokens have the same session, good or not, the same generation and the same nonce. */
  lemma TokensDiffer(c: Codec, s: string, g: string, n: string, s': string, g': string, n': string)
    requires Lawful(c) && '.' !in g && '.' !in n && '.' !in g' && '.' !in n'
    requires TokenFor(c, s, g, n) == TokenFor(c, s', g', n')
    ensures s == s' && g == g' && n == n'
  {
    hide Encode64, Decode64, Unpadded, Padding;
    var e, e' := Unpadded(Encode64(c.encode(s))), Unpadded(Encode64(c.encode(s')));
    AfterLastDot(PREFIX + e + "." + g, n, PREFIX + e' + "." + g', n');
    AfterLastDot(PREFIX + e, g, PREFIX + e', g');
    assert (PREFIX + e)[|PREFIX|..] == e && (PREFIX + e')[|PREFIX|..] == e';
    PaddingRestored(c.encode(s));
    PaddingRestored(c.encode(s'));
    Base64RoundTrip(c.encode(s));
    Base64RoundTrip(c.encode(s'));
    assert c.decode(c.encode(s)) == Some(s);
  }

  // --------------------------------------------------------------------- manager

  class Scope {
    const sessionId: string
    const invocationId: string
    const generation: nat
    var issuedAt: int
    var expiresAt: int

    constructor (sessionId: string, invocationId: string, generation: nat)
      ensures this.sessionId == sessionId && this.invocationId == invocationId && this.generation == generation
      ensures issuedAt == 0 && expiresAt == 0
    {
      this.sessionId, this.invocationId, this.generation := sessionId, invocationId, generation;
      issuedAt, expiresAt := 0, 0;
    }
  }

  class RuntimeTokenManager {
    const codec: Codec
    const ttl: int
    const decimal: nat -> string
    var tokens: map<string, Scope>

    /** A token in the table names its own scope's session, or none at all. */
    ghost predicate Valid()
      reads this
    {
      && Lawful(codec)
      && forall t :: t in tokens ==>
           SessionOf(codec, t) == Ok(if GoodId(tokens[t].sessionId) then Some(tokens[t].sessionId) else None)
    }

    constructor (codec: Codec, ttl: int, decimal: nat -> string)
      requires Lawful(codec)
      ensures Valid() && tokens == map[] && this.ttl == ttl
    {
      this.codec, this.ttl, this.decimal, tokens := codec, ttl, decimal, map[];
    }

    /** What `Validate` says of a token. */
    predicate Accepts(token: string, now: int)
      reads this, if token in tokens then {tokens[token]} else {}
    {
      token in tokens && (tokens[token].expiresAt == 0 || now <= tokens[token].expiresAt)
    }

    /** An explicit expiry, or the time to live from now; times are in milliseconds. */
    function Expiry(expires: Option<int>, now: int): int {
      if expires.Some? then expires.value else now + ttl * 1000
    }

    method Issue(scope: Scope, nonce: string, now: int, expires: Option<int>) returns (token: string)
      requires Valid()
      modifies this, scope
      ensures Valid() && tokens == old(tokens)[token := scope]
      ensures SessionOf(codec, token) == Ok(if GoodId(scope.sessionId) then Some(scope.sessionId) else None)
      ensures scope.expiresAt == Expiry(expires, now)
      ensures expires.None? && now + ttl * 1000 != 0 ==> forall m :: Accepts(token, m) <==> m <= now + ttl * 1000
      ensures expires.Some? && expires.value != 0 ==> forall m :: Accepts(token, m) <==> m <= expires.value
      ensures token == TokenFor(codec, scope.sessionId, decimal(if scope.generation == 0 then 1 else scope.generation),
                                nonce)
      ensures scope.issuedAt == if old(scope.issuedAt) == 0 then now else old(scope.issuedAt)
    {
      hide SessionOf, TokenFor;
      if scope.issuedAt == 0 { scope.issuedAt := now; }
      var generation := decimal(if scope.generation == 0 then 1 else scope.generation);
      token := TokenFor(codec, scope.sessionId, generation, nonce);
      SessionRoundTripIff(codec, scope.sessionId, generation, nonce);
      scope.expiresAt := Expiry(expires, now);
      tokens := tokens[token := scope];
    }

    method Validate(token: string, now: int) returns (r: Result<Scope, Failure>)
      ensures r.Ok? <==> token in tokens && (tokens[token].expiresAt == 0 || now <= tokens[token].expiresAt)
      ensures r.Ok? <==> Accepts(token, now)
      ensures r.Ok? ==> r.value == tokens[token]
      ensures r == Err(InvalidToken) <==> token !in tokens
    {
      if token !in tokens { return Err(InvalidToken); }
      if tokens[token].expiresAt != 0 && now > tokens[token].expiresAt { return Err(TokenExpired); }
      return Ok(tokens[token]);
    }

    method Renew(token: string, now: int, expires: Option<int>) returns (r: Result<Scope, Failure>)
      requires Valid()
      modifies if token in tokens then {tokens[token]} else {}
      ensures Valid() && tokens == old(tokens)
      ensures r == if token in tokens then Ok(tokens[token]) else Err(InvalidToken)
      ensures r.Ok? && expires.None? && now + ttl * 1000 != 0 ==>
                forall m :: Accepts(token, m) <==> m <= now + ttl * 1000
      ensures r.Ok? && expires.Some? && expires.value != 0 ==> forall m :: Accepts(token, m) <==> m <= expires.value
      ensures r.Ok? ==> r.value.expiresAt == Expiry(expires, now) && r.value.issuedAt == old(tokens[token].issuedAt)
    {
      if token !in tokens { return Err(InvalidToken); }
      tokens[token].expiresAt := Expiry(expires, now);
      return Ok(tokens[token]);
    }

    /** Adopting takes a foreign token only for the session that the token itself names. */
    method Adopt(token: string, scope: Scope, now: int, expires: Option<int>) returns (r: Result<(), Failure>)
      requires Valid()
      modifies this, scope
      ensures Valid()
      ensures r.Ok? <==> SessionOf(codec, token) == Ok(Some(scope.sessionId))
      ensures r == Err(NotAscii) <==> SessionOf(codec, token).Err?
      ensures r.Ok? ==> tokens == old(tokens)[token := scope] && scope.expiresAt == Expiry(expires, now)
      ensures r.Ok? && expires.None? && now + ttl * 1000 != 0 ==>
                forall m :: Accepts(token, m) <==> m <= now + ttl * 1000
      ensures r.Ok? && expires.Some? && expires.value != 0 ==> forall m :: Accepts(token, m) <==> m <= expires.value
      ensures r.Err? ==> tokens == old(tokens) && scope.expiresAt == old(scope.expiresAt)
    {
      if !(PREFIX <= token) { return Err(InvalidToken); }
      var session := SessionOf(codec, token);
      if session.Err? { return Err(session.error); }
      if session.value != Some(scope.sessionId) { return Err(InvalidToken); }
      if scope.issuedAt == 0 { scope.issuedAt := now; }
      scope.expiresAt := Expiry(expires, now);
      tokens := tokens[token := scope];
      return Ok(());
    }

    /** After this no token in the table names the session; every other entry stays. */
    method RevokeSession(session: string)
      requires Valid()
      modifies `tokens
      ensures Valid()
      ensures forall t :: t in tokens <==> t in old(tokens) && old(tokens)[t].sessionId != session
      ensures forall t :: t in tokens ==> tokens[t] == old(tokens)[t] && SessionOf(codec, t) != Ok(Some(session))
    {
      hide SessionOf;
      var todo := tokens.Keys;
      while todo != {}
        invariant todo <= tokens.Keys <= old(tokens).Keys
        invariant forall t :: t in tokens ==> tokens[t] == old(tokens)[t]
        invariant forall t :: t in tokens && t !in todo ==> tokens[t].sessionId != session
        invariant forall t :: t in old(tokens) && t !in tokens ==> old(tokens)[t].sessionId == session
        decreases todo
      {
        var t :| t in todo;
        todo := todo - {t};
        if tokens[t].sessionId == session { tokens := tokens - {t}; }
      }
    }

    method Revoke(token: string)
      requires Valid()
      modifies `tokens
      ensures Valid() && tokens == old(tokens) - {token}
    {
      tokens := tokens - {token};
    }
  }
}
