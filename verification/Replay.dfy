// Admin authentication: short-lived signed tokens, each good for one request,
// and the cache of token ids that remembers them only until they expire.

module Replay {
  import opened Models

  const MAX_TTL: real := 600.0

  const EXP := Text("exp")
  const JTI := Text("jti")

  type Claims = map<Key, Json>

  // What the outside decides: the claims of a token of three parts that
  // decodes, names HS256 and carries the right signature; and the text of a
  // claim.
  datatype Crypto = Crypto(verified: (string, string) -> Option<Claims>, text: Json -> string)

  function Dots(s: string): nat {
    if s == "" then 0 else Dots(s[..|s| - 1]) + if s[|s| - 1] == '.' then 1 else 0
  }

  // Two dots make three parts: `a.b.c` with no dot in a, b and c.
  lemma TwoDots(a: string, b: string, d: string)
    requires Dots(a) == 0 && Dots(b) == 0 && Dots(d) == 0
    ensures Dots(a + "." + b + "." + d) == 2
  {
    DotsSplit(a + "." + b + ".", d);
    DotsSplit(a + "." + b, ".");
    DotsSplit(a + ".", b);
    DotsSplit(a, ".");
    assert "."[..0] == "";
  }

  lemma {:induction false} DotsSplit(a: string, b: string)
    ensures Dots(a + b) == Dots(a) + Dots(b)
    decreases |b|
  {
    if b == "" {
      assert a + b == a;
    } else {
      assert (a + b)[..|a + b| - 1] == a + b[..|b| - 1];
      DotsSplit(a, b[..|b| - 1]);
    }
  }

  lemma {:induction false} NoDots(s: string)
    ensures Dots(s) == 0 <==> forall c <- s :: c != '.'
    decreases |s|
  {
    if s != "" {
      var front := s[..|s| - 1];
      NoDots(front);
      assert forall i :: 0 <= i < |front| ==> s[i] == front[i];
      assert forall c <- s :: c in front || c == s[|s| - 1];
      assert forall c <- front :: c in s;
      assert s[|s| - 1] in s;
    }
  }

  // A number that is not a boolean.
  function Number(claims: Claims, key: Key): Option<real> {
    if key !in claims then None
    else match claims[key]
      case JInt(i) => Some(i as real)
      case JReal(r) => Some(r)
      case _ => None
  }

  predicate IsFalsy(j: Json) {
    match j
    case JNull => true
    case JBool(b) => !b
    case JInt(i) => i == 0
    case JReal(r) => r == 0.0
    case JStr(s) => s == ""
    case JList(items) => items == []
    case JObj(fields) => fields == map[]
  }

  // The claims of a token that has not expired and will within ten minutes.
  function VerifyHs256(c: Crypto, token: string, secret: string, now: real): Option<Claims> {
    match c.verified(token, secret)
    case None => None
    case Some(claims) =>
      match Number(claims, EXP)
      case None => None
      case Some(exp) => if exp <= now || exp - now > MAX_TTL then None else Some(claims)
  }

  datatype Pass = Pass(jti: string, exp: real)

  // The id and expiry of a token good for one request.
  function PassOf(c: Crypto, token: string, secret: string, now: real): Option<Pass> {
    if Dots(token) != 2 then None
    else match VerifyHs256(c, token, secret, now)
      case None => None
      case Some(claims) =>
        if JTI !in claims || IsFalsy(claims[JTI]) then None
        else Some(Pass(c.text(claims[JTI]), Number(claims, EXP).value))
  }

  // Which tokens are good for one request: of three parts, verified, with a
  // number as expiry that lies ahead, by ten minutes at most, and with an id
  // that is not falsy; a boolean is no number.
  lemma PassExactly(c: Crypto, token: string, secret: string, now: real, pass: Pass)
    ensures PassOf(c, token, secret, now) == Some(pass) <==>
      && Dots(token) == 2 && c.verified(token, secret).Some?
      && var claims := c.verified(token, secret).value;
         && EXP in claims
         && (claims[EXP] == JReal(pass.exp) || (claims[EXP].JInt? && claims[EXP].i as real == pass.exp))
         && now < pass.exp <= now + 600.0
         && JTI in claims && pass.jti == c.text(claims[JTI])
         && claims[JTI] !in {JNull, JBool(false), JInt(0), JReal(0.0), JStr(""), JList([]), JObj(map[])}
  {
  }

  type Seen = map<string, real>

  function Reaped(seen: Seen, now: real): Seen {
    map jti | jti in seen && seen[jti] > now :: seen[jti]
  }

  function Remembered(seen: Seen, p: Pass, now: real): Seen {
    if p.jti in Reaped(seen, now) then Reaped(seen, now) else Reaped(seen, now)[p.jti := p.exp]
  }

  predicate IsFresh(seen: Seen, p: Pass, now: real) {
    p.jti !in Reaped(seen, now)
  }

  predicate Ascii(s: string) {
    forall c <- s :: c < 128 as char
  }

  // The constant-time comparison of two texts, which is an error unless both
  // are ASCII.
  function CompareDigest(a: string, b: string): Result<bool, string> {
    if Ascii(a) && Ascii(b) then Ok(a == b)
    else Err("comparing strings with non-ASCII characters is not supported")
  }

  class Cache {
    const crypto: Crypto
    var seen: Seen

    constructor (crypto: Crypto)
      ensures this.crypto == crypto && seen == map[]
    {
      this.crypto, seen := crypto, map[];
    }

    method JtiFresh(jti: string, exp: real, now: real) returns (isNew: bool)
      modifies this
      ensures isNew == IsFresh(old(seen), Pass(jti, exp), now)
      ensures seen == Remembered(old(seen), Pass(jti, exp), now)
    {
      var expired := set k | k in seen && seen[k] <= now;
      while expired != {}
        invariant expired <= seen.Keys && seen - expired == Reaped(old(seen), now)
      {
        var k :| k in expired;
        seen, expired := seen - {k}, expired - {k};
      }
      assert seen - {} == seen;
      if jti in seen {
        return false;
      }
      seen := seen[jti := exp];
      isNew := true;
    }

    method Authenticate(token: string, secret: string, now: real) returns (r: Result<bool, string>)
      modifies this
      ensures r.Err? <==> Dots(token) != 2 && exists c <- token + secret :: c >= 128 as char
      ensures r.Ok? && Dots(token) != 2 ==> r.value == (token == secret)
      ensures var pass := PassOf(crypto, token, secret, now);
        && (Dots(token) == 2 ==> r == Ok(pass.Some? && IsFresh(old(seen), pass.value, now)))
        && seen == (if pass.Some? then Remembered(old(seen), pass.value, now) else old(seen))
    {
      if Dots(token) != 2 {
        assert forall c <- token :: c in token + secret;
        assert forall c <- secret :: c in token + secret;
        return CompareDigest(token, secret);
      }
      var claims := VerifyHs256(crypto, token, secret, now);
      if claims.None? {
        return Ok(false);
      }
      if JTI !in claims.value || IsFalsy(claims.value[JTI]) {
        return Ok(false);
      }
      var isNew := JtiFresh(crypto.text(claims.value[JTI]), Number(claims.value, EXP).value, now);
      r := Ok(isNew);
    }
  }

  // --- Runs -------------------------------------------------------------------

  datatype Call = Call(token: string, now: real)

  function SeenAfter(c: Crypto, secret: string, calls: seq<Call>): Seen {
    if calls == [] then map[]
    else
      var before, call := SeenAfter(c, secret, calls[..|calls| - 1]), calls[|calls| - 1];
      match PassOf(c, call.token, secret, call.now)
      case None => before
      case Some(pass) => Remembered(before, pass, call.now)
  }

  // Call `i` is accepted as `pass`.
  predicate Accepted(c: Crypto, secret: string, calls: seq<Call>, i: nat, pass: Pass)
    requires i < |calls|
  {
    && PassOf(c, calls[i].token, secret, calls[i].now) == Some(pass)
    && IsFresh(SeenAfter(c, secret, calls[..i]), pass, calls[i].now)
  }

  // Call `m` comes to look at the cache, which then forgets what has expired.
  predicate Looks(c: Crypto, secret: string, calls: seq<Call>, m: nat)
    requires m < |calls|
  {
    PassOf(c, calls[m].token, secret, calls[m].now).Some?
  }

  // Some call after `i` has looked at the cache at or after `exp`. The time is
  // read before the lock is taken, so times need not be ordered as calls are.
  predicate ForgottenSince(c: Crypto, secret: string, calls: seq<Call>, i: nat, exp: real) {
    exists m :: i < m < |calls| && Looks(c, secret, calls, m) && exp <= calls[m].now
  }

  // Call `i` was accepted as `pass`, and is not forgotten yet.
  predicate Remembers(c: Crypto, secret: string, calls: seq<Call>, i: nat, pass: Pass)
    requires i < |calls|
  {
    Accepted(c, secret, calls, i, pass) && !ForgottenSince(c, secret, calls, i, pass.exp)
  }

  predicate IsRemembered(c: Crypto, secret: string, calls: seq<Call>, pass: Pass) {
    exists i: nat :: i < |calls| && Remembers(c, secret, calls, i, pass)
  }

  predicate Holds(seen: Seen, pass: Pass) {
    pass.jti in seen && seen[pass.jti] == pass.exp
  }

  lemma PrefixAccepts(c: Crypto, secret: string, calls: seq<Call>, n: nat, i: nat, pass: Pass)
    requires i < n <= |calls|
    ensures Accepted(c, secret, calls[..n], i, pass) == Accepted(c, secret, calls, i, pass)
  {
    assert calls[..n][..i] == calls[..i];
  }

  // The last call forgets what has expired by its time.
  lemma ForgottenGrows(c: Crypto, secret: string, calls: seq<Call>, i: nat, exp: real)
    requires i < |calls| - 1
    ensures var n := |calls| - 1;
      ForgottenSince(c, secret, calls, i, exp) <==>
      ForgottenSince(c, secret, calls[..n], i, exp) || (Looks(c, secret, calls, n) && exp <= calls[n].now)
  {
    var n := |calls| - 1;
    if m :| i < m < n && Looks(c, secret, calls[..n], m) && exp <= calls[..n][m].now {
      assert Looks(c, secret, calls, m) && exp <= calls[m].now;
    }
    if m :| i < m < |calls| && Looks(c, secret, calls, m) && exp <= calls[m].now {
      if m < n {
        assert Looks(c, secret, calls[..n], m) && exp <= calls[..n][m].now;
      }
    }
  }

  lemma RemembersGrows(c: Crypto, secret: string, calls: seq<Call>, i: nat, pass: Pass)
    requires i < |calls| - 1
    ensures var n := |calls| - 1;
      Remembers(c, secret, calls, i, pass) <==>
      Remembers(c, secret, calls[..n], i, pass) && !(Looks(c, secret, calls, n) && pass.exp <= calls[n].now)
  {
    PrefixAccepts(c, secret, calls, |calls| - 1, i, pass);
    ForgottenGrows(c, secret, calls, i, pass.exp);
  }

  lemma IsRememberedGrows(c: Crypto, secret: string, calls: seq<Call>, pass: Pass)
    requires calls != []
    ensures var n := |calls| - 1;
      IsRemembered(c, secret, calls, pass) <==>
      || Accepted(c, secret, calls, n, pass)
      || (IsRemembered(c, secret, calls[..n], pass) && !(Looks(c, secret, calls, n) && pass.exp <= calls[n].now))
  {
    var n := |calls| - 1;
    forall i: nat | i < n
      ensures Remembers(c, secret, calls, i, pass) <==>
              Remembers(c, secret, calls[..n], i, pass) && !(Looks(c, secret, calls, n) && pass.exp <= calls[n].now)
    {
      RemembersGrows(c, secret, calls, i, pass);
    }
    if Accepted(c, secret, calls, n, pass) {
      assert Remembers(c, secret, calls, n, pass);
    }
    if IsRemembered(c, secret, calls[..n], pass) {
      var i: nat :| i < n && Remembers(c, secret, calls[..n], i, pass);
      assert Remembers(c, secret, calls, i, pass)
        || (Looks(c, secret, calls, n) && pass.exp <= calls[n].now);
    }
    if IsRemembered(c, secret, calls, pass) {
      var i: nat :| i < |calls| && Remembers(c, secret, calls, i, pass);
      assert i == n || Remembers(c, secret, calls[..n], i, pass);
    }
  }

  lemma RememberedHolds(seen: Seen, p: Pass, now: real, pass: Pass)
    ensures Holds(Remembered(seen, p, now), pass) <==>
            || (Holds(seen, pass) && now < pass.exp)
            || (p == pass && IsFresh(seen, p, now))
  {
  }

  // What the cache holds is exactly what it has accepted and not forgotten,
  // whatever the times of the calls.
  lemma {:induction false} CacheIsMemory(c: Crypto, secret: string, calls: seq<Call>, pass: Pass)
    ensures Holds(SeenAfter(c, secret, calls), pass) <==> IsRemembered(c, secret, calls, pass)
    decreases |calls|
  {
    if calls != [] {
      var n := |calls| - 1;
      var before, p := SeenAfter(c, secret, calls[..n]), PassOf(c, calls[n].token, secret, calls[n].now);
      CacheIsMemory(c, secret, calls[..n], pass);
      IsRememberedGrows(c, secret, calls, pass);
      if p.Some? {
        RememberedHolds(before, p.value, calls[n].now, pass);
      }
    }
  }

  // An accepted one with this id stands in the way of call `j`: it is neither
  // forgotten before nor expired at the time of that call.
  predicate Blocks(c: Crypto, secret: string, calls: seq<Call>, i: nat, j: nat, jti: string, other: Pass)
    requires i < j < |calls|
  {
    && other.jti == jti && calls[j].now < other.exp
    && Accepted(c, secret, calls, i, other) && !ForgottenSince(c, secret, calls[..j], i, other.exp)
  }

  // A pass is accepted exactly when no accepted one with its id stands in the
  // way: no replay gets in before the cache was looked at past the expiry, and
  // nothing else is turned away.
  lemma AcceptedExactly(c: Crypto, secret: string, calls: seq<Call>, j: nat, pass: Pass)
    requires j < |calls| && PassOf(c, calls[j].token, secret, calls[j].now) == Some(pass)
    ensures Accepted(c, secret, calls, j, pass) <==>
            forall i: nat, other: Pass :: i < j ==> !Blocks(c, secret, calls, i, j, pass.jti, other)
  {
    var seen := SeenAfter(c, secret, calls[..j]);
    if !IsFresh(seen, pass, calls[j].now) {
      var other := Pass(pass.jti, seen[pass.jti]);
      CacheIsMemory(c, secret, calls[..j], other);
      var i: nat :| i < j && Remembers(c, secret, calls[..j], i, other);
      PrefixAccepts(c, secret, calls, j, i, other);
      assert Blocks(c, secret, calls, i, j, pass.jti, other);
    } else {
      forall i: nat, other: Pass | i < j
        ensures !Blocks(c, secret, calls, i, j, pass.jti, other)
      {
        if Blocks(c, secret, calls, i, j, pass.jti, other) {
          PrefixAccepts(c, secret, calls, j, i, other);
          assert Remembers(c, secret, calls[..j], i, other);
          CacheIsMemory(c, secret, calls[..j], other);
        }
      }
    }
  }

  // A token is accepted a second time only if in between some call has looked
  // at the cache with a time at which the token had expired, although the
  // second time is one at which it has not.
  lemma SecondNeedsALateLook(c: Crypto, secret: string, calls: seq<Call>, i: nat, j: nat, pass: Pass) returns (m: nat)
    requires i < j < |calls| && Accepted(c, secret, calls, i, pass) && Accepted(c, secret, calls, j, pass)
    ensures i < m < j && Looks(c, secret, calls, m) && calls[j].now < pass.exp <= calls[m].now
  {
    AcceptedExactly(c, secret, calls, j, pass);
    assert !Blocks(c, secret, calls, i, j, pass.jti, pass);
    m :| i < m < j && Looks(c, secret, calls[..j], m) && pass.exp <= calls[..j][m].now;
    assert Looks(c, secret, calls, m);
  }

  // The clock readings are in the order of the calls.
  predicate Timely(calls: seq<Call>) {
    forall i, j :: 0 <= i < j < |calls| ==> calls[i].now <= calls[j].now
  }

  // Where they are, a pass is accepted exactly when no accepted one with its id
  // is still alive.
  lemma AcceptedInOrder(c: Crypto, secret: string, calls: seq<Call>, j: nat, pass: Pass)
    requires Timely(calls) && j < |calls| && PassOf(c, calls[j].token, secret, calls[j].now) == Some(pass)
    ensures Accepted(c, secret, calls, j, pass) <==>
            forall i: nat, other: Pass :: i < j && Accepted(c, secret, calls, i, other) && other.jti == pass.jti
                                          ==> other.exp <= calls[j].now
  {
    AcceptedExactly(c, secret, calls, j, pass);
    forall i: nat, other: Pass | i < j
      ensures Blocks(c, secret, calls, i, j, pass.jti, other) <==>
              Accepted(c, secret, calls, i, other) && other.jti == pass.jti && calls[j].now < other.exp
    {
    }
  }

  // And a token is accepted at most once, although expired ids are forgotten.
  lemma AcceptedOnce(c: Crypto, secret: string, calls: seq<Call>, i: nat, j: nat, pass: Pass)
    requires Timely(calls) && i < |calls| && j < |calls|
    requires Accepted(c, secret, calls, i, pass) && Accepted(c, secret, calls, j, pass)
    ensures i == j
  {
    if i < j {
      var m := SecondNeedsALateLook(c, secret, calls, i, j, pass);
    } else if j < i {
      var m := SecondNeedsALateLook(c, secret, calls, j, i, pass);
    }
  }

  // Where they are not it can be accepted twice: call `b`, with another
  // id, read the clock after the token had expired and got the lock before
  // the replay `d`, which had read it earlier.
  lemma OutOfOrderReplays(c: Crypto, secret: string, a: Call, b: Call, d: Call, pass: Pass, other: Pass)
    requires PassOf(c, a.token, secret, a.now) == Some(pass) && PassOf(c, d.token, secret, d.now) == Some(pass)
    requires PassOf(c, b.token, secret, b.now) == Some(other) && other.jti != pass.jti && pass.exp <= b.now
    ensures Accepted(c, secret, [a, b, d], 0, pass) && Accepted(c, secret, [a, b, d], 2, pass)
  {
    var calls := [a, b, d];
    assert calls[..0] == [] && calls[..1] == [a] && calls[..2] == [a, b] && [a, b][..1] == [a] && [a][..0] == [];
    assert SeenAfter(c, secret, [a]) == map[pass.jti := pass.exp];
    assert pass.jti !in SeenAfter(c, secret, [a, b]);
  }

  // Every entry left after a call that looked at the cache expires later than
  // that call says it is, and at most ten minutes after the latest time that
  // any call has read.
  lemma EntriesAreShortLived(c: Crypto, secret: string, calls: seq<Call>, jti: string, latest: real)
    requires calls != [] && Looks(c, secret, calls, |calls| - 1)
    requires forall i :: 0 <= i < |calls| ==> calls[i].now <= latest
    requires jti in SeenAfter(c, secret, calls)
    ensures calls[|calls| - 1].now < SeenAfter(c, secret, calls)[jti] <= latest + MAX_TTL
  {
    var pass := Pass(jti, SeenAfter(c, secret, calls)[jti]);
    CacheIsMemory(c, secret, calls, pass);
    var i: nat :| i < |calls| && Remembers(c, secret, calls, i, pass);
    assert calls[i].now <= latest;
  }
}
