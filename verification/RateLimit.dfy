// The webhook rate limiter: a token bucket per key, and a collector that drops
// idle buckets. Tokens and times are real numbers.

module RateLimit {
  datatype Limit = Limit(rpm: real, burst: real) {
    function Rate(): real {
      rpm / 60.0
    }

    // Tokens that `d` seconds bring.
    function Gain(d: real): real {
      d * Rate()
    }
  }

  datatype Bucket = Bucket(tokens: real, last: real)

  type Buckets = map<string, Bucket>

  datatype Answer = Answer(allowed: bool, retryAfter: int)

  datatype Request = Request(key: string, now: real)

  // The limit of each key, fixed for a whole run.
  type Limits = string -> Limit

  const PRUNE_EVERY: real := 300.0

  function Min(a: real, b: real): real {
    if a <= b then a else b
  }

  function Refilled(b: Bucket, limit: Limit, now: real): real {
    Min(limit.burst, b.tokens + limit.Gain(now - b.last))
  }

  // A key without a bucket has a full one.
  function Lookup(bs: Buckets, key: string, limit: Limit, now: real): Bucket {
    if key in bs then bs[key] else Bucket(limit.burst, now)
  }

  function Level(bs: Buckets, key: string, limit: Limit, now: real): real {
    Refilled(Lookup(bs, key, limit, now), limit, now)
  }

  function RetryAfter(tokens: real, rate: real): int
    requires rate > 0.0
  {
    ((1.0 - tokens) / rate).Floor + 1
  }

  // One request against a limiter that never prunes.
  function Served(bs: Buckets, key: string, limit: Limit, now: real): (Answer, Buckets) {
    if limit.rpm <= 0.0 then (Answer(true, 0), bs)
    else
      var tokens := Level(bs, key, limit, now);
      if tokens >= 1.0 then (Answer(true, 0), bs[key := Bucket(tokens - 1.0, now)])
      else (Answer(false, RetryAfter(tokens, limit.Rate())), bs[key := Bucket(tokens, now)])
  }

  datatype State = State(buckets: Buckets, lastPrune: real)

  function Survivors(bs: Buckets, now: real): Buckets {
    map key | key in bs && now - bs[key].last <= PRUNE_EVERY :: bs[key]
  }

  function Pruned(s: State, now: real): State {
    if now - s.lastPrune < PRUNE_EVERY then s else State(Survivors(s.buckets, now), now)
  }

  // One request against the limiter as it is.
  function Checked(s: State, key: string, limit: Limit, now: real): (Answer, State) {
    if limit.rpm <= 0.0 then (Answer(true, 0), s)
    else
      var p := Pruned(s, now);
      var (answer, bs) := Served(p.buckets, key, limit, now);
      (answer, p.(buckets := bs))
  }

  class Limiter {
    var buckets: Buckets
    var lastPrune: real

    constructor ()
      ensures buckets == map[] && lastPrune == 0.0
    {
      buckets, lastPrune := map[], 0.0;
    }

    method Prune(now: real)
      modifies this
      ensures State(buckets, lastPrune) == Pruned(State(old(buckets), old(lastPrune)), now)
    {
      if now - lastPrune < PRUNE_EVERY {
        return;
      }
      lastPrune := now;
      var stale := set key | key in buckets && now - buckets[key].last > PRUNE_EVERY;
      while stale != {}
        invariant lastPrune == now
        invariant stale <= buckets.Keys
        invariant buckets - stale == Survivors(old(buckets), now)
      {
        var key :| key in stale;
        buckets, stale := buckets - {key}, stale - {key};
      }
      assert buckets - {} == buckets;
    }

    method Check(key: string, limit: Limit, now: real) returns (answer: Answer)
      modifies this
      ensures (answer, State(buckets, lastPrune)) == Checked(State(old(buckets), old(lastPrune)), key, limit, now)
    {
      if limit.rpm <= 0.0 {
        return Answer(true, 0);
      }
      Prune(now);
      var b := if key in buckets then buckets[key] else Bucket(limit.burst, now);
      var tokens := Min(limit.burst, b.tokens + limit.Gain(now - b.last));
      assert tokens == Level(buckets, key, limit, now);
      if tokens >= 1.0 {
        buckets := buckets[key := Bucket(tokens - 1.0, now)];
        return Answer(true, 0);
      }
      buckets := buckets[key := Bucket(tokens, now)];
      answer := Answer(false, RetryAfter(tokens, limit.Rate()));
    }
  }

  // --- Runs ----------------------------------------------------------------

  function Answers(s: State, limits: Limits, rs: seq<Request>): (answers: seq<Answer>)
    ensures |answers| == |rs|
    decreases |rs|
  {
    if rs == [] then []
    else
      var (answer, next) := Checked(s, rs[0].key, limits(rs[0].key), rs[0].now);
      [answer] + Answers(next, limits, rs[1..])
  }

  function PlainAnswers(bs: Buckets, limits: Limits, rs: seq<Request>): (answers: seq<Answer>)
    ensures |answers| == |rs|
    decreases |rs|
  {
    if rs == [] then []
    else
      var (answer, next) := Served(bs, rs[0].key, limits(rs[0].key), rs[0].now);
      [answer] + PlainAnswers(next, limits, rs[1..])
  }

  // A limit that is not positive is no limit: every request is allowed at
  // once, whatever the other keys do.
  lemma {:induction false} DisabledIsUnlimited(s: State, limits: Limits, rs: seq<Request>, i: nat)
    requires i < |rs| && limits(rs[i].key).rpm <= 0.0
    ensures Answers(s, limits, rs)[i] == Answer(true, 0)
    decreases |rs|
  {
    if i > 0 {
      var next := Checked(s, rs[0].key, limits(rs[0].key), rs[0].now).1;
      DisabledIsUnlimited(next, limits, rs[1..], i - 1);
      assert Answers(s, limits, rs)[1..] == Answers(next, limits, rs[1..]);
    }
  }

  // The clock does not go back.
  predicate Timely(rs: seq<Request>) {
    forall i, j :: 0 <= i < j < |rs| ==> rs[i].now <= rs[j].now
  }

  predicate StartsAfter(rs: seq<Request>, now: real) {
    rs != [] ==> now <= rs[0].now
  }

  // What every bucket of a limiter satisfies at time `now`.
  predicate BucketOk(b: Bucket, limit: Limit, now: real) {
    && limit.rpm > 0.0
    && b.last <= now
    && b.tokens <= limit.burst
    && (b.tokens >= 0.0 || b.tokens == limit.burst)
    && (limit.burst < 1.0 ==> b.tokens == limit.burst)
  }

  ghost predicate Ok(bs: Buckets, limits: Limits, now: real) {
    forall key :: key in bs ==> BucketOk(bs[key], limits(key), now)
  }

  lemma GainGrows(limit: Limit, d: real, e: real)
    requires limit.rpm > 0.0 && d <= e
    ensures limit.Gain(d) <= limit.Gain(e)
  {
    Scale(limit.Rate(), e - d);
  }

  lemma Scale(rate: real, d: real)
    requires rate >= 0.0 && d >= 0.0
    ensures d * rate >= 0.0
  {
  }

  lemma GainIsPositive(limit: Limit, d: real)
    requires limit.rpm > 0.0 && d >= 0.0
    ensures limit.Gain(d) >= 0.0
  {
    Scale(limit.Rate(), d);
  }

  lemma GainSplits(limit: Limit, d: real, e: real)
    ensures limit.Gain(d + e) == limit.Gain(d) + limit.Gain(e)
  {
  }

  // The time that brings `a` tokens.
  function TimeFor(limit: Limit, a: real): real
    requires limit.rpm > 0.0
  {
    a / limit.Rate()
  }

  lemma TimeBrings(limit: Limit, a: real)
    requires limit.rpm > 0.0
    ensures limit.Gain(TimeFor(limit, a)) == a
  {
    var rate := limit.Rate();
    assert a / rate * rate == a;
  }

  lemma TimeIsExact(limit: Limit, d: real, e: real)
    requires limit.rpm > 0.0 && d < e
    ensures limit.Gain(d) < limit.Gain(e)
  {
    ScaleStrictly(limit.Rate(), e - d);
    GainSplits(limit, d, e - d);
  }

  lemma ScaleStrictly(rate: real, d: real)
    requires rate > 0.0 && d > 0.0
    ensures d * rate > 0.0
  {
  }

  lemma TimeIsPositive(limit: Limit, a: real)
    requires limit.rpm > 0.0
    ensures a >= 0.0 ==> TimeFor(limit, a) >= 0.0
    ensures a > 0.0 ==> TimeFor(limit, a) > 0.0
  {
    var t := TimeFor(limit, a);
    TimeBrings(limit, a);
    if t < 0.0 {
      TimeIsExact(limit, t, 0.0);
    }
  }

  lemma RefillKeepsOk(b: Bucket, limit: Limit, now: real)
    requires BucketOk(b, limit, b.last) && b.last <= now
    ensures BucketOk(Bucket(Refilled(b, limit, now), now), limit, now)
    ensures Refilled(b, limit, now) >= b.tokens
  {
    GainIsPositive(limit, now - b.last);
  }

  lemma ServedKeepsOk(bs: Buckets, limits: Limits, key: string, now: real)
    requires Ok(bs, limits, now)
    ensures Ok(Served(bs, key, limits(key), now).1, limits, now)
  {
    if limits(key).rpm > 0.0 {
      var b := Lookup(bs, key, limits(key), now);
      RefillKeepsOk(b, limits(key), now);
    }
  }

  // --- Limiters that requests for one key cannot tell apart ------------------

  predicate SameAt(bs: Buckets, cs: Buckets, limits: Limits, key: string, now: real) {
    Level(bs, key, limits(key), now) == Level(cs, key, limits(key), now)
  }

  // Capped refill composes over split intervals.
  lemma RefillComposes(b: Bucket, limit: Limit, mid: real, now: real)
    requires limit.rpm > 0.0 && b.last <= mid <= now
    ensures Refilled(b, limit, now) == Refilled(Bucket(Refilled(b, limit, mid), mid), limit, now)
  {
    GainSplits(limit, mid - b.last, now - mid);
    GainIsPositive(limit, now - mid);
  }

  lemma LevelAdvances(bs: Buckets, limits: Limits, key: string, mid: real, now: real)
    requires Ok(bs, limits, mid) && mid <= now
    ensures limits(key).rpm > 0.0 ==>
              Level(bs, key, limits(key), now)
              == Refilled(Bucket(Level(bs, key, limits(key), mid), mid), limits(key), now)
    ensures key !in bs ==> Level(bs, key, limits(key), now) == limits(key).burst
  {
    if limits(key).rpm > 0.0 {
      if key in bs {
        RefillComposes(bs[key], limits(key), mid, now);
      } else {
        GainIsPositive(limits(key), now - mid);
      }
    }
  }

  lemma StaysSame(bs: Buckets, cs: Buckets, limits: Limits, key: string, mid: real, now: real)
    requires Ok(bs, limits, mid) && Ok(cs, limits, mid) && mid <= now && SameAt(bs, cs, limits, key, mid)
    ensures Ok(bs, limits, now) && Ok(cs, limits, now) && SameAt(bs, cs, limits, key, now)
  {
    LevelAdvances(bs, limits, key, mid, now);
    LevelAdvances(cs, limits, key, mid, now);
  }

  // A request for another key changes nothing here; one for this key is
  // answered alike and leaves both alike.
  lemma SameServed(bs: Buckets, cs: Buckets, limits: Limits, key: string, r: Request)
    requires SameAt(bs, cs, limits, key, r.now)
    ensures r.key == key ==> Served(bs, key, limits(key), r.now).0 == Served(cs, key, limits(key), r.now).0
    ensures SameAt(Served(bs, r.key, limits(r.key), r.now).1, Served(cs, r.key, limits(r.key), r.now).1,
                   limits, key, r.now)
  {
    if r.key != key {
      OtherKeyUntouched(bs, limits, key, r);
      OtherKeyUntouched(cs, limits, key, r);
    }
  }

  lemma OtherKeyUntouched(bs: Buckets, limits: Limits, key: string, r: Request)
    requires r.key != key
    ensures SameAt(Served(bs, r.key, limits(r.key), r.now).1, bs, limits, key, r.now)
  {
    var cs := Served(bs, r.key, limits(r.key), r.now).1;
    assert (key in cs <==> key in bs) && (key in bs ==> cs[key] == bs[key]);
  }

  // Equal answers to all requests for the key.
  predicate AgreeOn(a: seq<Answer>, b: seq<Answer>, rs: seq<Request>, key: string)
    requires |a| == |rs| && |b| == |rs|
  {
    forall i :: 0 <= i < |rs| && rs[i].key == key ==> a[i] == b[i]
  }

  lemma {:induction false} AgreeFurther(a: seq<Answer>, b: seq<Answer>, rs: seq<Request>, key: string)
    requires |a| == |rs| && |b| == |rs| && rs != []
    requires rs[0].key == key ==> a[0] == b[0]
    requires AgreeOn(a[1..], b[1..], rs[1..], key)
    ensures AgreeOn(a, b, rs, key)
  {
    forall i | 0 <= i < |rs| && rs[i].key == key
      ensures a[i] == b[i]
    {
      if i > 0 {
        assert rs[1..][i - 1].key == key;
        assert a[1..][i - 1] == b[1..][i - 1];
      }
    }
  }

  lemma {:induction false} SameAnswers(bs: Buckets, cs: Buckets, limits: Limits, rs: seq<Request>, now: real,
      key: string)
    requires Ok(bs, limits, now) && Ok(cs, limits, now) && SameAt(bs, cs, limits, key, now)
    requires Timely(rs) && StartsAfter(rs, now)
    ensures AgreeOn(PlainAnswers(bs, limits, rs), PlainAnswers(cs, limits, rs), rs, key)
    decreases |rs|
  {
    if rs != [] {
      var r := rs[0];
      var bs2, cs2 := Served(bs, r.key, limits(r.key), r.now).1, Served(cs, r.key, limits(r.key), r.now).1;
      StaysSame(bs, cs, limits, key, now, r.now);
      SameServed(bs, cs, limits, key, r);
      ServedKeepsOk(bs, limits, r.key, r.now);
      ServedKeepsOk(cs, limits, r.key, r.now);
      SameAnswers(bs2, cs2, limits, rs[1..], r.now, key);
      assert PlainAnswers(bs, limits, rs)[1..] == PlainAnswers(bs2, limits, rs[1..]);
      assert PlainAnswers(cs, limits, rs)[1..] == PlainAnswers(cs2, limits, rs[1..]);
      AgreeFurther(PlainAnswers(bs, limits, rs), PlainAnswers(cs, limits, rs), rs, key);
    }
  }

  // --- Pruning is invisible, and exactly when -------------------------------

  // Five minutes of refill cover the burst, or there never is a token to take.
  predicate Harmless(limit: Limit) {
    limit.rpm <= 0.0 || limit.burst < 1.0 || 5.0 * limit.rpm >= limit.burst
  }

  lemma IdleMeansFull(b: Bucket, limit: Limit, now: real)
    requires BucketOk(b, limit, now) && Harmless(limit) && now - b.last > PRUNE_EVERY
    ensures Refilled(b, limit, now) == limit.burst
  {
    GainGrows(limit, PRUNE_EVERY, now - b.last);
  }

  lemma PruneIsSame(s: State, limits: Limits, key: string, now: real)
    requires Ok(s.buckets, limits, now) && Harmless(limits(key))
    ensures Ok(Pruned(s, now).buckets, limits, now) && SameAt(Pruned(s, now).buckets, s.buckets, limits, key, now)
  {
    if key in s.buckets && key !in Pruned(s, now).buckets {
      IdleMeansFull(s.buckets[key], limits(key), now);
    }
  }

  // What a request finds before it is served.
  function Ready(s: State, limits: Limits, r: Request): Buckets {
    if limits(r.key).rpm <= 0.0 then s.buckets else Pruned(s, r.now).buckets
  }

  lemma CheckedIsServed(s: State, limits: Limits, r: Request)
    ensures Checked(s, r.key, limits(r.key), r.now).0 == Served(Ready(s, limits, r), r.key, limits(r.key), r.now).0
    ensures Checked(s, r.key, limits(r.key), r.now).1.buckets
            == Served(Ready(s, limits, r), r.key, limits(r.key), r.now).1
  {
  }

  lemma {:induction false} PruningLimiterAgrees(s: State, cs: Buckets, limits: Limits, rs: seq<Request>, now: real,
      key: string)
    requires Harmless(limits(key))
    requires Ok(s.buckets, limits, now) && Ok(cs, limits, now) && SameAt(s.buckets, cs, limits, key, now)
    requires Timely(rs) && StartsAfter(rs, now)
    ensures AgreeOn(Answers(s, limits, rs), PlainAnswers(cs, limits, rs), rs, key)
    decreases |rs|
  {
    if rs != [] {
      var r := rs[0];
      var s2, cs2 := Checked(s, r.key, limits(r.key), r.now).1, Served(cs, r.key, limits(r.key), r.now).1;
      StaysSame(s.buckets, cs, limits, key, now, r.now);
      PruneIsSame(s, limits, key, r.now);
      CheckedIsServed(s, limits, r);
      SameServed(Ready(s, limits, r), cs, limits, key, r);
      ServedKeepsOk(Ready(s, limits, r), limits, r.key, r.now);
      ServedKeepsOk(cs, limits, r.key, r.now);
      PruningLimiterAgrees(s2, cs2, limits, rs[1..], r.now, key);
      assert Answers(s, limits, rs)[1..] == Answers(s2, limits, rs[1..]);
      assert PlainAnswers(cs, limits, rs)[1..] == PlainAnswers(cs2, limits, rs[1..]);
      AgreeFurther(Answers(s, limits, rs), PlainAnswers(cs, limits, rs), rs, key);
    }
  }

  const START := State(map[], 0.0)

  // Where five minutes of refill cover the burst of a key, requests for it are
  // answered as by a limiter that never prunes, whatever the requests for it
  // and for other keys, and whatever the limits of those.
  lemma {:induction false} PruningIsInvisible(limits: Limits, rs: seq<Request>, key: string)
    requires Timely(rs) && Harmless(limits(key))
    ensures AgreeOn(Answers(START, limits, rs), PlainAnswers(map[], limits, rs), rs, key)
  {
    if rs != [] {
      PruningLimiterAgrees(START, map[], limits, rs, rs[0].now, key);
    }
  }

  // --- A limit that is not harmless gives itself away ------------------------

  // A timely run from here on tells the two limiters apart.
  ghost predicate Tells(s: State, cs: Buckets, limits: Limits, rs: seq<Request>, now: real, key: string) {
    Timely(rs) && StartsAfter(rs, now) && !AgreeOn(Answers(s, limits, rs), PlainAnswers(cs, limits, rs), rs, key)
  }

  lemma {:induction false} AsTimely(r: Request, rest: seq<Request>)
    requires Timely(rest) && StartsAfter(rest, r.now)
    ensures Timely([r] + rest) && ([r] + rest)[1..] == rest
  {
    var rs := [r] + rest;
    forall i, j | 0 <= i < j < |rs|
      ensures rs[i].now <= rs[j].now
    {
      if i == 0 && j > 1 {
        assert rest[0].now <= rest[j - 1].now;
      }
    }
  }

  lemma {:induction false} AgreedLater(answers: seq<Answer>, plain: seq<Answer>, rs: seq<Request>, key: string)
    requires rs != [] && |answers| == |rs| && |plain| == |rs| && AgreeOn(answers, plain, rs, key)
    ensures AgreeOn(answers[1..], plain[1..], rs[1..], key)
  {
    forall i | 0 <= i < |rs| - 1 && rs[1..][i].key == key
      ensures answers[1..][i] == plain[1..][i]
    {
      assert rs[i + 1].key == key;
    }
  }

  lemma {:induction false} TellsLater(s: State, cs: Buckets, limits: Limits, r: Request, rest: seq<Request>, now: real)
    requires now <= r.now
    requires Tells(Checked(s, r.key, limits(r.key), r.now).1, Served(cs, r.key, limits(r.key), r.now).1, limits, rest,
                   r.now, r.key)
    ensures Tells(s, cs, limits, [r] + rest, now, r.key)
  {
    var rs := [r] + rest;
    AsTimely(r, rest);
    var s2, cs2 := Checked(s, r.key, limits(r.key), r.now).1, Served(cs, r.key, limits(r.key), r.now).1;
    assert Answers(s, limits, rs)[1..] == Answers(s2, limits, rest);
    assert PlainAnswers(cs, limits, rs)[1..] == PlainAnswers(cs2, limits, rest);
    if AgreeOn(Answers(s, limits, rs), PlainAnswers(cs, limits, rs), rs, r.key) {
      AgreedLater(Answers(s, limits, rs), PlainAnswers(cs, limits, rs), rs, r.key);
    }
  }

  lemma TellsNow(s: State, cs: Buckets, limits: Limits, r: Request, now: real)
    requires now <= r.now
    requires Checked(s, r.key, limits(r.key), r.now).0 != Served(cs, r.key, limits(r.key), r.now).0
    ensures Tells(s, cs, limits, [r], now, r.key)
  {
    assert [r][0].key == r.key && Answers(s, limits, [r])[0] != PlainAnswers(cs, limits, [r])[0];
  }

  // One bucket for `key` each, filled up at `now`.
  predicate Aligned(s: State, cs: Buckets, key: string, limit: Limit, now: real) {
    && limit.rpm > 0.0 && limit.burst >= 1.0
    && s.lastPrune <= now
    && key in s.buckets && s.buckets[key].last == now && 0.0 <= s.buckets[key].tokens <= limit.burst
    && key in cs && cs[key].last == now && 0.0 <= cs[key].tokens <= limit.burst
  }

  // Both take a token at once.
  lemma BothTake(s: State, cs: Buckets, key: string, limit: Limit, now: real)
    requires Aligned(s, cs, key, limit, now) && s.buckets[key].tokens >= 1.0 && cs[key].tokens >= 1.0
    ensures var s2, cs2 := Checked(s, key, limit, now).1, Served(cs, key, limit, now).1;
      && Aligned(s2, cs2, key, limit, now)
      && s2.buckets[key].tokens == s.buckets[key].tokens - 1.0 && cs2[key].tokens == cs[key].tokens - 1.0
  {
  }

  // Below one token, the next one comes to the fuller bucket first.
  lemma FullerIsFirst(s: State, cs: Buckets, key: string, limit: Limit, now: real) returns (t: real)
    requires Aligned(s, cs, key, limit, now) && cs[key].tokens < s.buckets[key].tokens < 1.0
    ensures now <= t && Checked(s, key, limit, t).0 != Served(cs, key, limit, t).0
  {
    var hi := s.buckets[key].tokens;
    t := now + TimeFor(limit, 1.0 - hi);
    TimeBrings(limit, 1.0 - hi);
    TimeIsPositive(limit, 1.0 - hi);
    assert Level(cs, key, limit, t) < 1.0;
    assert Level(Pruned(s, t).buckets, key, limit, t) >= 1.0;
  }

  // More tokens in one bucket than in the other show sooner or later.
  lemma {:induction false} MoreTokensTell(s: State, cs: Buckets, limits: Limits, key: string, now: real)
    returns (rs: seq<Request>)
    requires Aligned(s, cs, key, limits(key), now) && cs[key].tokens < s.buckets[key].tokens
    ensures Tells(s, cs, limits, rs, now, key)
    decreases cs[key].tokens.Floor
  {
    if cs[key].tokens >= 1.0 {
      BothTake(s, cs, key, limits(key), now);
      var rest := MoreTokensTell(Checked(s, key, limits(key), now).1, Served(cs, key, limits(key), now).1,
                                 limits, key, now);
      TellsLater(s, cs, limits, Request(key, now), rest, now);
      rs := [Request(key, now)] + rest;
    } else {
      var t := now;
      if s.buckets[key].tokens < 1.0 {
        t := FullerIsFirst(s, cs, key, limits(key), now);
      }
      TellsNow(s, cs, limits, Request(key, t), now);
      rs := [Request(key, t)];
    }
  }

  // Five minutes do not fill the bucket, however little longer one waits.
  predicate Slow(b: Bucket, limit: Limit) {
    b.tokens + limit.Gain(PRUNE_EVERY) < limit.burst
  }

  // Just over five minutes: the plain bucket is still not full, the pruned
  // one starts afresh.
  lemma IdlingSeparates(s: State, cs: Buckets, key: string, limit: Limit, now: real) returns (t: real)
    requires Aligned(s, cs, key, limit, now) && cs[key] == s.buckets[key] && Slow(cs[key], limit)
    ensures now <= t && var s2, cs2 := Checked(s, key, limit, t).1, Served(cs, key, limit, t).1;
      || Checked(s, key, limit, t).0 != Served(cs, key, limit, t).0
      || (Aligned(s2, cs2, key, limit, t) && cs2[key].tokens < s2.buckets[key].tokens)
  {
    var spare := (limit.burst - cs[key].tokens - limit.Gain(PRUNE_EVERY)) / 2.0;
    var more := TimeFor(limit, spare);
    TimeBrings(limit, spare);
    GainSplits(limit, PRUNE_EVERY, more);
    GainIsPositive(limit, PRUNE_EVERY);
    TimeIsPositive(limit, spare);
    t := now + (PRUNE_EVERY + more);
    assert key !in Pruned(s, t).buckets;
    assert Level(Pruned(s, t).buckets, key, limit, t) == limit.burst;
    assert Level(cs, key, limit, t) == cs[key].tokens + limit.Gain(PRUNE_EVERY) + spare;
  }

  lemma IdlingTells(s: State, cs: Buckets, limits: Limits, key: string, now: real) returns (rs: seq<Request>)
    requires Aligned(s, cs, key, limits(key), now) && cs[key] == s.buckets[key] && Slow(cs[key], limits(key))
    ensures Tells(s, cs, limits, rs, now, key)
  {
    var t := IdlingSeparates(s, cs, key, limits(key), now);
    if Checked(s, key, limits(key), t).0 != Served(cs, key, limits(key), t).0 {
      TellsNow(s, cs, limits, Request(key, t), now);
      rs := [Request(key, t)];
    } else {
      var rest := MoreTokensTell(Checked(s, key, limits(key), t).1, Served(cs, key, limits(key), t).1, limits, key, t);
      TellsLater(s, cs, limits, Request(key, t), rest, now);
      rs := [Request(key, t)] + rest;
    }
  }

  // A bucket with less than a token is emptied when the token is there.
  lemma WaitAndTake(s: State, cs: Buckets, key: string, limit: Limit, now: real) returns (t: real)
    requires Aligned(s, cs, key, limit, now) && cs[key] == s.buckets[key] && cs[key].tokens < 1.0
    requires limit.Gain(PRUNE_EVERY) >= 1.0 - cs[key].tokens
    ensures now <= t && var s2, cs2 := Checked(s, key, limit, t).1, Served(cs, key, limit, t).1;
      Aligned(s2, cs2, key, limit, t) && cs2[key] == s2.buckets[key] && cs2[key].tokens == 0.0
  {
    var wait := TimeFor(limit, 1.0 - cs[key].tokens);
    TimeBrings(limit, 1.0 - cs[key].tokens);
    TimeIsPositive(limit, 1.0 - cs[key].tokens);
    if wait > PRUNE_EVERY {
      GainGrows(limit, PRUNE_EVERY, wait);
      TimeIsExact(limit, PRUNE_EVERY, wait);
    }
    t := now + wait;
    assert key in Pruned(s, t).buckets;
    assert Level(cs, key, limit, t) == 1.0;
  }

  // A slow bucket can be reached by taking tokens.
  lemma {:induction false} DrainingTells(s: State, cs: Buckets, limits: Limits, key: string, now: real)
    returns (rs: seq<Request>)
    requires Aligned(s, cs, key, limits(key), now) && cs[key] == s.buckets[key] && !Harmless(limits(key))
    ensures Tells(s, cs, limits, rs, now, key)
    decreases cs[key].tokens.Floor
  {
    if Slow(cs[key], limits(key)) {
      rs := IdlingTells(s, cs, limits, key, now);
    } else if cs[key].tokens >= 1.0 {
      BothTake(s, cs, key, limits(key), now);
      var rest := DrainingTells(Checked(s, key, limits(key), now).1, Served(cs, key, limits(key), now).1,
                                limits, key, now);
      TellsLater(s, cs, limits, Request(key, now), rest, now);
      rs := [Request(key, now)] + rest;
    } else {
      var t := WaitAndTake(s, cs, key, limits(key), now);
      var rest := IdlingTells(Checked(s, key, limits(key), t).1, Served(cs, key, limits(key), t).1, limits, key, t);
      TellsLater(s, cs, limits, Request(key, t), rest, now);
      rs := [Request(key, t)] + rest;
    }
  }

  lemma HarmfulTells(limits: Limits, key: string) returns (rs: seq<Request>)
    requires !Harmless(limits(key))
    ensures Timely(rs) && !AgreeOn(Answers(START, limits, rs), PlainAnswers(map[], limits, rs), rs, key)
  {
    var r := Request(key, 0.0);
    var s, cs := Checked(START, key, limits(key), 0.0).1, Served(map[], key, limits(key), 0.0).1;
    var rest := DrainingTells(s, cs, limits, key, 0.0);
    TellsLater(START, map[], limits, r, rest, 0.0);
    rs := [r] + rest;
  }

  // Pruning never shows in the answers for a key exactly when the limit of
  // that key is harmless.
  lemma PruningIsInvisibleExactly(limits: Limits, key: string)
    ensures (forall rs :: Timely(rs) ==> AgreeOn(Answers(START, limits, rs), PlainAnswers(map[], limits, rs), rs, key))
            <==> Harmless(limits(key))
  {
    if Harmless(limits(key)) {
      forall rs | Timely(rs)
        ensures AgreeOn(Answers(START, limits, rs), PlainAnswers(map[], limits, rs), rs, key)
      {
        PruningIsInvisible(limits, rs, key);
      }
    } else {
      var rs := HarmfulTells(limits, key);
    }
  }

  // --- Denied requests cost nothing ------------------------------------------

  lemma DeniedIsSame(bs: Buckets, limits: Limits, key: string, now: real)
    requires Ok(bs, limits, now) && !Served(bs, key, limits(key), now).0.allowed
    ensures SameAt(Served(bs, key, limits(key), now).1, bs, limits, key, now)
  {
  }

  // --- The budget of a window -----------------------------------------------

  function AllowedIn(answers: seq<Answer>, rs: seq<Request>, key: string, from: real, to: real): nat
    requires |answers| == |rs|
    decreases |rs|
  {
    if rs == [] then 0
    else
      (if answers[0].allowed && rs[0].key == key && from <= rs[0].now <= to then 1 else 0)
      + AllowedIn(answers[1..], rs[1..], key, from, to)
  }

  // What requests up to `to` can still take, as seen from the bucket.
  function Budget(bs: Buckets, key: string, limit: Limit, from: real, to: real): real {
    if key !in bs || bs[key].last < from then limit.burst + limit.Gain(to - from)
    else if bs[key].last <= to then bs[key].tokens + limit.Gain(to - bs[key].last)
    else 0.0
  }

  lemma BudgetIsPositive(bs: Buckets, limits: Limits, key: string, from: real, to: real, now: real)
    requires limits(key).rpm > 0.0 && limits(key).burst >= 0.0 && from <= to && Ok(bs, limits, now)
    ensures Budget(bs, key, limits(key), from, to) >= 0.0
  {
    GainIsPositive(limits(key), to - from);
    if key in bs && bs[key].last <= to {
      assert BucketOk(bs[key], limits(key), now);
      GainIsPositive(limits(key), to - bs[key].last);
    }
  }

  lemma TokenFromBudget(bs: Buckets, limits: Limits, r: Request, key: string, from: real, to: real)
    requires limits(key).rpm > 0.0 && limits(key).burst >= 0.0 && from <= to && Ok(bs, limits, r.now)
    ensures var (answer, cs) := Served(bs, r.key, limits(r.key), r.now);
      (if answer.allowed && r.key == key && from <= r.now <= to then 1.0 else 0.0)
      + Budget(cs, key, limits(key), from, to)
      <= Budget(bs, key, limits(key), from, to)
  {
    BudgetIsPositive(bs, limits, key, from, to, r.now);
    if r.key == key && from <= r.now <= to {
      if key in bs && from <= bs[key].last {
        GainSplits(limits(key), to - r.now, r.now - bs[key].last);
      } else {
        GainGrows(limits(key), to - r.now, to - from);
      }
    }
  }

  lemma {:induction false} TakenFromBudget(bs: Buckets, limits: Limits, rs: seq<Request>, key: string, from: real,
      to: real, now: real)
    requires limits(key).rpm > 0.0 && limits(key).burst >= 0.0 && from <= to
    requires Ok(bs, limits, now) && Timely(rs) && StartsAfter(rs, now)
    ensures AllowedIn(PlainAnswers(bs, limits, rs), rs, key, from, to) as real <= Budget(bs, key, limits(key), from, to)
    decreases |rs|
  {
    if rs == [] {
      BudgetIsPositive(bs, limits, key, from, to, now);
    } else {
      var r := rs[0];
      assert Ok(bs, limits, r.now);
      TokenFromBudget(bs, limits, r, key, from, to);
      ServedKeepsOk(bs, limits, r.key, r.now);
      TakenFromBudget(Served(bs, r.key, limits(r.key), r.now).1, limits, rs[1..], key, from, to, r.now);
      assert PlainAnswers(bs, limits, rs)[1..]
             == PlainAnswers(Served(bs, r.key, limits(r.key), r.now).1, limits, rs[1..]);
    }
  }

  lemma {:induction false} AllowedAgree(a: seq<Answer>, b: seq<Answer>, rs: seq<Request>, key: string, from: real,
      to: real)
    requires |a| == |rs| && |b| == |rs| && AgreeOn(a, b, rs, key)
    ensures AllowedIn(a, rs, key, from, to) == AllowedIn(b, rs, key, from, to)
    decreases |rs|
  {
    if rs != [] {
      forall i | 0 <= i < |rs[1..]| && rs[1..][i].key == key
        ensures a[1..][i] == b[1..][i]
      {
        assert rs[i + 1].key == key;
      }
      AllowedAgree(a[1..], b[1..], rs[1..], key, from, to);
    }
  }

  // In any window the limiter lets through at most the burst and what the
  // window refills, over every run, and whatever the limits of other keys.
  lemma {:induction false} WindowIsBounded(limits: Limits, rs: seq<Request>, key: string, from: real, to: real)
    requires Timely(rs) && from <= to && Harmless(limits(key))
    requires limits(key).rpm > 0.0 && limits(key).burst >= 0.0
    ensures AllowedIn(Answers(START, limits, rs), rs, key, from, to) as real
            <= limits(key).burst + limits(key).Gain(to - from)
  {
    PruningIsInvisible(limits, rs, key);
    AllowedAgree(Answers(START, limits, rs), PlainAnswers(map[], limits, rs), rs, key, from, to);
    if rs != [] {
      TakenFromBudget(map[], limits, rs, key, from, to, rs[0].now);
    } else {
      GainIsPositive(limits(key), to - from);
    }
  }

  // --- retry_after -----------------------------------------------------------

  // Seen from a level below one, a token is there from `RetryAfter` seconds
  // on, and not more than a second earlier.
  lemma TokenReturns(level: real, limit: Limit, start: real, now: real)
    requires limit.rpm > 0.0 && level < 1.0 <= limit.burst && start <= now
    ensures now >= start + RetryAfter(level, limit.Rate()) as real ==> Refilled(Bucket(level, start), limit, now) >= 1.0
    ensures now < start + RetryAfter(level, limit.Rate()) as real - 1.0
            ==> Refilled(Bucket(level, start), limit, now) < 1.0
  {
    var q := TimeFor(limit, 1.0 - level);
    TimeBrings(limit, 1.0 - level);
    if now >= start + RetryAfter(level, limit.Rate()) as real {
      GainGrows(limit, q, now - start);
    } else if now < start + RetryAfter(level, limit.Rate()) as real - 1.0 {
      TimeIsExact(limit, now - start, q);
    }
  }

  // The level keeps following the refill while every request for the key is
  // denied.
  lemma {:induction false} DeniedUntil(bs: Buckets, limits: Limits, rs: seq<Request>, key: string, level: real,
      start: real, now: real, j: nat)
    requires limits(key).rpm > 0.0 && limits(key).burst >= 1.0 && level < 1.0
    requires Ok(bs, limits, now) && Timely(rs) && StartsAfter(rs, now) && start <= now
    requires Level(bs, key, limits(key), now) == Refilled(Bucket(level, start), limits(key), now)
    requires j < |rs| && rs[j].key == key
    requires forall i :: 0 <= i < j && rs[i].key == key ==> !PlainAnswers(bs, limits, rs)[i].allowed
    ensures PlainAnswers(bs, limits, rs)[j].allowed <==> Refilled(Bucket(level, start), limits(key), rs[j].now) >= 1.0
    decreases |rs|
  {
    var r, limit := rs[0], limits(key);
    RefillComposes(Bucket(level, start), limit, now, r.now);
    LevelAdvances(bs, limits, key, now, r.now);
    assert Ok(bs, limits, r.now);
    if j > 0 {
      var cs := Served(bs, r.key, limits(r.key), r.now).1;
      ServedKeepsOk(bs, limits, r.key, r.now);
      if r.key == key {
        assert !PlainAnswers(bs, limits, rs)[0].allowed;
        DeniedIsSame(bs, limits, key, r.now);
      } else {
        OtherKeyUntouched(bs, limits, key, r);
      }
      assert PlainAnswers(bs, limits, rs)[1..] == PlainAnswers(cs, limits, rs[1..]);
      DeniedUntil(cs, limits, rs[1..], key, level, start, r.now, j - 1);
    }
  }

  // Request `j`, the next one for its key that may be allowed after the denial
  // number `i`: allowed once `retryAfter` seconds have passed, denied while
  // more than one of them is left.
  predicate Honoured(answers: seq<Answer>, rs: seq<Request>, i: nat, j: nat)
    requires |answers| == |rs| && i < |rs| && j < |rs|
  {
    && (rs[j].now >= rs[i].now + answers[i].retryAfter as real ==> answers[j].allowed)
    && (rs[j].now < rs[i].now + answers[i].retryAfter as real - 1.0 ==> !answers[j].allowed)
  }

  predicate DeniedBetween(answers: seq<Answer>, rs: seq<Request>, i: nat, j: nat)
    requires |answers| == |rs| && i < j < |rs|
  {
    forall m :: i <= m < j && rs[m].key == rs[i].key ==> !answers[m].allowed
  }

  lemma {:induction false} TailAnswers(bs: Buckets, limits: Limits, rs: seq<Request>)
    requires rs != []
    ensures var rest := PlainAnswers(Served(bs, rs[0].key, limits(rs[0].key), rs[0].now).1, limits, rs[1..]);
      forall m :: 0 <= m < |rest| ==> rest[m] == PlainAnswers(bs, limits, rs)[m + 1] && rs[1..][m] == rs[m + 1]
  {
  }

  lemma {:induction false} DeniedAtFirst(bs: Buckets, limits: Limits, rs: seq<Request>, j: nat)
    requires 0 < j < |rs| && Ok(bs, limits, rs[0].now) && Timely(rs) && rs[0].key == rs[j].key
    requires limits(rs[0].key).rpm > 0.0 && limits(rs[0].key).burst >= 1.0
    requires DeniedBetween(PlainAnswers(bs, limits, rs), rs, 0, j)
    ensures Honoured(PlainAnswers(bs, limits, rs), rs, 0, j)
  {
    var r, limit := rs[0], limits(rs[0].key);
    var cs, level := Served(bs, r.key, limit, r.now).1, Level(bs, r.key, limit, r.now);
    assert !PlainAnswers(bs, limits, rs)[0].allowed;
    FirstDenied(bs, limits, r);
    DeniedThen(bs, limits, rs, level, j);
    HonouredBy(PlainAnswers(bs, limits, rs), rs, j, level, limit);
  }

  lemma {:induction false} DeniedThen(bs: Buckets, limits: Limits, rs: seq<Request>, level: real, j: nat)
    requires 0 < j < |rs| && Ok(bs, limits, rs[0].now) && Timely(rs) && rs[0].key == rs[j].key
    requires limits(rs[0].key).rpm > 0.0 && limits(rs[0].key).burst >= 1.0 && level < 1.0
    requires var r, limit := rs[0], limits(rs[0].key);
      Level(Served(bs, r.key, limit, r.now).1, r.key, limit, r.now) == Refilled(Bucket(level, r.now), limit, r.now)
    requires DeniedBetween(PlainAnswers(bs, limits, rs), rs, 0, j)
    ensures PlainAnswers(bs, limits, rs)[j].allowed
            <==> Refilled(Bucket(level, rs[0].now), limits(rs[0].key), rs[j].now) >= 1.0
  {
    var r, cs := rs[0], Served(bs, rs[0].key, limits(rs[0].key), rs[0].now).1;
    ServedKeepsOk(bs, limits, r.key, r.now);
    TailAnswers(bs, limits, rs);
    DeniedUntil(cs, limits, rs[1..], r.key, level, r.now, r.now, j - 1);
  }

  lemma {:induction false} HonouredBy(answers: seq<Answer>, rs: seq<Request>, j: nat, level: real, limit: Limit)
    requires |answers| == |rs| && 0 < j < |rs| && rs[0].now <= rs[j].now
    requires limit.rpm > 0.0 && level < 1.0 <= limit.burst && answers[0].retryAfter == RetryAfter(level, limit.Rate())
    requires answers[j].allowed <==> Refilled(Bucket(level, rs[0].now), limit, rs[j].now) >= 1.0
    ensures Honoured(answers, rs, 0, j)
  {
    TokenReturns(level, limit, rs[0].now, rs[j].now);
  }

  lemma {:induction false} DeniedSince(bs: Buckets, limits: Limits, rs: seq<Request>, now: real, i: nat, j: nat)
    requires Ok(bs, limits, now) && Timely(rs) && StartsAfter(rs, now)
    requires i < j < |rs| && rs[i].key == rs[j].key
    requires limits(rs[i].key).rpm > 0.0 && limits(rs[i].key).burst >= 1.0
    requires DeniedBetween(PlainAnswers(bs, limits, rs), rs, i, j)
    ensures Honoured(PlainAnswers(bs, limits, rs), rs, i, j)
    decreases |rs|
  {
    var r := rs[0];
    assert Ok(bs, limits, r.now);
    if i == 0 {
      DeniedAtFirst(bs, limits, rs, j);
    } else {
      var cs := Served(bs, r.key, limits(r.key), r.now).1;
      ServedKeepsOk(bs, limits, r.key, r.now);
      ShiftHonoured(PlainAnswers(bs, limits, rs), rs, i, j);
      assert PlainAnswers(bs, limits, rs)[1..] == PlainAnswers(cs, limits, rs[1..]);
      DeniedSince(cs, limits, rs[1..], r.now, i - 1, j - 1);
    }
  }

  lemma {:induction false} ShiftHonoured(answers: seq<Answer>, rs: seq<Request>, i: nat, j: nat)
    requires |answers| == |rs| && 0 < i < j < |rs|
    ensures Honoured(answers, rs, i, j) <==> Honoured(answers[1..], rs[1..], i - 1, j - 1)
    ensures DeniedBetween(answers, rs, i, j) ==> DeniedBetween(answers[1..], rs[1..], i - 1, j - 1)
  {
  }

  lemma FirstDenied(bs: Buckets, limits: Limits, r: Request)
    requires Ok(bs, limits, r.now) && limits(r.key).rpm > 0.0
    requires !Served(bs, r.key, limits(r.key), r.now).0.allowed
    ensures var level, cs := Level(bs, r.key, limits(r.key), r.now), Served(bs, r.key, limits(r.key), r.now).1;
      && level < 1.0
      && Level(cs, r.key, limits(r.key), r.now) == Refilled(Bucket(level, r.now), limits(r.key), r.now)
      && Served(bs, r.key, limits(r.key), r.now).0.retryAfter == RetryAfter(level, limits(r.key).Rate())
  {
    DeniedIsSame(bs, limits, r.key, r.now);
    AtOnce(Level(bs, r.key, limits(r.key), r.now), limits(r.key), r.now);
  }

  lemma AtOnce(level: real, limit: Limit, now: real)
    requires level <= limit.burst
    ensures Refilled(Bucket(level, now), limit, now) == level
  {
  }

  // After a denial answered with `retryAfter`, the next request for the key is
  // allowed once that many seconds have passed and is denied while more than
  // one of them is left, whatever denied requests fall in between.
  lemma {:induction false} RetryAfterIsSound(limits: Limits, rs: seq<Request>, i: nat, j: nat)
    requires Timely(rs) && i < j < |rs| && rs[i].key == rs[j].key && Harmless(limits(rs[i].key))
    requires limits(rs[i].key).rpm > 0.0 && limits(rs[i].key).burst >= 1.0
    requires DeniedBetween(Answers(START, limits, rs), rs, i, j)
    ensures Honoured(Answers(START, limits, rs), rs, i, j)
  {
    PruningIsInvisible(limits, rs, rs[i].key);
    DeniedSince(map[], limits, rs, rs[0].now, i, j);
  }

  // So every request made too early is denied, without further conditions.
  lemma {:induction false} RetryAfterIsTight(limits: Limits, rs: seq<Request>, i: nat, j: nat)
    requires Timely(rs) && i < j < |rs| && rs[i].key == rs[j].key && Harmless(limits(rs[i].key))
    requires limits(rs[i].key).rpm > 0.0 && limits(rs[i].key).burst >= 1.0
    requires !Answers(START, limits, rs)[i].allowed
    requires rs[j].now < rs[i].now + Answers(START, limits, rs)[i].retryAfter as real - 1.0
    ensures !Answers(START, limits, rs)[j].allowed
    decreases j
  {
    forall m | i < m < j && rs[m].key == rs[i].key
      ensures !Answers(START, limits, rs)[m].allowed
    {
      RetryAfterIsTight(limits, rs, i, m);
    }
    RetryAfterIsSound(limits, rs, i, j);
  }

  // --- Leaving out a denied request ------------------------------------------

  function Without<T>(s: seq<T>, i: nat): seq<T>
    requires i < |s|
  {
    s[..i] + s[i + 1..]
  }

  lemma {:induction false} WithoutLater<T>(s: seq<T>, i: nat)
    requires 0 < i < |s|
    ensures Without(s, i) == [s[0]] + Without(s[1..], i - 1)
    ensures Without(s, i)[1..] == Without(s[1..], i - 1)
  {
  }

  lemma LeftOutFirst(bs: Buckets, limits: Limits, rs: seq<Request>, now: real, key: string)
    requires Ok(bs, limits, now) && Timely(rs) && StartsAfter(rs, now) && rs != []
    requires rs[0].key == key ==> !PlainAnswers(bs, limits, rs)[0].allowed
    ensures AgreeOn(PlainAnswers(bs, limits, Without(rs, 0)),
                    Without(PlainAnswers(bs, limits, rs), 0), Without(rs, 0), key)
  {
    var r := rs[0];
    var cs := Served(bs, r.key, limits(r.key), r.now).1;
    var all, rest := PlainAnswers(bs, limits, rs), PlainAnswers(cs, limits, rs[1..]);
    assert Ok(bs, limits, r.now) && all[1..] == rest;
    ServedKeepsOk(bs, limits, r.key, r.now);
    assert Without(rs, 0) == rs[1..] && Without(all, 0) == rest;
    if r.key == key {
      DeniedIsSame(bs, limits, key, r.now);
    } else {
      OtherKeyUntouched(bs, limits, key, r);
    }
    SameAnswers(bs, cs, limits, rs[1..], r.now, key);
  }

  lemma {:induction false} LeftOut(bs: Buckets, limits: Limits, rs: seq<Request>, now: real, i: nat, key: string)
    requires Ok(bs, limits, now) && Timely(rs) && StartsAfter(rs, now) && i < |rs|
    requires rs[i].key == key ==> !PlainAnswers(bs, limits, rs)[i].allowed
    ensures AgreeOn(PlainAnswers(bs, limits, Without(rs, i)),
                    Without(PlainAnswers(bs, limits, rs), i), Without(rs, i), key)
    decreases |rs|
  {
    if i == 0 {
      LeftOutFirst(bs, limits, rs, now, key);
    } else {
      var r := rs[0];
      var cs := Served(bs, r.key, limits(r.key), r.now).1;
      assert Ok(bs, limits, r.now) && PlainAnswers(bs, limits, rs)[1..] == PlainAnswers(cs, limits, rs[1..]);
      ServedKeepsOk(bs, limits, r.key, r.now);
      LeftOut(cs, limits, rs[1..], r.now, i - 1, key);
      LeftOutLater(bs, limits, rs, i, key);
    }
  }

  lemma {:induction false} LeftOutLater(bs: Buckets, limits: Limits, rs: seq<Request>, i: nat, key: string)
    requires 0 < i < |rs|
    requires var cs := Served(bs, rs[0].key, limits(rs[0].key), rs[0].now).1;
      AgreeOn(PlainAnswers(cs, limits, Without(rs[1..], i - 1)), Without(PlainAnswers(cs, limits, rs[1..]), i - 1),
              Without(rs[1..], i - 1), key)
    ensures AgreeOn(PlainAnswers(bs, limits, Without(rs, i)),
                    Without(PlainAnswers(bs, limits, rs), i), Without(rs, i), key)
  {
    var cs := Served(bs, rs[0].key, limits(rs[0].key), rs[0].now).1;
    var fewer, all := Without(rs, i), PlainAnswers(bs, limits, rs);
    WithoutLater(rs, i);
    WithoutLater(all, i);
    assert fewer[0] == rs[0] && all[1..] == PlainAnswers(cs, limits, rs[1..]);
    assert PlainAnswers(bs, limits, fewer)[1..] == PlainAnswers(cs, limits, fewer[1..]);
    AgreeFurther(PlainAnswers(bs, limits, fewer), Without(all, i), fewer, key);
  }

  lemma {:induction false} WithoutIsTimely(rs: seq<Request>, i: nat)
    requires Timely(rs) && i < |rs|
    ensures Timely(Without(rs, i))
  {
    var fewer := Without(rs, i);
    forall m, n | 0 <= m < n < |fewer|
      ensures fewer[m].now <= fewer[n].now
    {
      assert fewer[m] == rs[if m < i then m else m + 1] && fewer[n] == rs[if n < i then n else n + 1];
    }
  }

  lemma {:induction false} WithoutAgrees(a: seq<Answer>, b: seq<Answer>, rs: seq<Request>, i: nat, key: string)
    requires |a| == |rs| && |b| == |rs| && i < |rs| && AgreeOn(a, b, rs, key)
    ensures AgreeOn(Without(a, i), Without(b, i), Without(rs, i), key)
  {
    forall m | 0 <= m < |rs| - 1 && Without(rs, i)[m].key == key
      ensures Without(a, i)[m] == Without(b, i)[m]
    {
      assert Without(rs, i)[m] == rs[if m < i then m else m + 1];
    }
  }

  // Denied requests cost nothing: without one of them, every request for a key
  // with a harmless limit would have been answered just the same.
  lemma {:induction false} DeniedCostsNothing(limits: Limits, rs: seq<Request>, i: nat, key: string)
    requires Timely(rs) && Harmless(limits(key))
    requires i < |rs| && !Answers(START, limits, rs)[i].allowed
    ensures AgreeOn(Answers(START, limits, Without(rs, i)), Without(Answers(START, limits, rs), i), Without(rs, i), key)
  {
    WithoutIsTimely(rs, i);
    PruningIsInvisible(limits, Without(rs, i), key);
    PruningIsInvisible(limits, rs, key);
    LeftOut(map[], limits, rs, rs[0].now, i, key);
    WithoutAgrees(Answers(START, limits, rs), PlainAnswers(map[], limits, rs), rs, i, key);
  }
}
