/**
 The gateway's fixed-window limiter: one Lua script per request over counters that all
 gateway instances share, keyed by client address and window number.
 */
module RateLimit {
  import opened Common
  import opened ContentRange

  // ----- configuration -----

  /** The effective parameters; the window is in milliseconds. */
  datatype Config = Config(rps: nat, burst: nat, window: nat)

  predicate Sound(c: Config) {
    c.rps >= 1 && c.burst >= 1 && c.window >= 1000
  }

  /** Defaults 20 and 40; the window is burst/rps whole seconds, at least one. */
  function Configure(rps: int, burst: int): (c: Config)
    ensures Sound(c)
    ensures c.rps == (if rps > 0 then rps else 20) && c.burst == if burst > 0 then burst else 40
  {
    var r := if rps <= 0 then 20 else rps;
    var b := if burst <= 0 then 40 else burst;
    Config(r, b, 1000 * Max(1, b / r))
  }

  /**
   What a window lets through stays below twice the sustained rate, however rps and burst are
   set; and it is no less than that rate, but for windows of the least length, one second.
   */
  lemma BurstBelowTwiceTheRate(rps: int, burst: int)
    ensures var c := Configure(rps, burst);
            && 1000 * c.burst < 2 * (c.rps * c.window)
            && c.window % 1000 == 0 && (c.window == 1000 || c.rps * c.window <= 1000 * c.burst)
            && 1000 * c.burst < c.rps * (c.window + 1000)
    ensures Configure(0, 0) == Config(20, 40, 2000)
  {
    var c := Configure(rps, burst);
    var seconds := Max(1, c.burst / c.rps);
    WholeSeconds(c.burst, c.rps, seconds);
    Thousandfold(c.rps, seconds);
    Thousandfold(c.rps, seconds + 1);
  }

  lemma WholeSeconds(burst: nat, rps: nat, seconds: nat)
    requires rps >= 1 && seconds == Max(1, burst / rps)
    ensures burst < 2 * (rps * seconds)
    ensures burst < rps * (seconds + 1) && (seconds == 1 || rps * seconds <= burst)
  {
    var q := burst / rps;
    assert burst < (q + 1) * rps;
    Scale(q + 1, 2 * seconds, rps);
    assert (2 * seconds) * rps == 2 * (rps * seconds);
    Scale(q + 1, seconds + 1, rps);
    assert rps * q <= burst;
  }

  lemma Thousandfold(a: nat, b: nat)
    ensures a * (1000 * b) == 1000 * (a * b)
  {
  }

  lemma Scale(a: int, b: int, k: nat)
    requires a <= b
    ensures a * k <= b * k
  {
  }

  // ----- keys -----

  /** "ratelimit:" + ip + ":" + bucket */
  function KeyText(ip: string, bucket: nat): string {
    ("ratelimit:" + ip) + (":" + Decimal(bucket))
  }

  /** Two requests share a counter only when they share address and window, also for addresses with colons in them. */
  lemma KeysAreDistinct(ip1: string, b1: nat, ip2: string, b2: nat)
    requires KeyText(ip1, b1) == KeyText(ip2, b2)
    ensures ip1 == ip2 && b1 == b2
  {
    var p1, p2 := "ratelimit:" + ip1, "ratelimit:" + ip2;
    var d1, d2 := ":" + Decimal(b1), ":" + Decimal(b2);
    var k := KeyText(ip1, b1);
    assert k[|p1|] == ':' && k[|p2|] == ':';
    assert forall i :: |p1| < i < |k| ==> k[i] == Decimal(b1)[i - |p1| - 1];
    assert forall i :: |p2| < i < |k| ==> k[i] == Decimal(b2)[i - |p2| - 1];
    assert |p1| == |p2|;
    assert p1 == k[..|p1|] == p2;
    assert d1 == k[|p1|..] == d2;
    assert ip1 == p1[10..] && ip2 == p2[10..];
    assert Decimal(b1) == d1[1..] && Decimal(b2) == d2[1..];
    DecimalReadsBack(b1);
    DecimalReadsBack(b2);
  }

  datatype Key = Key(ip: string, bucket: nat)

  // ----- the script -----

  /** A live counter, and the time after which Redis no longer has it. */
  datatype Counter = Counter(count: nat, expiry: int)

  /** The count the script's INCR finds: none once the key has expired. */
  function CountAt(redis: map<Key, Counter>, k: Key, now: int): nat {
    if k in redis && now <= redis[k].expiry then redis[k].count else 0
  }

  /** The counter the script leaves: INCR keeps the expiry, and the first hit sets it. */
  function Bumped(redis: map<Key, Counter>, k: Key, now: int, window: nat): Counter {
    var n := CountAt(redis, k, now);
    Counter(n + 1, if n == 0 then now + window else redis[k].expiry)
  }

  /** A limited request: where it came from, when the gateway read its clock, when the script ran. */
  datatype Hit = Hit(ip: string, arrival: nat, run: nat)

  function KeyOf(c: Config, h: Hit): Key
    requires Sound(c)
  {
    Key(h.ip, WindowOf(c, h.arrival))
  }

  function WindowOf(c: Config, time: nat): nat
    requires Sound(c)
  {
    time / c.window
  }

  class Redis {
    var counters: map<Key, Counter>

    constructor ()
      ensures counters == map[]
    {
      counters := map[];
    }

    /** rateLimitScript as one atomic EVAL. */
    method Eval(k: Key, now: nat, window: nat, limit: nat) returns (allowed: bool)
      modifies this
      ensures counters == old(counters)[k := Bumped(old(counters), k, now, window)]
      ensures allowed <==> CountAt(old(counters), k, now) < limit
    {
      if k in counters && now > counters[k].expiry {
        counters := counters - {k};
      }
      var cnt := 1;
      if k in counters {
        cnt := counters[k].count + 1;
        counters := counters[k := Counter(cnt, counters[k].expiry)];
      } else {
        counters := counters[k := Counter(cnt, 0)];
      }
      if cnt == 1 {
        counters := counters[k := Counter(1, now + window)];
      }
      if cnt > limit {
        return false;
      }
      return true;
    }
  }

  /** One gateway instance. */
  class Limiter {
    const config: Config
    const redis: Redis?

    constructor (rps: int, burst: int, redis: Redis?)
      ensures config == Configure(rps, burst) && this.redis == redis
    {
      config := Configure(rps, burst);
      this.redis := redis;
    }

    /**
     The middleware.  Health checks pass untouched; without Redis, or when the script
     fails, everything passes; otherwise the script decides.
     */
    method Admit(path: string, h: Hit, scriptFails: bool) returns (pass: bool)
      requires Sound(config)
      modifies redis
      ensures path in {"/health", "/healthz"} || redis == null || scriptFails ==>
                pass && (redis != null ==> redis.counters == old(redis.counters))
      ensures path !in {"/health", "/healthz"} && redis != null && !scriptFails ==>
                && (pass <==> CountAt(old(redis.counters), KeyOf(config, h), h.run) < config.burst)
                && redis.counters ==
                   old(redis.counters)[KeyOf(config, h) := Bumped(old(redis.counters), KeyOf(config, h), h.run, config.window)]
    {
      if path == "/health" || path == "/healthz" {
        return true;
      }
      if redis != null {
        if !scriptFails {
          var bucket := h.arrival / config.window;
          var allowed := redis.Eval(Key(h.ip, bucket), h.run, config.window, config.burst);
          if !allowed {
            return false;
          }
        }
      }
      return true;
    }
  }

  // ----- traffic -----

  /** The counters after a sequence of script runs, from any instances, on an empty Redis. */
  function After(c: Config, hits: seq<Hit>): map<Key, Counter>
    requires Sound(c)
  {
    if hits == [] then map[]
    else
      var last := hits[|hits| - 1];
      var before := After(c, hits[..|hits| - 1]);
      before[KeyOf(c, last) := Bumped(before, KeyOf(c, last), last.run, c.window)]
  }

  /** The last hit is let through. */
  predicate LastPasses(c: Config, hits: seq<Hit>)
    requires Sound(c) && hits != []
  {
    var last := hits[|hits| - 1];
    CountAt(After(c, hits[..|hits| - 1]), KeyOf(c, last), last.run) < c.burst
  }

  function Hits(c: Config, hits: seq<Hit>, k: Key): nat
    requires Sound(c)
  {
    if hits == [] then 0
    else Hits(c, hits[..|hits| - 1], k) + if KeyOf(c, hits[|hits| - 1]) == k then 1 else 0
  }

  function Passed(c: Config, hits: seq<Hit>, k: Key): nat
    requires Sound(c)
  {
    if hits == [] then 0
    else
      Passed(c, hits[..|hits| - 1], k)
      + if KeyOf(c, hits[|hits| - 1]) == k && LastPasses(c, hits) then 1 else 0
  }

  /** Requests of one address, read by a gateway's clock in [from, to), that were let through. */
  function Admitted(c: Config, hits: seq<Hit>, ip: string, from: nat, to: nat): nat
    requires Sound(c)
  {
    if hits == [] then 0
    else
      var last := hits[|hits| - 1];
      Admitted(c, hits[..|hits| - 1], ip, from, to)
      + if last.ip == ip && from <= last.arrival < to && LastPasses(c, hits) then 1 else 0
  }

  /** No script runs before its request arrived, nor before an earlier script. */
  predicate InOrder(hits: seq<Hit>) {
    && (forall i :: 0 <= i < |hits| ==> hits[i].arrival <= hits[i].run)
    && (forall i, j :: 0 <= i < j < |hits| ==> hits[i].run <= hits[j].run)
  }

  /** No script of bucket k runs more than a window after an earlier one of the same bucket. */
  predicate PromptFor(c: Config, hits: seq<Hit>, k: Key)
    requires Sound(c)
  {
    forall i, j :: 0 <= i < j < |hits| && KeyOf(c, hits[i]) == k && KeyOf(c, hits[j]) == k ==> hits[j].run <= hits[i].run + c.window
  }

  /** And so for every window of one address. */
  ghost predicate PromptOf(c: Config, hits: seq<Hit>, ip: string)
    requires Sound(c)
  {
    forall b :: PromptFor(c, hits, Key(ip, b))
  }

  /** Scripts that run at the moment the gateway read its clock are prompt: the counter outlives its bucket. */
  lemma UndelayedIsPrompt(c: Config, hits: seq<Hit>, ip: string)
    requires Sound(c) && forall i :: 0 <= i < |hits| ==> hits[i].run == hits[i].arrival
    ensures PromptOf(c, hits, ip)
  {
    forall i, j | 0 <= i < j < |hits| && KeyOf(c, hits[i]) == KeyOf(c, hits[j])
      ensures hits[j].run <= hits[i].run + c.window
    {
      var b := hits[i].arrival / c.window;
      assert hits[i].arrival >= b * c.window;
      assert hits[j].arrival < b * c.window + c.window;
    }
  }

  lemma PrefixFacts(c: Config, hits: seq<Hit>, k: Key, n: nat)
    requires Sound(c) && n <= |hits|
    ensures PromptFor(c, hits, k) ==> PromptFor(c, hits[..n], k)
    ensures InOrder(hits) ==> InOrder(hits[..n])
  {
    var front := hits[..n];
    assert forall i :: 0 <= i < n ==> front[i] == hits[i];
  }

  /** The counter of a bucket whose first one never expired: it counts all hits, and expires a window after the first. */
  ghost predicate OneCounter(c: Config, hits: seq<Hit>, k: Key)
    requires Sound(c)
  {
    var redis := After(c, hits);
    && (k in redis <==> Hits(c, hits, k) > 0)
    && (k in redis ==>
          && redis[k].count == Hits(c, hits, k)
          && exists i :: FirstOf(c, hits, k, i) && redis[k].expiry == hits[i].run + c.window)
    && Passed(c, hits, k) == Min(Hits(c, hits, k), c.burst)
  }

  /** The first hit of k is at i. */
  predicate FirstOf(c: Config, hits: seq<Hit>, k: Key, i: int)
    requires Sound(c)
  {
    0 <= i < |hits| && KeyOf(c, hits[i]) == k && forall j :: 0 <= j < i ==> KeyOf(c, hits[j]) != k
  }

  /** A bucket that has seen its counter expire: more pass than one counter would let through. */
  predicate SeveralCounters(c: Config, hits: seq<Hit>, k: Key)
    requires Sound(c)
  {
    var redis := After(c, hits);
    && k in redis && redis[k].count >= 1
    && Passed(c, hits, k) >= Min(Hits(c, hits, k), c.burst + 1)
    && Passed(c, hits, k) >= 1 + Min(redis[k].count, c.burst)
  }

  /** One more hit of another bucket changes nothing for k. */
  lemma HitElsewhere(c: Config, hits: seq<Hit>, k: Key)
    requires Sound(c) && hits != [] && KeyOf(c, hits[|hits| - 1]) != k
    ensures var front := hits[..|hits| - 1];
            && (PromptFor(c, hits, k) <==> PromptFor(c, front, k))
            && (OneCounter(c, front, k) ==> OneCounter(c, hits, k))
            && (SeveralCounters(c, front, k) ==> SeveralCounters(c, hits, k))
  {
    var n := |hits| - 1;
    var front := hits[..n];
    assert forall i :: 0 <= i < n ==> front[i] == hits[i];
    if i :| FirstOf(c, front, k, i) && k in After(c, front) && After(c, front)[k].expiry == front[i].run + c.window {
      assert FirstOf(c, hits, k, i);
    }
  }

  /** The first hit of k opens its counter. */
  lemma FirstHit(c: Config, hits: seq<Hit>, k: Key)
    requires Sound(c) && hits != [] && KeyOf(c, hits[|hits| - 1]) == k
    requires OneCounter(c, hits[..|hits| - 1], k) && Hits(c, hits[..|hits| - 1], k) == 0
    ensures OneCounter(c, hits, k) && PromptFor(c, hits, k)
  {
    var n := |hits| - 1;
    NoHits(c, hits[..n], k);
    assert forall i :: 0 <= i < n ==> hits[..n][i] == hits[i];
    assert FirstOf(c, hits, k, n);
  }

  lemma {:induction false} NoHits(c: Config, hits: seq<Hit>, k: Key)
    requires Sound(c)
    ensures Hits(c, hits, k) == 0 <==> forall i :: 0 <= i < |hits| ==> KeyOf(c, hits[i]) != k
  {
    if hits != [] {
      var n := |hits| - 1;
      NoHits(c, hits[..n], k);
      assert forall i :: 0 <= i < n ==> hits[..n][i] == hits[i];
    }
  }

  /** Another hit of k: within the first counter's life it is counted, after that the next counter starts. */
  lemma NextHit(c: Config, hits: seq<Hit>, k: Key)
    requires Sound(c) && InOrder(hits) && hits != [] && KeyOf(c, hits[|hits| - 1]) == k
    requires OneCounter(c, hits[..|hits| - 1], k) && PromptFor(c, hits[..|hits| - 1], k) && Hits(c, hits[..|hits| - 1], k) > 0
    ensures if PromptFor(c, hits, k) then OneCounter(c, hits, k) else SeveralCounters(c, hits, k)
  {
    var n := |hits| - 1;
    var front := hits[..n];
    var before := After(c, front);
    var i :| FirstOf(c, front, k, i) && before[k].expiry == front[i].run + c.window;
    PromptByTheFirst(c, hits, k, i);
  }

  /** Since scripts run in order, the last one is prompt when it is within a window of the first. */
  lemma PromptByTheFirst(c: Config, hits: seq<Hit>, k: Key, i: int)
    requires Sound(c) && InOrder(hits) && hits != [] && KeyOf(c, hits[|hits| - 1]) == k
    requires PromptFor(c, hits[..|hits| - 1], k) && FirstOf(c, hits[..|hits| - 1], k, i)
    ensures FirstOf(c, hits, k, i)
    ensures PromptFor(c, hits, k) <==> hits[|hits| - 1].run <= hits[i].run + c.window
  {
    var n := |hits| - 1;
    assert forall j :: 0 <= j < n ==> hits[..n][j] == hits[j];
    assert forall j :: 0 <= j < n && KeyOf(c, hits[j]) == k ==> hits[i].run <= hits[j].run;
  }

  lemma LaterHit(c: Config, hits: seq<Hit>, k: Key)
    requires Sound(c) && hits != [] && KeyOf(c, hits[|hits| - 1]) == k
    requires SeveralCounters(c, hits[..|hits| - 1], k)
    ensures SeveralCounters(c, hits, k)
  {
  }

  /** What a bucket looks like after any hits in order: one counter as long as its scripts are prompt, several otherwise. */
  lemma {:induction false} Counters(c: Config, hits: seq<Hit>, k: Key)
    requires Sound(c) && InOrder(hits)
    ensures if PromptFor(c, hits, k) then OneCounter(c, hits, k) else SeveralCounters(c, hits, k)
  {
    if hits != [] {
      var n := |hits| - 1;
      PrefixFacts(c, hits, k, n);
      Counters(c, hits[..n], k);
      if KeyOf(c, hits[n]) != k {
        HitElsewhere(c, hits, k);
      } else if !PromptFor(c, hits[..n], k) {
        LaterHit(c, hits, k);
      } else if Hits(c, hits[..n], k) == 0 {
        FirstHit(c, hits, k);
      } else {
        NextHit(c, hits, k);
      }
    }
  }

  lemma {:induction false} NoMorePassThanHit(c: Config, hits: seq<Hit>, k: Key)
    requires Sound(c)
    ensures Passed(c, hits, k) <= Hits(c, hits, k)
  {
    if hits != [] {
      NoMorePassThanHit(c, hits[..|hits| - 1], k);
    }
  }

  /**
   Of n requests of one address in one window exactly min(n, burst) pass, if and only if
   there are no more than burst of them or none of their scripts runs more than a window
   after the first.  Otherwise more than burst pass.
   */
  lemma BucketAdmitsExactly(c: Config, hits: seq<Hit>, k: Key)
    requires Sound(c) && InOrder(hits)
    ensures Passed(c, hits, k) == Min(Hits(c, hits, k), c.burst) <==> Hits(c, hits, k) <= c.burst || PromptFor(c, hits, k)
    ensures !(Hits(c, hits, k) <= c.burst || PromptFor(c, hits, k)) ==> Passed(c, hits, k) > c.burst
  {
    Counters(c, hits, k);
    NoMorePassThanHit(c, hits, k);
  }

  // ----- any interval of time -----

  /** Passed requests of one address over `n` consecutive windows. */
  function PassedOver(c: Config, hits: seq<Hit>, ip: string, first: nat, n: nat): nat
    requires Sound(c)
  {
    if n == 0 then 0
    else PassedOver(c, hits, ip, first, n - 1) + Passed(c, hits, Key(ip, first + n - 1))
  }

  lemma {:induction false} WindowsAreFull(c: Config, hits: seq<Hit>, ip: string, first: nat, n: nat)
    requires Sound(c) && InOrder(hits) && PromptOf(c, hits, ip)
    ensures PassedOver(c, hits, ip, first, n) <= c.burst * n
  {
    if n > 0 {
      WindowsAreFull(c, hits, ip, first, n - 1);
      BucketAdmitsExactly(c, hits, Key(ip, first + n - 1));
      assert c.burst * n == c.burst * (n - 1) + c.burst;
    }
  }

  /** One more hit adds to the window it falls in, and to no other. */
  lemma {:induction false} OneMoreHit(c: Config, hits: seq<Hit>, ip: string, first: nat, n: nat)
    requires Sound(c) && hits != []
    ensures var k := KeyOf(c, hits[|hits| - 1]);
            PassedOver(c, hits, ip, first, n) ==
            PassedOver(c, hits[..|hits| - 1], ip, first, n)
            + if k.ip == ip && first <= k.bucket < first + n && LastPasses(c, hits) then 1 else 0
  {
    if n > 0 {
      OneMoreHit(c, hits, ip, first, n - 1);
    }
  }

  lemma {:induction false} AdmittedByWindows(c: Config, hits: seq<Hit>, ip: string, from: nat, to: nat, first: nat, n: nat)
    requires Sound(c)
    requires forall t :: from <= t < to ==> first <= WindowOf(c, t) < first + n
    ensures Admitted(c, hits, ip, from, to) <= PassedOver(c, hits, ip, first, n)
  {
    if hits == [] {
    } else {
      AdmittedByWindows(c, hits[..|hits| - 1], ip, from, to, first, n);
      OneMoreHit(c, hits, ip, first, n);
    }
  }

  lemma DivMonotone(a: nat, b: nat, d: nat)
    requires a <= b && d >= 1
    ensures a / d <= b / d
  {
    assert a == d * (a / d) + a % d && b == d * (b / d) + b % d;
    assert (b / d + 1) * d == d * (b / d) + d;
    if a / d > b / d {
      Scale(b / d + 1, a / d, d);
    }
  }

  /** An interval of length L meets at most L/window + 2 windows. */
  lemma WindowsOfAnInterval(from: nat, length: nat, window: nat)
    requires window >= 1
    ensures (from + length) / window - from / window + 1 <= length / window + 2
  {
    var a, b, d := from / window, length / window, (from + length) / window;
    assert from + length < (a + b + 2) * window;
    if d > a + b + 1 {
      Scale(a + b + 2, d, window);
    }
  }

  /**
   Any interval of length L, wherever it starts, lets at most burst * (L/window + 2)
   requests of one address through, over all instances and any mix of addresses, when its
   own scripts are prompt.
   */
  lemma IntervalBound(c: Config, hits: seq<Hit>, ip: string, from: nat, length: nat)
    requires Sound(c) && InOrder(hits) && PromptOf(c, hits, ip)
    ensures Admitted(c, hits, ip, from, from + length) <= c.burst * (length / c.window + 2)
  {
    var first, n := from / c.window, (from + length) / c.window - from / c.window + 1;
    WindowsCover(c, from, length);
    AdmittedByWindows(c, hits, ip, from, from + length, first, n);
    WindowsAreFull(c, hits, ip, first, n);
    WindowsOfAnInterval(from, length, c.window);
    ScaleBound(Admitted(c, hits, ip, from, from + length), c.burst, n, length / c.window + 2);
  }

  /** The windows an interval meets are consecutive. */
  lemma WindowsCover(c: Config, from: nat, length: nat)
    requires Sound(c)
    ensures from / c.window <= (from + length) / c.window
    ensures forall t :: from <= t < from + length ==> from / c.window <= WindowOf(c, t) <= (from + length) / c.window
  {
    DivMonotone(from, from + length, c.window);
    forall t | from <= t < from + length
      ensures from / c.window <= WindowOf(c, t) <= (from + length) / c.window
    {
      DivMonotone(from, t, c.window);
      DivMonotone(t, from + length, c.window);
    }
  }

  lemma ScaleBound(x: int, k: nat, a: int, b: int)
    requires x <= k * a && a <= b
    ensures x <= k * b
  {
    Scale(a, b, k);
  }

  // ----- without promptness -----

  /** n requests that arrive at once and run at once. */
  function Together(ip: string, n: nat): seq<Hit> {
    seq(n, i => Hit(ip, 0, 0))
  }

  lemma {:induction false} TogetherAllPass(c: Config, ip: string, n: nat)
    requires Sound(c) && n <= c.burst
    ensures Passed(c, Together(ip, n), Key(ip, 0)) == n == Hits(c, Together(ip, n), Key(ip, 0))
    ensures n > 0 ==> Key(ip, 0) in After(c, Together(ip, n)) && After(c, Together(ip, n))[Key(ip, 0)] == Counter(n, c.window)
    ensures n == 0 ==> After(c, Together(ip, n)) == map[]
  {
    if n > 0 {
      TogetherAllPass(c, ip, n - 1);
      assert Together(ip, n)[..n - 1] == Together(ip, n - 1);
    }
  }

  /** When one script of a full bucket is held up past the counter's expiry, burst + 1 requests of that bucket pass. */
  lemma LateScriptPassesOneMore(c: Config, ip: string)
    requires Sound(c)
    ensures exists hits ::
              && InOrder(hits) && !PromptOf(c, hits, ip)
              && Hits(c, hits, Key(ip, 0)) == c.burst + 1 == Passed(c, hits, Key(ip, 0))
  {
    var front := Together(ip, c.burst);
    var late := Hit(ip, 0, c.window + 1);
    var hits := front + [late];
    TogetherAllPass(c, ip, c.burst);
    assert hits[..|hits| - 1] == front;
    assert KeyOf(c, hits[0]) == KeyOf(c, hits[c.burst]) && hits[c.burst].run > hits[0].run + c.window;
    assert LastPasses(c, hits);
    assert InOrder(hits) && !PromptFor(c, hits, Key(ip, 0));
    assert Hits(c, hits, Key(ip, 0)) == c.burst + 1 == Passed(c, hits, Key(ip, 0));
  }
}
