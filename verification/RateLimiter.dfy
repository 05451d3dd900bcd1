/** The token bucket that guards each client address, its janitor, and the choice of that address. */
module RateLimiter {
  import opened Common

  /** `rate` tokens are added every `window`, up to `capacity`. */
  datatype Limits = Limits(rate: nat, window: int, capacity: int) {
    predicate Valid() {
      window > 0 && capacity >= 1
    }
  }

  datatype Bucket = Bucket(tokens: int, lastRefill: int)
  type Buckets = map<string, Bucket>

  function Min(a: int, b: int): int {
    if a < b then a else b
  }

  function Refilled(l: Limits, b: Bucket, now: int): Bucket
    requires l.Valid()
  {
    var elapsed := now - b.lastRefill;
    if elapsed >= l.window then
      var periods := elapsed / l.window;
      Bucket(Min(b.tokens + periods * l.rate, l.capacity), b.lastRefill + periods * l.window)
    else b
  }

  function Granted(l: Limits, bs: Buckets, key: string, now: int): bool
    requires l.Valid()
  {
    key in bs ==> Refilled(l, bs[key], now).tokens > 0
  }

  function Taken(l: Limits, bs: Buckets, key: string, now: int): Buckets
    requires l.Valid()
  {
    if key !in bs then bs[key := Bucket(l.capacity - 1, now)]
    else
      var b := Refilled(l, bs[key], now);
      bs[key := if b.tokens > 0 then b.(tokens := b.tokens - 1) else b]
  }

  predicate Idle(l: Limits, b: Bucket, now: int) {
    now - b.lastRefill > 2 * l.window && b.tokens >= l.capacity
  }

  function Swept(l: Limits, bs: Buckets, now: int): Buckets {
    map k | k in bs && !Idle(l, bs[k], now) :: bs[k]
  }

  class Limiter {
    const limits: Limits
    var buckets: Buckets

    constructor (rate: nat, window: int, capacity: int)
      ensures limits == Limits(rate, window, capacity) && buckets == map[]
    {
      limits, buckets := Limits(rate, window, capacity), map[];
    }

    method Allow(key: string, now: int) returns (ok: bool)
      requires limits.Valid()
      modifies this
      ensures ok == Granted(limits, old(buckets), key, now)
      ensures buckets == Taken(limits, old(buckets), key, now)
    {
      if key !in buckets {
        buckets := buckets[key := Bucket(limits.capacity - 1, now)];
        return true;
      }
      var tokens, lastRefill := buckets[key].tokens, buckets[key].lastRefill;
      var elapsed := now - lastRefill;
      if elapsed >= limits.window {
        var periods := elapsed / limits.window;
        tokens := tokens + periods * limits.rate;
        if tokens > limits.capacity {
          tokens := limits.capacity;
        }
        lastRefill := lastRefill + periods * limits.window;
      }
      ok := tokens > 0;
      if ok {
        tokens := tokens - 1;
      }
      buckets := buckets[key := Bucket(tokens, lastRefill)];
    }

    method Sweep(now: int)
      modifies this
      ensures buckets == Swept(limits, old(buckets), now)
    {
      var todo := buckets.Keys;
      while todo != {}
        invariant todo <= old(buckets).Keys
        invariant forall k | k in todo :: k in buckets && buckets[k] == old(buckets)[k]
        invariant forall k | k in buckets :: k in old(buckets) && buckets[k] == old(buckets)[k]
        invariant forall k | k in old(buckets).Keys - todo :: k in buckets <==> !Idle(limits, old(buckets)[k], now)
        decreases |todo|
      {
        var k :| k in todo;
        if Idle(limits, buckets[k], now) {
          buckets := buckets - {k};
        }
        todo := todo - {k};
      }
    }
  }

  // ---------- Runs ----------

  datatype Event = Call(key: string, at: int) | Sweep(at: int)

  ghost predicate Monotone(run: seq<Event>) {
    forall i, j | 0 <= i < j < |run| :: run[i].at <= run[j].at
  }

  function Before(run: seq<Event>): seq<Event>
    requires run != []
  {
    run[..|run| - 1]
  }

  function After(l: Limits, run: seq<Event>): Buckets
    requires l.Valid()
  {
    if run == [] then map[]
    else
      var bs, e := After(l, Before(run)), run[|run| - 1];
      if e.Call? then Taken(l, bs, e.key, e.at) else Swept(l, bs, e.at)
  }

  /** Calls for `key` that are granted at a time in [s, e]. */
  function Allowed(l: Limits, run: seq<Event>, key: string, s: int, e: int): nat
    requires l.Valid()
  {
    if run == [] then 0
    else
      var last, n := run[|run| - 1], Allowed(l, Before(run), key, s, e);
      if last.Call? && last.key == key && s <= last.at <= e && Granted(l, After(l, Before(run)), key, last.at)
      then n + 1 else n
  }

  // ---------- Reachable buckets are never full ----------

  lemma PeriodsFit(elapsed: int, window: int)
    requires window > 0 && elapsed >= 0
    ensures 0 <= elapsed / window * window <= elapsed < elapsed / window * window + window
  {
  }

  ghost predicate Reachable(l: Limits, bs: Buckets, now: int) {
    forall k | k in bs :: 0 <= bs[k].tokens <= l.capacity - 1 && bs[k].lastRefill <= now
  }

  lemma RefillBounds(l: Limits, b: Bucket, now: int)
    requires l.Valid() && 0 <= b.tokens <= l.capacity - 1 && b.lastRefill <= now
    ensures var r := Refilled(l, b, now);
            0 <= r.tokens <= l.capacity && now - l.window < r.lastRefill <= now
  {
    var elapsed := now - b.lastRefill;
    if elapsed >= l.window {
      PeriodsFit(elapsed, l.window);
      assert elapsed / l.window * l.rate >= 0;
    }
  }

  lemma {:induction false} BucketsNeverFull(l: Limits, run: seq<Event>, now: int)
    requires l.Valid() && Monotone(run) && (run != [] ==> run[|run| - 1].at <= now)
    ensures Reachable(l, After(l, run), now)
  {
    if run != [] {
      var e := run[|run| - 1];
      BucketsNeverFull(l, Before(run), e.at);
      var bs := After(l, Before(run));
      if e.Call? && e.key in bs {
        RefillBounds(l, bs[e.key], e.at);
      }
    }
  }

  /** The janitor only deletes full buckets, and no bucket is ever full after a call: it deletes nothing. */
  lemma JanitorDeletesNothing(l: Limits, run: seq<Event>, now: int)
    requires l.Valid() && Monotone(run) && (run != [] ==> run[|run| - 1].at <= now)
    ensures Swept(l, After(l, run), now) == After(l, run)
  {
    BucketsNeverFull(l, run, now);
  }

  function WithoutSweeps(run: seq<Event>): seq<Event> {
    if run == [] then []
    else if run[|run| - 1].Call? then WithoutSweeps(Before(run)) + [run[|run| - 1]]
    else WithoutSweeps(Before(run))
  }

  /** Janitor passes anywhere in a run change no bucket and no answer. */
  lemma {:induction false} SweepsChangeNothing(l: Limits, run: seq<Event>, key: string, s: int, e: int)
    requires l.Valid() && Monotone(run)
    ensures After(l, WithoutSweeps(run)) == After(l, run)
    ensures Allowed(l, WithoutSweeps(run), key, s, e) == Allowed(l, run, key, s, e)
  {
    if run != [] {
      var last := run[|run| - 1];
      SweepsChangeNothing(l, Before(run), key, s, e);
      if last.Sweep? {
        JanitorDeletesNothing(l, Before(run), last.at);
      } else {
        assert Before(WithoutSweeps(run)) == WithoutSweeps(Before(run));
      }
    }
  }

  // ---------- The rate bound ----------

  /** Whole windows needed to cover `span`. */
  function Windows(span: nat, window: int): nat
    requires window > 0
  {
    (span + window - 1) / window
  }

  /** `n` windows have been refilled since the first call counted. */
  ghost predicate Budget(l: Limits, b: Bucket, allowed: nat, s: int, n: nat) {
    b.lastRefill - n * l.window > s - l.window && allowed + b.tokens <= l.capacity + n * l.rate
  }

  ghost predicate Called(run: seq<Event>, key: string, s: int) {
    exists i | 0 <= i < |run| :: run[i] == Call(key, run[i].at) && s <= run[i].at
  }

  lemma BudgetRefilled(l: Limits, b: Bucket, now: int, allowed: nat, s: int, n: nat) returns (m: nat)
    requires l.Valid() && Budget(l, b, allowed, s, n) && b.lastRefill <= now
    ensures Budget(l, Refilled(l, b, now), allowed, s, m)
  {
    m := n;
    var elapsed := now - b.lastRefill;
    if elapsed >= l.window {
      var periods := elapsed / l.window;
      PeriodsFit(elapsed, l.window);
      m := n + periods;
      assert m * l.window == n * l.window + periods * l.window;
      assert m * l.rate == n * l.rate + periods * l.rate;
    }
  }

  lemma {:induction false} UncalledNotAllowed(l: Limits, run: seq<Event>, key: string, s: int, e: int)
    requires l.Valid() && !Called(run, key, s)
    ensures Allowed(l, run, key, s, e) == 0
  {
    if run != [] {
      var last := run[|run| - 1];
      assert forall i | 0 <= i < |run| - 1 :: Before(run)[i] == run[i];
      UncalledNotAllowed(l, Before(run), key, s, e);
    }
  }

  lemma CalledLastOrBefore(run: seq<Event>, key: string, s: int)
    requires Called(run, key, s)
    ensures Called(Before(run), key, s) || (run[|run| - 1] == Call(key, run[|run| - 1].at) && s <= run[|run| - 1].at)
  {
    var i :| 0 <= i < |run| && run[i] == Call(key, run[i].at) && s <= run[i].at;
    if i < |run| - 1 {
      assert Before(run)[i] == run[i];
    }
  }

  /** What is granted and what is left never exceed the capacity plus what was refilled. */
  lemma {:induction false} Potential(l: Limits, run: seq<Event>, key: string, s: int, e: int) returns (n: nat)
    requires l.Valid() && Monotone(run) && Called(run, key, s) && run[|run| - 1].at <= e
    ensures key in After(l, run) && Budget(l, After(l, run)[key], Allowed(l, run, key, s, e), s, n)
    decreases |run|
  {
    var last, init := run[|run| - 1], Before(run);
    var bs := After(l, init);
    BucketsNeverFull(l, init, last.at);
    if last.Sweep? {
      JanitorDeletesNothing(l, init, last.at);
    }
    if Called(init, key, s) {
      n := Potential(l, init, key, s, e);
      if last.Call? && last.key == key {
        n := BudgetRefilled(l, bs[key], last.at, Allowed(l, init, key, s, e), s, n);
      }
    } else {
      UncalledNotAllowed(l, init, key, s, e);
      CalledLastOrBefore(run, key, s);
      n := 0;
      if key in bs {
        RefillBounds(l, bs[key], last.at);
      }
    }
  }

  lemma WindowsBound(n: nat, window: int, span: nat)
    requires window > 0 && n * window < span + window
    ensures n <= Windows(span, window)
  {
    PeriodsFit(span + window - 1, window);
    SmallerFactor(n, Windows(span, window) + 1, window);
  }

  lemma MoreWindows(m: nat, n: nat, rate: nat)
    requires m <= n
    ensures m * rate <= n * rate
  {
  }

  /** However calls and janitor passes interleave, one key is granted at most the capacity plus
      `rate` for every window begun in the interval. */
  lemma {:induction false} RateBound(l: Limits, run: seq<Event>, key: string, s: int, e: int)
    requires l.Valid() && Monotone(run) && s <= e
    ensures Allowed(l, run, key, s, e) <= l.capacity + Windows(e - s, l.window) * l.rate
    decreases |run|
  {
    if !Called(run, key, s) {
      UncalledNotAllowed(l, run, key, s, e);
      MoreWindows(0, Windows(e - s, l.window), l.rate);
    } else if run[|run| - 1].at > e {
      RateBound(l, Before(run), key, s, e);
    } else {
      var n := Potential(l, run, key, s, e);
      BucketsNeverFull(l, run, e);
      WindowsBound(n, l.window, e - s);
      MoreWindows(n, Windows(e - s, l.window), l.rate);
    }
  }

  /** The bound is met: a fresh key that calls n times at once is granted the capacity and no more. */
  lemma {:induction false} BurstGranted(l: Limits, key: string, at: int, n: nat)
    requires l.Valid()
    ensures var run := seq(n, _ => Call(key, at));
            && Allowed(l, run, key, at, at) == Min(n, l.capacity)
            && (n > 0 ==> After(l, run) == map[key := Bucket(l.capacity - Min(n, l.capacity), at)])
  {
    if n > 0 {
      BurstGranted(l, key, at, n - 1);
      assert Before(seq(n, _ => Call(key, at))) == seq(n - 1, _ => Call(key, at));
    }
  }

  /** One caller cannot spend another's tokens. */
  lemma {:induction false} KeysIndependent(l: Limits, run: seq<Event>, key: string)
    requires l.Valid()
    ensures key in After(l, run) <==> key in After(l, OnlyFor(run, key))
    ensures key in After(l, run) ==> After(l, run)[key] == After(l, OnlyFor(run, key))[key]
  {
    if run != [] {
      KeysIndependent(l, Before(run), key);
      if run[|run| - 1].Sweep? || run[|run| - 1].key == key {
        assert Before(OnlyFor(run, key)) == OnlyFor(Before(run), key);
      }
    }
  }

  function OnlyFor(run: seq<Event>, key: string): seq<Event> {
    if run == [] then []
    else if run[|run| - 1].Sweep? || run[|run| - 1].key == key then OnlyFor(Before(run), key) + [run[|run| - 1]]
    else OnlyFor(Before(run), key)
  }

  // ---------- The address a caller is counted under ----------

  type Address = int
  datatype Hop = Unparsable | Parsed(address: Address)

  /** Forwarded hops are read from the right; the peer is the right-most of all. */
  function ClientOf(peer: Address, hops: seq<Hop>, trusted: set<Address>): Address
    decreases |hops|
  {
    if peer !in trusted || hops == [] || hops[|hops| - 1].Unparsable? then peer
    else ClientOf(hops[|hops| - 1].address, hops[..|hops| - 1], trusted)
  }

  /** A remote address that cannot be parsed is the client's key as it stands. */
  datatype Client = Known(address: Address) | Raw(host: string)

  /** Without a forwarding list, a trusted peer may name the client in X-Real-IP. */
  method ClientIP(host: string, parsed: Hop, forwarded: bool, hops: seq<Hop>, realIp: Hop, trusted: set<Address>)
    returns (client: Client)
    ensures parsed.Unparsable? ==> client == Raw(host)
    ensures parsed.Parsed? && forwarded ==> client == Known(ClientOf(parsed.address, hops, trusted))
    ensures parsed.Parsed? && !forwarded ==>
      client == Known(if parsed.address in trusted && realIp.Parsed? then realIp.address else parsed.address)
  {
    if parsed.Unparsable? {
      return Raw(host);
    }
    var peer := parsed.address;
    if peer !in trusted {
      return Known(peer);
    }
    if forwarded {
      var last := WalkHops(peer, hops, trusted);
      return Known(last);
    }
    client := Known(if realIp.Parsed? then realIp.address else peer);
  }

  /** The walk from the right, past trusted hops. */
  method WalkHops(peer: Address, hops: seq<Hop>, trusted: set<Address>) returns (client: Address)
    requires peer in trusted
    ensures client == ClientOf(peer, hops, trusted)
  {
    client := peer;
    var i := |hops|;
    assert hops[..i] == hops;
    while i > 0
      invariant 0 <= i <= |hops|
      invariant client in trusted && ClientOf(peer, hops, trusted) == ClientOf(client, hops[..i], trusted)
    {
      i := i - 1;
      assert hops[..i + 1][..i] == hops[..i];
      if hops[i].Unparsable? {
        return;
      }
      client := hops[i].address;
      if client !in trusted {
        return;
      }
    }
  }

  ghost predicate AllTrusted(hops: seq<Hop>, trusted: set<Address>) {
    forall h | h in hops :: h.Parsed? && h.address in trusted
  }

  /** Whatever lies left of the first untrusted or unreadable hop is never consulted: no choice of
      it changes the answer. */
  lemma {:induction false} LeftOfUntrustedIgnored(peer: Address, left: seq<Hop>, hop: Hop, right: seq<Hop>,
                                                  trusted: set<Address>)
    requires hop.Parsed? ==> hop.address !in trusted
    requires AllTrusted(right, trusted)
    ensures ClientOf(peer, left + [hop] + right, trusted) == ClientOf(peer, [hop] + right, trusted)
    ensures hop.Parsed? && peer in trusted ==> ClientOf(peer, left + [hop] + right, trusted) == hop.address
    decreases |right|
  {
    var all, short := left + [hop] + right, [hop] + right;
    if right == [] {
      assert all[..|all| - 1] == left && all[|all| - 1] == hop && short[0] == hop;
      assert hop.Parsed? ==> ClientOf(hop.address, left, trusted) == hop.address;
    } else {
      var init, last := right[..|right| - 1], right[|right| - 1];
      assert all[..|all| - 1] == left + [hop] + init && all[|all| - 1] == last;
      assert short[..|short| - 1] == [hop] + init && short[|short| - 1] == last;
      assert last in right;
      LeftOfUntrustedIgnored(last.address, left, hop, init, trusted);
    }
  }
}
