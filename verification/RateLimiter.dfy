/**
 * The fixed-window rate limiter of the tool routes: one bucket per key, replaced
 * when it has expired, and the bound this gives over arbitrary intervals of time.
 */
module RateLimiter {
  import opened Prelude

  type Key = string

  datatype Bucket = Bucket(count: nat, resetAt: int)

  datatype Limits = Limits(windowMs: int, maxRequests: nat)

  datatype Decision = Skipped | Admitted | Refused(retryAfter: int)

  datatype Request = Request(userId: Option<string>, toolId: Option<string>, now: int)

  type Buckets = map<Key, Bucket>

  // ----- One request --------------------------------------------------------

  /** A missing or empty id cannot be identified. */
  predicate Identified(r: Request) {
    r.userId.GetOr("") != "" && r.toolId.GetOr("") != ""
  }

  function KeyOf(r: Request): Key {
    r.userId.GetOr("") + ":" + r.toolId.GetOr("")
  }

  /** Math.ceil(ms / 1000), for either sign: Dafny's division rounds down for a positive divisor. */
  function CeilSeconds(ms: int): int {
    -((-ms) / 1000)
  }

  /** The bucket a request at time now is counted in. */
  function CurrentBucket(l: Limits, stored: Option<Bucket>, now: int): Bucket {
    if stored.None? || now >= stored.value.resetAt then Bucket(0, now + l.windowMs) else stored.value
  }

  function Handle(l: Limits, buckets: Buckets, r: Request): (Buckets, Decision) {
    if !Identified(r) then (buckets, Skipped)
    else
      var k := KeyOf(r);
      var b := CurrentBucket(l, Lookup(buckets, k), r.now);
      if b.count >= l.maxRequests then
        (buckets[k := b], Refused(CeilSeconds(b.resetAt - r.now)))
      else
        (buckets[k := b.(count := b.count + 1)], Admitted)
  }

  /** Only a request without user or tool is let through uncounted, and then no bucket changes. */
  lemma SkippedIffUnidentified(l: Limits, buckets: Buckets, r: Request)
    ensures
      var after := Handle(l, buckets, r);
      after.1 == Skipped <==>
        r.userId == None || r.userId == Some("") || r.toolId == None || r.toolId == Some("")
    ensures Handle(l, buckets, r).1 == Skipped ==> Handle(l, buckets, r).0 == buckets
  {
    hide KeyOf, CurrentBucket, CeilSeconds;
  }

  // ----- Runs ---------------------------------------------------------------

  /** One request through a limiter with the given options. All limiters of the process share the buckets. */
  datatype Call = Call(limits: Limits, request: Request)

  function After(calls: seq<Call>): Buckets {
    if calls == [] then map[]
    else Handle(calls[|calls| - 1].limits, After(calls[..|calls| - 1]), calls[|calls| - 1].request).0
  }

  function DecisionAt(calls: seq<Call>, i: nat): Decision
    requires i < |calls|
  {
    Handle(calls[i].limits, After(calls[..i]), calls[i].request).1
  }

  predicate ClockNeverTurnsBack(calls: seq<Call>) {
    forall i, j :: 0 <= i < j < |calls| ==> calls[i].request.now <= calls[j].request.now
  }

  predicate AllBy(calls: seq<Call>, t: int) {
    forall i :: 0 <= i < |calls| ==> calls[i].request.now <= t
  }

  /** A request of key k through a limiter with options l at a time in [lo, hi). */
  predicate Relevant(l: Limits, c: Call, k: Key, lo: int, hi: int) {
    c.limits == l && Identified(c.request) && KeyOf(c.request) == k && lo <= c.request.now < hi
  }

  /** How many of them were admitted. */
  function AdmittedIn(l: Limits, calls: seq<Call>, k: Key, lo: int, hi: int): nat {
    if calls == [] then 0
    else
      var i := |calls| - 1;
      AdmittedIn(l, calls[..i], k, lo, hi)
      + (if Relevant(l, calls[i], k, lo, hi) && DecisionAt(calls, i) == Admitted then 1 else 0)
  }

  lemma AddCall(l: Limits, calls: seq<Call>, c: Call, k: Key, lo: int, hi: int)
    ensures After(calls + [c]) == Handle(c.limits, After(calls), c.request).0
    ensures
      AdmittedIn(l, calls + [c], k, lo, hi)
      == AdmittedIn(l, calls, k, lo, hi)
         + (if Relevant(l, c, k, lo, hi) && Handle(c.limits, After(calls), c.request).1 == Admitted then 1 else 0)
  {
    hide Handle;
    assert (calls + [c])[..|calls|] == calls;
  }

  // ----- The bound ------------------------------------------------------------

  /** The most that a key can get through limiters with options l in the time of n windows. */
  function MaxAdmitted(l: Limits, n: nat): nat {
    if l.maxRequests == 0 || l.windowMs <= 0 || n == 0 then 0
    else if l.windowMs == 1 then n * l.maxRequests
    else
      assert n * l.maxRequests >= 0;
      n * l.maxRequests + l.maxRequests - 1
  }

  /**
   * A limiter with options q, on the same key, cannot push the admissions of
   * limiters with options l over their bound. A bucket that q opens lets l's
   * requests in for q's window: less than a full quota of them when q counts its
   * own first request.
   */
  predicate Harmless(l: Limits, q: Limits) {
    || l.maxRequests == 0 || l.windowMs <= 1 || q.windowMs <= 0
    || (q.maxRequests > 0
        && (l.maxRequests == 1 || q.windowMs >= l.windowMs
            || (l.maxRequests == 2 && q.windowMs == l.windowMs - 1)))
  }

  /** The most admissions up to the end of a full bucket that ends x after the interval began. */
  function Level(l: Limits, x: int): int
    requires l.windowMs > 0
  {
    if x <= 0 then 0
    else if l.windowMs == 1 then l.maxRequests * x
    else if l.maxRequests == 2 then x / l.windowMs + (x + l.windowMs - 1) / l.windowMs
    else l.maxRequests * (x / l.windowMs) + l.maxRequests - 1
  }

  lemma Quotient(n: int, w: int, rest: int)
    requires 0 <= rest < w
    ensures (n * w + rest) / w == n
  {
    var x := n * w + rest;
    var q := x / w;
    assert q * w + x % w == x;
    if q > n {
      Scale(w, n + 1, q);
    } else if q < n {
      Scale(w, q + 1, n);
    }
  }

  lemma DivideLater(x: int, y: int, w: int)
    requires 0 <= x <= y && w > 0
    ensures x / w <= y / w && (x + w) / w == x / w + 1
  {
    assert x == x / w * w + x % w && y == y / w * w + y % w;
    assert x + w == (x / w + 1) * w + x % w;
    Quotient(x / w + 1, w, x % w);
    if x / w > y / w {
      Scale(w, y / w + 1, x / w);
    }
  }

  lemma Scale(m: nat, a: int, b: int)
    requires a <= b
    ensures m * a <= m * b && m * (a + 1) == m * a + m && a * m <= b * m
  {
  }

  lemma LevelMonotone(l: Limits, x: int, y: int)
    requires l.windowMs > 0 && x <= y && l.maxRequests > 0
    ensures 0 <= Level(l, x) <= Level(l, y)
    ensures y > 0 ==> Level(l, y) >= l.maxRequests - 1
  {
    var w, m := l.windowMs, l.maxRequests;
    if y > 0 {
      DivideLater(0, y, w);
      Scale(m, 0, y);
      Scale(m, 1, y);
      Scale(m, 0, y / w);
    }
    if x > 0 {
      DivideLater(x, y, w);
      DivideLater(x + w - 1, y + w - 1, w);
      DivideLater(0, x, w);
      Scale(m, x, y);
      Scale(m, 0, x);
      Scale(m, x / w, y / w);
      Scale(m, 0, x / w);
    }
  }

  /** A bucket of the limiter itself raises the level by its quota. */
  lemma LevelOfOwnWindow(l: Limits, x: int)
    requires l.windowMs > 0 && l.maxRequests > 0 && x >= 0
    ensures Level(l, x + l.windowMs) >= Level(l, x) + l.maxRequests
  {
    var w, m := l.windowMs, l.maxRequests;
    DivideLater(x, x, w);
    Scale(m, x / w, x / w);
    Scale(m, x, x);
    if x > 0 {
      DivideLater(x + w - 1, x + w - 1, w);
    } else {
      DivideLater(w, 2 * w - 1, w);
    }
  }

  lemma CeilingStep(x: int, w: int)
    requires x >= 0 && w >= 2
    ensures (x + w - 1) / w + (x + w - 1 + w - 1) / w >= x / w + (x + w - 1) / w + 1
  {
    DivideLater(x, x + w - 2, w);
    assert x + w - 1 + w - 1 == (x + w - 2) + w;
    DivideLater(x + w - 2, x + w - 2, w);
  }

  /** A harmless bucket of another limiter raises it by what that bucket leaves. */
  lemma LevelOfOtherWindow(l: Limits, q: Limits, x: int)
    requires l.windowMs > 1 && l.maxRequests > 0 && x >= 0
    requires Harmless(l, q) && q.windowMs > 0
    ensures Level(l, x + Min(q.windowMs, l.windowMs)) >= Level(l, x) + l.maxRequests - 1
  {
    var w := l.windowMs;
    if q.windowMs >= w {
      LevelOfOwnWindow(l, x);
    } else if l.maxRequests == 1 {
      LevelMonotone(l, x, x + q.windowMs);
    } else {
      CeilingStep(x, w);
      LevelMonotone(l, x, x + w - 1);
    }
  }

  /** What the admissions since lo can be at time t, given the stored bucket. */
  function Allowance(l: Limits, stored: Option<Bucket>, lo: int, t: int): int
    requires l.windowMs > 0
  {
    if stored.None? || t >= stored.value.resetAt then Level(l, t - lo)
    else
      var end := Min(stored.value.resetAt, t + l.windowMs) - lo;
      if end <= 0 then 0 else Level(l, end) + Min(stored.value.count, l.maxRequests) - l.maxRequests
  }

  /** A bucket that is open at time t has counted a request. */
  predicate OpenCounts(l: Limits, stored: Option<Bucket>, t: int) {
    l.windowMs > 1 && stored.Some? && t < stored.value.resetAt ==> stored.value.count > 0
  }

  lemma AllowanceGrows(l: Limits, stored: Option<Bucket>, lo: int, t: int, u: int)
    requires l.windowMs > 0 && l.maxRequests > 0 && t <= u && OpenCounts(l, stored, t)
    ensures Allowance(l, stored, lo, t) <= Allowance(l, stored, lo, u)
  {
    hide Level;
    LevelMonotone(l, t - lo, u - lo);
    if stored.Some? {
      var end := Min(stored.value.resetAt, t + l.windowMs) - lo;
      LevelMonotone(l, end, u - lo + l.windowMs);
      LevelMonotone(l, end, Min(stored.value.resetAt, u + l.windowMs) - lo);
      if stored.value.resetAt <= u { LevelMonotone(l, end, u - lo); }
      if l.windowMs == 1 { LevelOfMillisecond(l, Min(stored.value.resetAt, u + 1) - lo); }
    }
  }

  lemma LevelOfMillisecond(l: Limits, x: int)
    requires l.windowMs == 1 && l.maxRequests > 0
    ensures x > 0 ==> Level(l, x) >= l.maxRequests
  {
    if x > 0 { Scale(l.maxRequests, 1, x); }
  }

  /** One call through the bucket never outgrows the allowance. */
  lemma AllowanceStep(l: Limits, buckets: Buckets, c: Call, lo: int, hi: int)
    requires l.windowMs > 0 && l.maxRequests > 0 && Harmless(l, c.limits) && Identified(c.request)
    requires OpenCounts(l, Lookup(buckets, KeyOf(c.request)), c.request.now)
    ensures
      var k, t := KeyOf(c.request), c.request.now;
      OpenCounts(l, Lookup(Handle(c.limits, buckets, c.request).0, k), t)
    ensures
      var k, t := KeyOf(c.request), c.request.now;
      var (after, decision) := Handle(c.limits, buckets, c.request);
      Allowance(l, Lookup(buckets, k), lo, t) + (if Relevant(l, c, k, lo, hi) && decision == Admitted then 1 else 0)
      <= Allowance(l, Lookup(after, k), lo, t)
  {
    hide Level;
    var t, stored := c.request.now, Lookup(buckets, KeyOf(c.request));
    if stored.None? || t >= stored.value.resetAt {
      LevelMonotone(l, t - lo, t - lo);
      LevelMonotone(l, t - lo, t - lo + l.windowMs);
      if c.limits.windowMs > 0 { LevelMonotone(l, t - lo, t + Min(c.limits.windowMs, l.windowMs) - lo); }
      if l.windowMs == 1 { LevelOfMillisecond(l, t + 1 - lo); }
      NothingBefore(l, t - lo);
      if t >= lo {
        LevelOfOwnWindow(l, t - lo);
        if l.windowMs > 1 && c.limits.windowMs > 0 { LevelOfOtherWindow(l, c.limits, t - lo); }
      }
    }
  }

  lemma NothingBefore(l: Limits, x: int)
    requires l.windowMs > 0
    ensures x <= 0 ==> Level(l, x) == 0
  {
  }

  lemma {:induction false} WithinAllowance(l: Limits, calls: seq<Call>, k: Key, lo: int, hi: int, t: int)
    requires l.windowMs > 0 && l.maxRequests > 0 && ClockNeverTurnsBack(calls) && AllBy(calls, t)
    requires forall i :: 0 <= i < |calls| ==> Harmless(l, calls[i].limits)
    ensures AdmittedIn(l, calls, k, lo, hi) <= Allowance(l, Lookup(After(calls), k), lo, t)
    ensures OpenCounts(l, Lookup(After(calls), k), t)
  {
    hide Handle, Allowance, Level, Harmless, Identified, KeyOf;
    if calls == [] {
      EmptyAllowance(l, k, lo, t);
    } else {
      var init, c := calls[..|calls| - 1], calls[|calls| - 1];
      WithinAllowance(l, init, k, lo, hi, c.request.now);
      assert calls == init + [c];
      AddCall(l, init, c, k, lo, hi);
      if Identified(c.request) && KeyOf(c.request) == k {
        AllowanceStep(l, After(init), c, lo, hi);
      } else {
        OtherKeysUntouched(c, After(init), k);
      }
      AllowanceGrows(l, Lookup(After(calls), k), lo, c.request.now, t);
    }
  }

  lemma EmptyAllowance(l: Limits, k: Key, lo: int, t: int)
    requires l.windowMs > 0 && l.maxRequests > 0
    ensures 0 <= Allowance(l, Lookup(After([]), k), lo, t)
  {
    LevelMonotone(l, t - lo, t - lo);
  }

  lemma OtherKeysUntouched(c: Call, buckets: Buckets, k: Key)
    requires !Identified(c.request) || KeyOf(c.request) != k
    ensures Lookup(Handle(c.limits, buckets, c.request).0, k) == Lookup(buckets, k)
  {
  }

  lemma LastLevel(l: Limits, n: nat)
    requires l.windowMs > 0 && l.maxRequests > 0 && n > 0
    ensures Level(l, n * l.windowMs - 1 + l.windowMs) == MaxAdmitted(l, n)
  {
    var w := l.windowMs;
    Scale(w, 1, n);
    Scale(w, n, n);
    LevelBeforeMultiple(l, n, n * w - 1 + w, n * w);
    assert l.maxRequests * n == n * l.maxRequests;
  }

  lemma LevelBeforeMultiple(l: Limits, n: nat, x: int, windows: int)
    requires l.windowMs > 0 && x > 0 && windows == n * l.windowMs && x == windows + l.windowMs - 1
    ensures Level(l, x) == if l.windowMs == 1 then l.maxRequests * n else l.maxRequests * n + l.maxRequests - 1
  {
    var w := l.windowMs;
    Quotient(n, w, w - 1);
    if w > 1 {
      assert x + w - 1 == (n + 1) * w + (w - 2) by { Scale(w, n, n); }
      Quotient(n + 1, w, w - 2);
    }
  }

  /**
   * In any half-open interval as long as n windows, limiters with options l admit
   * a key at most MaxAdmitted(l, n) times, whatever other keys do and whatever
   * harmless limiters do to the same key. Limiters with equal options are
   * harmless to each other.
   */
  lemma {:induction false} AdmissionBound(l: Limits, calls: seq<Call>, k: Key, lo: int, n: nat)
    requires ClockNeverTurnsBack(calls)
    requires forall i :: 0 <= i < |calls| && calls[i].limits != l ==> Harmless(l, calls[i].limits)
    ensures AdmittedIn(l, calls, k, lo, lo + n * l.windowMs) <= MaxAdmitted(l, n)
  {
    hide Level, Handle;
    var hi := lo + n * l.windowMs;
    if calls == [] || l.maxRequests == 0 || n == 0 || l.windowMs <= 0 {
      assert n == 0 || l.windowMs <= 0 ==> n * l.windowMs <= 0;
      NothingAdmitted(l, calls, k, lo, hi);
    } else if calls[|calls| - 1].request.now >= hi {
      AdmissionBound(l, calls[..|calls| - 1], k, lo, n);
    } else {
      WithinAllowance(l, calls, k, lo, hi, hi - 1);
      LastLevel(l, n);
      FinalAllowance(l, Lookup(After(calls), k), lo, hi - 1);
    }
  }

  lemma FinalAllowance(l: Limits, stored: Option<Bucket>, lo: int, t: int)
    requires l.windowMs > 0 && l.maxRequests > 0
    ensures Allowance(l, stored, lo, t) <= Level(l, t + l.windowMs - lo)
  {
    hide Level;
    LevelMonotone(l, t - lo, t + l.windowMs - lo);
    if stored.Some? {
      LevelMonotone(l, Min(stored.value.resetAt, t + l.windowMs) - lo, t + l.windowMs - lo);
    }
  }

  lemma {:induction false} NothingAdmitted(l: Limits, calls: seq<Call>, k: Key, lo: int, hi: int)
    requires calls == [] || l.maxRequests == 0 || hi <= lo
    ensures AdmittedIn(l, calls, k, lo, hi) == 0
  {
    if calls != [] {
      NothingAdmitted(l, calls[..|calls| - 1], k, lo, hi);
    }
  }

  // ----- The bound is reached -----------------------------------------------

  /** count requests of one user and tool, all at time now. */
  function Burst(l: Limits, user: string, tool: string, now: int, count: nat): (burst: seq<Call>) {
    seq(count, i => Call(l, Request(Some(user), Some(tool), now)))
  }

  /** A burst that fits into the current bucket is admitted whole. */
  lemma {:induction false} BurstAdmitted(
    l: Limits, calls: seq<Call>, user: string, tool: string, now: int, count: nat, b: Bucket, lo: int, hi: int)
    requires user != "" && tool != ""
    requires CurrentBucket(l, Lookup(After(calls), user + ":" + tool), now) == b
    requires now < b.resetAt && b.count + count <= l.maxRequests
    ensures
      var k := user + ":" + tool;
      var longer := calls + Burst(l, user, tool, now, count);
      && CurrentBucket(l, Lookup(After(longer), k), now) == Bucket(b.count + count, b.resetAt)
      && (count > 0 ==> Lookup(After(longer), k) == Some(Bucket(b.count + count, b.resetAt)))
      && AdmittedIn(l, longer, k, lo, hi) == AdmittedIn(l, calls, k, lo, hi) + (if lo <= now < hi then count else 0)
  {
    hide After, AdmittedIn;
    var longer := calls + Burst(l, user, tool, now, count);
    if count == 0 {
      assert longer == calls;
    } else {
      var shorter := calls + Burst(l, user, tool, now, count - 1);
      var c := Call(l, Request(Some(user), Some(tool), now));
      assert longer == shorter + [c];
      BurstAdmitted(l, calls, user, tool, now, count - 1, b, lo, hi);
      AddCall(l, shorter, c, user + ":" + tool, lo, hi);
    }
  }

  lemma LaterKeepsClock(calls: seq<Call>, more: seq<Call>, now: int)
    requires ClockNeverTurnsBack(calls) && AllBy(calls, now)
    requires forall i :: 0 <= i < |more| ==> more[i].request.now == now
    ensures ClockNeverTurnsBack(calls + more) && AllBy(calls + more, now)
  {
  }

  lemma NothingYet(l: Limits, k: Key, lo: int, hi: int)
    ensures Lookup(After([]), k) == None && AdmittedIn(l, [], k, lo, hi) == 0 && ClockNeverTurnsBack([])
  {
  }

  /** A full burst when the last window is over, all of it counted. */
  lemma NextWindow(l: Limits, calls: seq<Call>, user: string, tool: string, t: int, lo: int, hi: int)
    returns (longer: seq<Call>)
    requires user != "" && tool != "" && l.windowMs > 0 && l.maxRequests > 0 && lo <= t < hi
    requires ClockNeverTurnsBack(calls) && AllBy(calls, t)
    requires forall i :: 0 <= i < |calls| ==> calls[i].limits == l
    requires
      var stored := Lookup(After(calls), user + ":" + tool);
      stored.None? || stored.value.resetAt <= t
    ensures ClockNeverTurnsBack(longer) && AllBy(longer, t)
    ensures forall i :: 0 <= i < |longer| ==> longer[i].limits == l
    ensures Lookup(After(longer), user + ":" + tool) == Some(Bucket(l.maxRequests, t + l.windowMs))
    ensures AdmittedIn(l, longer, user + ":" + tool, lo, hi)
            == AdmittedIn(l, calls, user + ":" + tool, lo, hi) + l.maxRequests
  {
    hide After, AdmittedIn, ClockNeverTurnsBack;
    var burst := Burst(l, user, tool, t, l.maxRequests);
    longer := calls + burst;
    BurstAdmitted(l, calls, user, tool, t, l.maxRequests, Bucket(0, t + l.windowMs), lo, hi);
    LaterKeepsClock(calls, burst, t);
  }

  /** With 1 ms windows: a full burst in each of the n milliseconds. */
  lemma {:induction false} FullMilliseconds(l: Limits, user: string, tool: string, n: nat, hi: int)
    returns (calls: seq<Call>)
    requires user != "" && tool != "" && l.windowMs == 1 && l.maxRequests > 0 && n < hi
    ensures ClockNeverTurnsBack(calls) && AllBy(calls, n)
    ensures forall i :: 0 <= i < |calls| ==> calls[i].limits == l
    ensures var stored := Lookup(After(calls), user + ":" + tool);
            if n == 0 then stored == None else stored == Some(Bucket(l.maxRequests, n + 1))
    ensures AdmittedIn(l, calls, user + ":" + tool, 1, hi) == n * l.maxRequests
  {
    hide After, AdmittedIn, ClockNeverTurnsBack;
    if n == 0 {
      calls := [];
      NothingYet(l, user + ":" + tool, 1, hi);
    } else {
      var before := FullMilliseconds(l, user, tool, n - 1, hi);
      calls := NextWindow(l, before, user, tool, n, 1, hi);
      Scale(l.maxRequests, n - 1, n - 1);
    }
  }

  /**
   * With longer windows: one early request, then full bursts, just before the
   * first window ends and at the start of each of the n windows after it.
   */
  lemma {:induction false} WorstRun(l: Limits, user: string, tool: string, n: nat, hi: int) returns (calls: seq<Call>)
    requires user != "" && tool != "" && l.windowMs >= 2 && l.maxRequests > 0
    requires hi > n * l.windowMs && hi >= l.windowMs
    ensures ClockNeverTurnsBack(calls) && AllBy(calls, (n + 1) * l.windowMs - 1)
    ensures forall i :: 0 <= i < |calls| ==> calls[i].limits == l
    ensures Lookup(After(calls), user + ":" + tool) == Some(Bucket(l.maxRequests, (n + 1) * l.windowMs))
    ensures AdmittedIn(l, calls, user + ":" + tool, 1, hi) == n * l.maxRequests + l.maxRequests - 1
  {
    hide After, AdmittedIn, ClockNeverTurnsBack;
    var k, m, w := user + ":" + tool, l.maxRequests, l.windowMs;
    if n == 0 {
      NothingYet(l, k, 1, hi);
      var first := [] + Burst(l, user, tool, 0, 1);
      calls := first + Burst(l, user, tool, w - 1, m - 1);
      BurstAdmitted(l, [], user, tool, 0, 1, Bucket(0, w), 1, hi);
      LaterKeepsClock([], Burst(l, user, tool, 0, 1), 0);
      BurstAdmitted(l, first, user, tool, w - 1, m - 1, Bucket(1, w), 1, hi);
      LaterKeepsClock(first, Burst(l, user, tool, w - 1, m - 1), w - 1);
      assert m == 1 ==> calls == first;
    } else {
      Scale(w, n - 1, n - 1);
      Scale(w, n, n);
      Scale(w, 1, n);
      Scale(m, n - 1, n - 1);
      var before := WorstRun(l, user, tool, n - 1, hi);
      calls := NextWindow(l, before, user, tool, n * w, 1, hi);
    }
  }

  /** For all options and every n, the bound of AdmissionBound cannot be lowered, even by one limiter alone. */
  lemma BoundIsReached(l: Limits, user: string, tool: string, n: nat) returns (calls: seq<Call>)
    requires user != "" && tool != ""
    ensures ClockNeverTurnsBack(calls) && forall i :: 0 <= i < |calls| ==> calls[i].limits == l
    ensures AdmittedIn(l, calls, user + ":" + tool, 1, 1 + n * l.windowMs) == MaxAdmitted(l, n)
  {
    if l.maxRequests == 0 || l.windowMs <= 0 || n == 0 {
      calls := [];
    } else if l.windowMs == 1 {
      calls := FullMilliseconds(l, user, tool, n, 1 + n);
    } else {
      assert n * l.windowMs == (n - 1) * l.windowMs + l.windowMs >= l.windowMs;
      calls := WorstRun(l, user, tool, n, 1 + n * l.windowMs);
    }
  }

  /**
   * The quota is the most that one window's time lets through only for quotas of
   * at most one request or windows of at most a millisecond.
   */
  lemma QuotaIsBoundIff(l: Limits)
    ensures MaxAdmitted(l, 1) <= l.maxRequests <==> l.maxRequests <= 1 || l.windowMs <= 1
  {
  }

  // ----- Harmful limiters -----------------------------------------------------

  /** What a bucket opened by q leaves for requests through l. */
  function Left(l: Limits, q: Limits): int {
    if q.maxRequests == 0 then l.maxRequests else l.maxRequests - 1
  }

  predicate Through(calls: seq<Call>, l: Limits, q: Limits) {
    forall i :: 0 <= i < |calls| ==> calls[i].limits == l || calls[i].limits == q
  }

  /** r windows of q, each opened by q at its start and filled up through l at its end. */
  lemma {:induction false} HarmfulRounds(
    l: Limits, q: Limits, user: string, tool: string, r: nat, hi: int) returns (calls: seq<Call>)
    requires user != "" && tool != "" && l != q && q.windowMs > 0 && Left(l, q) > 0
    requires r * q.windowMs <= hi
    ensures ClockNeverTurnsBack(calls) && AllBy(calls, r * q.windowMs) && Through(calls, l, q)
    ensures
      var stored := Lookup(After(calls), user + ":" + tool);
      if r == 0 then stored == None else stored == Some(Bucket(l.maxRequests, r * q.windowMs))
    ensures AdmittedIn(l, calls, user + ":" + tool, q.windowMs - 1, hi) == r * Left(l, q)
  {
    hide After, AdmittedIn, ClockNeverTurnsBack;
    var k, w, lo := user + ":" + tool, q.windowMs, q.windowMs - 1;
    if r == 0 {
      calls := [];
      NothingYet(l, k, lo, hi);
    } else {
      assert r * w == (r - 1) * w + w;
      assert (r - 1) * w >= 0;
      var before := HarmfulRounds(l, q, user, tool, r - 1, hi);
      var start := Call(q, Request(Some(user), Some(tool), (r - 1) * w));
      var started := before + [start];
      AddCall(l, before, start, k, lo, hi);
      LaterKeepsClock(before, [start], (r - 1) * w);
      calls := started + Burst(l, user, tool, r * w - 1, Left(l, q));
      BurstAdmitted(l, started, user, tool, r * w - 1, Left(l, q),
                    Bucket(if q.maxRequests == 0 then 0 else 1, r * w), lo, hi);
      LaterKeepsClock(started, Burst(l, user, tool, r * w - 1, Left(l, q)), r * w - 1);
      assert r * Left(l, q) == (r - 1) * Left(l, q) + Left(l, q);
    }
  }

  /** The admissions of limiters with options l respect their bound, in a run of these two limiters. */
  predicate RespectsBound(l: Limits, q: Limits, calls: seq<Call>, k: Key, lo: int, n: nat) {
    ClockNeverTurnsBack(calls) && Through(calls, l, q) ==>
      AdmittedIn(l, calls, k, lo, lo + n * l.windowMs) <= MaxAdmitted(l, n)
  }

  /** Two or three windows of a harmful limiter and a burst at the end. */
  lemma HarmfulVoidsBound(l: Limits, q: Limits, user: string, tool: string)
    returns (calls: seq<Call>, lo: int, n: nat)
    requires user != "" && tool != "" && !Harmless(l, q)
    ensures !RespectsBound(l, q, calls, user + ":" + tool, lo, n)
  {
    hide After, AdmittedIn;
    var m, w, v := l.maxRequests, l.windowMs, q.windowMs;
    var r := if q.maxRequests == 0 then 1 else if v <= w - 2 then 2 else 3;
    n, lo := if r == 3 then 2 else 1, v - 1;
    var hi := lo + n * w;
    assert hi > r * v;
    var before := HarmfulRounds(l, q, user, tool, r, hi);
    calls := before + Burst(l, user, tool, r * v, m);
    assert r * v + w > r * v >= lo;
    BurstAdmitted(l, before, user, tool, r * v, m, Bucket(0, r * v + w), lo, hi);
    LaterKeepsClock(before, Burst(l, user, tool, r * v, m), r * v);
    assert AdmittedIn(l, calls, user + ":" + tool, lo, hi) == r * Left(l, q) + m;
  }

  /** The exact condition: beside a limiter q, the bound of l holds in every run if and only if q is harmless. */
  lemma BoundHoldsIffHarmless(l: Limits, q: Limits)
    ensures (forall calls, k, lo, n :: RespectsBound(l, q, calls, k, lo, n)) <==> Harmless(l, q)
  {
    hide AdmittedIn, MaxAdmitted;
    if Harmless(l, q) {
      forall calls, k, lo, n
        ensures RespectsBound(l, q, calls, k, lo, n)
      {
        if ClockNeverTurnsBack(calls) && Through(calls, l, q) {
          AdmissionBound(l, calls, k, lo, n);
        }
      }
    } else {
      var calls, lo, n := HarmfulVoidsBound(l, q, "u", "t");
    }
  }

  // ----- Waiting, keys ------------------------------------------------------

  /**
   * retryAfter is the least whole number of seconds a refused caller has to
   * wait: with no other request of the key meanwhile, the next one is admitted
   * exactly when at least that many seconds have passed.
   */
  lemma RetryAfterIsExact(l: Limits, buckets: Buckets, r: Request, seconds: nat)
    requires l.maxRequests > 0 && Handle(l, buckets, r).1.Refused?
    ensures
      var (after, decision) := Handle(l, buckets, r);
      Handle(l, after, r.(now := r.now + 1000 * seconds)).1 == Admitted <==> seconds >= decision.retryAfter
  {
    var later := r.(now := r.now + 1000 * seconds);
    assert KeyOf(later) == KeyOf(r);
  }

  function OfKey(calls: seq<Call>, k: Key): seq<Call> {
    if calls == [] then []
    else
      var c := calls[|calls| - 1];
      OfKey(calls[..|calls| - 1], k) + (if Identified(c.request) && KeyOf(c.request) == k then [c] else [])
  }

  /** A request reads and writes no bucket but its own. */
  lemma HandleIsLocal(l: Limits, a: Buckets, b: Buckets, r: Request, k: Key)
    requires Lookup(a, k) == Lookup(b, k)
    ensures Identified(r) && KeyOf(r) == k ==>
              && Handle(l, a, r).1 == Handle(l, b, r).1
              && Lookup(Handle(l, a, r).0, k) == Lookup(Handle(l, b, r).0, k)
    ensures !Identified(r) || KeyOf(r) != k ==> Lookup(Handle(l, a, r).0, k) == Lookup(a, k)
  {
  }

  /** Keys do not disturb each other. */
  lemma {:induction false} KeysAreIndependent(l: Limits, calls: seq<Call>, k: Key, lo: int, hi: int)
    ensures Lookup(After(calls), k) == Lookup(After(OfKey(calls, k)), k)
    ensures AdmittedIn(l, calls, k, lo, hi) == AdmittedIn(l, OfKey(calls, k), k, lo, hi)
  {
    hide Handle, KeyOf, Identified;
    if calls != [] {
      var init, c := calls[..|calls| - 1], calls[|calls| - 1];
      KeysAreIndependent(l, init, k, lo, hi);
      HandleIsLocal(c.limits, After(init), After(OfKey(init, k)), c.request, k);
      assert calls == init + [c];
      AddCall(l, init, c, k, lo, hi);
      if Identified(c.request) && KeyOf(c.request) == k {
        AddCall(l, OfKey(init, k), c, k, lo, hi);
      } else {
        assert OfKey(calls, k) == OfKey(init, k);
      }
    }
  }

  /** A colon strictly inside the user id, or before the end of the tool id. */
  predicate Ambiguous(user: string, tool: string) {
    || (exists p :: 0 < p < |user| && user[p] == ':')
    || (exists q :: 0 <= q < |tool| - 1 && tool[q] == ':')
  }

  /**
   * The limit is meant per (user, tool) pair, but the pair is joined with a
   * colon: a pair shares its bucket with a different pair exactly when one of
   * its ids has a colon in the wrong place.
   */
  lemma PairSharesBucketIffAmbiguous(user: string, tool: string)
    requires user != "" && tool != ""
    ensures Ambiguous(user, tool) <==>
            exists u, t :: u != "" && t != "" && (u, t) != (user, tool) && SameKey(u, t, user, tool)
  {
    var k := user + ":" + tool;
    if p :| 0 < p < |user| && user[p] == ':' {
      CutAt(k, p);
      assert SameKey(k[..p], k[p + 1..], user, tool);
    } else if q :| 0 <= q < |tool| - 1 && tool[q] == ':' {
      CutAt(k, |user| + 1 + q);
      assert SameKey(k[..|user| + 1 + q], k[|user| + 2 + q..], user, tool);
    }
    forall u: string, t: string | u != "" && t != "" && (u, t) != (user, tool) && SameKey(u, t, user, tool)
      ensures Ambiguous(user, tool)
    {
      var j := u + ":" + t;
      assert j[|u|] == ':' && k[|user|] == ':';
      CutsAgree(u, t, user, tool);
      if |u| < |user| {
        assert user[|u|] == k[|u|];
      } else if |u| > |user| {
        assert tool[|u| - |user| - 1] == k[|u|];
      }
    }
  }

  lemma CutsAgree(u: string, t: string, user: string, tool: string)
    requires SameKey(u, t, user, tool)
    ensures |u| == |user| ==> u == user && t == tool
  {
    var k := user + ":" + tool;
    if |u| == |user| {
      assert u == k[..|u|] && user == k[..|u|];
      assert t == k[|u| + 1..] && tool == k[|u| + 1..];
    }
  }

  predicate SameKey(u: string, t: string, user: string, tool: string) {
    u + ":" + t == user + ":" + tool
  }

  lemma CutAt(k: Key, p: nat)
    requires p < |k| && k[p] == ':'
    ensures k[..p] + ":" + k[p + 1..] == k
  {
  }

  // ----- The middleware -----------------------------------------------------

  /** The buckets of the process, shared by every limiter. */
  class BucketStore {
    var buckets: Buckets

    constructor ()
      ensures buckets == map[]
    {
      buckets := map[];
    }
  }

  class ToolRateLimiter {
    const limits: Limits
    const store: BucketStore

    constructor (store: BucketStore, windowMs: Option<int>, maxRequests: Option<nat>)
      ensures this.store == store
      ensures limits == Limits(windowMs.GetOr(60 * 1000), maxRequests.GetOr(100))
    {
      this.store := store;
      limits := Limits(windowMs.GetOr(60 * 1000), maxRequests.GetOr(100));
    }

    method RateLimit(r: Request) returns (decision: Decision)
      modifies store
      ensures (store.buckets, decision) == Handle(limits, old(store.buckets), r)
    {
      if !Identified(r) {
        return Skipped;
      }
      var key := KeyOf(r);
      if key !in store.buckets || r.now >= store.buckets[key].resetAt {
        store.buckets := store.buckets[key := Bucket(0, r.now + limits.windowMs)];
      }
      var bucket := store.buckets[key];
      if bucket.count >= limits.maxRequests {
        decision := Refused(CeilSeconds(bucket.resetAt - r.now));
      } else {
        store.buckets := store.buckets[key := bucket.(count := bucket.count + 1)];
        decision := Admitted;
      }
      assert store.buckets == Handle(limits, old(store.buckets), r).0;
    }
  }
}
