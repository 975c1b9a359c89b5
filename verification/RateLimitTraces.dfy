/** What the rate limiter promises over whole traces of calls. */
module RateLimitTraces {
  import opened RateLimit

  /** One call, in the order in which the calls take the lock. */
  datatype Call = Call(ip: IpAddr, now: Instant)

  type Trace = seq<Call>

  /** In nanoseconds; the theorems speak of minutes, and the limiter of its window. */
  const MINUTE: int := 60_000_000_000

  function Answers(s: Limiter, trace: Trace): (answers: seq<bool>)
    ensures |answers| == |trace|
    decreases |trace|
  {
    if trace == [] then []
    else
      var (next, ok) := Step(s, trace[0].ip, trace[0].now);
      [ok] + Answers(next, trace[1..])
  }

  function KeepAnswers(limit: U32, clients: map<IpAddr, Client>, trace: Trace): (answers: seq<bool>)
    ensures |answers| == |trace|
    decreases |trace|
  {
    if trace == [] then []
    else
      var (next, ok) := KeepStep(limit, clients, trace[0].ip, trace[0].now);
      [ok] + KeepAnswers(limit, next, trace[1..])
  }

  function Final(s: Limiter, trace: Trace): Limiter
    decreases |trace|
  {
    if trace == [] then s else Final(Step(s, trace[0].ip, trace[0].now).0, trace[1..])
  }

  /** No reading lies more than `skew` before one that took the lock earlier. */
  ghost predicate SkewAtMost(trace: Trace, skew: nat) {
    forall i, j :: 0 <= i < j < |trace| ==> trace[j].now >= trace[i].now - skew
  }

  ghost predicate ClockNonDecreasing(trace: Trace) {
    forall i, j :: 0 <= i < j < |trace| ==> trace[i].now <= trace[j].now
  }

  // ---------- Cleanup is invisible ----------

  function Max(x: int, y: int): int { if x >= y then x else y }

  /** The evicting and the never-evicting limiter, when `latest` is the largest reading so far. */
  ghost predicate Coupled(s: Limiter, kept: map<IpAddr, Client>, latest: Instant, skew: nat) {
    && (forall ip :: ip in s.clients ==> ip in kept && s.clients[ip] == kept[ip])
    && (forall ip :: ip in kept ==> kept[ip].windowStart <= kept[ip].lastSeen + skew && kept[ip].windowStart <= latest)
    && (forall ip :: ip in kept && ip !in s.clients ==> latest - skew - kept[ip].windowStart >= WINDOW)
  }

  lemma CoupledStep(s: Limiter, kept: map<IpAddr, Client>, latest: Instant, skew: nat, call: Call)
    requires Coupled(s, kept, latest, skew) && 2 * skew <= WINDOW
    requires call.now >= latest - skew
    ensures Step(s, call.ip, call.now).1 == KeepStep(s.limit, kept, call.ip, call.now).1
    ensures Coupled(Step(s, call.ip, call.now).0, KeepStep(s.limit, kept, call.ip, call.now).0, Max(latest, call.now),
      skew)
  {
    var swept := Sweep(s, call.now);
    assert Coupled(swept, kept, Max(latest, call.now), skew);
    if call.ip in kept && call.ip !in swept.clients {
      assert DurationSince(call.now, kept[call.ip].windowStart) >= WINDOW;
    }
  }

  lemma {:induction false} CoupledAnswers(s: Limiter, kept: map<IpAddr, Client>, latest: Instant, skew: nat,
                                          trace: Trace)
    requires Coupled(s, kept, latest, skew) && 2 * skew <= WINDOW
    requires SkewAtMost(trace, skew)
    requires forall i :: 0 <= i < |trace| ==> trace[i].now >= latest - skew
    ensures Answers(s, trace) == KeepAnswers(s.limit, kept, trace)
    decreases |trace|
  {
    if trace != [] {
      CoupledStep(s, kept, latest, skew, trace[0]);
      CoupledAnswers(Step(s, trace[0].ip, trace[0].now).0, KeepStep(s.limit, kept, trace[0].ip, trace[0].now).0,
                     Max(latest, trace[0].now), skew, trace[1..]);
    }
  }

  /** Readings at most half a window out of order: eviction never changes an answer. */
  lemma CleanupInvisible(limit: U32, start: Instant, skew: nat, trace: Trace)
    requires 2 * skew <= MINUTE && SkewAtMost(trace, skew)
    ensures Answers(New(limit, start), trace) == KeepAnswers(limit, map[], trace)
  {
    if trace != [] {
      CoupledAnswers(New(limit, start), map[], trace[0].now, skew, trace);
    }
  }

  /** A client seen at `skew` and then at 0 is swept at two windows and returns at two windows less `skew`. */
  function SweptTooSoon(skew: nat): Trace {
    [Call(V4(1), skew), Call(V4(1), 0), Call(V4(2), 2 * WINDOW), Call(V4(1), 2 * WINDOW - skew)]
  }

  lemma CleanupVisible(skew: nat)
    requires WINDOW < 2 * skew && skew <= WINDOW
    ensures SkewAtMost(SweptTooSoon(skew), skew)
    ensures Answers(New(1, 0), SweptTooSoon(skew)) != KeepAnswers(1, map[], SweptTooSoon(skew))
  {
    var trace := SweptTooSoon(skew);
    var a1, b1 := Client(skew, 1, skew), Client(skew, 1, 0);
    var s1 := Step(New(1, 0), V4(1), skew).0;
    assert s1.clients == map[V4(1) := a1];
    var s2 := Step(s1, V4(1), 0).0;
    assert s2.clients == map[V4(1) := b1];
    var s3 := Step(s2, V4(2), 2 * WINDOW).0;
    assert V4(1) !in s3.clients;
    assert Step(s3, V4(1), 2 * WINDOW - skew).1;
    var k1 := KeepStep(1, map[], V4(1), skew).0;
    assert k1 == map[V4(1) := a1];
    var k2 := KeepStep(1, k1, V4(1), 0).0;
    assert k2 == map[V4(1) := b1];
    var k3 := KeepStep(1, k2, V4(2), 2 * WINDOW).0;
    assert k3[V4(1)] == b1;
    assert !KeepStep(1, k3, V4(1), 2 * WINDOW - skew).1;
    FourAnswers(New(1, 0), trace);
    FourKept(1, map[], trace);
  }

  lemma FourAnswers(s: Limiter, t: Trace)
    requires |t| == 4
    ensures var s1 := Step(s, t[0].ip, t[0].now).0;
            var s2 := Step(s1, t[1].ip, t[1].now).0;
            var s3 := Step(s2, t[2].ip, t[2].now).0;
            Answers(s, t)[3] == Step(s3, t[3].ip, t[3].now).1
  {
    var s1 := Step(s, t[0].ip, t[0].now).0;
    var s2 := Step(s1, t[1].ip, t[1].now).0;
    var s3 := Step(s2, t[2].ip, t[2].now).0;
    assert Answers(s, t)[3] == Answers(s1, t[1..])[2];
    assert t[1..][1..] == t[2..] && t[2..][1..] == t[3..];
    assert Answers(s1, t[1..])[2] == Answers(s2, t[2..])[1];
    assert Answers(s2, t[2..])[1] == Answers(s3, t[3..])[0];
  }

  lemma FourKept(limit: U32, k: map<IpAddr, Client>, t: Trace)
    requires |t| == 4
    ensures var k1 := KeepStep(limit, k, t[0].ip, t[0].now).0;
            var k2 := KeepStep(limit, k1, t[1].ip, t[1].now).0;
            var k3 := KeepStep(limit, k2, t[2].ip, t[2].now).0;
            KeepAnswers(limit, k, t)[3] == KeepStep(limit, k3, t[3].ip, t[3].now).1
  {
    var k1 := KeepStep(limit, k, t[0].ip, t[0].now).0;
    var k2 := KeepStep(limit, k1, t[1].ip, t[1].now).0;
    var k3 := KeepStep(limit, k2, t[2].ip, t[2].now).0;
    assert KeepAnswers(limit, k, t)[3] == KeepAnswers(limit, k1, t[1..])[2];
    assert t[1..][1..] == t[2..] && t[2..][1..] == t[3..];
    assert KeepAnswers(limit, k1, t[1..])[2] == KeepAnswers(limit, k2, t[2..])[1];
    assert KeepAnswers(limit, k2, t[2..])[1] == KeepAnswers(limit, k3, t[3..])[0];
  }

  ghost predicate InvisibleUnderSkew(skew: nat) {
    forall limit: U32, start: Instant, trace: Trace :: SkewAtMost(trace, skew) ==>
      Answers(New(limit, start), trace) == KeepAnswers(limit, map[], trace)
  }

  /** Half a window is exactly the disorder that the 120 s eviction age tolerates. */
  lemma CleanupInvisibleIff(skew: nat)
    ensures InvisibleUnderSkew(skew) <==> 2 * skew <= MINUTE
  {
    if 2 * skew <= WINDOW {
      forall limit: U32, start: Instant, trace: Trace | SkewAtMost(trace, skew)
        ensures Answers(New(limit, start), trace) == KeepAnswers(limit, map[], trace)
      {
        CleanupInvisible(limit, start, skew, trace);
      }
    } else {
      var least := WINDOW / 2 + 1;
      CleanupVisible(least);
      assert SkewAtMost(SweptTooSoon(least), skew);
    }
  }

  // ---------- How many calls get through ----------

  ghost predicate Within(call: Call, ip: IpAddr, lo: Instant, hi: Instant) {
    call.ip == ip && lo <= call.now < hi
  }

  ghost function CallsIn(trace: Trace, ip: IpAddr, lo: Instant, hi: Instant): nat {
    if trace == [] then 0 else (if Within(trace[0], ip, lo, hi) then 1 else 0) + CallsIn(trace[1..], ip, lo, hi)
  }

  ghost function AllowedIn(trace: Trace, answers: seq<bool>, ip: IpAddr, lo: Instant, hi: Instant): nat
    requires |answers| == |trace|
  {
    if trace == [] then 0
    else (if Within(trace[0], ip, lo, hi) && answers[0] then 1 else 0) + AllowedIn(trace[1..], answers[1..], ip, lo, hi)
  }

  lemma {:induction false} NothingAfter(trace: Trace, answers: seq<bool>, ip: IpAddr, lo: Instant, hi: Instant)
    requires |answers| == |trace|
    requires forall i :: 0 <= i < |trace| ==> trace[i].now >= hi
    ensures AllowedIn(trace, answers, ip, lo, hi) == 0
  {
    if trace != [] {
      NothingAfter(trace[1..], answers[1..], ip, lo, hi);
    }
  }

  lemma AllowedUnfold(limit: U32, kept: map<IpAddr, Client>, trace: Trace, ip: IpAddr, lo: Instant, hi: Instant)
    requires trace != []
    ensures var (next, ok) := KeepStep(limit, kept, trace[0].ip, trace[0].now);
      AllowedIn(trace, KeepAnswers(limit, kept, trace), ip, lo, hi)
        == (if Within(trace[0], ip, lo, hi) && ok then 1 else 0)
           + AllowedIn(trace[1..], KeepAnswers(limit, next, trace[1..]), ip, lo, hi)
  {
    var next := KeepStep(limit, kept, trace[0].ip, trace[0].now).0;
    assert KeepAnswers(limit, kept, trace)[1..] == KeepAnswers(limit, next, trace[1..]);
  }

  /**
   The client is known, its count is within the limit, and no later call precedes its window by more than the skew.
   */
  ghost predicate Tracked(limit: U32, kept: map<IpAddr, Client>, ip: IpAddr, trace: Trace, skew: nat) {
    && ip in kept
    && kept[ip].requests <= limit
    && (forall i :: 0 <= i < |trace| ==> trace[i].now >= kept[ip].windowStart - skew)
  }

  /** Calls that arrive after a window has opened, with readings from before it: at most the rest of that window. */
  function LateCalls(limit: nat, skew: nat): nat {
    if skew <= 1 || limit == 0 then 0 else limit - 1
  }

  /** The late calls of a window that opens at `opens` or later, beyond `hi`. */
  function LateAfter(limit: nat, skew: nat, hi: Instant, opens: Instant): nat {
    if opens - hi >= skew || limit == 0 then 0 else limit - 1
  }

  /** From a window that opened at `hi` or later, only late calls still count. */
  lemma {:induction false} BoundFromLateWindow(limit: U32, kept: map<IpAddr, Client>, trace: Trace, ip: IpAddr,
                                               lo: Instant, hi: Instant, skew: nat)
    requires limit > 0 && skew <= WINDOW && Tracked(limit, kept, ip, trace, skew) && SkewAtMost(trace, skew)
    requires kept[ip].windowStart >= hi
    ensures AllowedIn(trace, KeepAnswers(limit, kept, trace), ip, lo, hi)
         <= if kept[ip].windowStart - hi >= skew then 0 else limit - kept[ip].requests
    decreases |trace|
  {
    if trace != [] {
      if kept[ip].windowStart - hi >= skew || (trace[0].ip == ip && trace[0].now - kept[ip].windowStart >= WINDOW) {
        NothingAfter(trace, KeepAnswers(limit, kept, trace), ip, lo, hi);
      } else {
        AllowedUnfold(limit, kept, trace, ip, lo, hi);
        BoundFromLateWindow(limit, KeepStep(limit, kept, trace[0].ip, trace[0].now).0, trace[1..], ip, lo, hi, skew);
      }
    }
  }

  /** From a window that leaves room for `more` further windows before `hi`. */
  lemma {:induction false} BoundFromOpenWindow(limit: U32, kept: map<IpAddr, Client>, trace: Trace, ip: IpAddr,
                                               lo: Instant, hi: Instant, more: nat, skew: nat)
    requires limit > 0 && skew <= WINDOW && Tracked(limit, kept, ip, trace, skew) && SkewAtMost(trace, skew)
    requires kept[ip].windowStart + (more + 1) * WINDOW >= hi
    ensures AllowedIn(trace, KeepAnswers(limit, kept, trace), ip, lo, hi)
         <= limit - kept[ip].requests + Quota(more, limit)
            + LateAfter(limit, skew, hi, kept[ip].windowStart + (more + 1) * WINDOW)
    decreases |trace|
  {
    if trace != [] {
      var next := KeepStep(limit, kept, trace[0].ip, trace[0].now).0;
      AllowedUnfold(limit, kept, trace, ip, lo, hi);
      if trace[0].ip == ip && trace[0].now - kept[ip].windowStart >= WINDOW {
        if trace[0].now >= hi {
          BoundFromLateWindow(limit, next, trace[1..], ip, lo, hi, skew);
        } else {
          BoundFromOpenWindow(limit, next, trace[1..], ip, lo, hi, more - 1, skew);
        }
      } else {
        BoundFromOpenWindow(limit, next, trace[1..], ip, lo, hi, more, skew);
      }
    }
  }

  /** The client, if known, is in a window opened before `lo` by a request that the interval does not contain. */
  ghost predicate OpenedBefore(limit: U32, kept: map<IpAddr, Client>, ip: IpAddr, trace: Trace, lo: Instant,
                               skew: nat) {
    ip in kept ==> Tracked(limit, kept, ip, trace, skew) && kept[ip].windowStart < lo && kept[ip].requests >= 1
  }

  /** What a window opened before `lo` may still let through after `lo`. */
  function Room(limit: nat, kept: map<IpAddr, Client>, ip: IpAddr, lo: Instant): int {
    if ip in kept && kept[ip].windowStart + WINDOW > lo then limit - kept[ip].requests else limit - 1
  }

  lemma {:induction false} BoundFromStart(limit: U32, kept: map<IpAddr, Client>, trace: Trace, ip: IpAddr,
                                          lo: Instant, windows: nat, skew: nat)
    requires limit > 0 && skew <= WINDOW && SkewAtMost(trace, skew) && OpenedBefore(limit, kept, ip, trace, lo, skew)
    ensures AllowedIn(trace, KeepAnswers(limit, kept, trace), ip, lo, lo + windows * WINDOW)
         <= Room(limit, kept, ip, lo) + Quota(windows, limit) + LateCalls(limit, skew)
    decreases |trace|
  {
    if trace != [] {
      var next, hi := KeepStep(limit, kept, trace[0].ip, trace[0].now).0, lo + windows * WINDOW;
      AllowedUnfold(limit, kept, trace, ip, lo, hi);
      if trace[0].ip != ip || next[ip].windowStart < lo {
        BoundFromStart(limit, next, trace[1..], ip, lo, windows, skew);
      } else if next[ip].windowStart >= hi {
        BoundFromLateWindow(limit, next, trace[1..], ip, lo, hi, skew);
      } else {
        BoundFromOpenWindow(limit, next, trace[1..], ip, lo, hi, windows - 1, skew);
      }
    }
  }

  /** `windows * limit`, by repeated addition. */
  function Quota(windows: nat, limit: nat): nat {
    if windows == 0 then 0 else limit + Quota(windows - 1, limit)
  }

  lemma {:induction false} QuotaIsProduct(windows: nat, limit: nat)
    ensures Quota(windows, limit) == windows * limit
  {
    if windows > 0 {
      QuotaIsProduct(windows - 1, limit);
    }
  }

  /**
   A half-open interval of `windows` minutes lets fewer than `(windows + 1) * limit` calls of one client through, as its
   clock readings have it; if readings may be out of order by more than one nanosecond, the late calls of one more
   window come on top.
   */
  lemma RateBound(limit: U32, start: Instant, skew: nat, trace: Trace, ip: IpAddr, lo: Instant, windows: nat)
    requires 2 * skew <= MINUTE && SkewAtMost(trace, skew)
    ensures AllowedIn(trace, Answers(New(limit, start), trace), ip, lo, lo + windows * MINUTE)
         <= if limit == 0 then 0 else (windows + 1) * limit - 1 + LateCalls(limit, skew)
  {
    CleanupInvisible(limit, start, skew, trace);
    if limit == 0 {
      ZeroLimitAdmitsNothing(trace, ip, lo, lo + windows * WINDOW);
    } else {
      BoundFromStart(limit, map[], trace, ip, lo, windows, skew);
      QuotaIsProduct(windows, limit);
      assert (windows + 1) * limit == windows * limit + limit;
    }
  }

  lemma {:induction false} ZeroLimitAdmitsNothing(trace: Trace, ip: IpAddr, lo: Instant, hi: Instant)
    ensures AllowedIn(trace, KeepAnswers(0, map[], trace), ip, lo, hi) == 0
  {
    if trace != [] {
      ZeroLimitAdmitsNothing(trace[1..], ip, lo, hi);
    }
  }

  // ---------- The bound is attained ----------

  function Repeat(call: Call, n: nat): Trace {
    seq(n, _ => call)
  }

  /** One full burst at the start of each of `windows` windows. */
  function Bursts(limit: U32, ip: IpAddr, at: Instant, windows: nat): Trace
    decreases windows
  {
    if windows == 0 then [] else Repeat(Call(ip, at), limit) + Bursts(limit, ip, at + WINDOW, windows - 1)
  }

  /** A window opened by one call, spent just before it closes, then `windows` bursts. */
  function Worst(limit: U32, ip: IpAddr, windows: nat): Trace
    requires limit > 0
  {
    [Call(ip, 0)] + Repeat(Call(ip, WINDOW - 1), limit - 1) + Bursts(limit, ip, WINDOW, windows)
  }

  /** One more window, whose other calls read the clock two nanoseconds before it opened. */
  function Stragglers(limit: U32, ip: IpAddr, windows: nat, skew: nat): Trace
    requires limit > 0
  {
    if skew <= 1 then []
      else [Call(ip, (windows + 1) * WINDOW)] + Repeat(Call(ip, (windows + 1) * WINDOW - 2), limit - 1)
  }

  lemma {:induction false} BurstTimes(limit: U32, ip: IpAddr, at: Instant, windows: nat)
    ensures ClockNonDecreasing(Bursts(limit, ip, at, windows))
    ensures forall c :: c in Bursts(limit, ip, at, windows) ==> c.ip == ip && at <= c.now < at + windows * WINDOW
    decreases windows
  {
    if windows > 0 {
      BurstTimes(limit, ip, at + WINDOW, windows - 1);
      var rest := Bursts(limit, ip, at + WINDOW, windows - 1);
      assert forall i :: 0 <= i < |rest| ==> rest[i] in rest;
    }
  }

  /** `n` more calls that fit into the open window are all let through. */
  lemma {:induction false} BurstAdmitted(limit: U32, kept: map<IpAddr, Client>, call: Call, n: nat, rest: Trace,
                                         lo: Instant, hi: Instant)
    requires limit > 0 && lo <= call.now < hi
    requires call.ip in kept && call.now - kept[call.ip].windowStart < WINDOW
    requires kept[call.ip].requests + n <= limit
    ensures AllowedIn(Repeat(call, n) + rest, KeepAnswers(limit, kept, Repeat(call, n) + rest), call.ip, lo, hi)
         == n + AllowedIn(rest, KeepAnswers(limit, AfterBurst(kept, call, n), rest), call.ip, lo, hi)
    decreases n
  {
    var trace := Repeat(call, n) + rest;
    if n == 0 {
      assert trace == rest;
    } else {
      var next := KeepStep(limit, kept, call.ip, call.now).0;
      assert trace[0] == call && trace[1..] == Repeat(call, n - 1) + rest;
      BurstAdmitted(limit, next, call, n - 1, rest, lo, hi);
      assert AfterBurst(next, call, n - 1) == AfterBurst(kept, call, n);
    }
  }

  function AfterBurst(kept: map<IpAddr, Client>, call: Call, n: nat): map<IpAddr, Client>
    requires call.ip in kept && kept[call.ip].requests + n < 0x1_0000_0000
  {
    if n == 0 then kept
    else kept[call.ip := Client(kept[call.ip].windowStart, kept[call.ip].requests + n, call.now)]
  }

  function AfterBursts(limit: U32, kept: map<IpAddr, Client>, ip: IpAddr, at: Instant,
                       windows: nat): map<IpAddr, Client>
    requires limit > 0
    decreases windows
  {
    if windows == 0 then kept else AfterBursts(limit, kept[ip := Client(at, limit, at)], ip, at + WINDOW, windows - 1)
  }

  lemma {:induction false} AfterBurstsWindow(limit: U32, kept: map<IpAddr, Client>, ip: IpAddr, at: Instant,
                                             windows: nat)
    requires limit > 0
    ensures AfterBursts(limit, kept, ip, at, windows)
         == if windows == 0 then kept
           else kept[ip := Client(at + (windows - 1) * WINDOW, limit, at + (windows - 1) * WINDOW)]
    decreases windows
  {
    if windows > 0 {
      AfterBurstsWindow(limit, kept[ip := Client(at, limit, at)], ip, at + WINDOW, windows - 1);
    }
  }

  /** A burst opens a window and fills it. */
  lemma BurstAtStart(limit: U32, kept: map<IpAddr, Client>, ip: IpAddr, at: Instant, rest: Trace, lo: Instant,
                     hi: Instant)
    requires limit > 0 && lo <= at < hi && ip in kept && at - kept[ip].windowStart >= WINDOW
    ensures var burst := Repeat(Call(ip, at), limit);
      AllowedIn(burst + rest, KeepAnswers(limit, kept, burst + rest), ip, lo, hi)
        == limit + AllowedIn(rest, KeepAnswers(limit, kept[ip := Client(at, limit, at)], rest), ip, lo, hi)
  {
    var trace := Repeat(Call(ip, at), limit) + rest;
    var next := KeepStep(limit, kept, ip, at).0;
    assert trace[0] == Call(ip, at) && trace[1..] == Repeat(Call(ip, at), limit - 1) + rest;
    AllowedUnfold(limit, kept, trace, ip, lo, hi);
    BurstAdmitted(limit, next, Call(ip, at), limit - 1, rest, lo, hi);
    assert AfterBurst(next, Call(ip, at), limit - 1) == kept[ip := Client(at, limit, at)];
  }

  lemma {:induction false} BurstsAdmitted(limit: U32, kept: map<IpAddr, Client>, ip: IpAddr, at: Instant, windows: nat,
                                          rest: Trace,
                                          lo: Instant, hi: Instant)
    requires limit > 0 && lo <= at && (windows > 0 ==> at + (windows - 1) * WINDOW < hi)
    requires ip in kept && at - kept[ip].windowStart >= WINDOW
    ensures var trace := Bursts(limit, ip, at, windows) + rest;
      AllowedIn(trace, KeepAnswers(limit, kept, trace), ip, lo, hi)
        == Quota(windows, limit) + AllowedIn(rest, KeepAnswers(limit, AfterBursts(limit, kept, ip, at, windows), rest),
          ip, lo, hi)
    decreases windows
  {
    var trace := Bursts(limit, ip, at, windows) + rest;
    if windows == 0 {
      assert trace == rest;
    } else {
      var later := Bursts(limit, ip, at + WINDOW, windows - 1) + rest;
      assert trace == Repeat(Call(ip, at), limit) + later;
      BurstAtStart(limit, kept, ip, at, later, lo, hi);
      BurstsAdmitted(limit, kept[ip := Client(at, limit, at)], ip, at + WINDOW, windows - 1, rest, lo, hi);
    }
  }

  /** The late calls of the last window count, although it opened after the interval. */
  lemma StragglersAdmitted(limit: U32, kept: map<IpAddr, Client>, ip: IpAddr, windows: nat, skew: nat, lo: Instant)
    requires limit > 0 && ip in kept && kept[ip].windowStart == windows * WINDOW && lo <= (windows + 1) * WINDOW - 2
    ensures var trace := Stragglers(limit, ip, windows, skew);
      AllowedIn(trace, KeepAnswers(limit, kept, trace), ip, lo, (windows + 1) * WINDOW - 1) == LateCalls(limit, skew)
  {
    if skew > 1 {
      var trace, hi, late := Stragglers(limit, ip, windows, skew), (windows + 1) * WINDOW - 1,
          Call(ip, (windows + 1) * WINDOW - 2);
      var next := KeepStep(limit, kept, ip, (windows + 1) * WINDOW).0;
      assert trace[0] == Call(ip, (windows + 1) * WINDOW) && trace[1..] == Repeat(late, limit - 1) + [];
      AllowedUnfold(limit, kept, trace, ip, lo, hi);
      BurstAdmitted(limit, next, late, limit - 1, [], lo, hi);
    }
  }

  lemma WorstIsOrdered(limit: U32, ip: IpAddr, windows: nat, skew: nat)
    requires limit > 0
    ensures SkewAtMost(Worst(limit, ip, windows) + Stragglers(limit, ip, windows, skew), skew)
  {
    var bursts, late := Bursts(limit, ip, WINDOW, windows), Stragglers(limit, ip, windows, skew);
    BurstTimes(limit, ip, WINDOW, windows);
    assert forall i :: 0 <= i < |bursts| ==> bursts[i] in bursts;
    assert forall i :: 0 <= i < |late| ==> late[i].now >= (windows + 1) * WINDOW - 2;
    assert forall i :: 0 <= i < |late| ==> late[i].now <= (windows + 1) * WINDOW;
  }

  lemma BurstsAndStragglers(limit: U32, kept: map<IpAddr, Client>, ip: IpAddr, windows: nat, skew: nat)
    requires limit > 0 && windows > 0 && ip in kept && kept[ip].windowStart == 0
    ensures var trace := Bursts(limit, ip, WINDOW, windows) + Stragglers(limit, ip, windows, skew);
      AllowedIn(trace, KeepAnswers(limit, kept, trace), ip, WINDOW - 1, (windows + 1) * WINDOW - 1)
        == Quota(windows, limit) + LateCalls(limit, skew)
  {
    var late, lo, hi := Stragglers(limit, ip, windows, skew), WINDOW - 1, (windows + 1) * WINDOW - 1;
    BurstsAdmitted(limit, kept, ip, WINDOW, windows, late, lo, hi);
    AfterBurstsWindow(limit, kept, ip, WINDOW, windows);
    StragglersAdmitted(limit, AfterBursts(limit, kept, ip, WINDOW, windows), ip, windows, skew, lo);
  }

  lemma WorstAdmitted(limit: U32, ip: IpAddr, windows: nat, skew: nat)
    requires limit > 0 && windows > 0
    ensures var trace := Worst(limit, ip, windows) + Stragglers(limit, ip, windows, skew);
      AllowedIn(trace, KeepAnswers(limit, map[], trace), ip, WINDOW - 1, (windows + 1) * WINDOW - 1)
        == limit - 1 + Quota(windows, limit) + LateCalls(limit, skew)
  {
    var lo, hi := WINDOW - 1, (windows + 1) * WINDOW - 1;
    var trace := Worst(limit, ip, windows) + Stragglers(limit, ip, windows, skew);
    var last, tail := Call(ip, WINDOW - 1), Bursts(limit, ip, WINDOW, windows) + Stragglers(limit, ip, windows, skew);
    var next := KeepStep(limit, map[], ip, 0).0;
    assert trace[0] == Call(ip, 0) && trace[1..] == Repeat(last, limit - 1) + tail;
    AllowedUnfold(limit, map[], trace, ip, lo, hi);
    BurstAdmitted(limit, next, last, limit - 1, tail, lo, hi);
    BurstsAndStragglers(limit, AfterBurst(next, last, limit - 1), ip, windows, skew);
  }

  /** `RateBound` cannot be improved, for any positive limit and number of windows, in order or out of order. */
  lemma RateBoundAttained(limit: U32, start: Instant, skew: nat, ip: IpAddr, windows: nat)
    requires limit > 0 && windows > 0 && 2 * skew <= MINUTE
    ensures var trace := Worst(limit, ip, windows) + Stragglers(limit, ip, windows, skew);
      && SkewAtMost(trace, skew)
      && AllowedIn(trace, Answers(New(limit, start), trace), ip, MINUTE - 1, MINUTE - 1 + windows * MINUTE)
           == (windows + 1) * limit - 1 + LateCalls(limit, skew)
  {
    WorstIsOrdered(limit, ip, windows, skew);
    CleanupInvisible(limit, start, skew, Worst(limit, ip, windows) + Stragglers(limit, ip, windows, skew));
    WorstAdmitted(limit, ip, windows, skew);
    QuotaIsProduct(windows, limit);
    assert (windows + 1) * limit == windows * limit + limit;
    assert WINDOW - 1 + windows * WINDOW == (windows + 1) * WINDOW - 1;
  }

  // ---------- Who is never refused ----------

  /** At most `limit` calls of this client in any half-open minute. */
  ghost predicate Moderate(limit: U32, trace: Trace, ip: IpAddr) {
    forall lo: Instant :: CallsInMinute(trace, ip, lo) <= limit
  }

  ghost function CallsInMinute(trace: Trace, ip: IpAddr, lo: Instant): nat {
    CallsIn(trace, ip, lo, lo + MINUTE)
  }

  lemma {:induction false} CallsInSplit(left: Trace, right: Trace, ip: IpAddr, lo: Instant, hi: Instant)
    ensures CallsIn(left + right, ip, lo, hi) == CallsIn(left, ip, lo, hi) + CallsIn(right, ip, lo, hi)
  {
    if left == [] {
      assert left + right == right;
    } else {
      assert (left + right)[1..] == left[1..] + right;
      CallsInSplit(left[1..], right, ip, lo, hi);
    }
  }

  lemma {:induction false} ModerateFrom(limit: U32, kept: map<IpAddr, Client>, past: Trace, trace: Trace, ip: IpAddr)
    requires limit > 0 && Moderate(limit, past + trace, ip) && ClockNonDecreasing(trace)
    requires ip in kept ==>
      && kept[ip].requests <= CallsInMinute(past, ip, kept[ip].windowStart)
      && (forall i :: 0 <= i < |trace| ==> kept[ip].windowStart <= trace[i].now)
    ensures forall i :: 0 <= i < |trace| && trace[i].ip == ip ==> KeepAnswers(limit, kept, trace)[i]
    decreases |trace|
  {
    if trace != [] {
      var call := trace[0];
      var (next, ok) := KeepStep(limit, kept, call.ip, call.now);
      assert past + [call] + trace[1..] == past + trace;
      if ip in next {
        var start := next[ip].windowStart;
        CallsInSplit(past, [call], ip, start, start + WINDOW);
        CallsInSplit(past + [call], trace[1..], ip, start, start + WINDOW);
        assert CallsIn([call], ip, start, start + WINDOW) == if call.ip == ip then 1
          else CallsIn([call], ip, start, start + WINDOW);
        assert CallsInMinute(past + trace, ip, start) <= limit;
      }
      assert call.ip == ip ==> ok;
      ModerateFrom(limit, next, past + [call], trace[1..], ip);
      forall i | 0 <= i < |trace| && trace[i].ip == ip ensures KeepAnswers(limit, kept, trace)[i] {
        if i > 0 {
          assert trace[1..][i - 1] == trace[i];
        }
      }
    }
  }

  /** A client that stays within the limit in every minute is never refused, whatever the others do. */
  lemma ModerateNeverRefused(limit: U32, start: Instant, trace: Trace, ip: IpAddr)
    requires limit > 0 && ClockNonDecreasing(trace) && Moderate(limit, trace, ip)
    ensures forall i :: 0 <= i < |trace| && trace[i].ip == ip ==> Answers(New(limit, start), trace)[i]
  {
    CleanupInvisible(limit, start, 0, trace);
    assert [] + trace == trace;
    ModerateFrom(limit, map[], [], trace, ip);
  }

  ghost predicate Served(limit: U32, start: Instant, trace: Trace, ip: IpAddr) {
    forall i :: 0 <= i < |trace| && trace[i].ip == ip ==> Answers(New(limit, start), trace)[i]
  }

  /** Moderate clients are always served, if readings are at most `skew` out of order. */
  ghost predicate ModerateServed(limit: U32, skew: nat) {
    forall start: Instant, trace: Trace, ip: IpAddr :: SkewAtMost(trace, skew) && Moderate(limit, trace, ip) ==>
      Served(limit, start, trace, ip)
  }

  lemma {:induction false} CountsOne(trace: Trace, ip: IpAddr, lo: Instant, hi: Instant, i: nat)
    requires i < |trace| && Within(trace[i], ip, lo, hi)
    ensures CallsIn(trace, ip, lo, hi) >= 1
  {
    if i > 0 {
      CountsOne(trace[1..], ip, lo, hi, i - 1);
    }
  }

  lemma {:induction false} CountsTwo(trace: Trace, ip: IpAddr, lo: Instant, hi: Instant, i: nat, j: nat)
    requires i < j < |trace| && Within(trace[i], ip, lo, hi) && Within(trace[j], ip, lo, hi)
    ensures CallsIn(trace, ip, lo, hi) >= 2
  {
    if i == 0 {
      CountsOne(trace[1..], ip, lo, hi, j - 1);
    } else {
      CountsTwo(trace[1..], ip, lo, hi, i - 1, j - 1);
    }
  }

  lemma ZeroIsSilent(start: Instant, trace: Trace, ip: IpAddr)
    requires Moderate(0, trace, ip)
    ensures Served(0, start, trace, ip)
  {
    forall i | 0 <= i < |trace| ensures trace[i].ip != ip {
      if trace[i].ip == ip {
        assert CallsInMinute(trace, ip, trace[i].now) <= 0;
        CountsOne(trace, ip, trace[i].now, trace[i].now + WINDOW, i);
        assert false;
      }
    }
  }

  /** Every call of the client comes at least a window after its previous one. */
  ghost predicate Apart(trace: Trace, ip: IpAddr) {
    forall i, j :: 0 <= i < j < |trace| && trace[i].ip == ip && trace[j].ip == ip ==>
      trace[j].now >= trace[i].now + WINDOW
  }

  lemma OneIsApart(skew: nat, trace: Trace, ip: IpAddr)
    requires skew < WINDOW && SkewAtMost(trace, skew) && Moderate(1, trace, ip)
    ensures Apart(trace, ip)
  {
    forall i, j | 0 <= i < j < |trace| && trace[i].ip == ip && trace[j].ip == ip
      ensures trace[j].now >= trace[i].now + WINDOW {
      if trace[j].now < trace[i].now + WINDOW {
        var lo := if trace[i].now <= trace[j].now then trace[i].now else trace[j].now;
        assert CallsInMinute(trace, ip, lo) <= 1;
        CountsTwo(trace, ip, lo, lo + WINDOW, i, j);
        assert false;
      }
    }
  }

  /** Whether or not it is evicted in between, each call finds its window over. */
  lemma {:induction false} ApartIsServed(s: Limiter, trace: Trace, ip: IpAddr)
    requires s.limit == 1 && Apart(trace, ip)
    requires ip in s.clients ==>
      forall i :: 0 <= i < |trace| && trace[i].ip == ip ==> trace[i].now >= s.clients[ip].windowStart + WINDOW
    ensures forall i :: 0 <= i < |trace| && trace[i].ip == ip ==> Answers(s, trace)[i]
    decreases |trace|
  {
    if trace != [] {
      ApartIsServed(Step(s, trace[0].ip, trace[0].now).0, trace[1..], ip);
      forall i | 0 < i < |trace| && trace[i].ip == ip ensures Answers(s, trace)[i] {
        assert trace[1..][i - 1] == trace[i];
      }
    }
  }

  /**
   A window opened one nanosecond ahead, filled by late calls, and one call before it closes: no minute has them all.
   */
  function Early(limit: U32, ip: IpAddr): Trace
    requires limit >= 2
  {
    [Call(ip, 1)] + Repeat(Call(ip, 0), limit - 1) + [Call(ip, WINDOW)]
  }

  lemma {:induction false} RepeatCounts(call: Call, n: nat, ip: IpAddr, lo: Instant, hi: Instant)
    ensures CallsIn(Repeat(call, n), ip, lo, hi) == if Within(call, ip, lo, hi) then n else 0
  {
    if n > 0 {
      assert Repeat(call, n)[1..] == Repeat(call, n - 1);
      RepeatCounts(call, n - 1, ip, lo, hi);
    }
  }

  lemma EarlyCounts(limit: U32, ip: IpAddr, lo: Instant, hi: Instant)
    requires limit >= 2
    ensures CallsIn(Early(limit, ip), ip, lo, hi)
         == (if lo <= 1 < hi then 1 else 0) + (if lo <= 0 < hi then limit - 1 else 0)
            + if lo <= WINDOW < hi then 1 else 0
  {
    var late := Repeat(Call(ip, 0), limit - 1);
    CallsInSplit([Call(ip, 1)] + late, [Call(ip, WINDOW)], ip, lo, hi);
    CallsInSplit([Call(ip, 1)], late, ip, lo, hi);
    RepeatCounts(Call(ip, 0), limit - 1, ip, lo, hi);
  }

  /** Calls that all fall into the open window share its limit. */
  lemma {:induction false} OneWindow(limit: U32, kept: map<IpAddr, Client>, trace: Trace, ip: IpAddr, lo: Instant,
                                     hi: Instant)
    requires limit > 0 && ip in kept && kept[ip].requests <= limit
    requires forall i :: 0 <= i < |trace| ==> trace[i].now - kept[ip].windowStart < WINDOW
    ensures AllowedIn(trace, KeepAnswers(limit, kept, trace), ip, lo, hi) <= limit - kept[ip].requests
    decreases |trace|
  {
    if trace != [] {
      AllowedUnfold(limit, kept, trace, ip, lo, hi);
      OneWindow(limit, KeepStep(limit, kept, trace[0].ip, trace[0].now).0, trace[1..], ip, lo, hi);
    }
  }

  lemma {:induction false} ServedCounts(trace: Trace, answers: seq<bool>, ip: IpAddr, lo: Instant, hi: Instant)
    requires |answers| == |trace| && forall i :: 0 <= i < |trace| && trace[i].ip == ip ==> answers[i]
    ensures AllowedIn(trace, answers, ip, lo, hi) == CallsIn(trace, ip, lo, hi)
  {
    if trace != [] {
      ServedCounts(trace[1..], answers[1..], ip, lo, hi);
    }
  }

  lemma EarlyIsRefused(limit: U32, ip: IpAddr)
    requires limit >= 2
    ensures SkewAtMost(Early(limit, ip), 1) && Moderate(limit, Early(limit, ip), ip)
      && !Served(limit, 0, Early(limit, ip), ip)
  {
    var trace, hi := Early(limit, ip), WINDOW + 1;
    forall lo: Instant ensures CallsInMinute(trace, ip, lo) <= limit {
      EarlyCounts(limit, ip, lo, lo + WINDOW);
    }
    CleanupInvisible(limit, 0, 1, trace);
    var next := KeepStep(limit, map[], ip, 1).0;
    AllowedUnfold(limit, map[], trace, ip, 0, hi);
    OneWindow(limit, next, trace[1..], ip, 0, hi);
    EarlyCounts(limit, ip, 0, hi);
    if Served(limit, 0, trace, ip) {
      ServedCounts(trace, Answers(New(limit, 0), trace), ip, 0, hi);
      assert false;
    }
  }

  lemma BackwardsIsRefused(ip: IpAddr)
    ensures var trace := [Call(ip, WINDOW), Call(ip, 0)];
      SkewAtMost(trace, WINDOW) && Moderate(1, trace, ip) && !Served(1, WINDOW, trace, ip)
  {
    var trace := [Call(ip, WINDOW), Call(ip, 0)];
    forall lo: Instant ensures CallsInMinute(trace, ip, lo) <= 1 {
      assert trace == Repeat(Call(ip, WINDOW), 1) + Repeat(Call(ip, 0), 1);
      CallsInSplit(Repeat(Call(ip, WINDOW), 1), Repeat(Call(ip, 0), 1), ip, lo, lo + WINDOW);
      RepeatCounts(Call(ip, WINDOW), 1, ip, lo, lo + WINDOW);
      RepeatCounts(Call(ip, 0), 1, ip, lo, lo + WINDOW);
    }
    var next := Step(New(1, WINDOW), ip, WINDOW).0;
    assert next.clients == map[ip := Client(WINDOW, 1, WINDOW)];
    assert !Step(next, ip, 0).1;
    assert Answers(New(1, WINDOW), trace)[1] == Answers(next, trace[1..])[0];
  }

  /**
   Exactly how far the readings may be out of order for moderate clients to be always served: not at all, unless the
   limit is one call a minute, which tolerates anything short of a minute.
   */
  lemma ModerateServedIff(limit: U32, skew: nat)
    ensures ModerateServed(limit, skew) <==> skew == 0 || limit == 0 || (limit == 1 && skew < MINUTE)
  {
    if skew == 0 || limit == 0 || (limit == 1 && skew < WINDOW) {
      forall start: Instant, trace: Trace, ip: IpAddr | SkewAtMost(trace, skew) && Moderate(limit, trace, ip)
        ensures Served(limit, start, trace, ip)
      {
        if limit == 0 {
          ZeroIsSilent(start, trace, ip);
        } else if skew == 0 {
          ModerateNeverRefused(limit, start, trace, ip);
        } else {
          OneIsApart(skew, trace, ip);
          ApartIsServed(New(limit, start), trace, ip);
        }
      }
    } else if limit >= 2 {
      EarlyIsRefused(limit, V4(1));
      assert SkewAtMost(Early(limit, V4(1)), skew);
    } else {
      BackwardsIsRefused(V4(1));
      assert SkewAtMost([Call(V4(1), WINDOW), Call(V4(1), 0)], skew);
    }
  }

  // ---------- Memory ----------

  /** No record outlives its last call by two windows at the latest cleanup, which is at most a window old. */
  ghost predicate Fresh(s: Limiter, latest: Instant) {
    && latest - s.lastCleanup <= WINDOW
    && (forall ip :: ip in s.clients ==> s.lastCleanup - s.clients[ip].lastSeen < 2 * WINDOW)
  }

  lemma FreshStep(s: Limiter, latest: Instant, skew: nat, call: Call)
    requires s.limit > 0 && skew <= WINDOW && Fresh(s, latest) && call.now >= latest - skew
      && call.now >= s.lastCleanup - skew
    ensures var next := Step(s, call.ip, call.now).0;
      Fresh(next, Max(latest, call.now)) && next.lastCleanup in {s.lastCleanup, call.now}
  {
  }

  /** Every stored client called within the three windows before this reading. */
  ghost predicate Recent(s: Limiter, reading: Instant) {
    forall ip :: ip in s.clients ==> reading - s.clients[ip].lastSeen < 3 * MINUTE
  }

  lemma {:induction false} FreshFrom(s: Limiter, latest: Instant, skew: nat, trace: Trace)
    requires s.limit > 0 && skew <= WINDOW && Fresh(s, latest) && SkewAtMost(trace, skew)
    requires forall i :: 0 <= i < |trace| ==> trace[i].now >= latest - skew && trace[i].now >= s.lastCleanup - skew
    ensures Recent(Final(s, trace), latest)
    ensures forall i :: 0 <= i < |trace| ==> Recent(Final(s, trace), trace[i].now)
    decreases |trace|
  {
    if trace != [] {
      var next := Step(s, trace[0].ip, trace[0].now).0;
      FreshStep(s, latest, skew, trace[0]);
      FreshFrom(next, Max(latest, trace[0].now), skew, trace[1..]);
      forall i | 0 < i < |trace| ensures Recent(Final(s, trace), trace[i].now) {
        assert trace[1..][i - 1] == trace[i];
      }
    }
  }

  /** After any trace, every stored client called within the last three windows, by every reading of the trace. */
  lemma MemoryBound(limit: U32, start: Instant, skew: nat, trace: Trace)
    requires limit > 0 && skew <= MINUTE && SkewAtMost(trace, skew)
    requires forall i :: 0 <= i < |trace| ==> trace[i].now >= start - skew
    ensures forall i :: 0 <= i < |trace| ==> Recent(Final(New(limit, start), trace), trace[i].now)
  {
    if trace != [] {
      var first := Step(New(limit, start), trace[0].ip, trace[0].now).0;
      FreshFrom(first, trace[0].now, skew, trace[1..]);
      forall i | 0 < i < |trace| ensures Recent(Final(New(limit, start), trace), trace[i].now) {
        assert trace[1..][i - 1] == trace[i];
      }
    }
  }
}
