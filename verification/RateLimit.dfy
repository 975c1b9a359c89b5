/**
 The fixed-window rate limiter: the mutable object, the step function it implements, and
 the simpler limiter that never forgets a client.

 Instants are nanosecond counts, so that `Instant` differences are exact integers.
 */
module RateLimit {
  import opened Wrappers

  type Instant = int
  type U32 = n: nat | n < 0x1_0000_0000

  const WINDOW: int := 60_000_000_000

  datatype IpAddr = V4(bits: nat) | V6(bits: nat)

  datatype Client = Client(windowStart: Instant, requests: U32, lastSeen: Instant)

  /** The state behind the mutex. */
  datatype Limiter = Limiter(limit: U32, clients: map<IpAddr, Client>, lastCleanup: Instant)

  /** `Instant::duration_since`, which saturates at zero. */
  function DurationSince(now: Instant, earlier: Instant): nat {
    if now >= earlier then now - earlier else 0
  }

  function New(limit: U32, now: Instant): Limiter {
    Limiter(limit, map[], now)
  }

  /** The lazy cleanup, run at most once a window. */
  function Sweep(s: Limiter, now: Instant): Limiter {
    if DurationSince(now, s.lastCleanup) >= WINDOW then
      var recent :=
        map ip | ip in s.clients && DurationSince(now, s.clients[ip].lastSeen) < WINDOW * 2 :: s.clients[ip];
      s.(clients := recent, lastCleanup := now)
    else s
  }

  function Lookup(clients: map<IpAddr, Client>, ip: IpAddr): Option<Client> {
    if ip in clients then Some(clients[ip]) else None
  }

  /** What one counted request does to the record of its own client. */
  function Serve(limit: U32, known: Option<Client>, now: Instant): (Client, bool) {
    var found := if known.Some? then known.value else Client(now, 0, now);
    var current := if DurationSince(now, found.windowStart) >= WINDOW then found.(windowStart := now, requests := 0)
        else found;
    if current.requests >= limit then (current.(lastSeen := now), false)
    else (current.(lastSeen := now, requests := current.requests + 1), true)
  }

  /** One call of `allow`: the next state and the answer. */
  function Step(s: Limiter, ip: IpAddr, now: Instant): (Limiter, bool) {
    if s.limit == 0 then (s, false)
    else
      var swept := Sweep(s, now);
      var (client, ok) := Serve(s.limit, Lookup(swept.clients, ip), now);
      (swept.(clients := swept.clients[ip := client]), ok)
  }

  /** The reference: the same windows, but no client is ever evicted. */
  function KeepStep(limit: U32, clients: map<IpAddr, Client>, ip: IpAddr, now: Instant): (map<IpAddr, Client>, bool) {
    if limit == 0 then (clients, false)
    else
      var (client, ok) := Serve(limit, Lookup(clients, ip), now);
      (clients[ip := client], ok)
  }

  /** The limiter object; the clock reading is taken before the lock, so it is a parameter. */
  class RateLimiter {
    const requestsPerMinute: U32
    var clients: map<IpAddr, Client>
    var lastCleanup: Instant

    ghost function View(): Limiter
      reads this
    {
      Limiter(requestsPerMinute, clients, lastCleanup)
    }

    constructor (requestsPerMinute: U32, now: Instant)
      ensures View() == New(requestsPerMinute, now)
    {
      this.requestsPerMinute := requestsPerMinute;
      clients := map[];
      lastCleanup := now;
    }

    method Allow(ip: IpAddr, now: Instant) returns (ok: bool)
      modifies this
      ensures (View(), ok) == Step(old(View()), ip, now)
    {
      if requestsPerMinute == 0 {
        return false;
      }
      ghost var swept := Sweep(View(), now).clients;
      if DurationSince(now, lastCleanup) >= WINDOW {
        clients := map c | c in clients && DurationSince(now, clients[c].lastSeen) < WINDOW * 2 :: clients[c];
        lastCleanup := now;
      }
      if ip !in clients {
        clients := clients[ip := Client(now, 0, now)];
      }
      var client := clients[ip];
      if DurationSince(now, client.windowStart) >= WINDOW {
        client := client.(windowStart := now, requests := 0);
      }
      client := client.(lastSeen := now);
      ok := client.requests < requestsPerMinute;
      if ok {
        client := client.(requests := client.requests + 1);
      }
      clients := clients[ip := client];
      assert clients == swept[ip := client];
    }
  }
}
