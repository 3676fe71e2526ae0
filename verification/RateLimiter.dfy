/** The in-memory fixed-window rate limiter (src/controllers/public.controller.ts). */
module RateLimiter {
  datatype Entry = Entry(count: int, resetAt: int)

  type Table = map<string, Entry>

  /** One scope's limits. */
  datatype Limits = Limits(maxPerWindow: int, windowMs: int)

  datatype Request = Request(key: string, now: int)

  predicate Accepts(t: Table, r: Request, l: Limits) {
    r.key !in t || r.now >= t[r.key].resetAt || t[r.key].count < l.maxPerWindow
  }

  /** The table after a request: a new window, one more in the current one, or no change. */
  function After(t: Table, r: Request, l: Limits): Table {
    if r.key !in t || r.now >= t[r.key].resetAt then t[r.key := Entry(1, r.now + l.windowMs)]
    else if t[r.key].count >= l.maxPerWindow then t
    else t[r.key := Entry(t[r.key].count + 1, t[r.key].resetAt)]
  }

  class Limiter {
    var table: Table

    constructor ()
      ensures table == map[]
    {
      table := map[];
    }

    /** enforceRateLimit. */
    method Enforce(key: string, now: int, l: Limits) returns (ok: bool)
      modifies this
      ensures ok <==> Accepts(old(table), Request(key, now), l)
      ensures table == After(old(table), Request(key, now), l)
      ensures forall k :: k != key ==> (k in table <==> k in old(table)) && (k in table ==> table[k] == old(table)[k])
    {
      if key !in table || now >= table[key].resetAt {
        table := table[key := Entry(1, now + l.windowMs)];
        return true;
      }
      if table[key].count >= l.maxPerWindow {
        return false;
      }
      table := table[key := table[key].(count := table[key].count + 1)];
      return true;
    }
  }

  /** Requests of a key accepted at times in [from, to) during a run. */
  function AcceptedIn(t: Table, rs: seq<Request>, l: Limits, key: string, from: int, to: int): nat
    decreases |rs|
  {
    if rs == [] then 0
    else (if rs[0].key == key && from <= rs[0].now < to && Accepts(t, rs[0], l) then 1 else 0)
         + AcceptedIn(After(t, rs[0], l), rs[1..], l, key, from, to)
  }

  /** A clock that starts no earlier than t0 and never goes back. */
  predicate Chronological(rs: seq<Request>, t0: int) {
    rs == [] || (t0 <= rs[0].now && Chronological(rs[1..], rs[0].now))
  }

  /** Counts stay within the limit. */
  predicate WithinLimits(t: Table, l: Limits) {
    forall k :: k in t ==> 1 <= t[k].count <= l.maxPerWindow
  }

  /** What a key can still have accepted in [from, from + windowMs), seen at time now. */
  function Allowance(t: Table, l: Limits, key: string, from: int, now: int): int {
    if now >= from + l.windowMs then 0
    else if key !in t || t[key].resetAt <= from then 2 * l.maxPerWindow - 1
    else if t[key].resetAt < from + l.windowMs then 2 * l.maxPerWindow - t[key].count
    else l.maxPerWindow - t[key].count
  }

  lemma StepSpends(t: Table, r: Request, l: Limits, key: string, from: int, now: int)
    requires l.maxPerWindow >= 1 && l.windowMs >= 0 && WithinLimits(t, l) && now <= r.now
    ensures WithinLimits(After(t, r, l), l)
    ensures Allowance(After(t, r, l), l, key, from, r.now)
            + (if r.key == key && from <= r.now < from + l.windowMs && Accepts(t, r, l) then 1 else 0)
            <= Allowance(t, l, key, from, now)
  {}

  lemma {:induction false} RunSpends(t: Table, rs: seq<Request>, l: Limits, key: string, from: int, now: int)
    requires l.maxPerWindow >= 1 && l.windowMs >= 0 && WithinLimits(t, l) && Chronological(rs, now)
    ensures AcceptedIn(t, rs, l, key, from, from + l.windowMs) <= Allowance(t, l, key, from, now)
    decreases |rs|
  {
    hide Allowance, WithinLimits, After;
    AllowanceIsNatural(t, l, key, from, now);
    if rs != [] {
      StepSpends(t, rs[0], l, key, from, now);
      RunSpends(After(t, rs[0], l), rs[1..], l, key, from, rs[0].now);
    }
  }

  lemma AllowanceIsNatural(t: Table, l: Limits, key: string, from: int, now: int)
    requires l.maxPerWindow >= 1 && WithinLimits(t, l)
    ensures Allowance(t, l, key, from, now) >= 0
  {}

  /**
   * Any stretch of one window's length sees fewer than twice the limit, over every request
   * sequence: the request that opened the earlier of two windows lies before the stretch.
   */
  lemma FewerThanTwiceTheLimit(rs: seq<Request>, l: Limits, key: string, from: int, t0: int)
    requires l.maxPerWindow >= 1 && l.windowMs >= 0 && Chronological(rs, t0)
    ensures AcceptedIn(map[], rs, l, key, from, from + l.windowMs) <= 2 * l.maxPerWindow - 1
  {
    RunSpends(map[], rs, l, key, from, t0);
  }

  /** n requests of a key at one moment. */
  function Burst(key: string, now: int, n: nat): seq<Request> {
    if n == 0 then [] else [Request(key, now)] + Burst(key, now, n - 1)
  }

  lemma {:induction false} BurstIsChronological(key: string, now: int, n: nat, rest: seq<Request>, t0: int)
    requires t0 <= now && Chronological(rest, now)
    ensures Chronological(Burst(key, now, n) + rest, t0)
    decreases n
  {
    if n == 0 {
      assert [] + rest == rest;
    } else {
      BurstIsChronological(key, now, n - 1, rest, now);
      assert (Burst(key, now, n) + rest)[1..] == Burst(key, now, n - 1) + rest;
    }
  }

  /** A burst that fits what is left of a window is accepted whole. */
  lemma {:induction false} BurstIsAccepted(
    key: string, now: int, n: nat, rest: seq<Request>, l: Limits, e: Entry, from: int, to: int)
    requires now < e.resetAt && e.count + n <= l.maxPerWindow && from <= now < to
    ensures AcceptedIn(map[key := e], Burst(key, now, n) + rest, l, key, from, to) ==
            n + AcceptedIn(map[key := Entry(e.count + n, e.resetAt)], rest, l, key, from, to)
    decreases n
  {
    var rs := Burst(key, now, n) + rest;
    if n == 0 {
      assert rs == rest && Entry(e.count + n, e.resetAt) == e;
    } else {
      assert rs[0] == Request(key, now) && rs[1..] == Burst(key, now, n - 1) + rest;
      assert After(map[key := e], rs[0], l) == map[key := Entry(e.count + 1, e.resetAt)];
      BurstIsAccepted(key, now, n - 1, rest, l, Entry(e.count + 1, e.resetAt), from, to);
    }
  }

  /** One request at 0, and bursts in the last millisecond of its window and the first of the next. */
  function TwoBursts(key: string, l: Limits): seq<Request>
    requires l.maxPerWindow >= 1
  {
    [Request(key, 0)] + (Burst(key, l.windowMs - 1, l.maxPerWindow - 1) + Burst(key, l.windowMs, l.maxPerWindow))
  }

  lemma SecondBurst(key: string, l: Limits, e: Entry)
    requires l.maxPerWindow >= 1 && l.windowMs >= 2 && e.resetAt == l.windowMs
    ensures AcceptedIn(map[key := e], Burst(key, l.windowMs, l.maxPerWindow), l, key, 1, 1 + l.windowMs) ==
        l.maxPerWindow
  {
    var now, n := l.windowMs, l.maxPerWindow - 1;
    var rs := Burst(key, now, l.maxPerWindow);
    assert rs[1..] == Burst(key, now, n) == Burst(key, now, n) + [];
    assert After(map[key := e], rs[0], l) == map[key := Entry(1, now + l.windowMs)];
    BurstIsAccepted(key, now, n, [], l, Entry(1, now + l.windowMs), 1, 1 + l.windowMs);
  }

  /** The bound is reached, for every limit and every window of two milliseconds or more. */
  lemma BoundIsReached(key: string, l: Limits)
    requires l.maxPerWindow >= 1 && l.windowMs >= 2
    ensures Chronological(TwoBursts(key, l), 0)
    ensures AcceptedIn(map[], TwoBursts(key, l), l, key, 1, 1 + l.windowMs) == 2 * l.maxPerWindow - 1
  {
    var last, first := Burst(key, l.windowMs, l.maxPerWindow), Burst(key, l.windowMs - 1, l.maxPerWindow - 1);
    assert last + [] == last;
    BurstIsChronological(key, l.windowMs, l.maxPerWindow, [], l.windowMs - 1);
    BurstIsChronological(key, l.windowMs - 1, l.maxPerWindow - 1, last, 0);
    var rs, entry := TwoBursts(key, l), Entry(1, l.windowMs);
    assert rs[0] == Request(key, 0) && rs[1..] == first + last;
    assert After(map[], rs[0], l) == map[key := entry];
    BurstIsAccepted(key, l.windowMs - 1, l.maxPerWindow - 1, last, l, entry, 1, 1 + l.windowMs);
    SecondBurst(key, l, Entry(l.maxPerWindow, l.windowMs));
  }

  /** From the request that opens a window, at most the limit is accepted until the window ends. */
  lemma AtMostTheLimitInAWindow(t: Table, rs: seq<Request>, l: Limits, key: string)
    requires l.maxPerWindow >= 1 && l.windowMs > 0 && WithinLimits(t, l)
    requires rs != [] && Chronological(rs, rs[0].now)
    requires rs[0].key == key && (key !in t || rs[0].now >= t[key].resetAt)
    ensures Accepts(t, rs[0], l)
    ensures AcceptedIn(t, rs, l, key, rs[0].now, rs[0].now + l.windowMs) <= l.maxPerWindow
  {
    hide WithinLimits;
    StepSpends(t, rs[0], l, key, rs[0].now, rs[0].now);
    RunSpends(After(t, rs[0], l), rs[1..], l, key, rs[0].now, rs[0].now);
  }

  // ---- Refusals ----

  /** Accepted requests of a key at or after a time. */
  function CountFrom(past: seq<Request>, key: string, from: int): nat {
    if past == [] then 0
    else CountFrom(past[1..], key, from) + if past[0].key == key && past[0].now >= from then 1 else 0
  }

  /** Each entry counts the accepted requests of its own window, and there are none after its end. */
  ghost predicate Faithful(t: Table, l: Limits, past: seq<Request>) {
    && (forall r :: r in past ==> r.key in t && r.now < t[r.key].resetAt)
    && (forall k :: k in t ==> t[k].count == CountFrom(past, k, t[k].resetAt - l.windowMs))
  }

  lemma {:induction false} NoneFrom(past: seq<Request>, key: string, from: int)
    requires forall r :: r in past && r.key == key ==> r.now < from
    ensures CountFrom(past, key, from) == 0
  {
    if past != [] { NoneFrom(past[1..], key, from); }
  }

  lemma CountLatest(past: seq<Request>, r: Request, key: string, from: int)
    ensures CountFrom([r] + past, key, from) ==
        CountFrom(past, key, from) + if r.key == key && r.now >= from then 1 else 0
  {
    assert ([r] + past)[1..] == past;
  }

  /** The most recent acceptance is put first. */
  lemma AcceptanceIsFaithful(t: Table, r: Request, l: Limits, past: seq<Request>)
    requires l.windowMs > 0 && Faithful(t, l, past)
    requires r.key in t ==> r.now >= t[r.key].resetAt - l.windowMs
    ensures Faithful(After(t, r, l), l, if Accepts(t, r, l) then [r] + past else past)
  {
    if Accepts(t, r, l) {
      var t', past' := After(t, r, l), [r] + past;
      forall k, from: int
        ensures CountFrom(past', k, from) == CountFrom(past, k, from) + if r.key == k && r.now >= from then 1 else 0
      {
        CountLatest(past, r, k, from);
      }
      if r.key !in t || r.now >= t[r.key].resetAt { NoneFrom(past, r.key, r.now); }
      forall k | k in t' ensures t'[k].count == CountFrom(past', k, t'[k].resetAt - l.windowMs) {}
    }
  }

  lemma {:induction false} CountIsAntitone(past: seq<Request>, key: string, from: int, later: int)
    requires from <= later
    ensures CountFrom(past, key, from) >= CountFrom(past, key, later)
  {
    if past != [] { CountIsAntitone(past[1..], key, from, later); }
  }

  /** The requests accepted in a run, the latest first. */
  function Accepted(t: Table, rs: seq<Request>, l: Limits, past: seq<Request>): seq<Request>
    decreases |rs|
  {
    if rs == [] then past
    else Accepted(After(t, rs[0], l), rs[1..], l, if Accepts(t, rs[0], l) then [rs[0]] + past else past)
  }

  function TableAfter(t: Table, rs: seq<Request>, l: Limits): Table
    decreases |rs|
  {
    if rs == [] then t else TableAfter(After(t, rs[0], l), rs[1..], l)
  }

  predicate StartedBy(t: Table, l: Limits, now: int) {
    forall k :: k in t ==> t[k].resetAt - l.windowMs <= now
  }

  lemma {:induction false} RunIsFaithful(t: Table, rs: seq<Request>, l: Limits, past: seq<Request>, t0: int)
    requires l.windowMs > 0 && Faithful(t, l, past) && Chronological(rs, t0) && StartedBy(t, l, t0)
    ensures Faithful(TableAfter(t, rs, l), l, Accepted(t, rs, l, past))
    decreases |rs|
  {
    hide Faithful;
    if rs != [] {
      AcceptanceIsFaithful(t, rs[0], l, past);
      RunIsFaithful(After(t, rs[0], l), rs[1..], l, if Accepts(t, rs[0], l) then [rs[0]] + past else past, rs[0].now);
    }
  }

  /** A refusal is earned: the limit was already accepted within the last window's length. */
  lemma RefusedOnlyAtTheLimit(rs: seq<Request>, l: Limits, r: Request, t0: int)
    requires l.windowMs > 0 && Chronological(rs, t0)
    requires !Accepts(TableAfter(map[], rs, l), r, l)
    ensures CountFrom(Accepted(map[], rs, l, []), r.key, r.now - l.windowMs + 1) >= l.maxPerWindow
  {
    RunIsFaithful(map[], rs, l, [], t0);
    var t, past := TableAfter(map[], rs, l), Accepted(map[], rs, l, []);
    CountIsAntitone(past, r.key, r.now - l.windowMs + 1, t[r.key].resetAt - l.windowMs);
  }
}
