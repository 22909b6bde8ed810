/** The fixed-window request counter: an atomic increment that stops at a maximum, on a key that expires. */
module RateCounter {
  import opened Sequences
  import opened Redis

  type Key = nat

  /** One run of the counter script: the keys after it, whether the request is admitted, the count it reports. */
  function IncrementWithLimit(keys: map<Key, Timed<nat>>, key: Key, max: nat, ttlSeconds: nat, now: nat)
    : (r: (map<Key, Timed<nat>>, bool, nat))
    ensures key in r.0
  {
    match Get(keys, key, now)
    case Some(n) =>
      if n >= max then (keys, false, n)
      else
        var r := Incr(keys, key, ttlSeconds, now);
        (r.0, r.1 <= max, r.1)
    case None =>
      var r := Incr(keys, key, ttlSeconds, now);
      (r.0, r.1 <= max, r.1)
  }

  class RedisCounters {
    var keys: map<Key, Timed<nat>>

    constructor ()
      ensures keys == map[]
    {
      keys := map[];
    }

    method AtomicIncrementWithLimit(key: Key, max: nat, ttlSeconds: nat, now: nat)
      returns (allowed: bool, attempts: nat)
      modifies this
      ensures (keys, allowed, attempts) == IncrementWithLimit(old(keys), key, max, ttlSeconds, now)
    {
      var current := Get(keys, key, now);
      if current.Some? && current.value >= max {
        return false, current.value;
      }
      var newVal := if current.Some? then current.value + 1 else 1;
      keys := keys[key := Timed(newVal, if current.Some? then keys[key].expiresAt else now + ttlSeconds * 1000)];
      return newVal <= max, newVal;
    }
  }

  // ---------- A history of requests on one key

  /** A served request; `window` is when the counter key it was counted under was created. */
  datatype Served = Served(time: nat, allowed: bool, attempts: nat, window: int)

  /** The log entry of a request that arrives at `now`. */
  function ServedAt(keys: map<Key, Timed<nat>>, key: Key, max: nat, ttlSeconds: nat, now: nat): Served {
    var r := IncrementWithLimit(keys, key, max, ttlSeconds, now);
    Served(now, r.1, r.2, r.0[key].expiresAt - ttlSeconds * 1000)
  }

  /** The key and the log after a series of requests, oldest first. */
  function Serve(times: seq<nat>, key: Key, max: nat, ttlSeconds: nat): (map<Key, Timed<nat>>, seq<Served>) {
    if times == [] then (map[], [])
    else
      var n := |times| - 1;
      var before := Serve(times[..n], key, max, ttlSeconds);
      (IncrementWithLimit(before.0, key, max, ttlSeconds, times[n]).0,
       before.1 + [ServedAt(before.0, key, max, ttlSeconds, times[n])])
  }

  ghost predicate InOrder(times: seq<nat>) {
    forall i, j :: 0 <= i < j < |times| ==> times[i] <= times[j]
  }

  function Count(log: seq<Served>, p: Served -> bool): nat {
    if log == [] then 0
    else Count(log[..|log| - 1], p) + (if p(log[|log| - 1]) then 1 else 0)
  }

  function AdmittedIn(window: int): Served -> bool {
    (s: Served) => s.allowed && s.window == window
  }

  function AdmittedBetween(from: nat, to: nat): Served -> bool {
    (s: Served) => s.allowed && from <= s.time < to
  }

  /** The key belongs to the last request's window and counts what that window has admitted. */
  ghost predicate KeyFits(keys: map<Key, Timed<nat>>, log: seq<Served>, key: Key, max: nat, ttl: nat) {
    if log == [] then key !in keys
    else
      var last := log[|log| - 1];
      && key in keys && keys[key].expiresAt == last.window + ttl
      && 1 <= keys[key].value <= Max(max, 1)
      && Count(log, AdmittedIn(last.window)) == Min(keys[key].value, max)
  }

  /** Requests fall inside their windows, and different windows do not overlap. */
  ghost predicate WindowsFit(log: seq<Served>, ttl: nat) {
    && (forall i :: 0 <= i < |log| ==> log[i].window <= log[i].time < log[i].window + ttl)
    && (forall i, j :: 0 <= i < j < |log| ==> log[i].window == log[j].window || log[i].window + ttl <= log[j].window)
  }

  ghost predicate CountsFit(log: seq<Served>, max: nat) {
    && (forall w: int :: Count(log, AdmittedIn(w)) <= max)
    && (forall i :: 0 <= i < |log| ==> log[i].attempts <= Max(max, 1))
  }

  ghost predicate LogFits(keys: map<Key, Timed<nat>>, log: seq<Served>, key: Key, max: nat, ttl: nat) {
    KeyFits(keys, log, key, max, ttl) && WindowsFit(log, ttl) && CountsFit(log, max)
  }

  lemma CountNone(log: seq<Served>, p: Served -> bool)
    requires forall i :: 0 <= i < |log| ==> !p(log[i])
    ensures Count(log, p) == 0
  {
    if log != [] {
      CountNone(log[..|log| - 1], p);
    }
  }

  lemma {:induction false} CountImplies(log: seq<Served>, p: Served -> bool, q: Served -> bool)
    requires forall i :: 0 <= i < |log| && p(log[i]) ==> q(log[i])
    ensures Count(log, p) <= Count(log, q)
  {
    if log != [] {
      CountImplies(log[..|log| - 1], p, q);
    }
  }

  lemma {:induction false} CountSplit(log: seq<Served>, p: Served -> bool, a: Served -> bool, b: Served -> bool)
    requires forall i :: 0 <= i < |log| && p(log[i]) ==> a(log[i]) || b(log[i])
    ensures Count(log, p) <= Count(log, a) + Count(log, b)
  {
    if log != [] {
      CountSplit(log[..|log| - 1], p, a, b);
    }
  }

  lemma CountAppend(log: seq<Served>, s: Served, p: Served -> bool)
    ensures Count(log + [s], p) == Count(log, p) + (if p(s) then 1 else 0)
  {
    assert (log + [s])[..|log|] == log;
  }

  lemma WindowsStayFit(keys: map<Key, Timed<nat>>, log: seq<Served>, key: Key, max: nat, ttlSeconds: nat, now: nat)
    requires ttlSeconds > 0 && LogFits(keys, log, key, max, ttlSeconds * 1000)
    requires log != [] ==> log[|log| - 1].time <= now
    ensures WindowsFit(log + [ServedAt(keys, key, max, ttlSeconds, now)], ttlSeconds * 1000)
  {
    if log != [] {
      var last := log[|log| - 1].window;
      assert forall i :: 0 <= i < |log| - 1 ==> (log[i].window == last || log[i].window + ttlSeconds * 1000 <= last);
    }
  }

  /** What a window has admitted before this request: the key's count, or nothing when the window is new. */
  lemma AdmittedBefore(keys: map<Key, Timed<nat>>, log: seq<Served>, key: Key, max: nat, ttlSeconds: nat, now: nat)
    requires ttlSeconds > 0 && LogFits(keys, log, key, max, ttlSeconds * 1000)
    requires log != [] ==> log[|log| - 1].time <= now
    ensures Count(log, AdmittedIn(ServedAt(keys, key, max, ttlSeconds, now).window)) ==
      match Get(keys, key, now)
      case Some(n) => Min(n, max)
      case None => 0
  {
    if Get(keys, key, now).None? {
      forall i | 0 <= i < |log| ensures log[i].window < now {
        assert log[i].window <= log[|log| - 1].window;
      }
      CountNone(log, AdmittedIn(now));
    }
  }

  lemma AppendKeepsCounts(log: seq<Served>, s: Served, max: nat)
    requires CountsFit(log, max) && s.attempts <= Max(max, 1)
    requires s.allowed ==> Count(log, AdmittedIn(s.window)) < max
    ensures CountsFit(log + [s], max)
  {
    forall w: int ensures Count(log + [s], AdmittedIn(w)) <= max {
      CountAppend(log, s, AdmittedIn(w));
      assert Count(log, AdmittedIn(w)) <= max;
    }
  }

  /** A request is admitted only while its window has room, and never reports more than the maximum. */
  lemma AdmittedOnlyWithRoom(keys: map<Key, Timed<nat>>, log: seq<Served>, key: Key, max: nat, ttlSeconds: nat,
                             now: nat)
    requires ttlSeconds > 0 && LogFits(keys, log, key, max, ttlSeconds * 1000)
    requires log != [] ==> log[|log| - 1].time <= now
    ensures var s := ServedAt(keys, key, max, ttlSeconds, now);
      && s.attempts <= Max(max, 1)
      && (s.allowed <==> Count(log, AdmittedIn(s.window)) < max)
  {
    AdmittedBefore(keys, log, key, max, ttlSeconds, now);
  }

  lemma KeyStaysFit(keys: map<Key, Timed<nat>>, log: seq<Served>, key: Key, max: nat, ttlSeconds: nat, now: nat)
    requires ttlSeconds > 0 && LogFits(keys, log, key, max, ttlSeconds * 1000)
    requires log != [] ==> log[|log| - 1].time <= now
    ensures KeyFits(IncrementWithLimit(keys, key, max, ttlSeconds, now).0,
                    log + [ServedAt(keys, key, max, ttlSeconds, now)], key, max, ttlSeconds * 1000)
  {
    var s := ServedAt(keys, key, max, ttlSeconds, now);
    AdmittedBefore(keys, log, key, max, ttlSeconds, now);
    CountAppend(log, s, AdmittedIn(s.window));
  }

  /** One more request keeps the log consistent, whether it falls in the current window or opens a new one. */
  lemma RequestKeepsLogFits(keys: map<Key, Timed<nat>>, log: seq<Served>, key: Key, max: nat, ttlSeconds: nat, now: nat)
    requires ttlSeconds > 0 && LogFits(keys, log, key, max, ttlSeconds * 1000)
    requires log != [] ==> log[|log| - 1].time <= now
    ensures LogFits(IncrementWithLimit(keys, key, max, ttlSeconds, now).0,
                    log + [ServedAt(keys, key, max, ttlSeconds, now)], key, max, ttlSeconds * 1000)
  {
    WindowsStayFit(keys, log, key, max, ttlSeconds, now);
    KeyStaysFit(keys, log, key, max, ttlSeconds, now);
    AdmittedOnlyWithRoom(keys, log, key, max, ttlSeconds, now);
    AppendKeepsCounts(log, ServedAt(keys, key, max, ttlSeconds, now), max);
  }

  lemma {:induction false} ServeFits(times: seq<nat>, key: Key, max: nat, ttlSeconds: nat)
    requires ttlSeconds > 0 && InOrder(times)
    ensures var r := Serve(times, key, max, ttlSeconds);
      && LogFits(r.0, r.1, key, max, ttlSeconds * 1000)
      && |r.1| == |times| && forall i :: 0 <= i < |times| ==> r.1[i].time == times[i]
  {
    if times != [] {
      var n := |times| - 1;
      ServeFits(times[..n], key, max, ttlSeconds);
      var before := Serve(times[..n], key, max, ttlSeconds);
      RequestKeepsLogFits(before.0, before.1, key, max, ttlSeconds, times[n]);
    } else {
      forall w: int ensures Count([], AdmittedIn(w)) == 0 { }
    }
  }

  /** Windows that begin within one window length of each other are the same window, so they admit at most max. */
  lemma OneWindowInRange(keys: map<Key, Timed<nat>>, log: seq<Served>, key: Key, max: nat, ttl: nat,
                         p: Served -> bool, lo: int)
    requires LogFits(keys, log, key, max, ttl)
    requires forall i :: 0 <= i < |log| && p(log[i]) ==> log[i].allowed && lo < log[i].window <= lo + ttl
    ensures Count(log, p) <= max
  {
    if k :| 0 <= k < |log| && p(log[k]) {
      var w := log[k].window;
      forall i | 0 <= i < |log| && p(log[i]) ensures AdmittedIn(w)(log[i]) { }
      CountImplies(log, p, AdmittedIn(w));
      assert Count(log, AdmittedIn(w)) <= max;
    } else {
      CountNone(log, p);
    }
  }

  function Early(from: nat, to: nat): Served -> bool {
    (s: Served) => s.allowed && from <= s.time < to && s.window <= from
  }

  function Late(from: nat, to: nat): Served -> bool {
    (s: Served) => s.allowed && from <= s.time < to && s.window > from
  }

  /** An interval of one window length meets at most two windows. */
  lemma IntervalBound(keys: map<Key, Timed<nat>>, log: seq<Served>, key: Key, max: nat, ttl: nat, from: nat)
    requires LogFits(keys, log, key, max, ttl)
    ensures Count(log, AdmittedBetween(from, from + ttl)) <= 2 * max
  {
    CountSplit(log, AdmittedBetween(from, from + ttl), Early(from, from + ttl), Late(from, from + ttl));
    OneWindowInRange(keys, log, key, max, ttl, Early(from, from + ttl), from - ttl);
    OneWindowInRange(keys, log, key, max, ttl, Late(from, from + ttl), from);
  }

  /**
   * For any request times: every window admits at most `max`, any interval as long as a window admits at most
   * 2 * max, and the reported count never exceeds `max` (or one, when nothing is allowed at all).
   */
  lemma RateBounds(times: seq<nat>, key: Key, max: nat, ttlSeconds: nat, window: int, from: nat)
    requires ttlSeconds > 0 && InOrder(times)
    ensures var log := Serve(times, key, max, ttlSeconds).1;
      && Count(log, AdmittedIn(window)) <= max
      && Count(log, AdmittedBetween(from, from + ttlSeconds * 1000)) <= 2 * max
      && forall i :: 0 <= i < |log| ==> log[i].attempts <= Max(max, 1)
  {
    ServeFits(times, key, max, ttlSeconds);
    var r := Serve(times, key, max, ttlSeconds);
    IntervalBound(r.0, r.1, key, max, ttlSeconds * 1000, from);
  }

  /** Requests on one key leave every other key's counter alone. */
  lemma OtherKeysUntouched(keys: map<Key, Timed<nat>>, key: Key, other: Key, max: nat, ttlSeconds: nat, now: nat)
    requires key != other
    ensures var after := IncrementWithLimit(keys, key, max, ttlSeconds, now).0;
      (other in after <==> other in keys) && (other in keys ==> after[other] == keys[other])
  {
  }

  /**
   * What the counter answers: a full window refuses and reports its count; one with room admits and counts one more,
   * under its old expiry; and an expired or missing one starts again at one.
   */
  lemma CounterCases(keys: map<Key, Timed<nat>>, key: Key, max: nat, ttlSeconds: nat, now: nat)
    ensures var live := key in keys && now < keys[key].expiresAt;
            var r := IncrementWithLimit(keys, key, max, ttlSeconds, now);
      && (live && keys[key].value >= max ==> r == (keys, false, keys[key].value))
      && (live && keys[key].value < max ==>
            r == (keys[key := Timed(keys[key].value + 1, keys[key].expiresAt)], true, keys[key].value + 1))
      && (!live ==> r == (keys[key := Timed(1, now + ttlSeconds * 1000)], max >= 1, 1))
  {
  }
}
