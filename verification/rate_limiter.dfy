/** The fixed-window rate limiter: one `{count, last}` window per key, kept in
    a map that lives as long as the process. Time is an explicit `now` in
    milliseconds instead of a clock read. */
module RateLimiting {

  /** `last` is the start of the current window, `count` the calls seen in
      it, refused ones included. */
  datatype Window = Window(count: nat, last: int)

  /** The window `key` holds after one call at `now`: an unseen key opens a
      window at `now`; a window whose start lies more than `intervalMs` in the
      past is replaced by a fresh one at `now`; every call then adds one to the
      count. The start never moves except by such a reset. */
  function Charge(limits: map<string, Window>, key: string, intervalMs: int, now: int): (w: Window)
    ensures key !in limits ==> w == Window(1, now)
    ensures key in limits && now - limits[key].last > intervalMs ==> w == Window(1, now)
    ensures key in limits && now - limits[key].last <= intervalMs ==>
              w == Window(limits[key].count + 1, limits[key].last)
  {
    var data := if key in limits then limits[key] else Window(0, now);
    var data := if now - data.last > intervalMs then Window(0, now) else data;
    data.(count := data.count + 1)
  }

  /** One `rateLimit(key, max, intervalMs)` call on the map `limits`: the new
      map and the verdict. Only `key`'s window changes, and the call is
      admitted exactly when the incremented count is at most `max`. */
  function Admit(limits: map<string, Window>, key: string, max: int, intervalMs: int, now: int)
    : (r: (map<string, Window>, bool))
    ensures r.0.Keys == limits.Keys + {key}
    ensures forall k :: k in limits && k != key ==> r.0[k] == limits[k]
    ensures r.1 <==> r.0[key].count <= max
    ensures r.0[key] == Charge(limits, key, intervalMs, now)
  {
    var w := Charge(limits, key, intervalMs, now);
    (limits[key := w], w.count <= max)
  }

  /** The verdicts of successive calls for one key at the given times: one
      verdict per call, and the keys already present stay present. */
  function Replay(limits: map<string, Window>, key: string, max: int, intervalMs: int, times: seq<int>)
    : (r: (map<string, Window>, seq<bool>))
    ensures |r.1| == |times|
    ensures times != [] ==> r.0.Keys == limits.Keys + {key}
    decreases |times|
  {
    if times == [] then (limits, [])
    else
      var (next, ok) := Admit(limits, key, max, intervalMs, times[0]);
      var (last, oks) := Replay(next, key, max, intervalMs, times[1..]);
      (last, [ok] + oks)
  }

  /** Within one window the k-th call (counting from 1 after the `count`
      already there) is admitted exactly when `count + k <= max`, and every
      call, admitted or refused, is counted; the window start stays put. */
  lemma {:induction false} CallsWithinWindow(limits: map<string, Window>, key: string, max: int,
                                             intervalMs: int, times: seq<int>)
    requires key in limits
    requires forall i :: 0 <= i < |times| ==> times[i] - limits[key].last <= intervalMs
    ensures var (last, oks) := Replay(limits, key, max, intervalMs, times);
      && |oks| == |times|
      && (forall i :: 0 <= i < |oks| ==> (oks[i] <==> limits[key].count + i + 1 <= max))
      && last[key] == Window(limits[key].count + |times|, limits[key].last)
    decreases |times|
  {
    if times != [] {
      var (next, ok) := Admit(limits, key, max, intervalMs, times[0]);
      assert next[key] == Window(limits[key].count + 1, limits[key].last);
      CallsWithinWindow(next, key, max, intervalMs, times[1..]);
      var (last, oks) := Replay(next, key, max, intervalMs, times[1..]);
      assert Replay(limits, key, max, intervalMs, times) == (last, [ok] + oks);
    }
  }

  /** From an unseen key, calls that all fall within `intervalMs` of the first
      one: exactly the first `max` are admitted, and every later call in that
      window is refused. */
  lemma FirstWindowAdmitsExactlyMax(limits: map<string, Window>, key: string, max: int,
                                    intervalMs: int, times: seq<int>)
    requires key !in limits && |times| >= 1
    requires forall i :: 0 <= i < |times| ==> times[i] - times[0] <= intervalMs
    ensures var oks := Replay(limits, key, max, intervalMs, times).1;
      |oks| == |times| && forall i :: 0 <= i < |oks| ==> (oks[i] <==> i < max)
  {
    var (next, ok) := Admit(limits, key, max, intervalMs, times[0]);
    assert next[key] == Window(1, times[0]);
    assert ok <==> 0 < max;
    CallsWithinWindow(next, key, max, intervalMs, times[1..]);
  }

  /** The limiter state shared by every caller in the process. */
  class RateLimiter {
    var limits: map<string, Window>

    constructor ()
      ensures limits == map[]
    {
      limits := map[];
    }

    /** `rateLimit(key, max, intervalMs)` at time `now`: the window of `key` is
        replaced by its charged successor, no other window changes, and the
        verdict is whether the new count is at most `max`. */
    method RateLimit(key: string, max: int, intervalMs: int, now: int) returns (allowed: bool)
      modifies this
      ensures (limits, allowed) == Admit(old(limits), key, max, intervalMs, now)
      ensures limits == old(limits)[key := Charge(old(limits), key, intervalMs, now)]
    {
      var data := if key in limits then limits[key] else Window(0, now);
      if now - data.last > intervalMs {
        data := Window(0, now);
      }
      data := data.(count := data.count + 1);
      limits := limits[key := data];
      allowed := data.count <= max;
    }
  }
}
