/**
 * The in-memory sliding-window rate limiter of the authentication middleware: one list
 * of request timestamps per key, pruned to the window on every request.
 */
module RateLimit {
  import opened Common

  const DefaultMaxRequests: int := 100
  const DefaultWindowMs: int := 15 * 60 * 1000

  /** The limiter key: the user's id when the request is authenticated, its IP otherwise. */
  function RequestKey(user: Option<UserId>, ip: string): string
  {
    if user.Some? then user.value else ip
  }

  /** The test a stored timestamp must pass to stay: it lies less than `windowMs` before `now`. */
  function InWindow(now: int, windowMs: int): int -> bool
  {
    t => now - t < windowMs
  }

  /**
   * `filter(timestamp => now - timestamp < windowMs)`; RecentIsFilter states what it keeps.
   */
  function Recent(timestamps: seq<int>, now: int, windowMs: int): (r: seq<int>)
    ensures |r| <= |timestamps|
    ensures forall t :: t in r <==> t in timestamps && now - t < windowMs
  {
    if timestamps == [] then []
    else
      var init := Recent(timestamps[..|timestamps| - 1], now, windowMs);
      var last := timestamps[|timestamps| - 1];
      assert timestamps == timestamps[..|timestamps| - 1] + [last];
      if now - last < windowMs then init + [last] else init
  }

  /**
   * Pruning keeps every timestamp inside the window, each occurrence once (two requests in
   * the same millisecond count twice against the limit), in the stored order.
   */
  lemma {:induction false} RecentIsFilter(timestamps: seq<int>, now: int, windowMs: int)
    ensures IsFilter(Recent(timestamps, now, windowMs), timestamps, InWindow(now, windowMs))
  {
    if timestamps == [] {
      FilterNil(InWindow(now, windowMs));
    } else {
      var init := timestamps[..|timestamps| - 1];
      var last := timestamps[|timestamps| - 1];
      var keep := InWindow(now, windowMs);
      var r0 := Recent(init, now, windowMs);
      assert timestamps == init + [last];
      assert Recent(timestamps, now, windowMs) == if keep(last) then r0 + [last] else r0 by {
        assert keep(last) == (now - last < windowMs);
      }
      RecentIsFilter(init, now, windowMs);
      FilterSnoc(r0, init, keep, last);
    }
  }

  /** The timestamps stored under `key`, none when the key is new. */
  function History(requests: map<string, seq<int>>, key: string): seq<int>
  {
    if key in requests then requests[key] else []
  }

  predicate Sorted(s: seq<int>)
  {
    forall i, j :: 0 <= i < j < |s| ==> s[i] <= s[j]
  }

  class RateLimiter {
    const maxRequests: int
    const windowMs: int
    var requests: map<string, seq<int>>

    /** No key ever holds more timestamps than the limit. */
    predicate Valid()
      reads this
    {
      maxRequests >= 0 && forall k :: k in requests ==> |requests[k]| <= maxRequests
    }

    /** `rateLimit(maxRequests, windowMs)`: a limiter with an empty map. */
    constructor(maxRequests: int, windowMs: int)
      requires maxRequests >= 0
      ensures this.maxRequests == maxRequests && this.windowMs == windowMs && requests == map[]
      ensures Valid()
    {
      this.maxRequests := maxRequests;
      this.windowMs := windowMs;
      requests := map[];
    }

    /**
     * One request at time `now`, keyed by its user or else its IP: admitted iff fewer than `maxRequests` of the
     * key's timestamps lie inside the window, in which case the key's list becomes the
     * pruned list plus `now`. A rejection writes nothing back, except the empty list a
     * new key receives first. Other keys never change.
     */
    method Handle(user: Option<UserId>, ip: string, now: int) returns (admitted: bool)
      modifies this
      ensures var key := RequestKey(user, ip);
        var recent := Recent(History(old(requests), key), now, windowMs);
        (admitted <==> |recent| < maxRequests)
        && (admitted ==> requests == old(requests)[key := recent + [now]])
        && (!admitted ==> requests == old(requests)[key := History(old(requests), key)])
      ensures forall k :: k != RequestKey(user, ip) ==> (k in requests <==> k in old(requests))
      ensures forall k :: k != RequestKey(user, ip) && k in requests ==> requests[k] == old(requests)[k]
      ensures old(Valid()) ==> Valid()
    {
      var key := RequestKey(user, ip);
      if key !in requests {
        requests := requests[key := []];
      }
      var stored := requests[key];
      var recent: seq<int> := [];
      var i := 0;
      while i < |stored|
        invariant 0 <= i <= |stored|
        invariant recent == Recent(stored[..i], now, windowMs)
      {
        assert stored[..i + 1][..i] == stored[..i];
        if now - stored[i] < windowMs {
          recent := recent + [stored[i]];
        }
        i := i + 1;
      }
      assert stored[..|stored|] == stored;
      if |recent| >= maxRequests {
        return false;
      }
      recent := recent + [now];
      requests := requests[key := recent];
      admitted := true;
    }
  }

  // ---------------------------------------------------------------- properties

  /**
   * Pruning a sorted list leaves it sorted, and a list that lies wholly inside the window
   * is kept whole.
   */
  lemma {:induction false} RecentKeepsSorted(timestamps: seq<int>, now: int, windowMs: int)
    ensures Sorted(timestamps) ==> Sorted(Recent(timestamps, now, windowMs))
    ensures (forall i :: 0 <= i < |timestamps| ==> now - timestamps[i] < windowMs) ==>
      Recent(timestamps, now, windowMs) == timestamps
  {
    if timestamps != [] {
      var init := timestamps[..|timestamps| - 1];
      RecentKeepsSorted(init, now, windowMs);
      var r := Recent(timestamps, now, windowMs);
      var last := timestamps[|timestamps| - 1];
      if Sorted(timestamps) {
        assert Sorted(init);
        var ri := Recent(init, now, windowMs);
        forall i | 0 <= i < |ri| ensures ri[i] <= last {
          assert ri[i] in ri;
          var k :| 0 <= k < |init| && init[k] == ri[i];
        }
        if now - last < windowMs {
          assert r == ri + [last];
          forall i, j | 0 <= i < j < |r| ensures r[i] <= r[j] {
            if j < |ri| {
              assert r[i] == ri[i] && r[j] == ri[j];
            } else {
              assert r[i] == ri[i];
            }
          }
        }
      }
      assert timestamps == init + [last];
    }
  }

  /**
   * Without new requests the count inside the window never grows as time passes, so
   * waiting can only turn a rejection into an admission, never the reverse.
   */
  lemma {:induction false} RecentShrinksOverTime(timestamps: seq<int>, now1: int, now2: int, windowMs: int)
    requires now1 <= now2
    ensures |Recent(timestamps, now2, windowMs)| <= |Recent(timestamps, now1, windowMs)|
  {
    if timestamps != [] {
      RecentShrinksOverTime(timestamps[..|timestamps| - 1], now1, now2, windowMs);
    }
  }

  /**
   * With a clock that never runs backwards, each key's list stays sorted oldest first,
   * since the admitted timestamp is appended after the pruned list.
   */
  lemma AdmitKeepsSorted(history: seq<int>, now: int, windowMs: int)
    requires Sorted(history)
    requires forall i :: 0 <= i < |history| ==> history[i] <= now
    ensures Sorted(Recent(history, now, windowMs) + [now])
  {
    RecentKeepsSorted(history, now, windowMs);
    var r := Recent(history, now, windowMs);
    forall i | 0 <= i < |r| ensures r[i] <= now {
      assert r[i] in r;
      var k :| 0 <= k < |history| && history[k] == r[i];
    }
  }
}
