/** Request throttling (Back-end/config/throttles.py): the scope choice of
    the role-based throttle and the sliding five-minute window of the OTP
    request throttle. The cache is a map from key to stored timestamps. */
module Throttles {
  import opened Wrappers

  /** `RoleBasedRateThrottle.get_cache_key`: the rate scope of a request. */
  function Scope(authenticated: bool, isStaff: bool): (s: string)
    ensures s in {"anon", "admin", "user"}
    ensures s == "anon" <==> !authenticated
    ensures s == "admin" <==> authenticated && isStaff
  {
    if !authenticated then "anon" else if isStaff then "admin" else "user"
  }

  const Window: int := 300
  const MaxInWindow: nat := 5

  function CacheKey(email: string): string { "otp_request:" + email }

  /** The timestamps still inside the window ending at `now` (strictly newer
      than `now - 300`), in stored order. */
  function Recent(times: seq<int>, now: int): (r: seq<int>)
    ensures |r| <= |times|
    ensures forall t :: t in r <==> t in times && t > now - Window
  {
    if times == [] then []
    else Recent(times[..|times| - 1], now) + (if times[|times| - 1] > now - Window then [times[|times| - 1]] else [])
  }

  /** The OTP request throttle. Its cache entries expire 300 s after their last
      write; by then every stored timestamp lies outside the window, so the
      expiry never changes a decision and is not kept here. */
  class OtpThrottle {
    var cache: map<string, seq<int>>

    /** No key ever stores more than five timestamps. */
    ghost predicate Valid()
      reads this
    {
      forall k :: k in cache ==> |cache[k]| <= MaxInWindow
    }

    constructor()
      ensures Valid() && cache == map[]
    {
      cache := map[];
    }

    function Stored(key: string): seq<int>
      reads this
    {
      if key in cache then cache[key] else []
    }

    /** The window filter, element by element. */
    static method FilterRecent(times: seq<int>, now: int) returns (kept: seq<int>)
      ensures kept == Recent(times, now)
    {
      kept := [];
      var i := 0;
      while i < |times|
        invariant 0 <= i <= |times|
        invariant kept == Recent(times[..i], now)
      {
        assert times[..i + 1][..i] == times[..i];
        if times[i] > now - Window {
          kept := kept + [times[i]];
        }
        i := i + 1;
      }
      assert times[..|times|] == times;
    }

    /** `allow_request`: a request without an email passes and records
        nothing; otherwise it passes iff fewer than five stored timestamps are
        inside the window, and a passing request stores the window plus `now`. */
    method AllowRequest(email: Option<string>, now: int) returns (allowed: bool)
      requires Valid()
      modifies this
      ensures Valid()
      ensures email.None? ==> allowed && cache == old(cache)
      ensures email.Some? ==>
        var recent := Recent(old(Stored(CacheKey(email.value))), now);
        && (allowed <==> |recent| < MaxInWindow)
        && (!allowed ==> cache == old(cache))
        && (allowed ==> cache == old(cache)[CacheKey(email.value) := recent + [now]])
    {
      if email.None? {
        return true;
      }
      var key := CacheKey(email.value);
      var times := Stored(key);
      var recent := FilterRecent(times, now);
      if |recent| >= MaxInWindow {
        return false;
      }
      cache := cache[key := recent + [now]];
      return true;
    }
  }

  /** After a passing request every stored timestamp of that key lies in the
      window `(now - 300, now]` when the clock never runs backwards. */
  lemma WindowAfterAllow(stored: seq<int>, now: int)
    requires forall t :: t in stored ==> t <= now
    ensures forall t :: t in Recent(stored, now) + [now] ==> now - Window < t <= now
  {
  }
}
