/** The minimum-interval gate of Utility/Limitter.cs. The engine clock `Time.time` is the
    parameter `now`. */
module Limitters {

  /** Whether a call at `now` is let through when the last accepted call was at `lastTime`. */
  predicate Permits(lastTime: real, now: real, interval: real) {
    now - lastTime >= interval
  }

  class Limitter {
    var lastTime: real

    /** A fresh limiter, as C# `default(Limitter)`: the last accepted call is at time 0. */
    constructor ()
      ensures lastTime == 0.0
    {
      lastTime := 0.0;
    }

    /** Lets a call through when at least `interval` seconds have passed since the last call
        it let through, and then remembers `now` as that call's time. */
    method Limit(now: real, interval: real) returns (allowed: bool)
      modifies this
      ensures allowed <==> Permits(old(lastTime), now, interval)
      ensures allowed ==> lastTime == now
      ensures !allowed ==> lastTime == old(lastTime)
    {
      if now - lastTime < interval {
        return false;
      }
      lastTime := now;
      return true;
    }
  }

  /** Right after a call is let through, another call at the same instant is refused when the
      interval is positive. */
  method LimitTwiceAtOnce(l: Limitter, now: real, interval: real) returns (first: bool, second: bool)
    requires interval > 0.0
    modifies l
    ensures first ==> !second
    ensures first <==> Permits(old(l.lastTime), now, interval)
  {
    first := l.Limit(now, interval);
    second := l.Limit(now, interval);
  }

  /** The first call on a fresh limiter is let through exactly when `now` has reached the interval. */
  method FirstCall(now: real, interval: real) returns (allowed: bool)
    ensures allowed <==> now >= interval
  {
    var l := new Limitter();
    allowed := l.Limit(now, interval);
  }
}
