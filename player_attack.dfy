/** PlayerAttack: each frame the fire point follows the player's facing; a
    mouse click once the clock has reached `nextAttackTime` plays the shoot
    animation, schedules a projectile after the animation's delay, and
    pushes `nextAttackTime` forward by one attack period. */
module Shooting {
  import opened Scene

  datatype FirePoint = LeftPoint | RightPoint

  /** A moment of the game clock. `1f / attackRate` with a zero rate is
      positive infinity in single precision: the next attack never comes. */
  datatype Instant = At(time: real) | Never

  /** The projectile a shot schedules: after `delay` seconds, from `firePoint`, along `direction`. */
  datatype Shot = Shot(delay: real, firePoint: FirePoint, direction: Vec)

  /** The fire point Update selects; the moving and stationary branches agree. */
  function FirePointFor(isMoving: bool, facingRight: bool): (f: FirePoint)
    ensures f == RightPoint <==> facingRight
  {
    if isMoving then (if facingRight then RightPoint else LeftPoint)
    else (if facingRight then RightPoint else LeftPoint)
  }

  /** The cooldown gate: a click when the clock has reached the next attack time. */
  predicate Fires(now: real, next: Instant, mousePressed: bool) {
    mousePressed && next.At? && now >= next.time
  }

  /** `Time.time + 1f / attackRate`. */
  function After(now: real, attackRate: real): (r: Instant)
    ensures attackRate > 0.0 ==> r.At? && r.time > now
    ensures attackRate < 0.0 ==> r.At? && r.time < now
    ensures r.Never? <==> attackRate == 0.0
  {
    if attackRate == 0.0 then Never else At(now + 1.0 / attackRate)
  }

  /** `nextAttackTime` after one frame. */
  function NextAttack(now: real, next: Instant, mousePressed: bool, attackRate: real): Instant {
    if Fires(now, next, mousePressed) then After(now, attackRate) else next
  }

  /** One frame as the shooting gate sees it: the clock and whether the button went down. */
  datatype Frame = Frame(now: real, mousePressed: bool)

  /** The clock values of the frames on which a shot is fired. */
  function ShotTimes(next: Instant, frames: seq<Frame>, attackRate: real): seq<real>
    decreases |frames|
  {
    if frames == [] then []
    else
      var f := frames[0];
      var rest := ShotTimes(NextAttack(f.now, next, f.mousePressed, attackRate), frames[1..], attackRate);
      if Fires(f.now, next, f.mousePressed) then [f.now] + rest else rest
  }

  predicate ClockRuns(frames: seq<Frame>) {
    forall i, j :: 0 <= i < j < |frames| ==> frames[i].now <= frames[j].now
  }

  /** Consecutive entries at least `gap` apart. */
  predicate Spaced(times: seq<real>, gap: real) {
    forall k :: 0 <= k < |times| - 1 ==> times[k] + gap <= times[k + 1]
  }

  /** With a positive attack rate and a clock that never runs backwards, no
      shot comes before the scheduled time and consecutive shots are at least
      one attack period apart. */
  lemma {:induction false} ShotsSpaced(next: Instant, frames: seq<Frame>, attackRate: real)
    requires attackRate > 0.0
    requires ClockRuns(frames)
    ensures next.Never? ==> ShotTimes(next, frames, attackRate) == []
    ensures next.At? ==> forall t :: t in ShotTimes(next, frames, attackRate) ==> next.time <= t
    ensures Spaced(ShotTimes(next, frames, attackRate), 1.0 / attackRate)
    decreases |frames|
  {
    if frames != [] {
      var f := frames[0];
      var next' := NextAttack(f.now, next, f.mousePressed, attackRate);
      var rest := ShotTimes(next', frames[1..], attackRate);
      assert ClockRuns(frames[1..]) by {
        forall i, j | 0 <= i < j < |frames[1..]| ensures frames[1..][i].now <= frames[1..][j].now {
          assert frames[1..][i] == frames[i + 1] && frames[1..][j] == frames[j + 1];
        }
      }
      ShotsSpaced(next', frames[1..], attackRate);
      if Fires(f.now, next, f.mousePressed) {
        var times := [f.now] + rest;
        assert ShotTimes(next, frames, attackRate) == times;
        assert next' == At(f.now + 1.0 / attackRate);
        forall k | 0 <= k < |times| - 1 ensures times[k] + 1.0 / attackRate <= times[k + 1] {
          assert times[k + 1] == rest[k] && rest[k] in rest;
          if k > 0 {
            assert times[k] == rest[k - 1];
          }
        }
      }
    }
  }

  /** With a zero attack rate the first shot is the last. */
  lemma {:induction false} ZeroRateFiresOnce(next: Instant, frames: seq<Frame>)
    ensures |ShotTimes(next, frames, 0.0)| <= (if next.At? then 1 else 0)
    decreases |frames|
  {
    if frames != [] {
      var f := frames[0];
      ZeroRateFiresOnce(NextAttack(f.now, next, f.mousePressed, 0.0), frames[1..]);
    }
  }

  class PlayerAttack {
    const attackRate: real
    const shootAnimationLength: real
    const stationaryDelayOffset: real
    const movingDelayOffset: real

    /** null until the first Update. */
    var firePointCurrent: Option<FirePoint>
    var nextAttackTime: Instant
    var shootDirection: Vec
    /** Animator triggers set, in order. */
    var triggers: seq<string>

    /** The inspector values, then Start. */
    constructor (attackRate: real, shootAnimationLength: real, stationaryDelayOffset: real, movingDelayOffset: real)
      ensures this.attackRate == attackRate && this.shootAnimationLength == shootAnimationLength
      ensures this.stationaryDelayOffset == stationaryDelayOffset && this.movingDelayOffset == movingDelayOffset
      ensures firePointCurrent == None && nextAttackTime == At(0.0) && shootDirection == Zero && triggers == []
    {
      this.attackRate := attackRate;
      this.shootAnimationLength := shootAnimationLength;
      this.stationaryDelayOffset := stationaryDelayOffset;
      this.movingDelayOffset := movingDelayOffset;
      firePointCurrent := None;
      nextAttackTime := At(0.0);
      shootDirection := Zero;
      triggers := [];
    }

    /** One frame. `now` is Time.time, `aimDirection` the normalised
        direction from the fire point to the mouse. */
    method Update(now: real, isMoving: bool, facingRight: bool, mousePressed: bool, aimDirection: Vec)
      returns (shot: Option<Shot>)
      modifies this
      ensures firePointCurrent == Some(FirePointFor(isMoving, facingRight))
      ensures shot.Some? <==> Fires(now, old(nextAttackTime), mousePressed)
      ensures nextAttackTime == NextAttack(now, old(nextAttackTime), mousePressed, attackRate)
      ensures shot.Some? ==>
        && shot.value.delay == shootAnimationLength - (if isMoving then movingDelayOffset else stationaryDelayOffset)
        && shot.value.firePoint == FirePointFor(isMoving, facingRight)
        && shot.value.direction == aimDirection
        && shootDirection == aimDirection
        && triggers == old(triggers) + ["Shoot"]
      ensures shot.None? ==> shootDirection == old(shootDirection) && triggers == old(triggers)
    {
      if isMoving {
        if facingRight {
          firePointCurrent := Some(RightPoint);
        } else {
          firePointCurrent := Some(LeftPoint);
        }
      } else {
        if facingRight {
          firePointCurrent := Some(RightPoint);
        } else {
          firePointCurrent := Some(LeftPoint);
        }
      }
      shot := None;
      if nextAttackTime.At? && now >= nextAttackTime.time {
        if mousePressed {
          shootDirection := aimDirection;
          triggers := triggers + ["Shoot"];
          var delayOffset := if isMoving then movingDelayOffset else stationaryDelayOffset;
          shot := Some(Shot(shootAnimationLength - delayOffset, firePointCurrent.value, shootDirection));
          nextAttackTime := After(now, attackRate);
        }
      }
    }
  }
}
