/** Projectile: the player's shot. Its first contact with an Enemy or with
    the Tiles stops it, switches off its collider, plays the impact and
    schedules its destruction; only an Enemy contact damages. Every later
    contact, and any contact with another tag, is ignored. */
module Projectiles {
  import opened Scene

  /** Whether a trigger with this tag sets the `hasCollided` latch. */
  predicate Latches(hasCollided: bool, tag: string) {
    !hasCollided && (tag == EnemyTag || tag == TilesTag)
  }

  /** The damage call a trigger makes: only an unlatched contact with an
      Enemy-tagged object that carries an EnemyUnit. */
  function ImpactStrike(hasCollided: bool, other: Collider, damage: int): (s: Option<Strike>)
    ensures s.Some? ==> Latches(hasCollided, other.tag) && other.tag == EnemyTag
    ensures s.Some? <==> !hasCollided && other.tag == EnemyTag && other.script == EnemyScript
    ensures s.Some? ==> s.value == Strike(EnemyVictim(other.id), damage)
  {
    if !hasCollided && other.tag == EnemyTag && other.script == EnemyScript
    then Some(Strike(EnemyVictim(other.id), damage))
    else None
  }

  /** How many of a run of triggers set the latch, starting from `hasCollided`. */
  function Impacts(hasCollided: bool, others: seq<Collider>): nat
    decreases |others|
  {
    if others == [] then 0
    else
      var latches := Latches(hasCollided, others[0].tag);
      (if latches then 1 else 0) + Impacts(hasCollided || latches, others[1..])
  }

  /** How many of a run of triggers deal damage, starting from `hasCollided`. */
  function StrikeCount(hasCollided: bool, others: seq<Collider>, damage: int): nat
    decreases |others|
  {
    if others == [] then 0
    else
      var latches := Latches(hasCollided, others[0].tag);
      (if ImpactStrike(hasCollided, others[0], damage).Some? then 1 else 0)
        + StrikeCount(hasCollided || latches, others[1..], damage)
  }

  /** Whatever triggers arrive, at most one impact is processed and at most
      one damage call is made; once latched, none at all. */
  lemma {:induction false} AtMostOneImpact(hasCollided: bool, others: seq<Collider>, damage: int)
    ensures StrikeCount(hasCollided, others, damage) <= Impacts(hasCollided, others)
    ensures Impacts(hasCollided, others) <= (if hasCollided then 0 else 1)
    decreases |others|
  {
    if others != [] {
      var latches := Latches(hasCollided, others[0].tag);
      AtMostOneImpact(hasCollided || latches, others[1..], damage);
    }
  }

  class Projectile {
    const damage: int

    var hasCollided: bool
    var velocity: Vec
    var colliderEnabled: bool
    /** Animator triggers set, in order. */
    var triggers: seq<string>
    /** Destroy(gameObject, impact length) was requested. */
    var destroyScheduled: bool

    /** A fresh projectile, flying with the velocity SetDirection gave it. */
    constructor (damage: int, velocity: Vec)
      ensures this.damage == damage && this.velocity == velocity
      ensures !hasCollided && colliderEnabled && triggers == [] && !destroyScheduled
    {
      this.damage := damage;
      this.velocity := velocity;
      hasCollided := false;
      colliderEnabled := true;
      triggers := [];
      destroyScheduled := false;
    }

    /** OnTriggerEnter2D: the tag is tested first, then the latch. */
    method OnTriggerEnter2D(other: Collider) returns (strike: Option<Strike>)
      modifies this
      ensures strike == ImpactStrike(old(hasCollided), other, damage)
      ensures hasCollided == (old(hasCollided) || other.tag == EnemyTag || other.tag == TilesTag)
      ensures Latches(old(hasCollided), other.tag) ==>
        velocity == Zero && !colliderEnabled && triggers == old(triggers) + ["Impact"] && destroyScheduled
      ensures !Latches(old(hasCollided), other.tag) ==>
        strike == None && unchanged(this)
    {
      strike := None;
      if other.tag == EnemyTag {
        if hasCollided {
          return;
        }
        hasCollided := true;
        velocity := Zero;
        colliderEnabled := false;
        triggers := triggers + ["Impact"];
        if other.script == EnemyScript {
          strike := Some(Strike(EnemyVictim(other.id), damage));
        }
        destroyScheduled := true;
      }
      if other.tag == TilesTag {
        if hasCollided {
          return;
        }
        hasCollided := true;
        velocity := Zero;
        colliderEnabled := false;
        triggers := triggers + ["Impact"];
        destroyScheduled := true;
      }
    }
  }
}
