/** Values shared by the game's behaviour scripts: positions, tags, colliders
    returned by overlap queries, and the damage requests one script makes of
    another. */
module Scene {

  datatype Option<T> = None | Some(value: T)

  /** A world position or direction (Unity's Vector2), with exact real coordinates. */
  datatype Vec = Vec(x: real, y: real)

  /** Vector2.zero */
  const Zero: Vec := Vec(0.0, 0.0)

  function Scale(v: Vec, k: real): Vec {
    Vec(v.x * k, v.y * k)
  }

  function Add(a: Vec, b: Vec): Vec {
    Vec(a.x + b.x, a.y + b.y)
  }

  function DistSq(a: Vec, b: Vec): real {
    (a.x - b.x) * (a.x - b.x) + (a.y - b.y) * (a.y - b.y)
  }

  /** Unity's `Vector2 ==`: the two vectors count as equal when their
      squared distance is below kEpsilon * kEpsilon, with kEpsilon = 1e-5. */
  predicate SameVector(a: Vec, b: Vec) {
    DistSq(a, b) < 0.0000000001
  }

  /** `Vector2.Distance(a, b) < r`, stated without the square root: the
      distance is never negative, so it is below r exactly when r is positive
      and the squared distance is below r * r. */
  predicate Closer(a: Vec, b: Vec, r: real) {
    0.0 < r && DistSq(a, b) < r * r
  }

  /** Unity tags the scripts compare against. */
  const AllyTag := "Ally"
  const EnemyTag := "Enemy"
  const TilesTag := "Tiles"
  /** The tag of the player object (never "Ally" nor "Enemy"). */
  const PlayerTag := "Player"

  /** Which of the game's behaviour components a game object carries. */
  datatype Script = NoScript | EnemyScript | BugScript

  /** A collider as the scripts see it: the object's identity, tag and behaviour. */
  datatype Collider = Collider(id: nat, tag: string, script: Script)

  /** One result of an overlap query, with the distance from the querying
      object's position to the collider's object. */
  datatype Hit = Hit(collider: Collider, distance: real)

  /** The object a damage call is made on. */
  datatype Victim = PlayerVictim | BugVictim(bug: nat) | EnemyVictim(enemy: nat)

  /** What a unit's `currentTarget` refers to: the player, or the object of a hit. */
  datatype Target = PlayerTarget | UnitTarget(hit: Hit)

  /** A `TakeDamage(amount)` call one script makes on another object's script. */
  datatype Strike = Strike(victim: Victim, amount: int)

  /** Mathf.Clamp(float, float, float): below min gives min, otherwise above
      max gives max. */
  function Clamp(value: real, min: real, max: real): (r: real)
    ensures min <= max ==> min <= r <= max
    ensures min <= value <= max ==> r == value
    ensures r == value || r == min || r == max
  {
    if value < min then min else if value > max then max else value
  }

  /** Mathf.Clamp(int, int, int): the integer overload of the same rule,
      kept separate because the bug's health is an int. */
  function ClampInt(value: int, min: int, max: int): (r: int)
    ensures min <= max ==> min <= r <= max
    ensures min <= value <= max ==> r == value
    ensures r == value || r == min || r == max
  {
    if value < min then min else if value > max then max else value
  }

  /** The range of C#'s `int`. */
  const IntMin: int := -0x8000_0000
  const IntMax: int := 0x7fff_ffff
  const IntSpan: int := 0x1_0000_0000

  predicate IsInt32(x: int) {
    IntMin <= x <= IntMax
  }

  /** C#'s unchecked `int` arithmetic: the mathematical result `x` taken
      modulo 2^32 into the `int` range. */
  function Wrap32(x: int): (r: int)
    ensures IsInt32(r)
    ensures IsInt32(x) ==> r == x
    ensures (x - r) % IntSpan == 0
  {
    (x - IntMin) % IntSpan + IntMin
  }

  /** A subtraction of 32-bit values that overflows upward (a large negative
      damage) wraps to a negative result: `currentHealth -= damage` then leaves
      the unit at or below zero health. */
  lemma OverflowWrapsNegative(health: int, damage: int)
    requires IsInt32(health) && IsInt32(damage)
    requires health - damage > IntMax
    ensures Wrap32(health - damage) == health - damage - IntSpan
    ensures Wrap32(health - damage) < 0
  {
  }
}
