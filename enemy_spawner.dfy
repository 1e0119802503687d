/** EnemySpawner: keeps the list of active enemies under a population cap,
    places each new enemy at the first of at most ten candidate positions
    that is inside the map, clear of the player, clear of the other enemies
    and off obstacles, gives it two patrol points, and forgets it when it
    dies. Spawning repeats while the player is alive. */
module Spawning {
  import opened Scene

  /** Both FindSpreadOutSpawnPosition and GeneratePatrolPoint give up after this many tries. */
  const MaxAttempts: nat := 10

  /** A spawned enemy game object, by identity. */
  datatype EnemyRef = EnemyRef(id: nat)

  /** The spawner's inspector settings that decide where enemies go. */
  datatype SpawnRules = SpawnRules(
    minX: real, maxX: real, minY: real, maxY: real,
    playerSafeRadius: real,
    minDistanceBetweenEnemies: real,
    minSpawnRadius: real)

  /** What the engine answers during one spawn: the player's position, where
      each enemy is (None once its object is destroyed), whether a point is
      inside an obstacle, and whether the segment between two points is
      free of obstacles. */
  datatype World = World(
    player: Vec,
    locate: EnemyRef -> Option<Vec>,
    blocked: Vec -> bool,
    pathClear: (Vec, Vec) -> bool)

  /** One patrol-pair attempt: the draws for the first and for the second point. */
  datatype PatrolDraw = PatrolDraw(first: seq<Vec>, second: seq<Vec>)

  /** The random draws of one SpawnRegularEnemy call: the ten raw spawn
      candidates (player + direction * distance), the object Instantiate
      creates, whether it carries an EnemyUnit, and the patrol-pair attempts
      the path-clear retry would consume. */
  datatype SpawnDraw = SpawnDraw(
    candidates: seq<Vec>,
    instance: EnemyRef,
    hasEnemyUnit: bool,
    patrolDraws: seq<PatrolDraw>)

  /** What one SpawnRegularEnemy call did. */
  datatype SpawnOutcome =
    | AtCap                          // already maxSpawnCount enemies
    | NoPrefab                       // the empty prefab list: indexing it throws
    | NoPosition                     // every candidate rejected (or the zero vector found)
    | Untracked(position: Vec)       // instantiated, but without an EnemyUnit
    | Hung(position: Vec)            // no clear patrol pair among the supplied attempts
    | Spawned(enemy: EnemyRef, position: Vec, patrol1: Vec, patrol2: Vec)

  predicate WellFormed(d: SpawnDraw) {
    && |d.candidates| == MaxAttempts
    && |d.patrolDraws| > 0
    && forall i :: 0 <= i < |d.patrolDraws| ==>
         |d.patrolDraws[i].first| == MaxAttempts && |d.patrolDraws[i].second| == MaxAttempts
  }

  predicate NoDuplicates(s: seq<EnemyRef>) {
    forall i, j :: 0 <= i < j < |s| ==> s[i] != s[j]
  }

  /** A candidate clamped to the map bounds, coordinate by coordinate. */
  function ClampToBounds(p: Vec, rules: SpawnRules): (r: Vec)
    ensures rules.minX <= rules.maxX && rules.minY <= rules.maxY ==> InBounds(r, rules)
    ensures InBounds(p, rules) ==> r == p
  {
    Vec(Clamp(p.x, rules.minX, rules.maxX), Clamp(p.y, rules.minY, rules.maxY))
  }

  predicate InBounds(p: Vec, rules: SpawnRules) {
    rules.minX <= p.x <= rules.maxX && rules.minY <= p.y <= rules.maxY
  }

  /** At least the minimum distance from every enemy whose object still exists. */
  predicate FarFromEnemies(p: Vec, enemies: seq<EnemyRef>, world: World, gap: real) {
    forall i :: 0 <= i < |enemies| && world.locate(enemies[i]).Some? ==>
      !Closer(p, world.locate(enemies[i]).value, gap)
  }

  /** The three tests a clamped spawn candidate must pass. */
  predicate SpawnOk(p: Vec, enemies: seq<EnemyRef>, world: World, rules: SpawnRules) {
    && !Closer(p, world.player, rules.playerSafeRadius)
    && FarFromEnemies(p, enemies, world, rules.minDistanceBetweenEnemies)
    && !world.blocked(p)
  }

  /** The first clamped candidate that passes the tests, or the zero vector. */
  function FirstSpawn(candidates: seq<Vec>, enemies: seq<EnemyRef>, world: World, rules: SpawnRules): Vec
    decreases |candidates|
  {
    if candidates == [] then Zero
    else
      var c := ClampToBounds(candidates[0], rules);
      if SpawnOk(c, enemies, world, rules) then c else FirstSpawn(candidates[1..], enemies, world, rules)
  }

  /** Candidate k is the first whose clamped position passes the tests. */
  predicate FirstValid(candidates: seq<Vec>, enemies: seq<EnemyRef>, world: World, rules: SpawnRules, k: nat) {
    && k < |candidates|
    && SpawnOk(ClampToBounds(candidates[k], rules), enemies, world, rules)
    && forall j :: 0 <= j < k ==> !SpawnOk(ClampToBounds(candidates[j], rules), enemies, world, rules)
  }

  /** The search returns the first clamped candidate that passes all three
      tests, and the zero vector when none does; so whatever it returns other
      than zero lies in the bounds and passes the tests. */
  lemma {:induction false} FirstSpawnSpec(candidates: seq<Vec>, enemies: seq<EnemyRef>, world: World, rules: SpawnRules)
    ensures (forall k :: 0 <= k < |candidates| ==> !SpawnOk(ClampToBounds(candidates[k], rules), enemies, world, rules))
            ==> FirstSpawn(candidates, enemies, world, rules) == Zero
    ensures forall k: nat :: FirstValid(candidates, enemies, world, rules, k) ==>
              FirstSpawn(candidates, enemies, world, rules) == ClampToBounds(candidates[k], rules)
    ensures var r := FirstSpawn(candidates, enemies, world, rules);
            r != Zero ==> (SpawnOk(r, enemies, world, rules)
              && (rules.minX <= rules.maxX && rules.minY <= rules.maxY ==> InBounds(r, rules)))
    decreases |candidates|
  {
    if candidates != [] {
      var rest := candidates[1..];
      FirstSpawnSpec(rest, enemies, world, rules);
      forall k: nat | FirstValid(candidates, enemies, world, rules, k)
        ensures FirstSpawn(candidates, enemies, world, rules) == ClampToBounds(candidates[k], rules)
      {
        if k > 0 {
          assert FirstValid(rest, enemies, world, rules, k - 1) by {
            forall j | 0 <= j < k - 1
              ensures !SpawnOk(ClampToBounds(rest[j], rules), enemies, world, rules)
            {
              assert rest[j] == candidates[j + 1];
            }
          }
        }
      }
      if forall k :: 0 <= k < |candidates| ==> !SpawnOk(ClampToBounds(candidates[k], rules), enemies, world, rules) {
        forall k | 0 <= k < |rest|
          ensures !SpawnOk(ClampToBounds(rest[k], rules), enemies, world, rules)
        {
          assert rest[k] == candidates[k + 1];
        }
      }
    }
  }

  /** A patrol point is acceptable outside the minimum spawn radius and off obstacles. */
  predicate PatrolOk(p: Vec, world: World, rules: SpawnRules) {
    !Closer(p, world.player, rules.minSpawnRadius) && !world.blocked(p)
  }

  /** The do-while of GeneratePatrolPoint: the first acceptable draw, else the last one. */
  function PatrolPick(draws: seq<Vec>, world: World, rules: SpawnRules): Vec
    requires |draws| > 0
    decreases |draws|
  {
    if |draws| == 1 || PatrolOk(draws[0], world, rules) then draws[0]
    else PatrolPick(draws[1..], world, rules)
  }

  /** The patrol point is one of the draws: the first acceptable one if there
      is one, and otherwise the last draw, unacceptable as it is. */
  lemma {:induction false} PatrolPickSpec(draws: seq<Vec>, world: World, rules: SpawnRules)
    requires |draws| > 0
    ensures PatrolPick(draws, world, rules) in draws
    ensures forall k :: 0 <= k < |draws| && PatrolOk(draws[k], world, rules) &&
                        (forall j :: 0 <= j < k ==> !PatrolOk(draws[j], world, rules))
              ==> PatrolPick(draws, world, rules) == draws[k]
    ensures !PatrolOk(PatrolPick(draws, world, rules), world, rules) ==>
              PatrolPick(draws, world, rules) == draws[|draws| - 1]
              && forall k :: 0 <= k < |draws| ==> !PatrolOk(draws[k], world, rules)
    decreases |draws|
  {
    if |draws| > 1 && !PatrolOk(draws[0], world, rules) {
      var rest := draws[1..];
      PatrolPickSpec(rest, world, rules);
      forall k | 0 <= k < |draws| && PatrolOk(draws[k], world, rules) &&
                 (forall j :: 0 <= j < k ==> !PatrolOk(draws[j], world, rules))
        ensures PatrolPick(draws, world, rules) == draws[k]
      {
        assert k > 0;
        assert rest[k - 1] == draws[k];
        forall j | 0 <= j < k - 1 ensures !PatrolOk(rest[j], world, rules) {
          assert rest[j] == draws[j + 1];
        }
      }
      if !PatrolOk(PatrolPick(draws, world, rules), world, rules) {
        forall k | 0 <= k < |draws| ensures !PatrolOk(draws[k], world, rules) {
          if k > 0 {
            assert draws[k] == rest[k - 1];
          }
        }
      }
    }
  }

  /** The points the path-clear retry settles on: the first supplied attempt
      whose two points see each other, if any. */
  function FirstClearPair(attempts: seq<PatrolDraw>, world: World, rules: SpawnRules): Option<(Vec, Vec)>
    requires forall i :: 0 <= i < |attempts| ==> |attempts[i].first| > 0 && |attempts[i].second| > 0
    decreases |attempts|
  {
    if attempts == [] then None
    else
      var p1 := PatrolPick(attempts[0].first, world, rules);
      var p2 := PatrolPick(attempts[0].second, world, rules);
      if world.pathClear(p1, p2) then Some((p1, p2))
      else FirstClearPair(attempts[1..], world, rules)
  }

  /** List.Remove: drop the first occurrence, if there is one. */
  function RemoveFirst(s: seq<EnemyRef>, x: EnemyRef): (r: seq<EnemyRef>)
    ensures x !in s ==> r == s
    ensures |r| == |s| - (if x in s then 1 else 0)
    ensures multiset(r) == multiset(s) - multiset{x}
    decreases |s|
  {
    if s == [] then s
    else
      assert s == [s[0]] + s[1..];
      if s[0] == x then s[1..] else [s[0]] + RemoveFirst(s[1..], x)
  }

  /** List.IndexOf: the position of the first occurrence. */
  function FirstIndex(s: seq<EnemyRef>, x: EnemyRef): (k: nat)
    requires x in s
    ensures k < |s| && s[k] == x && x !in s[..k]
    decreases |s|
  {
    if s[0] == x then 0
    else
      var k := 1 + FirstIndex(s[1..], x);
      assert s[..k] == [s[0]] + s[1..][..k - 1];
      k
  }

  /** What is removed is the first occurrence: the entries before it and
      after it stay, in order. */
  lemma {:induction false} RemoveFirstShape(s: seq<EnemyRef>, x: EnemyRef)
    requires x in s
    ensures RemoveFirst(s, x) == s[..FirstIndex(s, x)] + s[FirstIndex(s, x) + 1..]
    decreases |s|
  {
    if s[0] != x {
      var t := s[1..];
      RemoveFirstShape(t, x);
      var k := FirstIndex(t, x);
      assert s[..k + 1] == [s[0]] + t[..k];
      assert s[k + 2..] == t[k + 1..];
    }
  }

  /** Removing from a list without duplicates removes the entry entirely and
      keeps the list free of duplicates. */
  lemma RemoveFirstUnique(s: seq<EnemyRef>, x: EnemyRef)
    requires NoDuplicates(s)
    ensures x !in RemoveFirst(s, x)
    ensures NoDuplicates(RemoveFirst(s, x))
  {
    if x in s {
      RemoveFirstShape(s, x);
      var k := FirstIndex(s, x);
      var r := s[..k] + s[k + 1..];
      assert |r| == |s| - 1;
      assert forall i :: 0 <= i < k ==> r[i] == s[i];
      assert forall i :: k <= i < |r| ==> r[i] == s[i + 1];
      forall i | 0 <= i < |r| ensures r[i] != x {
        if i >= k {
          assert s[k] == x && r[i] == s[i + 1];
        }
      }
      forall i, j | 0 <= i < j < |r| ensures r[i] != r[j] {
        var i' := if i < k then i else i + 1;
        var j' := if j < k then j else j + 1;
        assert i' < j' && r[i] == s[i'] && r[j] == s[j'];
      }
    }
  }

  /** The path-clear retry only settles on a pair whose points see each other. */
  lemma {:induction false} FirstClearPairSound(attempts: seq<PatrolDraw>, world: World, rules: SpawnRules)
    requires forall i :: 0 <= i < |attempts| ==> |attempts[i].first| > 0 && |attempts[i].second| > 0
    ensures FirstClearPair(attempts, world, rules).Some? ==>
              world.pathClear(FirstClearPair(attempts, world, rules).value.0, FirstClearPair(attempts, world, rules).value.1)
    decreases |attempts|
  {
    if attempts != [] {
      FirstClearPairSound(attempts[1..], world, rules);
    }
  }

  /** What SpawnRegularEnemy does with the active list `enemies`, the spawner's
      settings and one call's draws: the cap test, then the prefab draw (which
      throws on an empty prefab list), the spread-out position, the EnemyUnit
      test and the patrol pair. */
  function SpawnResult(enemies: seq<EnemyRef>, draw: SpawnDraw, world: World, rules: SpawnRules,
                       prefabCount: nat, cap: int): SpawnOutcome
    requires WellFormed(draw)
  {
    if |enemies| >= cap then AtCap
    else if prefabCount == 0 then NoPrefab
    else
      var position := FirstSpawn(draw.candidates, enemies, world, rules);
      if SameVector(position, Zero) then NoPosition
      else if !draw.hasEnemyUnit then Untracked(position)
      else
        match FirstClearPair(draw.patrolDraws, world, rules)
        case None => Hung(position)
        case Some(pair) => Spawned(draw.instance, position, pair.0, pair.1)
  }

  /** The active list after a spawn attempt: a spawned enemy is appended. */
  function Track(enemies: seq<EnemyRef>, outcome: SpawnOutcome): seq<EnemyRef> {
    if outcome.Spawned? then enemies + [outcome.enemy] else enemies
  }

  /** A spawn attempt does nothing at the cap and throws exactly when below
      the cap with no prefabs; it adds the new instance exactly when the
      search finds a position that Unity's `!=` tells apart from the zero
      vector (farther than 1e-5 from the origin), the instance is an EnemyUnit
      and a clear patrol pair is found, and then the position lies in the bounds and
      passes the three tests; the count never passes the cap. */
  lemma SpawnResultSpec(enemies: seq<EnemyRef>, draw: SpawnDraw, world: World, rules: SpawnRules,
                        prefabCount: nat, cap: int)
    requires WellFormed(draw)
    ensures var o := SpawnResult(enemies, draw, world, rules, prefabCount, cap);
      && (o == AtCap <==> |enemies| >= cap)
      && (o == NoPrefab <==> |enemies| < cap && prefabCount == 0)
      && (o.Spawned? <==>
            && |enemies| < cap && prefabCount > 0 && draw.hasEnemyUnit
            && !SameVector(FirstSpawn(draw.candidates, enemies, world, rules), Zero)
            && FirstClearPair(draw.patrolDraws, world, rules).Some?)
      && (o.Spawned? ==>
            && o.enemy == draw.instance
            && o.position == FirstSpawn(draw.candidates, enemies, world, rules)
            && !Closer(o.position, Zero, 0.00001)
            && SpawnOk(o.position, enemies, world, rules)
            && (rules.minX <= rules.maxX && rules.minY <= rules.maxY ==> InBounds(o.position, rules))
            && world.pathClear(o.patrol1, o.patrol2))
      && |Track(enemies, o)| <= (if |enemies| < cap then cap else |enemies|)
  {
    FirstSpawnSpec(draw.candidates, enemies, world, rules);
    FirstClearPairSound(draw.patrolDraws, world, rules);
  }

  predicate AllWellFormed(draws: seq<SpawnDraw>) {
    forall i :: 0 <= i < |draws| ==> WellFormed(draws[i])
  }

  /** The world after a spawn attempt within one frame: Instantiate puts a
      spawned enemy at its spawn position at once, so the next attempt's
      distance test sees it there; nothing else changes. */
  function Place(world: World, outcome: SpawnOutcome): (w: World)
    ensures w.player == world.player && w.blocked == world.blocked && w.pathClear == world.pathClear
    ensures outcome.Spawned? ==> w.locate(outcome.enemy) == Some(outcome.position)
    ensures forall e :: (outcome.Spawned? ==> e != outcome.enemy) ==> w.locate(e) == world.locate(e)
  {
    if outcome.Spawned?
    then world.(locate := e => if e == outcome.enemy then Some(outcome.position) else world.locate(e))
    else world
  }

  /** Where Start's burst stands after some attempts: the active list, whether
      an attempt threw (the empty prefab list), which ends Start there, and
      the world the next attempt sees. */
  datatype Burst = Burst(enemies: seq<EnemyRef>, thrown: bool, world: World)

  /** Start's burst of spawn attempts, one per draw, all in one frame, each
      seeing the enemies placed by the attempts before it. */
  function StartBurst(enemies: seq<EnemyRef>, draws: seq<SpawnDraw>, world: World, rules: SpawnRules,
                      prefabCount: nat, cap: int): Burst
    requires AllWellFormed(draws)
    decreases |draws|
  {
    if draws == [] then Burst(enemies, false, world)
    else
      var before := StartBurst(enemies, draws[..|draws| - 1], world, rules, prefabCount, cap);
      if before.thrown then before
      else
        var o := SpawnResult(before.enemies, draws[|draws| - 1], before.world, rules, prefabCount, cap);
        if o == NoPrefab then before.(thrown := true)
        else Burst(Track(before.enemies, o), false, Place(before.world, o))
  }

  /** The burst only appends draws' instances, at most one per attempt, never
      past the cap; it throws exactly when there are attempts, no prefabs and
      room below the cap, and then adds nothing. */
  lemma {:induction false} StartBurstSpec(enemies: seq<EnemyRef>, draws: seq<SpawnDraw>, world: World, rules: SpawnRules,
                                          prefabCount: nat, cap: int)
    requires AllWellFormed(draws)
    ensures var b := StartBurst(enemies, draws, world, rules, prefabCount, cap);
      && enemies <= b.enemies
      && |b.enemies| <= |enemies| + |draws|
      && |b.enemies| <= (if |enemies| < cap then cap else |enemies|)
      && (forall e :: e in b.enemies ==> e in enemies || exists i :: 0 <= i < |draws| && draws[i].instance == e)
      && (b.thrown <==> prefabCount == 0 && |enemies| < cap && |draws| > 0)
      && (b.thrown ==> b.enemies == enemies)
    decreases |draws|
  {
    if draws != [] {
      var shorter := draws[..|draws| - 1];
      var last := draws[|draws| - 1];
      assert AllWellFormed(shorter) by {
        forall i | 0 <= i < |shorter| ensures WellFormed(shorter[i]) {
          assert shorter[i] == draws[i];
        }
      }
      StartBurstSpec(enemies, shorter, world, rules, prefabCount, cap);
      var before := StartBurst(enemies, shorter, world, rules, prefabCount, cap);
      if !before.thrown {
        SpawnResultSpec(before.enemies, last, before.world, rules, prefabCount, cap);
        var o := SpawnResult(before.enemies, last, before.world, rules, prefabCount, cap);
        forall e | e in Track(before.enemies, o)
          ensures e in enemies || exists i :: 0 <= i < |draws| && draws[i].instance == e
        {
          if e !in before.enemies {
            assert e == last.instance && draws[|draws| - 1] == last;
          } else if e !in enemies {
            var i :| 0 <= i < |shorter| && shorter[i].instance == e;
            assert draws[i] == shorter[i];
          }
        }
      }
    }
  }

  /** Enemies spawned in one burst are spread out: each keeps the minimum
      distance from every enemy listed before it that the world still
      places, as the world stands after the burst. */
  lemma {:induction false} BurstSpreadOut(enemies: seq<EnemyRef>, draws: seq<SpawnDraw>, world: World, rules: SpawnRules,
                                          prefabCount: nat, cap: int)
    requires AllWellFormed(draws)
    requires forall i :: 0 <= i < |draws| ==> draws[i].instance !in enemies
    requires forall i, j :: 0 <= i < j < |draws| ==> draws[i].instance != draws[j].instance
    ensures var b := StartBurst(enemies, draws, world, rules, prefabCount, cap);
      forall i, j :: 0 <= i < j < |b.enemies| && |enemies| <= j && b.world.locate(b.enemies[i]).Some? ==>
        && b.world.locate(b.enemies[j]).Some?
        && !Closer(b.world.locate(b.enemies[j]).value, b.world.locate(b.enemies[i]).value, rules.minDistanceBetweenEnemies)
    decreases |draws|
  {
    if draws != [] {
      var shorter := draws[..|draws| - 1];
      var last := draws[|draws| - 1];
      assert AllWellFormed(shorter) by {
        forall i | 0 <= i < |shorter| ensures WellFormed(shorter[i]) {
          assert shorter[i] == draws[i];
        }
      }
      BurstSpreadOut(enemies, shorter, world, rules, prefabCount, cap);
      StartBurstSpec(enemies, shorter, world, rules, prefabCount, cap);
      var before := StartBurst(enemies, shorter, world, rules, prefabCount, cap);
      if !before.thrown {
        var o := SpawnResult(before.enemies, last, before.world, rules, prefabCount, cap);
        if o.Spawned? {
          SpawnResultSpec(before.enemies, last, before.world, rules, prefabCount, cap);
          forall e | e in before.enemies ensures e != last.instance {
            if e !in enemies {
              var k :| 0 <= k < |shorter| && shorter[k].instance == e;
              assert draws[k] == shorter[k];
            }
          }
          var b := StartBurst(enemies, draws, world, rules, prefabCount, cap);
          assert b == Burst(before.enemies + [o.enemy], false, Place(before.world, o));
          forall i, j | 0 <= i < j < |b.enemies| && |enemies| <= j && b.world.locate(b.enemies[i]).Some?
            ensures b.world.locate(b.enemies[j]).Some?
            ensures !Closer(b.world.locate(b.enemies[j]).value, b.world.locate(b.enemies[i]).value, rules.minDistanceBetweenEnemies)
          {
            assert b.enemies[i] == before.enemies[i] && b.enemies[i] in before.enemies;
            assert b.world.locate(b.enemies[i]) == before.world.locate(before.enemies[i]);
            if j < |before.enemies| {
              assert b.enemies[j] == before.enemies[j] && b.enemies[j] in before.enemies;
              assert b.world.locate(b.enemies[j]) == before.world.locate(before.enemies[j]);
            } else {
              assert b.enemies[j] == o.enemy;
            }
          }
        }
      }
    }
  }

  /** Once an attempt of the burst has thrown, the later draws change nothing. */
  lemma {:induction false} ThrownBurstStops(enemies: seq<EnemyRef>, draws: seq<SpawnDraw>, k: nat, world: World,
                                            rules: SpawnRules, prefabCount: nat, cap: int)
    requires AllWellFormed(draws)
    requires k <= |draws|
    requires StartBurst(enemies, draws[..k], world, rules, prefabCount, cap).thrown
    ensures StartBurst(enemies, draws, world, rules, prefabCount, cap) == StartBurst(enemies, draws[..k], world, rules, prefabCount, cap)
    decreases |draws|
  {
    if k == |draws| {
      assert draws[..k] == draws;
    } else {
      var shorter := draws[..|draws| - 1];
      assert shorter[..k] == draws[..k];
      ThrownBurstStops(enemies, shorter, k, world, rules, prefabCount, cap);
    }
  }

  class EnemySpawner {
    const rules: SpawnRules
    const maxSpawnCount: int
    const startingSpawnCount: int
    /** enemyPrefabs.Count */
    const enemyPrefabCount: nat

    var activeEnemies: seq<EnemyRef>
    var playerAlive: bool
    /** The ManageEnemySpawning coroutine is still running. */
    var spawning: bool

    /** The population cap holds, and no enemy is listed twice. */
    ghost predicate Valid()
      reads this
    {
      (|activeEnemies| <= maxSpawnCount || activeEnemies == []) && NoDuplicates(activeEnemies)
    }

    /** The inspector values, before Start. */
    constructor (rules: SpawnRules, maxSpawnCount: int, startingSpawnCount: int, enemyPrefabCount: nat)
      ensures Valid()
      ensures this.rules == rules && this.maxSpawnCount == maxSpawnCount
      ensures this.startingSpawnCount == startingSpawnCount && this.enemyPrefabCount == enemyPrefabCount
      ensures activeEnemies == [] && playerAlive && !spawning
    {
      this.rules := rules;
      this.maxSpawnCount := maxSpawnCount;
      this.startingSpawnCount := startingSpawnCount;
      this.enemyPrefabCount := enemyPrefabCount;
      activeEnemies := [];
      playerAlive := true;
      spawning := false;
    }

    /** Start: startingSpawnCount spawn attempts, each still capped, then the
        spawning coroutine starts. `draws[i]` feeds attempt i. An attempt that
        throws on an empty prefab list ends Start before the coroutine starts. */
    method Start(draws: seq<SpawnDraw>, world: World)
      requires Valid()
      requires startingSpawnCount <= |draws|
      requires forall i :: 0 <= i < |draws| ==> WellFormed(draws[i]) && draws[i].instance !in activeEnemies
      requires forall i, j :: 0 <= i < j < |draws| ==> draws[i].instance != draws[j].instance
      modifies this`activeEnemies, this`spawning
      ensures Valid()
      ensures var n := if startingSpawnCount < 0 then 0 else startingSpawnCount;
        var burst := StartBurst(old(activeEnemies), draws[..n], world, rules, enemyPrefabCount, maxSpawnCount);
        && activeEnemies == burst.enemies
        && spawning == (old(spawning) || !burst.thrown)
    {
      ghost var initial := activeEnemies;
      ghost var n: nat := if startingSpawnCount < 0 then 0 else startingSpawnCount;
      assert AllWellFormed(draws);
      var w := world;
      var i := 0;
      while i < startingSpawnCount
        invariant Valid()
        invariant 0 <= i <= n
        invariant activeEnemies == StartBurst(initial, draws[..i], world, rules, enemyPrefabCount, maxSpawnCount).enemies
        invariant !StartBurst(initial, draws[..i], world, rules, enemyPrefabCount, maxSpawnCount).thrown
        invariant w == StartBurst(initial, draws[..i], world, rules, enemyPrefabCount, maxSpawnCount).world
        invariant forall m :: i <= m < |draws| ==> draws[m].instance !in activeEnemies
        invariant spawning == old(spawning)
      {
        assert draws[..i + 1][..i] == draws[..i] && draws[..i + 1][i] == draws[i];
        var outcome := SpawnRegularEnemy(draws[i], w);
        if outcome == NoPrefab {
          assert draws[..n][..i + 1] == draws[..i + 1];
          ThrownBurstStops(initial, draws[..n], i + 1, world, rules, enemyPrefabCount, maxSpawnCount);
          return;
        }
        w := Place(w, outcome);
        i := i + 1;
      }
      assert draws[..i] == draws[..n];
      spawning := true;
    }

    /** One pass of ManageEnemySpawning's loop, between two waits: the loop
        ends for good once it sees the player dead; otherwise it makes a spawn
        attempt when below the cap, and an attempt that throws on an empty
        prefab list ends the coroutine. */
    method SpawnCycle(draw: SpawnDraw, world: World) returns (outcome: Option<SpawnOutcome>)
      requires Valid() && WellFormed(draw) && draw.instance !in activeEnemies
      modifies this`activeEnemies, this`spawning
      ensures Valid()
      ensures !(old(spawning) && playerAlive) ==> outcome == None && activeEnemies == old(activeEnemies) && !spawning
      ensures old(spawning) && playerAlive && old(|activeEnemies|) >= maxSpawnCount ==>
                outcome == None && activeEnemies == old(activeEnemies) && spawning
      ensures old(spawning) && playerAlive && old(|activeEnemies|) < maxSpawnCount ==>
                && outcome == Some(SpawnResult(old(activeEnemies), draw, world, rules, enemyPrefabCount, maxSpawnCount))
                && activeEnemies == Track(old(activeEnemies), outcome.value)
                && spawning == (outcome.value != NoPrefab)
    {
      if !spawning {
        return None;
      }
      if !playerAlive {
        spawning := false;
        return None;
      }
      if |activeEnemies| < maxSpawnCount {
        var o := SpawnRegularEnemy(draw, world);
        outcome := Some(o);
        if o == NoPrefab {
          spawning := false;
        }
      } else {
        outcome := None;
      }
    }

    /** SpawnRegularEnemy: capped; otherwise find a spread-out position and,
        when one is found and the instance is an EnemyUnit, give it a clear
        patrol pair and track it. */
    method SpawnRegularEnemy(draw: SpawnDraw, world: World) returns (outcome: SpawnOutcome)
      requires Valid() && WellFormed(draw) && draw.instance !in activeEnemies
      modifies this`activeEnemies
      ensures Valid()
      ensures outcome == SpawnResult(old(activeEnemies), draw, world, rules, enemyPrefabCount, maxSpawnCount)
      ensures activeEnemies == Track(old(activeEnemies), outcome)
      ensures outcome.Spawned? ==> outcome.enemy == draw.instance
    {
      if |activeEnemies| >= maxSpawnCount {
        return AtCap;
      }
      if enemyPrefabCount == 0 {
        return NoPrefab;
      }
      var spawnPosition := FindSpreadOutSpawnPosition(draw.candidates, world);
      if !SameVector(spawnPosition, Zero) {
        if draw.hasEnemyUnit {
          var found, patrolPoint1, patrolPoint2 := PickPatrolPair(draw.patrolDraws, world);
          if !found {
            return Hung(spawnPosition);
          }
          activeEnemies := activeEnemies + [draw.instance];
          outcome := Spawned(draw.instance, spawnPosition, patrolPoint1, patrolPoint2);
        } else {
          outcome := Untracked(spawnPosition);
        }
      } else {
        outcome := NoPosition;
      }
    }

    /** FindSpreadOutSpawnPosition: at most ten candidates, each clamped to
        the bounds and tested against the player's safe radius, the other
        enemies and the obstacles; the zero vector when all fail. */
    method FindSpreadOutSpawnPosition(candidates: seq<Vec>, world: World) returns (r: Vec)
      requires |candidates| == MaxAttempts
      ensures r == FirstSpawn(candidates, activeEnemies, world, rules)
      ensures r != Zero ==> SpawnOk(r, activeEnemies, world, rules)
      ensures r != Zero && rules.minX <= rules.maxX && rules.minY <= rules.maxY ==> InBounds(r, rules)
      ensures (forall k :: 0 <= k < |candidates| ==> !SpawnOk(ClampToBounds(candidates[k], rules), activeEnemies, world, rules))
              ==> r == Zero
    {
      FirstSpawnSpec(candidates, activeEnemies, world, rules);
      var i := 0;
      while i < MaxAttempts
        invariant 0 <= i <= MaxAttempts
        invariant FirstSpawn(candidates, activeEnemies, world, rules) == FirstSpawn(candidates[i..], activeEnemies, world, rules)
      {
        var candidatePosition := ClampToBounds(candidates[i], rules);
        assert candidates[i..][0] == candidates[i] && candidates[i..][1..] == candidates[i + 1..];
        if !Closer(candidatePosition, world.player, rules.playerSafeRadius) {
          var isPositionValid := true;
          var j := 0;
          while j < |activeEnemies|
            invariant 0 <= j <= |activeEnemies|
            invariant isPositionValid
            invariant FarFromEnemies(candidatePosition, activeEnemies[..j], world, rules.minDistanceBetweenEnemies)
          {
            var enemy := world.locate(activeEnemies[j]);
            if enemy.Some? && Closer(candidatePosition, enemy.value, rules.minDistanceBetweenEnemies) {
              isPositionValid := false;
              break;
            }
            assert activeEnemies[..j + 1][j] == activeEnemies[j];
            j := j + 1;
          }
          if isPositionValid {
            assert activeEnemies[..j] == activeEnemies;
          }
          if isPositionValid && !world.blocked(candidatePosition) {
            return candidatePosition;
          }
        }
        i := i + 1;
      }
      r := Zero;
    }

    /** GeneratePatrolPoint: draw until a point is acceptable or ten draws are
        used, and keep the last draw in any case. */
    method GeneratePatrolPoint(draws: seq<Vec>, world: World) returns (patrolPoint: Vec)
      requires |draws| == MaxAttempts
      ensures patrolPoint == PatrolPick(draws, world, rules)
      ensures patrolPoint in draws
      ensures !PatrolOk(patrolPoint, world, rules) ==>
                patrolPoint == draws[MaxAttempts - 1] && forall k :: 0 <= k < |draws| ==> !PatrolOk(draws[k], world, rules)
    {
      PatrolPickSpec(draws, world, rules);
      var attempts := 0;
      patrolPoint := draws[attempts];
      attempts := attempts + 1;
      while !PatrolOk(patrolPoint, world, rules) && attempts < MaxAttempts
        invariant 1 <= attempts <= MaxAttempts
        invariant patrolPoint == draws[attempts - 1]
        invariant PatrolPick(draws, world, rules) == PatrolPick(draws[attempts - 1..], world, rules)
      {
        assert draws[attempts - 1..][1..] == draws[attempts..];
        patrolPoint := draws[attempts];
        attempts := attempts + 1;
      }
    }

    /** The patrol pair of SpawnRegularEnemy: two generated points, drawn
        again until the path between them is clear. The engine would retry
        for ever; here `found` is false when the supplied attempts run out. */
    method PickPatrolPair(attempts: seq<PatrolDraw>, world: World) returns (found: bool, patrolPoint1: Vec, patrolPoint2: Vec)
      requires |attempts| > 0
      requires forall i :: 0 <= i < |attempts| ==> |attempts[i].first| == MaxAttempts && |attempts[i].second| == MaxAttempts
      ensures found <==> FirstClearPair(attempts, world, rules).Some?
      ensures found ==> FirstClearPair(attempts, world, rules) == Some((patrolPoint1, patrolPoint2))
      ensures found ==> world.pathClear(patrolPoint1, patrolPoint2)
    {
      var i := 0;
      patrolPoint1 := GeneratePatrolPoint(attempts[0].first, world);
      patrolPoint2 := GeneratePatrolPoint(attempts[0].second, world);
      while !world.pathClear(patrolPoint1, patrolPoint2)
        invariant 0 <= i < |attempts|
        invariant patrolPoint1 == PatrolPick(attempts[i].first, world, rules)
        invariant patrolPoint2 == PatrolPick(attempts[i].second, world, rules)
        invariant FirstClearPair(attempts, world, rules) == FirstClearPair(attempts[i..], world, rules)
        decreases |attempts| - i
      {
        assert attempts[i..][1..] == attempts[i + 1..];
        i := i + 1;
        if i == |attempts| {
          return false, patrolPoint1, patrolPoint2;
        }
        patrolPoint1 := GeneratePatrolPoint(attempts[i].first, world);
        patrolPoint2 := GeneratePatrolPoint(attempts[i].second, world);
      }
      found := true;
    }

    /** HandleEnemyDeath: the dead enemy's first entry leaves the list; the
        others keep their order. */
    method HandleEnemyDeath(enemy: EnemyRef)
      requires Valid()
      modifies this`activeEnemies
      ensures Valid()
      ensures activeEnemies == RemoveFirst(old(activeEnemies), enemy)
      ensures enemy !in activeEnemies
      ensures |activeEnemies| == |old(activeEnemies)| - (if enemy in old(activeEnemies) then 1 else 0)
    {
      RemoveFirstUnique(activeEnemies, enemy);
      activeEnemies := RemoveFirst(activeEnemies, enemy);
    }

    /** OnPlayerDeath: stop scheduling spawns. */
    method OnPlayerDeath()
      modifies this`playerAlive
      ensures !playerAlive
    {
      playerAlive := false;
    }
  }
}
