/** PlayerParty: the roster of bugs that follow the player. A bug joins at a
    random point near the player and is never removed. */
module Party {
  import opened Scene

  /** What the prefab handed to AddBugToParty carries. */
  datatype BugPrefab = BugPrefab(hasFollowScript: bool)

  /** A party bug: the instantiated object, where it was placed, and the
      transform its BugFollowPlayer follows (None without that script). */
  datatype Member = Member(instance: nat, position: Vec, follows: Option<nat>)

  /** Where a bug is placed: the owner's position plus a point of the unit
      disc scaled by the spawn radius. A point drawn inside the unit disc
      lands within the radius of the owner. */
  function SpawnPosition(owner: Vec, unit: Vec, radius: real): (p: Vec)
    ensures DistSq(unit, Zero) <= 1.0 ==> DistSq(p, owner) <= radius * radius
  {
    Add(owner, Scale(unit, radius))
  }

  class PlayerParty {
    /** The transform of the player that owns the party. */
    const owner: nat
    const spawnOffsetRadius: real

    var partyBugs: seq<Member>

    constructor (owner: nat, spawnOffsetRadius: real)
      ensures this.owner == owner && this.spawnOffsetRadius == spawnOffsetRadius
      ensures partyBugs == []
    {
      this.owner := owner;
      this.spawnOffsetRadius := spawnOffsetRadius;
      partyBugs := [];
    }

    /** AddBugToParty. `bugPrefab` is None for a null prefab; `unit` is the
        Random.insideUnitCircle draw, `ownerPosition` the player's position
        and `instance` the object Instantiate creates. */
    method AddBugToParty(bugPrefab: Option<BugPrefab>, unit: Vec, ownerPosition: Vec, instance: nat)
      requires DistSq(unit, Zero) <= 1.0
      modifies this`partyBugs
      ensures old(partyBugs) <= partyBugs
      ensures bugPrefab.None? ==> partyBugs == old(partyBugs)
      ensures bugPrefab.Some? ==>
        && |partyBugs| == |old(partyBugs)| + 1
        && partyBugs[|partyBugs| - 1].instance == instance
        && partyBugs[|partyBugs| - 1].position == SpawnPosition(ownerPosition, unit, spawnOffsetRadius)
        && DistSq(partyBugs[|partyBugs| - 1].position, ownerPosition) <= spawnOffsetRadius * spawnOffsetRadius
        && partyBugs[|partyBugs| - 1].follows == (if bugPrefab.value.hasFollowScript then Some(owner) else None)
    {
      if bugPrefab.Some? {
        var spawnPosition := SpawnPosition(ownerPosition, unit, spawnOffsetRadius);
        var newBug := Member(instance, spawnPosition, None);
        if bugPrefab.value.hasFollowScript {
          newBug := newBug.(follows := Some(owner));
        }
        partyBugs := partyBugs + [newBug];
      }
    }
  }
}
