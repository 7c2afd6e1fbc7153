/** The game scene: its contact delegate and the spawn step of its physics
    callback, over the fields that step updates in place. */
module Scene {
  import opened Contacts
  import opened PlayerSprite
  import PlayerStates
  import Spawning

  class GameScene {
    const player: Player
    var nextEncounterSpawnPosition: real
    // The positions passed to the encounter manager's placeNextEncounter.
    var placedEncounters: seq<real>
    var starPosition: Spawning.Point
    var starVelocity: Spawning.Point
    var starAngularVelocity: real

    /** The spawn-related fields as a value. */
    function Spawner(): Spawning.Spawner
      reads this
    {
      Spawning.Spawner(nextEncounterSpawnPosition, placedEncounters,
                       Spawning.StarBody(starPosition, starVelocity, starAngularVelocity))
    }

    /** The scene as set up when it is shown: a new player, the first
        encounter due at 150 and the star parked off screen. */
    constructor ()
      ensures fresh(player) && player.State() == PlayerStates.Initial()
      ensures Spawner() == Spawning.Initial()
    {
      player := new Player();
      nextEncounterSpawnPosition := Spawning.FirstEncounter;
      placedEncounters := [];
      starPosition := Spawning.Point(-2000.0, -2000.0);
      starVelocity := Spawning.Point(0.0, 0.0);
      starAngularVelocity := 0.0;
    }

    /** A contact between two bodies with these category masks begins; the
        result is the branch the contact takes. */
    method DidBegin(maskA: bv32, maskB: bv32) returns (kind: ContactKind)
      modifies player
      ensures kind == Classify(OtherMask(maskA, maskB))
      ensures player.State() == ContactEffect(maskA, maskB, old(player.State()))
    {
      kind := Classify(OtherMask(maskA, maskB));
      match kind
      case HitGround => player.TakeDamage();
      case HitEnemy => player.TakeDamage();
      case CollectCoin =>
      case StartPowerup =>
      case NoGameLogic =>
    }

    /** The encounter part of one physics frame, with the player at
        `playerX` and the two random draws given. */
    method DidSimulatePhysics(playerX: real, starRoll: nat, yRoll: nat)
      requires starRoll < Spawning.StarRollRange && yRoll < Spawning.StarYRange
      modifies this
      ensures Spawner() == Spawning.SpawnCheck(old(Spawner()), playerX, starRoll, yRoll)
    {
      if playerX > nextEncounterSpawnPosition {
        placedEncounters := placedEncounters + [nextEncounterSpawnPosition];
        nextEncounterSpawnPosition := nextEncounterSpawnPosition + Spawning.EncounterSpacing;
        if starRoll == 0 {
          if Spawning.Abs(playerX - starPosition.x) > Spawning.EncounterSpacing {
            var randomY := Spawning.StarMinY + yRoll as real;
            starPosition := Spawning.Point(nextEncounterSpawnPosition, randomY);
            starAngularVelocity := 0.0;
            starVelocity := Spawning.Point(0.0, 0.0);
          }
        }
      }
    }
  }
}
