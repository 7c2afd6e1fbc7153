/** The encounter and star spawn step of the game scene's physics callback,
    as a function on the values it reads and writes. Positions are `real`
    (CGFloat in the Swift code). The two random draws are inputs: `starRoll`, the
    one-in-ten roll for a star, and `yRoll`, the star's height offset. */
module Spawning {

  const FirstEncounter: real := 150.0
  const EncounterSpacing: real := 1200.0
  const StarMinY: real := 50.0
  const StarYRange: nat := 400
  const StarRollRange: nat := 10

  datatype Point = Point(x: real, y: real)

  /** The power-up star's position and the motion of its physics body. */
  datatype StarBody = StarBody(position: Point, velocity: Point, angularVelocity: real)

  /** The spawn position of the next encounter, the positions handed so far
      to the encounter manager (oldest first), and the star. */
  datatype Spawner = Spawner(nextEncounterSpawnPosition: real, placed: seq<real>, star: StarBody)

  function Abs(x: real): real {
    if x < 0.0 then -x else x
  }

  /** Before the first frame: the first encounter is due at 150 and the star
      is parked far off screen. */
  function Initial(): (s: Spawner)
    ensures OnGrid(s) && s.placed == []
  {
    Spawner(FirstEncounter, [], StarBody(Point(-2000.0, -2000.0), Point(0.0, 0.0), 0.0))
  }

  /** The star only moves on a frame that places an encounter, when the roll
      is 0 and the star is more than one spacing away from the player. */
  predicate MovesStar(s: Spawner, playerX: real, starRoll: nat) {
    && playerX > s.nextEncounterSpawnPosition
    && starRoll == 0
    && Abs(playerX - s.star.position.x) > EncounterSpacing
  }

  /** One frame: when the player has passed the spawn position, place an
      encounter there, advance the spawn position by one spacing and perhaps
      move the star to the new spawn position at a random height. */
  function SpawnCheck(s: Spawner, playerX: real, starRoll: nat, yRoll: nat): (t: Spawner)
    requires starRoll < StarRollRange && yRoll < StarYRange
    ensures playerX <= s.nextEncounterSpawnPosition ==> t == s
    ensures playerX > s.nextEncounterSpawnPosition ==>
              t.nextEncounterSpawnPosition == s.nextEncounterSpawnPosition + EncounterSpacing &&
              t.placed == s.placed + [s.nextEncounterSpawnPosition]
    ensures !MovesStar(s, playerX, starRoll) ==> t.star == s.star
    ensures MovesStar(s, playerX, starRoll) ==>
              t.star.position.x == t.nextEncounterSpawnPosition &&
              StarMinY <= t.star.position.y < StarMinY + StarYRange as real &&
              t.star.velocity == Point(0.0, 0.0) && t.star.angularVelocity == 0.0
  {
    if playerX > s.nextEncounterSpawnPosition then
      var next := s.nextEncounterSpawnPosition + EncounterSpacing;
      var star :=
        if starRoll == 0 && Abs(playerX - s.star.position.x) > EncounterSpacing
        then StarBody(Point(next, StarMinY + yRoll as real), Point(0.0, 0.0), 0.0)
        else s.star;
      Spawner(next, s.placed + [s.nextEncounterSpawnPosition], star)
    else s
  }

  /** Encounters are placed at 150, 1350, 2550, ... in that order, and the
      next spawn position is the next point of that grid. */
  ghost predicate OnGrid(s: Spawner) {
    && s.nextEncounterSpawnPosition == FirstEncounter + EncounterSpacing * (|s.placed| as real)
    && forall i :: 0 <= i < |s.placed| ==>
         s.placed[i] == FirstEncounter + EncounterSpacing * (i as real)
  }

  /** What one frame of the game supplies to the spawn step. */
  datatype Frame = Frame(playerX: real, starRoll: nat, yRoll: nat)

  ghost predicate ValidFrames(frames: seq<Frame>) {
    forall i :: 0 <= i < |frames| ==>
      frames[i].starRoll < StarRollRange && frames[i].yRoll < StarYRange
  }

  function RunFrames(s: Spawner, frames: seq<Frame>): Spawner
    requires ValidFrames(frames)
    decreases |frames|
  {
    if frames == [] then s
    else RunFrames(SpawnCheck(s, frames[0].playerX, frames[0].starRoll, frames[0].yRoll), frames[1..])
  }

  /** One frame keeps the spawn position on the grid. */
  lemma SpawnCheckKeepsGrid(s: Spawner, playerX: real, starRoll: nat, yRoll: nat)
    requires starRoll < StarRollRange && yRoll < StarYRange
    requires OnGrid(s)
    ensures OnGrid(SpawnCheck(s, playerX, starRoll, yRoll))
  {
  }

  /** Over any run of frames the spawn position never moves back, stays on
      the grid, and the positions already handed out are kept. */
  lemma {:induction false} FramesKeepGrid(s: Spawner, frames: seq<Frame>)
    requires OnGrid(s) && ValidFrames(frames)
    ensures OnGrid(RunFrames(s, frames))
    ensures RunFrames(s, frames).nextEncounterSpawnPosition >= s.nextEncounterSpawnPosition
    ensures s.placed <= RunFrames(s, frames).placed
    decreases |frames|
  {
    if frames != [] {
      var f := frames[0];
      var t := SpawnCheck(s, f.playerX, f.starRoll, f.yRoll);
      SpawnCheckKeepsGrid(s, f.playerX, f.starRoll, f.yRoll);
      assert ValidFrames(frames[1..]) by {
        forall i | 0 <= i < |frames[1..]|
          ensures frames[1..][i].starRoll < StarRollRange && frames[1..][i].yRoll < StarYRange
        {
          assert frames[1..][i] == frames[i + 1];
        }
      }
      FramesKeepGrid(t, frames[1..]);
    }
  }
}
