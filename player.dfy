/** The `Player` sprite: the fields its methods update in place, each method
    proved against the matching transition of PlayerStates. */
module PlayerSprite {
  import opened PhysicsCategories
  import PlayerStates

  class Player {
    var health: int
    var invulnerable: bool
    var damaged: bool
    var flapping: bool
    var forwardVelocity: int
    var category: Category
    // The action sequences whose closures have not yet run.
    var damageAnimation: PlayerStates.DamageAnimation
    var starPowerRunning: bool

    /** The player's state as a value. */
    function State(): PlayerStates.PlayerState
      reads this
    {
      PlayerStates.PlayerState(health, invulnerable, damaged, flapping,
                               forwardVelocity, category, damageAnimation, starPowerRunning)
    }

    constructor ()
      ensures State() == PlayerStates.Initial()
    {
      health := PlayerStates.MaxHealth;
      invulnerable := false;
      damaged := false;
      flapping := false;
      forwardVelocity := PlayerStates.NormalSpeed;
      category := Penguin;
      damageAnimation := PlayerStates.NotRunning;
      starPowerRunning := false;
    }

    method StartFlapping()
      modifies this
      ensures State() == PlayerStates.StartFlapping(old(State()))
    {
      if health <= 0 { return; }
      flapping := true;
    }

    method StopFlapping()
      modifies this
      ensures State() == PlayerStates.StopFlapping(old(State()))
    {
      if health <= 0 { return; }
      flapping := false;
    }

    method Die()
      modifies this
      ensures State() == PlayerStates.Die(old(State()))
    {
      // removeAllActions: no pending closure will run
      damageAnimation := PlayerStates.NotRunning;
      starPowerRunning := false;
      flapping := false;
      forwardVelocity := 0;
    }

    method TakeDamage()
      modifies this
      ensures State() == PlayerStates.TakeDamage(old(State()))
    {
      if invulnerable || damaged { return; }
      damaged := true;
      health := health - 1;
      if health == 0 {
        Die();
      } else {
        damageAnimation := PlayerStates.Starting;
      }
    }

    method StarPower()
      modifies this
      ensures State() == PlayerStates.StarPower(old(State()))
    {
      // the previous "starPower" action, if any, is replaced by a new one
      starPowerRunning := true;
      forwardVelocity := PlayerStates.StarSpeed;
      invulnerable := true;
    }

    /** The closure at the end of the star sequence, run by the engine. */
    method StarPowerEnd()
      modifies this
      ensures State() == PlayerStates.StarPowerEnd(old(State()))
    {
      if !starPowerRunning { return; }
      forwardVelocity := PlayerStates.NormalSpeed;
      invulnerable := false;
      starPowerRunning := false;
    }

    /** The first closure of the damage sequence, run by the engine. */
    method DamageStart()
      modifies this
      ensures State() == PlayerStates.DamageStart(old(State()))
    {
      if damageAnimation != PlayerStates.Starting { return; }
      category := DamagedPenguin;
      damageAnimation := PlayerStates.Fading;
    }

    /** The last closure of the damage sequence, run by the engine. */
    method DamageEnd()
      modifies this
      ensures State() == PlayerStates.DamageEnd(old(State()))
    {
      if damageAnimation != PlayerStates.Fading { return; }
      category := Penguin;
      damaged := false;
      damageAnimation := PlayerStates.NotRunning;
    }
  }
}
