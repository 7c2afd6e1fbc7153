/** The player's damage / invulnerability / flapping state machine, as
    values. Each transition of the `Player` sprite is a function from the old
    state to the new one; the class in player.dfy is proved against these.

    Two transitions of `Player.swift` are closures that the engine runs when an
    action sequence reaches them: the start and the end of the damage
    sequence, and the end of the star power-up sequence. The state records
    which of those sequences is still running, and each completion is an
    event that does nothing when its sequence is not running (the engine only
    runs closures of actions that are running). */
module PlayerStates {
  import opened PhysicsCategories

  const MaxHealth: int := 3
  const NormalSpeed: int := 200
  const StarSpeed: int := 400

  /** Where the running damage sequence is: not running, started but its
      first closure not yet run, or fading (between its first and last
      closures). */
  datatype DamageAnimation = NotRunning | Starting | Fading

  datatype PlayerState = PlayerState(
    health: int,
    invulnerable: bool,
    damaged: bool,
    flapping: bool,
    forwardVelocity: int,
    category: Category,                 // the physics body's category
    damageAnimation: DamageAnimation,   // the damage sequence
    starPowerRunning: bool)             // the action under key "starPower"

  /** The state a freshly created player is in. */
  function Initial(): (s: PlayerState)
    ensures s.health == MaxHealth && !s.damaged && !s.invulnerable && !s.flapping
    ensures s.forwardVelocity == NormalSpeed && s.category == Penguin
    ensures Consistent(s)
  {
    PlayerState(MaxHealth, false, false, false, NormalSpeed, Penguin, NotRunning, false)
  }

  /** `die`: removes every running action (so no pending completion can fire
      any more), stops flapping and forward motion; `damaged` is kept. */
  function Die(s: PlayerState): (t: PlayerState)
    ensures !t.flapping && t.forwardVelocity == 0
    ensures t.damageAnimation == NotRunning && !t.starPowerRunning
    ensures t.health == s.health && t.damaged == s.damaged
    ensures t.invulnerable == s.invulnerable && t.category == s.category
  {
    s.(flapping := false, forwardVelocity := 0,
       damageAnimation := NotRunning, starPowerRunning := false)
  }

  /** `takeDamage`: ignored while invulnerable or already damaged; otherwise
      marks the player damaged and removes one health point, then dies when
      health is exhausted and starts the damage sequence when it is not. */
  function TakeDamage(s: PlayerState): (t: PlayerState)
    ensures s.invulnerable || s.damaged ==> t == s
    ensures !s.invulnerable && !s.damaged ==> t.damaged && t.health == s.health - 1
    ensures t.health < s.health && t.health == 0 ==>
              !t.flapping && t.forwardVelocity == 0 &&
              t.damageAnimation == NotRunning && !t.starPowerRunning
    ensures t.health < s.health && t.health != 0 ==>
              t.damageAnimation == Starting && t.flapping == s.flapping &&
              t.forwardVelocity == s.forwardVelocity && t.starPowerRunning == s.starPowerRunning
    ensures t.invulnerable == s.invulnerable && t.category == s.category
  {
    if s.invulnerable || s.damaged then s
    else
      var hurt := s.(damaged := true, health := s.health - 1);
      if hurt.health == 0 then Die(hurt) else hurt.(damageAnimation := Starting)
  }

  /** `startFlapping`: a dead player ignores it. */
  function StartFlapping(s: PlayerState): (t: PlayerState)
    ensures s.health <= 0 ==> t == s
    ensures s.health > 0 ==> t.flapping && t.(flapping := s.flapping) == s
  {
    if s.health <= 0 then s else s.(flapping := true)
  }

  /** `stopFlapping`: a dead player ignores it. */
  function StopFlapping(s: PlayerState): (t: PlayerState)
    ensures s.health <= 0 ==> t == s
    ensures s.health > 0 ==> !t.flapping && t.(flapping := s.flapping) == s
  {
    if s.health <= 0 then s else s.(flapping := false)
  }

  /** `starPower`: (re)starts the star sequence, doubling the forward speed
      and making the player immune to damage. */
  function StarPower(s: PlayerState): (t: PlayerState)
    ensures t.invulnerable && t.forwardVelocity == StarSpeed && t.starPowerRunning
    ensures TakeDamage(t) == t
    ensures t.health == s.health && t.damaged == s.damaged && t.flapping == s.flapping
    ensures t.category == s.category && t.damageAnimation == s.damageAnimation
  {
    s.(forwardVelocity := StarSpeed, invulnerable := true, starPowerRunning := true)
  }

  /** The closure at the end of the star sequence. */
  function StarPowerEnd(s: PlayerState): (t: PlayerState)
    ensures !s.starPowerRunning ==> t == s
    ensures s.starPowerRunning ==>
              !t.invulnerable && t.forwardVelocity == NormalSpeed && !t.starPowerRunning &&
              t.health == s.health && t.damaged == s.damaged && t.flapping == s.flapping &&
              t.category == s.category && t.damageAnimation == s.damageAnimation
  {
    if s.starPowerRunning then
      s.(forwardVelocity := NormalSpeed, invulnerable := false, starPowerRunning := false)
    else s
  }

  /** The first closure of the damage sequence: the penguin passes through
      enemies while damaged. */
  function DamageStart(s: PlayerState): (t: PlayerState)
    ensures s.damageAnimation != Starting ==> t == s
    ensures s.damageAnimation == Starting ==>
              t.category == DamagedPenguin && t.damageAnimation == Fading &&
              t.(category := s.category, damageAnimation := s.damageAnimation) == s
  {
    if s.damageAnimation == Starting then
      s.(category := DamagedPenguin, damageAnimation := Fading)
    else s
  }

  /** The last closure of the damage sequence: back to normal. */
  function DamageEnd(s: PlayerState): (t: PlayerState)
    ensures s.damageAnimation != Fading ==> t == s
    ensures s.damageAnimation == Fading ==>
              t.category == Penguin && !t.damaged && t.damageAnimation == NotRunning &&
              t.(category := s.category, damaged := s.damaged, damageAnimation := s.damageAnimation) == s
  {
    if s.damageAnimation == Fading then
      s.(category := Penguin, damaged := false, damageAnimation := NotRunning)
    else s
  }

  /** Everything that can happen to the player: the public calls and the
      completions of its action sequences. */
  datatype Event =
    | OnTakeDamage | OnDie | OnStartFlapping | OnStopFlapping | OnStarPower
    | OnDamageStart | OnDamageEnd | OnStarPowerEnd

  function Step(s: PlayerState, e: Event): PlayerState {
    match e
    case OnTakeDamage => TakeDamage(s)
    case OnDie => Die(s)
    case OnStartFlapping => StartFlapping(s)
    case OnStopFlapping => StopFlapping(s)
    case OnStarPower => StarPower(s)
    case OnDamageStart => DamageStart(s)
    case OnDamageEnd => DamageEnd(s)
    case OnStarPowerEnd => StarPowerEnd(s)
  }

  function Run(s: PlayerState, events: seq<Event>): PlayerState
    decreases |events|
  {
    if events == [] then s else Run(Step(s, events[0]), events[1..])
  }

  /** Health stays within [0, MaxHealth]; a running damage sequence implies
      `damaged`; a dead player is damaged and has no damage sequence left,
      so nothing can ever clear `damaged` again. */
  ghost predicate HealthInvariant(s: PlayerState) {
    && 0 <= s.health <= MaxHealth
    && (s.damageAnimation != NotRunning ==> s.damaged)
    && (s.health == 0 ==> s.damaged && s.damageAnimation == NotRunning)
  }

  /** The state the game can reach: the category is the damaged one exactly
      while the damage sequence fades; invulnerability, the star sequence and
      the doubled speed go together; a living player that is not powered up
      moves at normal speed; a dead player does not flap. */
  ghost predicate Consistent(s: PlayerState) {
    && HealthInvariant(s)
    && (s.category == Penguin || s.category == DamagedPenguin)
    && (s.category == DamagedPenguin <==> s.damageAnimation == Fading)
    && (s.invulnerable <==> s.starPowerRunning)
    && (s.invulnerable <==> s.forwardVelocity == StarSpeed)
    && (s.forwardVelocity == 0 || s.forwardVelocity == NormalSpeed || s.forwardVelocity == StarSpeed)
    && (s.health > 0 && !s.invulnerable ==> s.forwardVelocity == NormalSpeed)
    && (s.health == 0 ==> !s.flapping)
  }

  /** Every event keeps the health invariant, and no event raises health or
      lowers it by more than one. */
  lemma StepKeepsHealthInvariant(s: PlayerState, e: Event)
    requires HealthInvariant(s)
    ensures HealthInvariant(Step(s, e))
    ensures s.health - 1 <= Step(s, e).health <= s.health
  {
  }

  /** Health never goes negative nor up, whatever sequence of events. */
  lemma {:induction false} HealthNeverNegative(s: PlayerState, events: seq<Event>)
    requires HealthInvariant(s)
    ensures HealthInvariant(Run(s, events))
    ensures 0 <= Run(s, events).health <= s.health
    decreases |events|
  {
    if events != [] {
      StepKeepsHealthInvariant(s, events[0]);
      HealthNeverNegative(Step(s, events[0]), events[1..]);
    }
  }

  /** Once dead, always dead: health stays 0, `damaged` stays set, and every
      later `takeDamage` is blocked. */
  lemma {:induction false} DeathIsFinal(s: PlayerState, events: seq<Event>)
    requires HealthInvariant(s) && s.health == 0
    ensures Run(s, events).health == 0 && Run(s, events).damaged
    ensures TakeDamage(Run(s, events)) == Run(s, events)
  {
    HealthNeverNegative(s, events);
  }

  /** Every event except a direct call of `die` keeps the state consistent
      (`Player.swift` calls `die` only from `takeDamage`). */
  lemma StepKeepsConsistent(s: PlayerState, e: Event)
    requires Consistent(s) && e != OnDie
    ensures Consistent(Step(s, e))
  {
  }

  /** A run of events without a direct `die` keeps the state consistent. */
  lemma {:induction false} RunKeepsConsistent(s: PlayerState, events: seq<Event>)
    requires Consistent(s)
    requires forall i :: 0 <= i < |events| ==> events[i] != OnDie
    ensures Consistent(Run(s, events))
    decreases |events|
  {
    if events != [] {
      StepKeepsConsistent(s, events[0]);
      RunKeepsConsistent(Step(s, events[0]), events[1..]);
    }
  }

  /** `takeDamage` twice in a row hurts once: the first call sets `damaged`. */
  lemma TakeDamageIdempotent(s: PlayerState)
    ensures TakeDamage(TakeDamage(s)) == TakeDamage(s)
  {
  }

  /** While invulnerable, no number of `takeDamage` calls lowers health. */
  lemma {:induction false} InvulnerableIgnoresDamage(s: PlayerState, n: nat)
    requires s.invulnerable
    ensures Run(s, seq(n, _ => OnTakeDamage)) == s
  {
    if n > 0 {
      var hits := seq(n, _ => OnTakeDamage);
      assert hits[0] == OnTakeDamage;
      assert hits[1..] == seq(n - 1, _ => OnTakeDamage);
      InvulnerableIgnoresDamage(s, n - 1);
    }
  }
}
