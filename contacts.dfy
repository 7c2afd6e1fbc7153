/** The contact delegate of the game scene, as pure selection: which of the
    two bodies of a contact is "the other one", what kind of contact its
    category makes, and what that does to the player. */
module Contacts {
  import opened PhysicsCategories
  import opened PlayerStates

  datatype Body = BodyA | BodyB

  /** The branches of the switch on the other body's category. */
  datatype ContactKind = HitGround | HitEnemy | CollectCoin | StartPowerup | NoGameLogic {
    /** The branches that hurt the player. */
    predicate Damages() {
      this == HitGround || this == HitEnemy
    }
  }

  /** Body A is taken for the penguin when its category overlaps the
      combined penguin mask; the other body is then B, and A otherwise. */
  function OtherBody(maskA: bv32): (b: Body)
    ensures b == BodyB <==> maskA & PenguinMask != 0
  {
    if maskA & PenguinMask > 0 then BodyB else BodyA
  }

  /** The category mask of the body that is not the penguin. */
  function OtherMask(maskA: bv32, maskB: bv32): (m: bv32)
    ensures maskA & PenguinMask != 0 ==> m == maskB
    ensures maskA & PenguinMask == 0 ==> m == maskA
  {
    if OtherBody(maskA) == BodyB then maskB else maskA
  }

  /** Ground and enemy hurt, coin and power-up are recognised, and any other
      mask (including one with several bits) has no game logic. */
  function Classify(mask: bv32): (k: ContactKind)
    ensures k.Damages() <==> mask == RawValue(Ground) || mask == RawValue(Enemy)
    ensures k == NoGameLogic <==>
              mask !in {RawValue(Ground), RawValue(Enemy), RawValue(Coin), RawValue(Powerup)}
  {
    if mask == RawValue(Ground) then HitGround
    else if mask == RawValue(Enemy) then HitEnemy
    else if mask == RawValue(Coin) then CollectCoin
    else if mask == RawValue(Powerup) then StartPowerup
    else NoGameLogic
  }

  /** The player's state after the contact: one `takeDamage` for a damaging
      contact, no change otherwise. */
  function ContactEffect(maskA: bv32, maskB: bv32, s: PlayerState): (t: PlayerState)
    ensures Classify(OtherMask(maskA, maskB)).Damages() ==> t == TakeDamage(s)
    ensures !Classify(OtherMask(maskA, maskB)).Damages() ==> t == s
  {
    if Classify(OtherMask(maskA, maskB)).Damages() then TakeDamage(s) else s
  }

  /** Each category of the enumeration lands in its own branch. */
  lemma ClassifyCategory(c: Category)
    ensures Classify(RawValue(c)) ==
              match c
              case Ground => HitGround
              case Enemy => HitEnemy
              case Coin => CollectCoin
              case Powerup => StartPowerup
              case _ => NoGameLogic
  {
  }

  /** In a contact between the penguin (in either of its categories) and a
      body of another category, whichever order the engine reports the two
      bodies in, the other body is the non-penguin one, and the player takes
      damage exactly when it is ground or an enemy. */
  lemma PenguinContact(p: Category, c: Category, s: PlayerState)
    requires IsPenguin(p) && !IsPenguin(c)
    ensures OtherMask(RawValue(p), RawValue(c)) == RawValue(c)
    ensures OtherMask(RawValue(c), RawValue(p)) == RawValue(c)
    ensures ContactEffect(RawValue(p), RawValue(c), s) == ContactEffect(RawValue(c), RawValue(p), s)
    ensures ContactEffect(RawValue(p), RawValue(c), s) ==
              if c == Ground || c == Enemy then TakeDamage(s) else s
  {
  }
}
