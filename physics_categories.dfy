/** The `PhysicsCategory` enumeration of the game scene: one single-bit
    32-bit mask per kind of physics body, combined with bitwise AND/OR. */
module PhysicsCategories {

  datatype Category = Penguin | DamagedPenguin | Ground | Enemy | Coin | Powerup

  /** The raw `UInt32` value of a category. */
  function RawValue(c: Category): (m: bv32)
    ensures m != 0 && m & (m - 1) == 0  // exactly one bit is set
    ensures m <= 32
  {
    match c
    case Penguin => 1
    case DamagedPenguin => 2
    case Ground => 4
    case Enemy => 8
    case Coin => 16
    case Powerup => 32
  }

  /** Two categories share a bit exactly when they are the same category. */
  lemma DistinctCategoriesDisjoint(a: Category, b: Category)
    ensures a != b <==> RawValue(a) & RawValue(b) == 0
  {
  }

  predicate IsPenguin(c: Category) {
    c == Penguin || c == DamagedPenguin
  }

  /** Both categories the penguin can carry, combined with OR. */
  const PenguinMask: bv32 := RawValue(Penguin) | RawValue(DamagedPenguin)

  /** The combined mask is 3, and it overlaps a category exactly when that
      category is one of the two penguin categories. */
  lemma PenguinMaskSelectsPenguin(c: Category)
    ensures PenguinMask == 3
    ensures RawValue(c) & PenguinMask != 0 <==> IsPenguin(c)
  {
  }
}
