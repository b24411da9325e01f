/**
 * Round modifiers: the variants the game refers to, the name, description and
 * difficulty tables, the coins a difficulty pays, and the map from a uniform
 * roll in `0..4` to a modifier.
 */
module Modifiers {

  /**
   * The four tabled variants, plus `Ufo`, `FeverDream` and `Space`, which the
   * UFO and herding code test for but which the tables do not list.
   */
  datatype Modifier = HyperSheep | MoonGravity | Placeholder1 | Placeholder2
                    | Ufo | FeverDream | Space
  {
    /** The variants the tables (and therefore the sampler) cover. */
    predicate Tabled()
    {
      this == HyperSheep || this == MoonGravity || this == Placeholder1 || this == Placeholder2
    }

    function Name(): string
      requires Tabled()
    {
      match this
      case HyperSheep => "Hyper Sheep"
      case MoonGravity => "Moon Gravity"
      case Placeholder1 => "Placeholder 1"
      case Placeholder2 => "Placeholder 2"
    }

    function Description(): string
      requires Tabled()
    {
      match this
      case HyperSheep => "Sheep move faster and hop higher."
      case MoonGravity => "Lower gravity makes sheep floaty."
      case Placeholder1 => "Placeholder modifier."
      case Placeholder2 => "Placeholder modifier."
    }

    function Difficulty(): (d: ModifierDifficulty)
      requires Tabled()
      ensures d == Easy <==> this == HyperSheep || this == Placeholder2
      ensures d == Medium <==> this == MoonGravity
      ensures d == Hard <==> this == Placeholder1
    {
      match this
      case HyperSheep => Easy
      case MoonGravity => Medium
      case Placeholder1 => Hard
      case Placeholder2 => Easy
    }
  }

  datatype ModifierDifficulty = Easy | Medium | Hard
  {
    /** Coins paid for taking a modifier of this difficulty; harder pays more. */
    function CoinsGiven(): (c: nat)
      ensures 4 <= c <= 6
      ensures c == 4 <==> this == Easy
      ensures c == 6 <==> this == Hard
    {
      match this
      case Easy => 4
      case Medium => 5
      case Hard => 6
    }
  }

  /** The roll-to-variant map of the sampler; the roll is uniform in `0..4`. */
  function Sample(roll: nat): (m: Modifier)
    ensures m.Tabled()
  {
    match roll
    case 0 => HyperSheep
    case 1 => MoonGravity
    case 2 => Placeholder1
    case _ => Placeholder2
  }

  /** Every tabled modifier is the sample of exactly one roll in `0..4`. */
  lemma SampleCoversTabled(m: Modifier)
    requires m.Tabled()
    ensures exists roll: nat :: roll < 4 && Sample(roll) == m
    ensures forall r1: nat, r2: nat :: r1 < 4 && r2 < 4 && Sample(r1) == m && Sample(r2) == m ==> r1 == r2
  {
    if m == HyperSheep {
      assert Sample(0) == m;
    } else if m == MoonGravity {
      assert Sample(1) == m;
    } else if m == Placeholder1 {
      assert Sample(2) == m;
    } else {
      assert Sample(3) == m;
    }
  }

  /** The untabled variants are never sampled. */
  lemma SampleNeverUntabled(roll: nat)
    ensures Sample(roll) != Ufo && Sample(roll) != FeverDream && Sample(roll) != Space
  {
  }

  /** Distinct modifiers carry distinct names. */
  lemma NamesDistinct(a: Modifier, b: Modifier)
    requires a.Tabled() && b.Tabled() && a != b
    ensures a.Name() != b.Name()
  {
  }

  /** Every modifier pays between 4 and 6 coins. */
  lemma CoinsInRange(m: Modifier)
    requires m.Tabled()
    ensures 4 <= m.Difficulty().CoinsGiven() <= 6
  {
  }
}
