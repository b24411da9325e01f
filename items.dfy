/**
 * Shop items: boosts (used up on purchase) and charms (kept in a limited
 * number of slots), their name, description and price tables, the ten-item
 * pool the shop draws from, and the duplicate-free draw of an offer.
 */
module Items {
  import opened Vecs

  datatype Boost = BlueSheep | RedSheep | BarkPower | MaxCharms
  {
    function Name(): string
    {
      match this
      case BlueSheep => "Blue Sheep"
      case RedSheep => "Red Sheep"
      case BarkPower => "Bark Power"
      case MaxCharms => "Dream Catcher"
    }

    function Description(): string
    {
      match this
      case BlueSheep => "Apply blue wool to one of your sheep (5 points)"
      case RedSheep => "Apply red wool to one of your sheep (points x1.5)"
      case BarkPower => "Your bark affects sheep in a wider area."
      case MaxCharms => "1 in 4 chance to increase the maximum number of charms."
    }

    function Price(): (p: nat)
      ensures 2 <= p <= 3
      ensures p == 2 <==> this == BlueSheep || this == RedSheep
    {
      match this
      case BlueSheep => 2
      case RedSheep => 2
      case BarkPower => 3
      case MaxCharms => 3
    }
  }

  datatype Charm = GoldenSheep | HalfTimeDoubleSheep | ChanceBlueOnBuy | ChanceRedOnBuy
                 | Exponential | WellTrained
  {
    function Name(): string
    {
      match this
      case GoldenSheep => "Golden Sheep"
      case HalfTimeDoubleSheep => "Frantic Herding"
      case ChanceBlueOnBuy => "Blue Chance"
      case ChanceRedOnBuy => "Red Chance"
      case Exponential => "Mitosis"
      case WellTrained => "Well Trained"
    }

    function Description(): string
    {
      match this
      case GoldenSheep => "Spawn a golden sheep that gives 1 money when counted."
      case HalfTimeDoubleSheep => "Halve the timer but spawn double the sheep."
      case ChanceBlueOnBuy => "Each time you buy a sheep it has a 10% chance to be blue."
      case ChanceRedOnBuy => "Each time you buy a sheep it has a 10% chance to be red."
      case Exponential => "When a black sheep is counted, spawn two new black sheep at random locations."
      case WellTrained => "Sheep come towards you when you bark."
    }

    function Price(): (p: nat)
      ensures 3 <= p <= 5
    {
      match this
      case GoldenSheep => 5
      case HalfTimeDoubleSheep => 4
      case ChanceBlueOnBuy => 3
      case ChanceRedOnBuy => 3
      case Exponential => 5
      case WellTrained => 4
    }
  }

  /** Anything the shop can offer. */
  datatype ItemType = BoostItem(boost: Boost) | CharmItem(charm: Charm)
  {
    function Name(): (s: string)
      ensures BoostItem? ==> s == boost.Name()
      ensures CharmItem? ==> s == charm.Name()
    {
      match this
      case BoostItem(b) => b.Name()
      case CharmItem(c) => c.Name()
    }

    function Description(): (s: string)
      ensures BoostItem? ==> s == boost.Description()
      ensures CharmItem? ==> s == charm.Description()
    {
      match this
      case BoostItem(b) => b.Description()
      case CharmItem(c) => c.Description()
    }

    function Price(): (p: nat)
      ensures BoostItem? ==> p == boost.Price()
      ensures CharmItem? ==> p == charm.Price()
      ensures 2 <= p <= 5
    {
      match this
      case BoostItem(b) => b.Price()
      case CharmItem(c) => c.Price()
    }

    function KindLabel(): (s: string)
      ensures s == "Boost" <==> BoostItem?
      ensures s == "Charm" <==> CharmItem?
    {
      match this
      case BoostItem(_) => "Boost"
      case CharmItem(_) => "Charm"
    }
  }

  /** How many offers a reroll asks for. */
  const SHOP_OFFER_COUNT: nat := 3

  /** The draw loop gives up after this many rolls. */
  const MAX_ATTEMPTS: nat := 100

  /** The fixed pool a random item is drawn from, uniformly. */
  const POOL: seq<ItemType> := [
    BoostItem(BlueSheep), BoostItem(RedSheep), BoostItem(BarkPower), BoostItem(MaxCharms),
    CharmItem(GoldenSheep), CharmItem(HalfTimeDoubleSheep), CharmItem(ChanceBlueOnBuy),
    CharmItem(ChanceRedOnBuy), CharmItem(Exponential), CharmItem(WellTrained)
  ]

  /** A roll of `random_range(0..pool.len())`. */
  type PoolIndex = k: nat | k < 10

  /** `ItemType::random` with the roll supplied. */
  function Random(idx: PoolIndex): (item: ItemType)
    ensures item in POOL
  {
    POOL[idx]
  }

  /** Whether a drawn item may join an offer: a charm the player owns may not. */
  predicate Admissible(item: ItemType, owned: seq<Charm>)
  {
    !(item.CharmItem? && item.charm in owned)
  }

  /**
   * `ItemType::random_unique`: roll up to 100 times, keeping each roll that is
   * neither an owned charm nor already kept, until `count` items are kept.
   * `rolls(k)` is the pool index drawn on attempt `k`.
   */
  method RandomUnique(count: nat, owned: seq<Charm>, rolls: nat -> PoolIndex) returns (items: seq<ItemType>)
    ensures |items| <= count
    ensures NoDuplicates(items)
    ensures forall i :: 0 <= i < |items| ==> Admissible(items[i], owned)
    ensures forall i :: 0 <= i < |items| ==> exists k :: 0 <= k < MAX_ATTEMPTS && items[i] == Random(rolls(k))
    ensures |items| < count ==>
      forall k :: 0 <= k < MAX_ATTEMPTS && Admissible(Random(rolls(k)), owned) ==> Random(rolls(k)) in items
  {
    items := [];
    var attempts := 0;
    while |items| < count && attempts < MAX_ATTEMPTS
      invariant attempts <= MAX_ATTEMPTS
      invariant |items| <= count
      invariant NoDuplicates(items)
      invariant forall i :: 0 <= i < |items| ==> Admissible(items[i], owned)
      invariant forall i :: 0 <= i < |items| ==> RolledWithin(items[i], rolls, attempts)
      invariant forall k :: 0 <= k < attempts && Admissible(Random(rolls(k)), owned) ==> Random(rolls(k)) in items
      decreases MAX_ATTEMPTS - attempts
    {
      var next := Random(rolls(attempts));
      if !Admissible(next, owned) || Contains(items, next) {
        attempts := attempts + 1;
        continue;
      }
      assert RolledWithin(next, rolls, attempts + 1);
      items := items + [next];
      attempts := attempts + 1;
    }
    assert |items| < count ==> attempts == MAX_ATTEMPTS;
  }

  /** `item` came up on one of the first `n` rolls. */
  predicate RolledWithin(item: ItemType, rolls: nat -> PoolIndex, n: nat)
  {
    exists k :: 0 <= k < n && item == Random(rolls(k))
  }

  /** Every item of the game is in the pool, exactly once. */
  lemma PoolCoversEveryItem(item: ItemType)
    ensures item in POOL
    ensures NoDuplicates(POOL)
  {
    match item
    case BoostItem(b) =>
      match b {
        case BlueSheep => assert POOL[0] == item;
        case RedSheep => assert POOL[1] == item;
        case BarkPower => assert POOL[2] == item;
        case MaxCharms => assert POOL[3] == item;
      }
    case CharmItem(c) =>
      match c {
        case GoldenSheep => assert POOL[4] == item;
        case HalfTimeDoubleSheep => assert POOL[5] == item;
        case ChanceBlueOnBuy => assert POOL[6] == item;
        case ChanceRedOnBuy => assert POOL[7] == item;
        case Exponential => assert POOL[8] == item;
        case WellTrained => assert POOL[9] == item;
      }
  }

  /** Every price in the shop is at least 2. */
  lemma PricesAtLeastTwo(item: ItemType)
    ensures item.Price() >= 2
  {
  }

  /** Distinct items carry distinct names. */
  lemma ItemNamesDistinct(a: ItemType, b: ItemType)
    requires a != b
    ensures a.Name() != b.Name()
  {
  }
}

/** `Boost::apply`: the effect of buying a boost on the run's state. */
module ItemEffects {
  import opened Items
  import opened GameStates

  /**
   * What a boost does to the run's state: one more blue or red sheep, two
   * more units of bark radius, or, when the one-in-four roll comes up
   * (`lucky`), one more charm slot. Nothing else changes.
   */
  function Applied(boost: Boost, f: GameFields, lucky: bool): (g: GameFields)
    ensures g.blueSheepCount == f.blueSheepCount + (if boost == BlueSheep then 1 else 0)
    ensures g.redSheepCount == f.redSheepCount + (if boost == RedSheep then 1 else 0)
    ensures g.playerBarkRadius == f.playerBarkRadius + (if boost == BarkPower then 2.0 else 0.0)
    ensures g.maxCharms == f.maxCharms + (if boost == MaxCharms && lucky then 1 else 0)
    ensures g.(blueSheepCount := f.blueSheepCount, redSheepCount := f.redSheepCount,
               playerBarkRadius := f.playerBarkRadius, maxCharms := f.maxCharms) == f
  {
    match boost
    case BlueSheep => f.(blueSheepCount := f.blueSheepCount + 1)
    case RedSheep => f.(redSheepCount := f.redSheepCount + 1)
    case BarkPower => f.(playerBarkRadius := f.playerBarkRadius + 2.0)
    case MaxCharms => if lucky then f.(maxCharms := f.maxCharms + 1) else f
  }

  /**
   * `lucky` is the outcome of the one-in-four roll that `MaxCharms` makes;
   * the other boosts ignore it.
   */
  method Apply(boost: Boost, game: GameState, lucky: bool)
    modifies game
    ensures boost == BlueSheep ==> game.blueSheepCount == old(game.blueSheepCount) + 1
    ensures boost != BlueSheep ==> game.blueSheepCount == old(game.blueSheepCount)
    ensures boost == RedSheep ==> game.redSheepCount == old(game.redSheepCount) + 1
    ensures boost != RedSheep ==> game.redSheepCount == old(game.redSheepCount)
    ensures boost == BarkPower ==> game.playerBarkRadius == old(game.playerBarkRadius) + 2.0
    ensures boost != BarkPower ==> game.playerBarkRadius == old(game.playerBarkRadius)
    ensures game.maxCharms == old(game.maxCharms) + (if boost == MaxCharms && lucky then 1 else 0)
    ensures game.sheepCount == old(game.sheepCount) && game.countdown == old(game.countdown)
    ensures game.points == old(game.points) && game.pointTarget == old(game.pointTarget)
    ensures game.activeModifiers == old(game.activeModifiers) && game.money == old(game.money)
    ensures game.charms == old(game.charms)
    ensures game.Fields() == Applied(boost, old(game.Fields()), lucky)
  {
    match boost
    case BlueSheep => game.blueSheepCount := game.blueSheepCount + 1;
    case RedSheep => game.redSheepCount := game.redSheepCount + 1;
    case BarkPower => game.playerBarkRadius := game.playerBarkRadius + 2.0;
    case MaxCharms =>
      if lucky {
        game.maxCharms := game.maxCharms + 1;
      }
  }
}
