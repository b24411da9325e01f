/**
 * The shop phase: the offers on display, rerolling them, and the purchases
 * and sales its buttons trigger.
 */
module Shop {
  import opened Wrappers
  import opened Vecs
  import opened Items
  import opened ItemEffects
  import opened GameStates

  /** The slots on display; a bought slot is `None` until the next reroll. */
  class ShopOffers {
    var items: seq<Option<ItemType>>

    /** `ShopOffers::default`: nothing on display. */
    constructor Default()
      ensures items == []
    {
      items := [];
    }

    /**
     * `reroll`: every slot, bought or not, is replaced by a fresh draw of up to
     * three distinct items. No owned charms are passed to the draw, so an owned
     * charm can be offered again.
     */
    method Reroll(rolls: nat -> PoolIndex)
      modifies this
      ensures |items| <= SHOP_OFFER_COUNT
      ensures forall i :: 0 <= i < |items| ==> items[i].Some?
      ensures NoDuplicates(items)
      ensures forall i :: 0 <= i < |items| ==> Drawn(items[i], rolls)
      ensures |items| < SHOP_OFFER_COUNT ==> forall k :: 0 <= k < MAX_ATTEMPTS ==> Some(Random(rolls(k))) in items
    {
      var drawn := RandomUnique(SHOP_OFFER_COUNT, [], rolls);
      var wrapped := WrapAll(drawn);
      forall k | 0 <= k < MAX_ATTEMPTS && |wrapped| < SHOP_OFFER_COUNT
        ensures Some(Random(rolls(k))) in wrapped
      {
        assert Admissible(Random(rolls(k)), []);
      }
      forall i | 0 <= i < |wrapped|
        ensures Drawn(wrapped[i], rolls)
      {
        var k :| 0 <= k < MAX_ATTEMPTS && drawn[i] == Random(rolls(k));
        assert wrapped[i] == Some(Random(rolls(k)));
      }
      items := wrapped;
    }
  }

  /** `slot` holds the item drawn on one of the rolls. */
  predicate Drawn(slot: Option<ItemType>, rolls: nat -> PoolIndex)
  {
    exists k :: 0 <= k < MAX_ATTEMPTS && slot == Some(Random(rolls(k)))
  }

  /** `.into_iter().map(Some).collect()`. */
  function WrapAll(s: seq<ItemType>): (r: seq<Option<ItemType>>)
    ensures |r| == |s|
    ensures forall i :: 0 <= i < |s| ==> r[i] == Some(s[i])
    ensures NoDuplicates(s) ==> NoDuplicates(r)
    ensures forall x :: x in s <==> Some(x) in r
  {
    seq(|s|, i requires 0 <= i < |s| => Some(s[i]))
  }

  /** `on_shop`: entering the shop always rerolls. */
  method OnShop(offers: ShopOffers, rolls: nat -> PoolIndex)
    modifies offers
    ensures |offers.items| <= SHOP_OFFER_COUNT
    ensures forall i :: 0 <= i < |offers.items| ==> offers.items[i].Some?
    ensures NoDuplicates(offers.items)
    ensures forall i :: 0 <= i < |offers.items| ==> Drawn(offers.items[i], rolls)
    ensures |offers.items| < SHOP_OFFER_COUNT ==>
      forall k :: 0 <= k < MAX_ATTEMPTS ==> Some(Random(rolls(k))) in offers.items
  {
    offers.Reroll(rolls);
  }

  /** `draw_new_items`: a reroll costs one coin and is refused when there is none. */
  method DrawNewItems(game: GameState, offers: ShopOffers, rolls: nat -> PoolIndex)
    modifies game, offers
    ensures old(game.money) == 0 ==> game.Fields() == old(game.Fields()) && offers.items == old(offers.items)
    ensures old(game.money) > 0 ==> game.Fields() == old(game.Fields()).(money := old(game.money) - 1)
    ensures old(game.money) > 0 ==> |offers.items| <= SHOP_OFFER_COUNT && NoDuplicates(offers.items)
    ensures old(game.money) > 0 ==> forall i :: 0 <= i < |offers.items| ==> offers.items[i].Some?
    ensures old(game.money) > 0 ==> forall i :: 0 <= i < |offers.items| ==> Drawn(offers.items[i], rolls)
    ensures old(game.money) > 0 && |offers.items| < SHOP_OFFER_COUNT ==>
      forall k :: 0 <= k < MAX_ATTEMPTS ==> Some(Random(rolls(k))) in offers.items
  {
    if game.money == 0 {
      return;
    }
    game.money := game.money - 1;
    offers.Reroll(rolls);
  }

  /** `buy_sheep`: one more sheep for one coin, refused without a coin. */
  method BuySheep(game: GameState)
    modifies game
    ensures old(game.money) < 1 ==> game.Fields() == old(game.Fields())
    ensures old(game.money) >= 1 ==>
      game.Fields() == old(game.Fields()).(money := old(game.money) - 1, sheepCount := old(game.sheepCount) + 1)
  {
    if game.money < 1 {
      return;
    }
    game.sheepCount := game.sheepCount + 1;
    game.money := game.money - 1;
  }

  /** Whether `buy_shop_item` goes through: a displayed item, affordable, and a free slot if it is a charm. */
  predicate PurchaseSucceeds(items: seq<Option<ItemType>>, slot: nat, money: nat, charmsFull: bool)
  {
    slot < |items| && items[slot].Some?
      && money >= items[slot].value.Price()
      && !(items[slot].value.CharmItem? && charmsFull)
  }

  /**
   * `buy_shop_item`. On success the price is paid, a boost takes effect (with
   * `lucky` deciding the maximum-charms roll), a charm goes into the last
   * slot, and only the bought slot is emptied; otherwise nothing changes.
   */
  method BuyShopItem(slot: nat, game: GameState, offers: ShopOffers, lucky: bool)
    modifies game, offers
    ensures !PurchaseSucceeds(old(offers.items), slot, old(game.money), old(game.CharmsFull())) ==>
      game.Fields() == old(game.Fields()) && offers.items == old(offers.items)
    ensures PurchaseSucceeds(old(offers.items), slot, old(game.money), old(game.CharmsFull())) ==>
      var item := old(offers.items)[slot].value;
      offers.items == old(offers.items)[slot := None]
      && (item.CharmItem? ==>
            game.Fields() == old(game.Fields()).(money := old(game.money) - item.Price(),
                                                 charms := old(game.charms) + [item.charm]))
      && (item.BoostItem? ==>
            game.Fields() == Applied(item.boost, old(game.Fields()), lucky).(money := old(game.money) - item.Price()))
  {
    if !(slot < |offers.items| && offers.items[slot].Some?) {
      return;
    }
    var item := offers.items[slot].value;
    if game.money < item.Price() {
      return;
    }
    match item {
      case BoostItem(boost) =>
        Apply(boost, game, lucky);
      case CharmItem(charm) =>
        if game.CharmsFull() {
          return;
        }
        game.charms := game.charms + [charm];
    }
    game.money := game.money - item.Price();
    offers.items := offers.items[slot := None];
  }

  /** `sell_charm`: the charm leaves its slot, the rest keep their order, and its full price is refunded. */
  method SellCharm(slot: nat, game: GameState)
    modifies game
    ensures slot >= |old(game.charms)| ==> game.Fields() == old(game.Fields())
    ensures slot < |old(game.charms)| ==>
      game.Fields() == old(game.Fields()).(charms := RemoveAt(old(game.charms), slot),
                                           money := old(game.money) + old(game.charms)[slot].Price())
  {
    if slot >= |game.charms| {
      return;
    }
    var charm := game.charms[slot];
    game.charms := RemoveAt(game.charms, slot);
    game.money := game.money + charm.Price();
  }

  /** The sale price the charm card displays: half the price, rounded down. */
  function DisplayedSellPrice(c: Charm): (p: nat)
    ensures 2 * p <= c.Price() < 2 * p + 2
  {
    c.Price() / 2
  }

  /** The guard under which an item card shows an enabled buy button. */
  predicate BuyEnabled(item: ItemType, money: nat, charmsFull: bool)
  {
    money >= item.Price() && !(item.CharmItem? && charmsFull)
  }

  /** The buy button is enabled exactly when pressing it would buy the item. */
  lemma BuyButtonMatchesPurchase(items: seq<Option<ItemType>>, slot: nat, money: nat, charmsFull: bool)
    requires slot < |items| && items[slot].Some?
    ensures BuyEnabled(items[slot].value, money, charmsFull) <==> PurchaseSucceeds(items, slot, money, charmsFull)
  {
  }

  /** Selling a charm refunds more than the card shows, for every charm. */
  lemma SellRefundExceedsDisplay(c: Charm)
    ensures c.Price() > DisplayedSellPrice(c)
  {
  }
}
