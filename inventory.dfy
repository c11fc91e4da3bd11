/**
 * The inventory objects: an `Item` whose two counters are updated in place,
 * and the `GildedRose` that holds the caller's list of items and, once a night,
 * updates every item in that list.
 */
module Inventory {
  import opened Rules

  class Item {
    const name: string
    var sellIn: int
    var quality: int

    /** No validation: any sell-in and any quality are accepted, for every name. */
    constructor (name: string, sellIn: int, quality: int)
      ensures this.name == name && this.sellIn == sellIn && this.quality == quality
    {
      this.name := name;
      this.sellIn := sellIn;
      this.quality := quality;
    }

    function State(): ItemState
      reads this
    {
      ItemState(sellIn, quality)
    }
  }

  class GildedRose {
    /** The caller's own list, held by reference: updates are visible through it. */
    const items: array<Item>

    constructor (items: array<Item>)
      ensures this.items == items
    {
      this.items := items;
    }

    /** Every non-legendary item of the list has its quality within [0, 50]. */
    ghost predicate QualitiesInRange()
      reads this, items, items[..]
    {
      forall k :: 0 <= k < items.Length && CategoryOf(items[k].name) != Legendary ==>
        MinQuality <= items[k].quality <= MaxQuality
    }

    /** One night for one item, updating its fields in place, phase by phase. */
    static method UpdateItem(item: Item)
      modifies item
      ensures item.State() == Step(CategoryOf(item.name), old(item.State()))
    {
      var c := CategoryOf(item.name);
      // Phase 1: adjust the quality against today's sell-in.
      if c == Normal {
        if item.quality > MinQuality {
          item.quality := item.quality - 1;
        }
      } else if c == Brie {
        if item.quality < MaxQuality {
          item.quality := item.quality + 1;
        }
      } else if c == Backstage {
        if item.quality < MaxQuality {
          item.quality := item.quality + 1;
        }
        if item.sellIn < 11 && item.quality < MaxQuality {
          item.quality := item.quality + 1;
        }
        if item.sellIn < 6 && item.quality < MaxQuality {
          item.quality := item.quality + 1;
        }
      }
      // Phase 2: age the sell-in.
      if c != Legendary {
        item.sellIn := item.sellIn - 1;
      }
      // Phase 3: the post-expiry correction.
      if item.sellIn < 0 {
        if c == Normal {
          if item.quality > MinQuality {
            item.quality := item.quality - 1;
          }
        } else if c == Brie {
          if item.quality < MaxQuality {
            item.quality := item.quality + 1;
          }
        } else if c == Backstage {
          item.quality := 0;
        }
      }
    }

    /**
     * One night for the whole list, in list order and in place. The list itself
     * (its length, its order, which objects it holds) and every name are unchanged.
     * An item object listed `k` times is updated `k` times; an item listed once
     * receives exactly one night of the rule.
     */
    method UpdateQuality()
      modifies items[..]
      ensures forall k :: 0 <= k < items.Length ==>
        items[k].State() ==
          Days(CategoryOf(items[k].name), multiset(items[..])[items[k]], old(items[k].State()))
      ensures forall k :: 0 <= k < items.Length && multiset(items[..])[items[k]] == 1 ==>
        items[k].State() == Step(CategoryOf(items[k].name), old(items[k].State()))
      ensures old(QualitiesInRange()) ==> QualitiesInRange()
    {
      for j := 0 to items.Length
        invariant forall k :: 0 <= k < items.Length ==>
          items[k].State() ==
            Days(CategoryOf(items[k].name), multiset(items[..j])[items[k]], old(items[k].State()))
      {
        assert items[..j + 1] == items[..j] + [items[j]];
        UpdateItem(items[j]);
      }
      assert items[..items.Length] == items[..];
      forall k | 0 <= k < items.Length && CategoryOf(items[k].name) != Legendary
        ensures old(QualitiesInRange()) ==> MinQuality <= items[k].quality <= MaxQuality
      {
        if old(QualitiesInRange()) {
          QualityStaysInRange(CategoryOf(items[k].name), multiset(items[..])[items[k]], old(items[k].State()));
        }
      }
    }
  }
}
