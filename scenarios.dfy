/**
 * The inventory's recorded scenarios, each replayed through the objects: the
 * caller builds items, hands the list to a `GildedRose`, keeps references to
 * the items, runs nights of updates and reads the counters through those
 * references. Each method returns what the caller observes.
 */
module Scenarios {
  import opened Rules
  import opened Inventory

  /** One night for a rose whose list holds a single item, read back through the caller's reference. */
  method UpdateSoleItem(rose: GildedRose, item: Item) returns (st: ItemState)
    requires rose.items[..] == [item]
    modifies item
    ensures rose.items[..] == [item]
    ensures st == item.State() == Step(CategoryOf(item.name), old(item.State()))
  {
    assert multiset(rose.items[..])[item] == 1;
    rose.UpdateQuality();
    st := item.State();
  }

  /** The rose holds the caller's own list, and the caller's item in it, after a night of updates. */
  method ItemsListIsKept() returns (rose: GildedRose, items: array<Item>, foo: Item)
    ensures rose.items == items && items[..] == [foo] && foo.name == "foo"
  {
    foo := new Item("foo", 5, 10);
    items := new Item[] [foo];
    rose := new GildedRose(items);
    var _ := UpdateSoleItem(rose, foo);
  }

  /** A normal item with days and quality to spare loses one of each per night. */
  method QualityDecreasesEachDay() returns (trace: seq<ItemState>)
    ensures trace == [ItemState(4, 9), ItemState(3, 8)]
  {
    var created := new Item("foo", 5, 10);
    var items := new Item[] [created];
    var rose := new GildedRose(items);
    var item := rose.items[0];
    var st := UpdateSoleItem(rose, item);
    trace := [st];
    st := UpdateSoleItem(rose, item);
    trace := trace + [st];
  }

  /** Past its sell date a normal item loses quality twice as fast. */
  method QualityDecreasesTwiceAsFastAfterSellDate() returns (trace: seq<ItemState>)
    ensures trace == [ItemState(0, 9), ItemState(-1, 7), ItemState(-2, 5)]
  {
    var created := new Item("foo", 1, 10);
    var items := new Item[] [created];
    var rose := new GildedRose(items);
    var item := rose.items[0];
    var st := UpdateSoleItem(rose, item);
    trace := [st];
    st := UpdateSoleItem(rose, item);
    trace := trace + [st];
    st := UpdateSoleItem(rose, item);
    trace := trace + [st];
  }

  /** The quality of a normal item stops at 0. */
  method QualityNeverBecomesNegative() returns (trace: seq<ItemState>)
    ensures trace == [ItemState(0, 1), ItemState(-1, 0), ItemState(-2, 0)]
  {
    var created := new Item("foo", 1, 2);
    var items := new Item[] [created];
    var rose := new GildedRose(items);
    var item := rose.items[0];
    var st := UpdateSoleItem(rose, item);
    trace := [st];
    st := UpdateSoleItem(rose, item);
    trace := trace + [st];
    st := UpdateSoleItem(rose, item);
    trace := trace + [st];
  }

  /** Aged Brie gains quality, twice as fast past its sell date. */
  method AgedBrieIncreasesInQuality() returns (trace: seq<ItemState>)
    ensures trace == [ItemState(0, 3), ItemState(-1, 5), ItemState(-2, 7)]
  {
    var created := new Item(AgedBrie, 1, 2);
    var items := new Item[] [created];
    var rose := new GildedRose(items);
    var item := rose.items[0];
    var st := UpdateSoleItem(rose, item);
    trace := [st];
    st := UpdateSoleItem(rose, item);
    trace := trace + [st];
    st := UpdateSoleItem(rose, item);
    trace := trace + [st];
  }

  /** The quality of Aged Brie stops at 50. */
  method QualityCannotExceed50() returns (trace: seq<ItemState>)
    ensures trace == [ItemState(1, 50), ItemState(0, 50), ItemState(-1, 50)]
  {
    var created := new Item(AgedBrie, 2, 49);
    var items := new Item[] [created];
    var rose := new GildedRose(items);
    var item := rose.items[0];
    var st := UpdateSoleItem(rose, item);
    trace := [st];
    st := UpdateSoleItem(rose, item);
    trace := trace + [st];
    st := UpdateSoleItem(rose, item);
    trace := trace + [st];
  }

  /** Sulfuras keeps its sell-in and its quality of 80, night after night. */
  method SulfurasNeverChanges() returns (trace: seq<ItemState>)
    ensures trace == [ItemState(0, 80), ItemState(0, 80), ItemState(0, 80)]
  {
    var created := new Item(Sulfuras, 0, 80);
    var items := new Item[] [created];
    var rose := new GildedRose(items);
    var item := rose.items[0];
    var st := UpdateSoleItem(rose, item);
    trace := [st];
    st := UpdateSoleItem(rose, item);
    trace := trace + [st];
    st := UpdateSoleItem(rose, item);
    trace := trace + [st];
  }

  /** A backstage pass gains one, two, then three points a night as the concert nears, and
      is worth 0 once it has passed. */
  method BackstagePassesIncreaseInValue() returns (trace: seq<ItemState>)
    ensures trace == [
      ItemState(11, 21), ItemState(10, 22), ItemState(9, 24), ItemState(8, 26),
      ItemState(7, 28), ItemState(6, 30), ItemState(5, 32), ItemState(4, 35),
      ItemState(3, 38), ItemState(2, 41), ItemState(1, 44), ItemState(0, 47),
      ItemState(-1, 0), ItemState(-2, 0)]
  {
    var created := new Item(BackstagePasses, 12, 20);
    var items := new Item[] [created];
    var rose := new GildedRose(items);
    var item := rose.items[0];
    var night1 := UpdateSoleItem(rose, item);
    var night2 := UpdateSoleItem(rose, item);
    var night3 := UpdateSoleItem(rose, item);
    var night4 := UpdateSoleItem(rose, item);
    var night5 := UpdateSoleItem(rose, item);
    var night6 := UpdateSoleItem(rose, item);
    var night7 := UpdateSoleItem(rose, item);
    var night8 := UpdateSoleItem(rose, item);
    var night9 := UpdateSoleItem(rose, item);
    var night10 := UpdateSoleItem(rose, item);
    var night11 := UpdateSoleItem(rose, item);
    var night12 := UpdateSoleItem(rose, item);
    var night13 := UpdateSoleItem(rose, item);
    var night14 := UpdateSoleItem(rose, item);
    trace := [night1, night2, night3, night4, night5, night6, night7,
              night8, night9, night10, night11, night12, night13, night14];
  }

  /** Items of one list are updated independently, each through the caller's own reference. */
  method MultipleItems() returns (qualities: seq<int>)
    ensures qualities == [22, 11, 3]
  {
    var backstagePass := new Item(BackstagePasses, 9, 20);
    var agedBrie := new Item(AgedBrie, 5, 10);
    var normalItem := new Item("foo", 5, 4);
    var items := new Item[] [backstagePass, agedBrie, normalItem];
    var rose := new GildedRose(items);
    assert items[..] == [backstagePass, agedBrie, normalItem];
    assert multiset(items[..])[backstagePass] == 1;
    assert multiset(items[..])[agedBrie] == 1;
    assert multiset(items[..])[normalItem] == 1;
    rose.UpdateQuality();
    qualities := [backstagePass.quality, agedBrie.quality, normalItem.quality];
  }
}
