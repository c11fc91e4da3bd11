# Gilded Rose: the nightly item update rule

The Gilded Rose inventory holds a list of items. Each item has a name and two
integer counters: `sell_in`, the days left to sell it, and `quality`. Once a
night, `GildedRose.update_quality()` updates every item of the list in place.
The name picks the item's category by exact match:

- `"Aged Brie"` gets better with age;
- `"Sulfuras, Hand of Ragnaros"` is legendary and never changes;
- `"Backstage passes to a TAFKAL80ETC concert"` gains value as the concert nears and is
  worthless after it;
- any other name is a normal item that loses value.

The implementation module `gilded_rose.py` is not part of this model. The rule is
modelled from the assertions of `test_gilded_rose.py`, in three phases per item and night:

1. adjust the quality against the sell-in before aging: a normal item loses one point
   (never below 0), Aged Brie gains one (never above 50), a backstage pass gains one,
   one more with fewer than 11 days to go and one more with fewer than 6 (each point
   capped at 50), Sulfuras is untouched;
2. every item but Sulfuras loses one day of sell-in;
3. if the sell-in is now negative, a normal item loses one more point (never below 0),
   Aged Brie gains one more (never above 50), and a backstage pass drops to 0.

No bound is enforced at construction. A quality above 50 is only kept from rising
further, and a quality of 0 or less is only kept from falling further.

Files:

- `rules.dfy`, module `Rules`: the categories, the one-night rule `Step` (built from the
  three phases `Adjust`, `Age` and `Expire`), the many-night rule `Days`, and the lemmas
  that state each category's behaviour in closed form.
- `inventory.dfy`, module `Inventory`: `class Item` (a constant name, two mutable
  counters) and `class GildedRose`. `GildedRose` holds the caller's own list as an
  `array<Item>` and updates the item objects in place. `UpdateItem` mutates one item's
  fields phase by phase and is proved equal to `Step`. `UpdateQuality` loops over the
  list and is proved to leave each item at its rule-given state.
- `scenarios.dfy`, module `Scenarios`: each recorded test, replayed through the objects.
  A caller keeps its references to the items and reads the counters through them.

If one item object sits in the list several times, the list loop updates it once per
occurrence. `UpdateQuality` states exactly that, so the model needs no distinctness
precondition. An item listed once receives exactly one night of `Step`.

## Model

| member | source | states |
|---|---|---|
| `Rules.CategoryOf` | test_gilded_rose.py:14-116 | the category is Aged Brie, legendary or backstage pass exactly when the name equals the matching reserved name, and normal exactly when it equals none of them |
| `Rules.Raise` | test_gilded_rose.py:80-95 | a rise adds one point exactly when the quality is below 50, and never lifts it above the larger of itself and 50 |
| `Rules.Lower` | test_gilded_rose.py:44-59 | a fall takes one point exactly when the quality is above 0, and never drops it below the smaller of itself and 0 |
| `Rules.Step` | test_gilded_rose.py:13-159 | one night leaves a legendary item unchanged; any other item loses exactly one day of sell-in, and its quality stays between min(old, 0) and max(old, 50) |
| `Rules.Days` | test_gilded_rose.py:98-159 | over n nights a legendary item is unchanged, any other item's sell-in falls by exactly n, and its quality stays between min(start, 0) and max(start, 50) |
| `Rules.NormalDay` | test_gilded_rose.py:13-59 | a normal item's quality falls by 1 a night, by 2 when the sell-in before the night is 0 or less, floored at 0, and does not move when already at 0 or below |
| `Rules.BrieDay` | test_gilded_rose.py:62-95 | Aged Brie's quality rises by 1 a night, by 2 when the sell-in before the night is 0 or less, capped at 50, and does not move when already at 50 or above |
| `Rules.BackstageDay` | test_gilded_rose.py:115-159 | a backstage pass gains 1 with 11 or more days to go, 2 with 6 to 10, 3 with 1 to 5, capped at 50; with 0 or fewer days to go its quality becomes 0 |
| `Rules.QualityStaysInRange` | test_gilded_rose.py:44-95 | a non-legendary item whose quality starts in [0, 50] keeps it in [0, 50] over any number of nights |
| `Rules.NormalBeforeSellDate` | test_gilded_rose.py:13-23 | a normal item with at least n days and n points left loses exactly n days and n points over n nights |
| `Rules.NormalAfterSellDate` | test_gilded_rose.py:26-41 | a normal item already at or past its sell date loses 2 points a night, stopping at 0 |
| `Rules.NormalSettlesAtZero` | test_gilded_rose.py:44-59 | a normal item's quality never becomes negative: after n nights it is at most max(0, start - n), so it reaches 0 and stays there |
| `Rules.BrieBeforeSellDate` | test_gilded_rose.py:62-69 | Aged Brie with at least n days left and room below 50 gains exactly n points over n nights |
| `Rules.BrieAfterSellDate` | test_gilded_rose.py:71-77 | Aged Brie already at or past its sell date gains 2 points a night, stopping at 50 |
| `Rules.BrieSettlesAtCeiling` | test_gilded_rose.py:80-95 | Aged Brie never rises above 50: after n nights it is at least min(50, start + n), so it reaches 50 and stays there |
| `Rules.BackstageWorthlessAfterConcert` | test_gilded_rose.py:153-159 | a backstage pass at or past its sell date is worth exactly 0 after one night and after every later night |
| `Inventory.Item.constructor` | test_gilded_rose.py:163-165 | an item is built with the given name, sell-in and quality, without any validation |
| `Inventory.GildedRose.constructor` | test_gilded_rose.py:8-11 | the rose holds the caller's own list object, not a copy |
| `Inventory.GildedRose.UpdateItem` | test_gilded_rose.py:13-159 | updating one item's fields in place, phase by phase, leaves it at `Step` of its category and its old counters |
| `Inventory.GildedRose.UpdateQuality` | test_gilded_rose.py:162-172 | every item of the list ends at `Days` of its old counters, for as many nights as it occurs in the list; an item listed once gets exactly one `Step`; the list, its order and the names are unchanged; qualities in [0, 50] stay there |
| `Scenarios.UpdateSoleItem` | test_gilded_rose.py:15-20 | one update of a one-item list leaves the item at `Step` of its old counters, read back through the caller's alias, and the list still holds just that item |
| `Scenarios.ItemsListIsKept` | test_gilded_rose.py:8-11 | the rose's list is the caller's list, holding the caller's item, before and after an update |
| `Scenarios.QualityDecreasesEachDay` | test_gilded_rose.py:13-23 | "foo" at (5, 10) reads (4, 9) and then (3, 8) through the caller's reference |
| `Scenarios.QualityDecreasesTwiceAsFastAfterSellDate` | test_gilded_rose.py:26-41 | "foo" at (1, 10) reads (0, 9), (-1, 7), (-2, 5) |
| `Scenarios.QualityNeverBecomesNegative` | test_gilded_rose.py:44-59 | "foo" at (1, 2) reads (0, 1), (-1, 0), (-2, 0) |
| `Scenarios.AgedBrieIncreasesInQuality` | test_gilded_rose.py:62-77 | Aged Brie at (1, 2) reads (0, 3), (-1, 5), (-2, 7) |
| `Scenarios.QualityCannotExceed50` | test_gilded_rose.py:80-95 | Aged Brie at (2, 49) reads (1, 50), (0, 50), (-1, 50) |
| `Scenarios.SulfurasNeverChanges` | test_gilded_rose.py:98-113 | Sulfuras at (0, 80) reads (0, 80) after each of three nights; 80 is not clamped to 50 |
| `Scenarios.BackstagePassesIncreaseInValue` | test_gilded_rose.py:115-159 | a backstage pass at (12, 20) reads (11, 21), (10, 22), (9, 24), (8, 26), … (5, 32), (4, 35), … (0, 47), (-1, 0), (-2, 0) night by night |
| `Scenarios.MultipleItems` | test_gilded_rose.py:162-172 | after one night a pass at (9, 20), Aged Brie at (5, 10) and "foo" at (5, 4) read qualities 22, 11 and 3 |

## Left out

- `gilded_rose.py` is not part of this model. The three-phase rule is one that is
  consistent with every assertion of `test_gilded_rose.py`. The four points below
  follow that rule's design, and no assertion pins them down.
- Backstage cap: `Rules.BackstageDay` caps every point a pass gains at 50 and leaves
  a pass at 50 or above unchanged. No recorded backstage trace rises above 47.
- Qualities outside [0, 50]: `Rules.Step` and the lemmas say what a non-legendary
  quality above 50 or below 0 does (it only stops rising or falling). Every recorded
  non-legendary item starts with a quality between 2 and 49.
- List identity: `Inventory.GildedRose.constructor` holds the caller's list object
  itself, and `Scenarios.ItemsListIsKept` shows it. The recorded test only checks that
  the rose's items form a list; the other tests read items through aliases.
- Fixed length: `Inventory.GildedRose` holds the list as an `array<Item>`, whose length
  is fixed. Appending to the shared list between two nights, which the next update
  would then see, is not modelled.
- The `unittest` harness and the `__main__` runner (test_gilded_rose.py:183-184) are test
  plumbing with no behaviour.
- Validation at construction (test_gilded_rose.py:175-181) is left out. Those two tests
  are empty, so the model accepts any initial quality for any name, Sulfuras included.
- Displaying an item and the text-fixture driver are output formatting and are not modelled.
- Python integers are unbounded, and so are Dafny's. No width or wrap-around is modelled.
