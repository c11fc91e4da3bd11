/**
 * The nightly update rule of the Gilded Rose inventory, stated on values.
 *
 * An item is known by its name, which selects its category by exact match,
 * and carries two counters: the days left to sell it (`sellIn`) and its
 * `quality`. One day of the rule runs in three phases:
 *   1. adjust the quality, looking at the sell-in before it is aged;
 *   2. age the sell-in by one day (the legendary item never ages);
 *   3. if the aged sell-in is negative, apply the post-expiry correction.
 * `Step` is that rule for one day, `Days` the rule applied `n` days in a row;
 * the lemmas state what each category does over one or many days.
 */
module Rules {

  /** Names that select a special category; any other name is a normal item. */
  const AgedBrie: string := "Aged Brie"
  const Sulfuras: string := "Sulfuras, Hand of Ragnaros"
  const BackstagePasses: string := "Backstage passes to a TAFKAL80ETC concert"

  /** Bounds the rule keeps the quality of every non-legendary item within. */
  const MinQuality: int := 0
  const MaxQuality: int := 50

  datatype Category = Normal | Brie | Legendary | Backstage

  /** The two counters of an item. */
  datatype ItemState = ItemState(sellIn: int, quality: int)

  function Min(a: int, b: int): int { if a <= b then a else b }
  function Max(a: int, b: int): int { if a <= b then b else a }

  /** The category an item's name selects; a name matching none of the three is normal. */
  function CategoryOf(name: string): (c: Category)
    ensures c == Brie <==> name == AgedBrie
    ensures c == Legendary <==> name == Sulfuras
    ensures c == Backstage <==> name == BackstagePasses
    ensures c == Normal <==> name !in {AgedBrie, Sulfuras, BackstagePasses}
  {
    if name == AgedBrie then Brie
    else if name == Sulfuras then Legendary
    else if name == BackstagePasses then Backstage
    else Normal
  }

  /** One point more, unless the quality already stands at the ceiling or above it. */
  function Raise(q: int): (r: int)
    ensures q <= r <= q + 1
    ensures r <= Max(q, MaxQuality)
    ensures q < MaxQuality <==> r == q + 1
  {
    if q < MaxQuality then q + 1 else q
  }

  /** One point less, unless the quality already stands at the floor or below it. */
  function Lower(q: int): (r: int)
    ensures q - 1 <= r <= q
    ensures Min(q, MinQuality) <= r
    ensures q > MinQuality <==> r == q - 1
  {
    if q > MinQuality then q - 1 else q
  }

  /** Phase 1: the quality adjustment, keyed on the sell-in before aging. */
  function Adjust(c: Category, sellIn: int, quality: int): int
  {
    match c
    case Normal => Lower(quality)
    case Brie => Raise(quality)
    case Legendary => quality
    case Backstage =>
      var q1 := Raise(quality);
      var q2 := if sellIn < 11 then Raise(q1) else q1;
      if sellIn < 6 then Raise(q2) else q2
  }

  /** Phase 2: every item but the legendary one is one day closer to its sell date. */
  function Age(c: Category, sellIn: int): int
  {
    if c == Legendary then sellIn else sellIn - 1
  }

  /** Phase 3: the correction applied once the aged sell-in is negative. */
  function Expire(c: Category, agedSellIn: int, quality: int): int
  {
    if agedSellIn >= 0 then quality
    else
      match c
      case Normal => Lower(quality)
      case Brie => Raise(quality)
      case Legendary => quality
      case Backstage => 0
  }

  /** One night of the rule for an item of category `c`. */
  function Step(c: Category, st: ItemState): (r: ItemState)
    ensures c == Legendary ==> r == st
    ensures c != Legendary ==> r.sellIn == st.sellIn - 1
    ensures c != Legendary ==>
      Min(st.quality, MinQuality) <= r.quality <= Max(st.quality, MaxQuality)
  {
    var sellIn := Age(c, st.sellIn);
    ItemState(sellIn, Expire(c, sellIn, Adjust(c, st.sellIn, st.quality)))
  }

  /** `n` nights of the rule in a row. */
  function Days(c: Category, n: nat, st: ItemState): (r: ItemState)
    ensures c == Legendary ==> r == st
    ensures c != Legendary ==> r.sellIn == st.sellIn - n
    ensures c != Legendary ==>
      Min(st.quality, MinQuality) <= r.quality <= Max(st.quality, MaxQuality)
  {
    if n == 0 then st else Step(c, Days(c, n - 1, st))
  }

  // ---------------------------------------------------------------------
  // One night, category by category, in closed form.

  /** A normal item loses one point a day, two once past its sell date, never going below 0. */
  lemma NormalDay(st: ItemState)
    ensures Step(Normal, st).sellIn == st.sellIn - 1
    ensures Step(Normal, st).quality ==
      if st.quality <= MinQuality then st.quality
      else Max(MinQuality, st.quality - (if st.sellIn <= 0 then 2 else 1))
  {
  }

  /** Aged Brie gains one point a day, two once past its sell date, never rising past 50. */
  lemma BrieDay(st: ItemState)
    ensures Step(Brie, st).sellIn == st.sellIn - 1
    ensures Step(Brie, st).quality ==
      if st.quality >= MaxQuality then st.quality
      else Min(MaxQuality, st.quality + (if st.sellIn <= 0 then 2 else 1))
  {
  }

  /**
   * A backstage pass gains one point with 11 or more days to go, two with 6 to 10,
   * three with 5 or fewer, never rising past 50; on the night its sell date passes
   * it becomes worthless.
   */
  lemma BackstageDay(st: ItemState)
    ensures Step(Backstage, st).sellIn == st.sellIn - 1
    ensures st.sellIn <= 0 ==> Step(Backstage, st).quality == 0
    ensures st.sellIn > 0 ==>
      Step(Backstage, st).quality ==
        if st.quality >= MaxQuality then st.quality
        else Min(MaxQuality, st.quality + (if st.sellIn < 6 then 3 else if st.sellIn < 11 then 2 else 1))
  {
  }

  /** Every non-legendary item whose quality lies within [0, 50] keeps it there, night after night. */
  lemma QualityStaysInRange(c: Category, n: nat, st: ItemState)
    requires c != Legendary
    requires MinQuality <= st.quality <= MaxQuality
    ensures MinQuality <= Days(c, n, st).quality <= MaxQuality
  {
  }

  // ---------------------------------------------------------------------
  // Many nights.

  /** Before its sell date a normal item loses exactly one point of quality and one day per night. */
  lemma {:induction false} NormalBeforeSellDate(n: nat, st: ItemState)
    requires st.sellIn >= n && st.quality >= n
    ensures Days(Normal, n, st) == ItemState(st.sellIn - n, st.quality - n)
  {
    if n > 0 {
      NormalBeforeSellDate(n - 1, st);
    }
  }

  /** Once past its sell date a normal item loses two points a night, stopping at 0. */
  lemma {:induction false} NormalAfterSellDate(n: nat, st: ItemState)
    requires st.sellIn <= 0 && st.quality >= MinQuality
    ensures Days(Normal, n, st) == ItemState(st.sellIn - n, Max(MinQuality, st.quality - 2 * n))
  {
    if n > 0 {
      NormalAfterSellDate(n - 1, st);
    }
  }

  /**
   * The quality of a normal item never becomes negative: it falls by at least one point a
   * night until it reaches 0, and then stays at 0.
   */
  lemma {:induction false} NormalSettlesAtZero(n: nat, st: ItemState)
    requires st.quality >= MinQuality
    ensures MinQuality <= Days(Normal, n, st).quality <= Max(MinQuality, st.quality - n)
  {
    if n > 0 {
      NormalSettlesAtZero(n - 1, st);
    }
  }

  /** Aged Brie gains one point a night before its sell date, as long as it stays below 50. */
  lemma {:induction false} BrieBeforeSellDate(n: nat, st: ItemState)
    requires st.sellIn >= n && st.quality + n <= MaxQuality
    ensures Days(Brie, n, st) == ItemState(st.sellIn - n, st.quality + n)
  {
    if n > 0 {
      BrieBeforeSellDate(n - 1, st);
    }
  }

  /** Once past its sell date Aged Brie gains two points a night, stopping at 50. */
  lemma {:induction false} BrieAfterSellDate(n: nat, st: ItemState)
    requires st.sellIn <= 0 && st.quality <= MaxQuality
    ensures Days(Brie, n, st) == ItemState(st.sellIn - n, Min(MaxQuality, st.quality + 2 * n))
  {
    if n > 0 {
      BrieAfterSellDate(n - 1, st);
    }
  }

  /**
   * Aged Brie never rises past 50: it climbs by at least one point a night until it
   * reaches 50, and then stays at 50.
   */
  lemma {:induction false} BrieSettlesAtCeiling(n: nat, st: ItemState)
    requires st.quality <= MaxQuality
    ensures Min(MaxQuality, st.quality + n) <= Days(Brie, n, st).quality <= MaxQuality
  {
    if n > 0 {
      BrieSettlesAtCeiling(n - 1, st);
    }
  }

  /** A backstage pass is worth 0 from the night its sell date passes, and stays so. */
  lemma BackstageWorthlessAfterConcert(n: nat, st: ItemState)
    requires st.sellIn <= 0 && n >= 1
    ensures Days(Backstage, n, st).quality == 0
  {
    // The last night starts from a sell-in of st.sellIn - (n - 1) <= 0.
  }
}
