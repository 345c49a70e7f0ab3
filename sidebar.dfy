/** The filter sidebar of `src/components/Sidebar.tsx`. It holds no state of
    its own: its handlers compute the next price range from the current one and
    pass it to the dashboard's callback. Prices are whole numbers here. */
module Sidebar {

  import opened Js

  /** The `[min, max]` price filter. */
  datatype PriceRange = PriceRange(lo: int, hi: int)

  const PRICE_MIN := 0
  const PRICE_MAX := 100

  /** Both bounds inside [0, 100] and not crossed. */
  predicate WellFormed(r: PriceRange) {
    PRICE_MIN <= r.lo <= r.hi <= PRICE_MAX
  }

  /** The slider's change: the new range is passed on as it is. */
  function HandlePriceChange(newValue: PriceRange): (r: PriceRange)
    ensures r.lo == newValue.lo && r.hi == newValue.hi
  {
    newValue
  }

  /** Typing `v` into the "Min" box: `v` raised to 0 and capped at the current
      maximum; the maximum is kept. */
  function HandleMinPriceInput(range: PriceRange, v: int): (r: PriceRange)
    ensures r.hi == range.hi
    ensures r.lo <= range.hi
    ensures 0 <= v <= range.hi ==> r.lo == v
    ensures v < 0 && 0 <= range.hi ==> r.lo == 0
    ensures v > range.hi ==> r.lo == range.hi
    ensures range.hi < 0 ==> r.lo == range.hi
  {
    PriceRange(Min(Max(PRICE_MIN, v), range.hi), range.hi)
  }

  /** Typing `v` into the "Max" box: `v` lowered to 100 and raised to the
      current minimum; the minimum is kept. */
  function HandleMaxPriceInput(range: PriceRange, v: int): (r: PriceRange)
    ensures r.lo == range.lo
    ensures r.hi >= range.lo
    ensures range.lo <= v <= 100 ==> r.hi == v
    ensures v > 100 && range.lo <= 100 ==> r.hi == 100
    ensures v < range.lo ==> r.hi == range.lo
    ensures range.lo > 100 ==> r.hi == range.lo
  {
    PriceRange(range.lo, Max(Min(PRICE_MAX, v), range.lo))
  }

  /** Neither box can push a well-formed range out of [0, 100] or cross its
      bounds, whatever is typed. */
  lemma MinInputKeepsWellFormed(range: PriceRange, v: int)
    requires WellFormed(range)
    ensures WellFormed(HandleMinPriceInput(range, v))
  {
  }

  lemma MaxInputKeepsWellFormed(range: PriceRange, v: int)
    requires WellFormed(range)
    ensures WellFormed(HandleMaxPriceInput(range, v))
  {
  }

  /** Typing the same value twice gives the range typing it once gives. */
  lemma MinInputIdempotent(range: PriceRange, v: int)
    ensures HandleMinPriceInput(HandleMinPriceInput(range, v), v) == HandleMinPriceInput(range, v)
  {
  }

  lemma MaxInputIdempotent(range: PriceRange, v: int)
    ensures HandleMaxPriceInput(HandleMaxPriceInput(range, v), v) == HandleMaxPriceInput(range, v)
  {
  }
}
