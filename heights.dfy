/**
 * Inline heights of the navigation's elements and the measured height of a
 * list. An element's collapse state is driven by its inline `min-height` and
 * `max-height`, which the plugin always writes together.
 */
module Heights {

  /** One inline CSS length: absent (`''`), or a number of pixels. */
  datatype Css = Unset | Px(pixels: int)

  /** The inline `min-height` and `max-height` of one element. */
  datatype Box = Box(minHeight: Css, maxHeight: Css)

  /**
   * The number a relative write (`"+=" + h`, `"-=" + h`) starts from. An
   * absent inline value counts as 0.
   */
  function Base(c: Css): int {
    if c.Px? then c.pixels else 0
  }

  /** Min-height equals max-height: the element is pinned to one height. */
  predicate Balanced(b: Box) {
    b.minHeight == b.maxHeight
  }

  /** Neither inline height is below 0. */
  predicate NonNegative(b: Box) {
    Base(b.minHeight) >= 0 && Base(b.maxHeight) >= 0
  }

  /** No inline height at all. */
  const Cleared := Box(Unset, Unset)

  /** The box of an element pinned to `h` pixels. */
  function Pin(h: nat): Box {
    Box(Px(h), Px(h))
  }

  /**
   * Writing `v` pixels to one inline height. A negative length is not a
   * valid value for `min-height` or `max-height`, so such a write is
   * dropped and the old value stays.
   */
  function Write(c: Css, v: int): Css {
    if v >= 0 then Px(v) else c
  }

  /** The number a relative write of `d` leaves where the value was `c`. */
  function Shifted(c: int, d: int): int {
    if c + d >= 0 then c + d else c
  }

  /** `setHeight(el, h)`: the same absolute value for min-height and max-height. */
  function SetHeight(b: Box, h: int): (r: Box)
    ensures h >= 0 ==> r == Pin(h)
    ensures h < 0 ==> r == b
    ensures Balanced(b) ==> Balanced(r)
    ensures NonNegative(b) ==> NonNegative(r)
  {
    Box(Write(b.minHeight, h), Write(b.maxHeight, h))
  }

  /** `addHeight(el, h)`: both min-height and max-height grow by `h`. */
  function AddHeight(b: Box, h: int): (r: Box)
    ensures Balanced(b) ==> Balanced(r)
    ensures NonNegative(b) ==> NonNegative(r)
    ensures Base(b.minHeight) + h >= 0 ==> r.minHeight == Px(Base(b.minHeight) + h)
    ensures Base(b.minHeight) + h < 0 ==> r.minHeight == b.minHeight
    ensures Base(b.maxHeight) + h >= 0 ==> r.maxHeight == Px(Base(b.maxHeight) + h)
    ensures Base(b.maxHeight) + h < 0 ==> r.maxHeight == b.maxHeight
  {
    Box(Write(b.minHeight, Base(b.minHeight) + h), Write(b.maxHeight, Base(b.maxHeight) + h))
  }

  /** `removeHeight(el, h)`: both min-height and max-height shrink by `h`. */
  function RemoveHeight(b: Box, h: int): (r: Box)
    ensures Balanced(b) ==> Balanced(r)
    ensures NonNegative(b) ==> NonNegative(r)
    ensures Base(b.minHeight) >= h ==> r.minHeight == Px(Base(b.minHeight) - h)
    ensures Base(b.minHeight) < h ==> r.minHeight == b.minHeight
    ensures Base(b.maxHeight) >= h ==> r.maxHeight == Px(Base(b.maxHeight) - h)
    ensures Base(b.maxHeight) < h ==> r.maxHeight == b.maxHeight
  {
    Box(Write(b.minHeight, Base(b.minHeight) - h), Write(b.maxHeight, Base(b.maxHeight) - h))
  }

  /** Total of a list of item heights, added up from the first item on. */
  function Sum(items: seq<nat>): nat {
    if items == [] then 0 else Sum(items[..|items| - 1]) + items[|items| - 1]
  }

  /**
   * `getNavHeight`: the sum of the outer heights of a list's direct `li`
   * children, accumulated item by item.
   */
  method GetNavHeight(items: seq<nat>) returns (height: nat)
    ensures height == Sum(items)
  {
    height := 0;
    var k := 0;
    while k < |items|
      invariant 0 <= k <= |items|
      invariant height == Sum(items[..k])
    {
      assert items[..k + 1][..k] == items[..k];
      height := height + items[k];
      k := k + 1;
    }
    assert items[..k] == items;
  }

  /** Every item of a list fits in the list's total height. */
  lemma {:induction false} SumBoundsItems(items: seq<nat>, k: nat)
    requires k < |items|
    ensures items[k] <= Sum(items)
  {
    var last := |items| - 1;
    if k < last {
      assert items[..last][k] == items[k];
      SumBoundsItems(items[..last], k);
    }
  }
}
