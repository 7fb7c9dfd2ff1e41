/**
 * The "See More / See Less" disclosure of the portfolio page: how many
 * entries a collapsed list shows, which entries are shown, and when the
 * toggle control is offered.
 */
module Disclosure {

  /** The viewport width below which the page counts as mobile. */
  const MobileBreakpoint: int := 768

  function Min(a: int, b: int): int { if a <= b then a else b }

  /** True when `prefix` is an initial segment of `s`. */
  ghost predicate IsPrefix<T>(prefix: seq<T>, s: seq<T>)
  {
    |prefix| <= |s| && prefix == s[..|prefix|]
  }

  /** The number of entries a collapsed list shows, for a viewport `width`
      pixels wide: four on a mobile viewport and six otherwise. */
  function InitialItems(width: int): (n: nat)
    ensures n == 4 || n == 6
    ensures n == 4 <==> width < MobileBreakpoint
    ensures n == 6 <==> width >= MobileBreakpoint
  {
    if width < MobileBreakpoint then 4 else 6
  }

  /** The entries a list shows: all of them when expanded, otherwise what
      `items.slice(0, limit)` gives, the first `limit` entries or the whole
      list when it is shorter. */
  function Displayed<T>(items: seq<T>, showAll: bool, limit: nat): (r: seq<T>)
    ensures IsPrefix(r, items)
    ensures showAll ==> r == items
    ensures !showAll && |items| <= limit ==> r == items
    ensures !showAll && limit < |items| ==> |r| == limit
  {
    if showAll then items else items[..Min(|items|, limit)]
  }

  /** Whether the See More / See Less control is offered for a list: exactly
      when the collapsed view leaves some entry out. */
  function HasMore<T>(items: seq<T>, limit: nat): (r: bool)
    ensures r <==> Displayed(items, false, limit) != items
    ensures r <==> |Displayed(items, false, limit)| < |items|
  {
    |items| > limit
  }

  /** Expanding a list adds exactly the entries the collapsed view hides, at
      its end and in their original order. */
  lemma ExpandAppendsHidden<T>(items: seq<T>, limit: nat)
    ensures Displayed(items, true, limit)
            == Displayed(items, false, limit) + items[|Displayed(items, false, limit)|..]
  {
  }

  /** A list without the toggle looks the same collapsed and expanded. */
  lemma NoToggleNoChange<T>(items: seq<T>, limit: nat, showAll: bool)
    requires !HasMore(items, limit)
    ensures Displayed(items, showAll, limit) == items
  {
  }

  /** A collapsed list never shows more entries than the larger threshold. */
  lemma CollapsedBound<T>(items: seq<T>, width: int)
    ensures |Displayed(items, false, InitialItems(width))| <= 6
  {
  }
}
