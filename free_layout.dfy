/**
 * The free layout's default arrangement: nine 4-by-3 tiles on a 12-column
 * grid, three to a row, and the choice between a saved layout and that
 * default when the layout is first shown.
 */
module FreeLayout {
  import opened Wrappers

  /** One grid item of react-grid-layout: its key, position, size and size limits. */
  datatype LayoutItem = LayoutItem(
    i: string, x: int, y: int, w: int, h: int,
    minW: int, minH: int, maxW: int, maxH: int)

  const Cols := 12
  const TileCount := 9
  const TilesPerRow := 3
  const TileW := 4
  const TileH := 3

  /** The decimal digits of `n`: `Number.prototype.toString()` on a non-negative integer. */
  function NatToString(n: nat): (s: string)
    ensures |s| >= 1
    ensures n < 10 ==> s == ['0' + n as char]
    decreases n
  {
    if n < 10 then ['0' + n as char] else NatToString(n / 10) + ['0' + (n % 10) as char]
  }

  /**
   * Item `k` of the default layout: keyed by `k` in decimal, inside the twelve
   * columns, and sized within its own limits.
   */
  function DefaultItem(k: nat): (item: LayoutItem)
    ensures item.i == NatToString(k)
    ensures 0 <= item.x && item.x + item.w <= Cols && 0 <= item.y
    ensures item.minW <= item.w <= item.maxW && item.minH <= item.h <= item.maxH
  {
    var row := k / TilesPerRow;
    var col := (k % TilesPerRow) * TileW;
    LayoutItem(NatToString(k), col, row * TileH, TileW, TileH, 2, 2, Cols, 10)
  }

  /** `getDefaultLayout()`. */
  function DefaultLayout(): (r: seq<LayoutItem>)
    ensures |r| == TileCount
  {
    seq(TileCount, k requires 0 <= k => DefaultItem(k))
  }

  /** Two items' rectangles share some cell. */
  predicate Overlap(a: LayoutItem, b: LayoutItem)
  {
    a.x < b.x + b.w && b.x < a.x + a.w && a.y < b.y + b.h && b.y < a.y + a.h
  }

  /**
   * Item `k` of the default layout is keyed by `k` written in decimal and sits
   * in column block `k mod 3` and row block `k div 3` of a 3-by-3 grid, four
   * columns wide and three rows tall, within its size limits and inside the
   * twelve columns.
   */
  lemma DefaultItemPlacement(k: int)
    requires 0 <= k < TileCount
    ensures var item := DefaultLayout()[k];
      && item.i == NatToString(k)
      && item.x == (k % 3) * 4 && item.y == (k / 3) * 3
      && item.w == 4 && item.h == 3
      && item.minW <= item.w <= item.maxW && item.minH <= item.h <= item.maxH
      && 0 <= item.x && item.x + item.w <= Cols && 0 <= item.y
  {
  }

  /** The nine keys of the default layout are pairwise distinct. */
  lemma DefaultKeysDistinct(j: int, k: int)
    requires 0 <= j < TileCount && 0 <= k < TileCount && j != k
    ensures DefaultLayout()[j].i != DefaultLayout()[k].i
  {
    assert DefaultLayout()[j].i == ['0' + j as char];
    assert DefaultLayout()[k].i == ['0' + k as char];
  }

  /** No two tiles of the default layout overlap. */
  lemma DefaultTilesDisjoint(j: int, k: int)
    requires 0 <= j < TileCount && 0 <= k < TileCount && j != k
    ensures !Overlap(DefaultLayout()[j], DefaultLayout()[k])
  {
    var a, b := DefaultLayout()[j], DefaultLayout()[k];
    assert a.x == (j % 3) * 4 && a.y == (j / 3) * 3;
    assert b.x == (k % 3) * 4 && b.y == (k / 3) * 3;
    assert j == (j / 3) * 3 + j % 3 && k == (k / 3) * 3 + k % 3;
  }

  /**
   * A value `JSON.parse` can yield: an array of layout items, or any other
   * JSON value (`null`, an object, an array of something else, ...), which
   * the layout state takes as it is.
   */
  datatype JsonValue = LayoutArray(items: seq<LayoutItem>) | OtherJson(text: string)

  /**
   * The layout state shown first: whatever the saved text parses to when the
   * page runs in a browser and a non-empty text was saved, unchecked; the
   * default layout otherwise, including when parsing throws.
   */
  function InitialLayout(inBrowser: bool, saved: Option<string>, parse: string -> Option<JsonValue>): (r: JsonValue)
    ensures inBrowser && saved.Some? && saved.value != "" && parse(saved.value).Some? ==> r == parse(saved.value).value
    ensures !(inBrowser && saved.Some? && saved.value != "" && parse(saved.value).Some?) ==> r == LayoutArray(DefaultLayout())
  {
    if inBrowser && saved.Some? && saved.value != "" then
      match parse(saved.value)
      case Some(value) => value
      case None => LayoutArray(DefaultLayout())
    else LayoutArray(DefaultLayout())
  }

  /**
   * Only text that fails to parse falls back to the default: well-formed JSON
   * that is not a layout becomes the layout state unchanged.
   */
  lemma NonLayoutJsonIsKept(saved: string, parse: string -> Option<JsonValue>)
    requires saved != ""
    requires parse(saved).Some? && parse(saved).value.OtherJson?
    ensures InitialLayout(true, Some(saved), parse) == parse(saved).value
    ensures InitialLayout(true, Some(saved), parse) != LayoutArray(DefaultLayout())
  {
  }
}
