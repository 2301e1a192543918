/**
 * Interval handles as the pages hold them. A handle is what `window.setInterval`
 * returns (a positive integer); a cell that holds none is `null` or `undefined`.
 */
module Intervals {
  import opened Wrappers

  /** The handles in `cell`: one if it holds a handle, none otherwise. */
  function HandleSet(cell: Option<int>): set<int> {
    if cell.Some? then {cell.value} else {}
  }

  /** JavaScript truthiness of the cell (`null`, `undefined` and `0` are falsy). */
  predicate Truthy(cell: Option<int>) {
    cell.Some? && cell.value != 0
  }
}
