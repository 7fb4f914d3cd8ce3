/**
 * The `expandedItems` state shared by the experience and certification cards:
 * an object from numeric keys to booleans, read as `!!expandedItems[k]` and
 * updated by `toggleExpand(k)`, which is `{ ...prev, [k]: !prev[k] }`.
 */
module ExpandMap {

  /** `!!m[k]`: an absent key reads as collapsed. */
  function IsExpanded(m: map<int, bool>, k: int): bool {
    k in m && m[k]
  }

  /** `{ ...m, [k]: !m[k] }`. */
  function Toggled(m: map<int, bool>, k: int): (r: map<int, bool>)
    ensures IsExpanded(r, k) == !IsExpanded(m, k)
    ensures forall j :: j != k ==> IsExpanded(r, j) == IsExpanded(m, j)
    ensures r.Keys == m.Keys + {k}
  {
    m[k := !IsExpanded(m, k)]
  }

  /** The initial `{}`: everything collapsed. */
  lemma EmptyCollapsed(k: int)
    ensures !IsExpanded(map[], k)
  {
  }

  /** Toggling the same key twice restores what every key reads as. */
  lemma ToggleTwice(m: map<int, bool>, k: int)
    ensures forall j :: IsExpanded(Toggled(Toggled(m, k), k), j) == IsExpanded(m, j)
  {
  }
}
