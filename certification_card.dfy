/**
 * The certification card: each item expands to show what was learned, the
 * expansion state being the `expandedItems` map keyed by the item's index.
 */
module CertificationCard {
  import opened Wrappers
  import opened ExpandMap

  datatype Certification = Certification(name: string, organization: string, year: string, link: string, body: string)

  /** What one item renders. */
  datatype ItemView = ItemView(
    name: string,
    nameHref: Option<string>,
    organization: Option<string>,
    year: Option<string>,
    body: Option<string>,
    chevronUp: bool)

  /** A line rendered only for a non-empty value. */
  function IfSet(s: string): (r: Option<string>)
    ensures r.Some? <==> s != ""
    ensures r.Some? ==> r.value == s
  {
    if s != "" then Some(s) else None
  }

  /**
   * The name is a link only for a non-empty `link`; the organization and
   * year lines only when set; the body only when expanded and non-empty.
   */
  function ViewOf(c: Certification, expanded: bool): (v: ItemView)
    ensures v.name == c.name && v.chevronUp == expanded
    ensures v.nameHref.Some? <==> c.link != ""
    ensures v.nameHref.Some? ==> v.nameHref.value == c.link
    ensures v.organization == IfSet(c.organization) && v.year == IfSet(c.year)
    ensures v.body.Some? <==> expanded && c.body != ""
    ensures v.body.Some? ==> v.body.value == c.body
  {
    ItemView(
      c.name,
      IfSet(c.link),
      IfSet(c.organization),
      IfSet(c.year),
      if expanded && c.body != "" then Some(c.body) else None,
      expanded)
  }

  /** The items rendered for the state `expanded`: item `i` reads key `i`. */
  function Items(certifications: seq<Certification>, expanded: map<int, bool>): (r: seq<ItemView>)
    ensures |r| == |certifications|
    ensures forall i :: 0 <= i < |r| ==> r[i] == ViewOf(certifications[i], IsExpanded(expanded, i))
  {
    seq(|certifications|, i requires 0 <= i < |certifications| => ViewOf(certifications[i], IsExpanded(expanded, i)))
  }

  /** Before any toggle no body is shown. */
  lemma InitiallyCollapsed(certifications: seq<Certification>)
    ensures forall i :: 0 <= i < |certifications| ==> Items(certifications, map[])[i].body == None
  {
  }

  /** Toggling item `i` changes the view of item `i` only. */
  lemma ToggleChangesOneItem(certifications: seq<Certification>, expanded: map<int, bool>, i: int, j: int)
    requires 0 <= j < |certifications|
    ensures var after := Items(certifications, Toggled(expanded, i));
      var before := Items(certifications, expanded);
      (j != i ==> after[j] == before[j]) && (j == i ==> after[j].chevronUp == !before[j].chevronUp)
  {
  }

  /** The card's `expandedItems` state. */
  class CertificationCardState {
    var expandedItems: map<int, bool>

    constructor ()
      ensures expandedItems == map[]
    {
      expandedItems := map[];
    }

    function Shown(certifications: seq<Certification>): seq<ItemView>
      reads this
    {
      Items(certifications, expandedItems)
    }

    /** `toggleExpand(i)`. */
    method ToggleExpand(i: int)
      modifies this
      ensures expandedItems == Toggled(old(expandedItems), i)
    {
      expandedItems := expandedItems[i := !IsExpanded(expandedItems, i)];
    }
  }
}
