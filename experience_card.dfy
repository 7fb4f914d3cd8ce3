/**
 * The professional-experience card: entries are completed with defaults,
 * sorted by the year at the end of their `to` field (latest first) and
 * grouped into current positions, previous positions and side projects;
 * each item is expanded or collapsed through a numeric key that encodes its
 * group and its index in the group.
 *
 * The current year is a parameter. A missing optional string is "".
 */
module ExperienceCard {
  import opened Wrappers
  import opened Strings
  import opened Seqs
  import opened Sorting
  import opened ExpandMap

  /** A configured experience as the card receives it; the optional lists may be absent. */
  datatype RawExperience = RawExperience(
    from: string,
    to: string,
    position: string,
    company: string,
    companyLink: string,
    kind: string,
    description: Option<seq<string>>,
    technologies: Option<seq<string>>,
    location: string,
    letterLink: string)

  datatype Experience = Experience(
    from: string,
    to: string,
    position: string,
    company: string,
    companyLink: string,
    kind: string,
    description: seq<string>,
    technologies: seq<string>,
    location: string,
    letterLink: string)

  /** The enhanced experience: missing `description` and `technologies` become `[]`, the rest is copied. */
  function Enhance(raw: RawExperience): (e: Experience)
    ensures raw.description.Some? ==> e.description == raw.description.value
    ensures raw.description.None? ==> e.description == []
    ensures raw.technologies.Some? ==> e.technologies == raw.technologies.value
    ensures raw.technologies.None? ==> e.technologies == []
    ensures (e.from, e.to, e.position, e.company, e.companyLink, e.kind, e.location, e.letterLink)
         == (raw.from, raw.to, raw.position, raw.company, raw.companyLink, raw.kind, raw.location, raw.letterLink)
  {
    Experience(raw.from, raw.to, raw.position, raw.company, raw.companyLink, raw.kind,
      raw.description.GetOr([]), raw.technologies.GetOr([]), raw.location, raw.letterLink)
  }

  function EnhanceAll(raws: seq<RawExperience>): (r: seq<Experience>)
    ensures |r| == |raws|
    ensures forall i :: 0 <= i < |raws| ==> r[i] == Enhance(raws[i])
  {
    seq(|raws|, i requires 0 <= i < |raws| => Enhance(raws[i]))
  }

  // ---- The sort key ----

  /**
   * The comparator's year: "Present" is next year; otherwise `parseInt` of
   * the last space-separated token, "0" standing in for an empty token. A
   * token that does not parse (NaN in the comparator) is taken as 0.
   */
  function YearKey(to: string, nowYear: int): (r: int)
    ensures to == "Present" ==> r == nowYear + 1
    ensures to != "Present" && LastToken(to) == "" ==> r == 0
    ensures to != "Present" && LastToken(to) != "" && ParseIntAnyRadix(LastToken(to)).None? ==> r == 0
    ensures to != "Present" && LastToken(to) != "" && ParseIntAnyRadix(LastToken(to)).Some? ==> r == ParseIntAnyRadix(LastToken(to)).value
  {
    if to == "Present" then nowYear + 1
    else
      var token := LastToken(to);
      ZeroToken();
      ParseIntAnyRadix(if token == "" then "0" else token).GetOr(0)
  }

  /** The stand-in token "0" parses to 0. */
  lemma ZeroToken()
    ensures ParseIntAnyRadix("0") == Some(0)
  {
    ParseIntAnyRadixOfIntToString(0);
    assert IntToString(0) == "0";
  }

  function SortKey(nowYear: int): Experience -> int {
    (e: Experience) => YearKey(e.to, nowYear)
  }

  /** A "Month Year" end date sorts by its year, and a current position after every such date up to this year. */
  lemma YearKeyOfDate(month: string, year: int, nowYear: int)
    ensures YearKey(month + " " + IntToString(year), nowYear) == year
    ensures year <= nowYear ==> YearKey("Present", nowYear) > YearKey(month + " " + IntToString(year), nowYear)
  {
    var digits := IntToString(year);
    var to := month + " " + digits;
    NoSpaceInIntToString(year);
    LastTokenAfterSpace(month, digits);
    assert to[|to| - 1] == digits[|digits| - 1];
    assert to != "Present" by {
      assert "Present"[6] == 't';
      LastCharIsDigit(year);
    }
    ParseIntAnyRadixOfIntToString(year);
  }

  lemma LastCharIsDigit(i: int)
    ensures IntToString(i) != [] && IsDigit(IntToString(i)[|IntToString(i)| - 1])
  {
    var m: nat := if i < 0 then -i else i;
    var digits := NatToString(m);
    assert IsDigit(digits[|digits| - 1]);
    if i < 0 {
      assert IntToString(i) == "-" + digits;
    }
  }

  // ---- Categories ----

  /** Contains "side", "freelance" or "development" once lower-cased, or is typed as a side project. */
  predicate IsSideRole(e: Experience) {
    var p := ToLower(e.position);
    Contains(p, "side") || Contains(p, "freelance") || Contains(p, "development") || e.kind == "sideProject"
  }

  predicate IsCurrent(e: Experience) {
    e.to == "Present"
  }

  predicate IsSide(e: Experience) {
    !IsCurrent(e) && IsSideRole(e)
  }

  predicate IsPrevious(e: Experience) {
    !IsCurrent(e) && !IsSideRole(e)
  }

  datatype Categories = Categories(current: seq<Experience>, previous: seq<Experience>, sideProjects: seq<Experience>)

  /** The sorted copy `categorizeExperiences` walks through. */
  function SortedExperiences(experiences: seq<Experience>, nowYear: int): (r: seq<Experience>)
    ensures |r| == |experiences| && multiset(r) == multiset(experiences)
  {
    SortDesc(experiences, SortKey(nowYear))
  }

  /** The groups: the sorted entries of each kind, in sorted order. */
  function Categorized(experiences: seq<Experience>, nowYear: int): (c: Categories)
    ensures forall e :: e in c.current ==> e in experiences && e.to == "Present"
    ensures forall e :: e in c.sideProjects ==> e in experiences && e.to != "Present" && IsSideRole(e)
    ensures forall e :: e in c.previous ==> e in experiences && e.to != "Present" && !IsSideRole(e)
  {
    var sorted := SortedExperiences(experiences, nowYear);
    assert forall e :: e in sorted ==> e in multiset(experiences);
    Categories(Filter(sorted, IsCurrent), Filter(sorted, IsPrevious), Filter(sorted, IsSide))
  }

  /**
   * `categorizeExperiences`: sorts a copy, then appends each entry to the
   * group it belongs to.
   */
  method CategorizeExperiences(experiences: seq<Experience>, nowYear: int) returns (c: Categories)
    ensures c == Categorized(experiences, nowYear)
  {
    var sorted := SortedExperiences(experiences, nowYear);
    var current, previous, sideProjects := [], [], [];
    for i := 0 to |sorted|
      invariant current == Filter(sorted[..i], IsCurrent)
      invariant previous == Filter(sorted[..i], IsPrevious)
      invariant sideProjects == Filter(sorted[..i], IsSide)
    {
      var e := sorted[i];
      FilterSnoc(sorted, i, IsCurrent);
      FilterSnoc(sorted, i, IsPrevious);
      FilterSnoc(sorted, i, IsSide);
      if e.to == "Present" {
        current := current + [e];
      } else if IsSideRole(e) {
        sideProjects := sideProjects + [e];
      } else {
        previous := previous + [e];
      }
    }
    assert sorted[..|sorted|] == sorted;
    c := Categories(current, previous, sideProjects);
  }

  lemma {:induction false} BucketsPartition(s: seq<Experience>)
    ensures multiset(Filter(s, IsCurrent)) + multiset(Filter(s, IsPrevious)) + multiset(Filter(s, IsSide)) == multiset(s)
  {
    if s != [] {
      var x, tail := s[0], s[1..];
      BucketsPartition(tail);
      assert s == [x] + tail;
      assert multiset(s) == multiset{x} + multiset(tail);
      var c, p, d := Filter(tail, IsCurrent), Filter(tail, IsPrevious), Filter(tail, IsSide);
      if IsCurrent(x) {
        assert Filter(s, IsCurrent) == [x] + c;
        assert Filter(s, IsPrevious) == p && Filter(s, IsSide) == d;
      } else if IsSideRole(x) {
        assert Filter(s, IsSide) == [x] + d;
        assert Filter(s, IsCurrent) == c && Filter(s, IsPrevious) == p;
      } else {
        assert Filter(s, IsPrevious) == [x] + p;
        assert Filter(s, IsCurrent) == c && Filter(s, IsSide) == d;
      }
    }
  }

  /** Every entry lands in exactly one group: together the groups are the input, entry for entry. */
  lemma CategoriesPartition(experiences: seq<Experience>, nowYear: int)
    ensures var c := Categorized(experiences, nowYear);
      && multiset(c.current) + multiset(c.previous) + multiset(c.sideProjects) == multiset(experiences)
      && |c.current| + |c.previous| + |c.sideProjects| == |experiences|
  {
    var sorted := SortedExperiences(experiences, nowYear);
    BucketsPartition(sorted);
    var c := Categorized(experiences, nowYear);
    assert |multiset(c.current) + multiset(c.previous) + multiset(c.sideProjects)| == |multiset(experiences)|;
  }

  /** Which group an entry is in: "Present" exactly, else by its position and type. */
  lemma CategoriesMembership(experiences: seq<Experience>, nowYear: int, e: Experience)
    ensures var c := Categorized(experiences, nowYear);
      && (e in c.current <==> e in experiences && e.to == "Present")
      && (e in c.sideProjects <==> e in experiences && e.to != "Present" && IsSideRole(e))
      && (e in c.previous <==> e in experiences && e.to != "Present" && !IsSideRole(e))
  {
    var sorted := SortedExperiences(experiences, nowYear);
    assert e in sorted <==> e in multiset(sorted);
  }

  /** Every group is latest first. */
  lemma CategoriesSorted(experiences: seq<Experience>, nowYear: int)
    ensures var c := Categorized(experiences, nowYear);
      && SortedDesc(c.current, SortKey(nowYear))
      && SortedDesc(c.previous, SortKey(nowYear))
      && SortedDesc(c.sideProjects, SortKey(nowYear))
  {
    var sorted := SortedExperiences(experiences, nowYear);
    SortDescSorted(experiences, SortKey(nowYear));
    FilterSortedDesc(sorted, IsCurrent, SortKey(nowYear));
    FilterSortedDesc(sorted, IsPrevious, SortKey(nowYear));
    FilterSortedDesc(sorted, IsSide, SortKey(nowYear));
  }

  /** Entries ending in the same year keep the order of the configuration. */
  lemma SortedExperiencesStable(experiences: seq<Experience>, nowYear: int, year: int)
    ensures WithKey(SortedExperiences(experiences, nowYear), SortKey(nowYear), year)
         == WithKey(experiences, SortKey(nowYear), year)
  {
    SortDescStable(experiences, SortKey(nowYear), year);
  }

  // ---- Expansion keys ----

  datatype Group = CurrentGroup | PreviousGroup | SideGroup

  /** The hundreds of a group's keys. */
  function GroupOffset(g: Group): int {
    match g
    case CurrentGroup => 0
    case PreviousGroup => 1
    case SideGroup => 2
  }

  /**
   * The `expandedItems` key of the `index`-th item of a group: index, 100 +
   * index or 200 + index. Below 100 items per group the key decodes back to
   * its group (the hundreds) and its index (the remainder).
   */
  function ExpandKey(g: Group, index: nat): (k: int)
    ensures index < 100 ==> k / 100 == GroupOffset(g) && k % 100 == index
  {
    match g
    case CurrentGroup => index
    case PreviousGroup => 100 + index
    case SideGroup => 200 + index
  }

  /** With fewer than 100 items per group, distinct items have distinct keys. */
  lemma ExpandKeysDistinct(g1: Group, i1: nat, g2: Group, i2: nat)
    requires i1 < 100 && i2 < 100
    ensures ExpandKey(g1, i1) == ExpandKey(g2, i2) <==> g1 == g2 && i1 == i2
  {
  }

  /** With a 101st current position, it shares its key with the first previous one. */
  lemma ExpandKeyCollision()
    ensures ExpandKey(CurrentGroup, 100) == ExpandKey(PreviousGroup, 0)
  {
  }

  /** Whether the item is shown expanded: `!!expandedItems[key]`. */
  function ItemExpanded(expanded: map<int, bool>, g: Group, index: nat): bool {
    IsExpanded(expanded, ExpandKey(g, index))
  }

  /** Toggling one item flips it and, within the key bound, no other item. */
  lemma ToggleOneItem(expanded: map<int, bool>, g: Group, i: nat, h: Group, j: nat)
    requires i < 100 && j < 100
    ensures ItemExpanded(Toggled(expanded, ExpandKey(g, i)), h, j) ==
      if g == h && i == j then !ItemExpanded(expanded, h, j) else ItemExpanded(expanded, h, j)
  {
    ExpandKeysDistinct(g, i, h, j);
  }

  /** The card's `expandedItems` state. */
  class ExperienceCardState {
    var expandedItems: map<int, bool>

    constructor ()
      ensures expandedItems == map[]
    {
      expandedItems := map[];
    }

    function Expanded(g: Group, index: nat): bool
      reads this
    {
      ItemExpanded(expandedItems, g, index)
    }

    /** `toggleExpand(key)`. */
    method ToggleExpand(key: int)
      modifies this
      ensures expandedItems == Toggled(old(expandedItems), key)
    {
      expandedItems := expandedItems[key := !IsExpanded(expandedItems, key)];
    }
  }
}
