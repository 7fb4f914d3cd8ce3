/**
 * The custom-projects section (`Projects`): the category filter, the filter
 * option shown on the menu button, the ordered link list of each card, the
 * detail lines, the single-expanded-card toggle and what the body shows.
 *
 * A missing optional string is "" and a missing list is `[]`; every use in
 * the component is a truthiness or `?? []` test, which treats them alike.
 */
module Projects {
  import opened Wrappers
  import opened Strings
  import opened Seqs

  /** The fields of a sanitized custom project the component reads. */
  datatype Project = Project(
    name: string,
    category: string,
    githubUrl: string,
    companyUrl: string,
    documentationUrl: string,
    articleUrl: string,
    youtubeUrl: string,
    whatIDid: seq<string>,
    achievements: seq<string>,
    improvements: string)

  // ---- Category filter ----

  /**
   * `category?.toLowerCase().trim() ?? ""`: the lower-cased category with the
   * white space around it, and only that, removed.
   */
  function NormalizeCategory(category: string): (r: string)
    ensures exists k :: TrimmedAt(ToLower(category), r, k)
    ensures forall i :: 0 <= i < |r| ==> !IsUpper(r[i])
    ensures r == [] || (!IsWhitespace(r[0]) && !IsWhitespace(r[|r| - 1]))
  {
    var lower := ToLower(category);
    var r := Trim(lower);
    SliceHasNoUpper(lower, r);
    r
  }

  lemma SliceHasNoUpper(s: string, r: string)
    requires forall i :: 0 <= i < |s| ==> !IsUpper(s[i])
    requires exists k :: TrimmedAt(s, r, k)
    ensures forall i :: 0 <= i < |r| ==> !IsUpper(r[i])
  {
    var k :| TrimmedAt(s, r, k);
    assert forall i :: 0 <= i < |r| ==> r[i] == s[k + i];
  }

  predicate IsIndustrial(p: Project) {
    NormalizeCategory(p.category) == "industrial"
  }

  predicate IsAcademicPersonal(p: Project) {
    var c := NormalizeCategory(p.category);
    c == "academic" || c == "personal" || c == "academic/personal" || c == "industrial/personal"
  }

  /**
   * `filteredProjects`: "industrial" and "academic-personal" keep the
   * projects of their categories; every other filter value keeps them all.
   */
  function FilteredProjects(projects: seq<Project>, selected: string): (r: seq<Project>)
    ensures |projects| == 0 ==> r == []
    ensures selected != "industrial" && selected != "academic-personal" ==> r == projects
    ensures selected == "industrial" ==> forall p :: p in r <==> p in projects && IsIndustrial(p)
    ensures selected == "academic-personal" ==> forall p :: p in r <==> p in projects && IsAcademicPersonal(p)
  {
    if |projects| == 0 then []
    else if selected == "industrial" then Filter(projects, IsIndustrial)
    else if selected == "academic-personal" then Filter(projects, IsAcademicPersonal)
    else projects
  }

  /** Every filter result lists some of the projects, in their original order. */
  lemma FilteredIsSubsequence(projects: seq<Project>, selected: string)
    ensures IsSubsequence(FilteredProjects(projects, selected), projects)
  {
    if |projects| == 0 {
    } else if selected == "industrial" {
      FilterIsSubsequence(projects, IsIndustrial);
    } else if selected == "academic-personal" {
      FilterIsSubsequence(projects, IsAcademicPersonal);
    } else {
      SubsequenceRefl(projects);
    }
  }

  lemma {:induction false} SubsequenceRefl<T>(s: seq<T>)
    ensures IsSubsequence(s, s)
  {
    if s != [] {
      SubsequenceRefl(s[1..]);
    }
  }

  /** No project is listed under both category filters, and "industrial/personal" is not industrial. */
  lemma CategoriesDisjoint(projects: seq<Project>)
    ensures forall p :: p in FilteredProjects(projects, "industrial") ==> p !in FilteredProjects(projects, "academic-personal")
  {
  }

  /** Upper case and surrounding whitespace do not matter. */
  lemma CategoryNormalized(p: Project)
    requires p.category == " Industrial "
    ensures IsIndustrial(p) && !IsAcademicPersonal(p)
  {
    LowerSample();
    TrimStartSample();
    TrimEndSample();
  }

  lemma LowerSample()
    ensures ToLower(" Industrial ") == " industrial "
  {
    var lower := ToLower(" Industrial ");
    assert lower[1] == LowerChar('I') == 'i';
    assert forall i :: 2 <= i < 12 ==> lower[i] == LowerChar(" Industrial "[i]) == " Industrial "[i];
    assert lower[0] == ' ';
  }

  lemma TrimStartSample()
    ensures TrimStart(" industrial ") == "industrial "
  {
    var rest := "industrial ";
    assert " industrial " == [' '] + rest;
    assert " industrial "[1..] == rest;
    assert !IsWhitespace(rest[0]);
    assert TrimStart(rest) == rest;
  }

  lemma TrimEndSample()
    ensures TrimEnd("industrial ") == "industrial"
  {
    assert "industrial "[..10] == "industrial";
  }

  // ---- The filter menu ----

  datatype FilterOption = FilterOption(value: string, title: string)

  const FilterOptions: seq<FilterOption> := [
    FilterOption("all", "All Projects"),
    FilterOption("industrial", "Industrial Projects"),
    FilterOption("academic-personal", "Academic/Personal Projects")
  ]

  /** `filterOptions.find(o => o.value === selected) ?? filterOptions[0]`. */
  function SelectedFilterOption(selected: string): (r: FilterOption)
    ensures r in FilterOptions
    ensures r.value == selected || (r == FilterOptions[0] && forall o :: o in FilterOptions ==> o.value != selected)
  {
    Find(FilterOptions, (o: FilterOption) => o.value == selected).GetOr(FilterOptions[0])
  }

  /** The option shown is the selected one when it exists, and "All Projects" otherwise. */
  lemma SelectedFilterOptionCases(selected: string)
    ensures selected in ["all", "industrial", "academic-personal"] ==> SelectedFilterOption(selected).value == selected
    ensures selected !in ["all", "industrial", "academic-personal"] ==> SelectedFilterOption(selected) == FilterOption("all", "All Projects")
  {
    if selected !in ["all", "industrial", "academic-personal"] {
      var r := SelectedFilterOption(selected);
      assert r in FilterOptions;
    }
  }

  // ---- Links and details of a card ----

  datatype LinkKind = GitHub | Company | Docs | Article | YouTube {
    function Label(): string {
      match this
      case GitHub => "GitHub"
      case Company => "Company"
      case Docs => "Docs"
      case Article => "Article"
      case YouTube => "YouTube"
    }

    /** The position of the kind in `linkConfig`. */
    function Rank(): int {
      match this
      case GitHub => 0
      case Company => 1
      case Docs => 2
      case Article => 3
      case YouTube => 4
    }
  }

  datatype Link = Link(kind: LinkKind, url: string)

  function UrlOf(p: Project, k: LinkKind): string {
    match k
    case GitHub => p.githubUrl
    case Company => p.companyUrl
    case Docs => p.documentationUrl
    case Article => p.articleUrl
    case YouTube => p.youtubeUrl
  }

  /** `linkConfig` applied to a project, before empty URLs are dropped. */
  function LinkCandidates(p: Project): seq<Link> {
    [Link(GitHub, p.githubUrl), Link(Company, p.companyUrl), Link(Docs, p.documentationUrl),
     Link(Article, p.articleUrl), Link(YouTube, p.youtubeUrl)]
  }

  function LinkRank(l: Link): int {
    l.kind.Rank()
  }

  predicate HasUrl(l: Link) {
    l.url != ""
  }

  /** `projectLinks`: one link per non-empty URL field. */
  function ProjectLinks(p: Project): (r: seq<Link>)
    ensures |r| <= 5
    ensures forall k: LinkKind, u :: Link(k, u) in r <==> u == UrlOf(p, k) && u != ""
  {
    Filter(LinkCandidates(p), HasUrl)
  }

  /** The links come in the fixed order GitHub, Company, Docs, Article, YouTube. */
  lemma ProjectLinksOrdered(p: Project)
    ensures StrictlyAscending(ProjectLinks(p), LinkRank)
  {
    var c := LinkCandidates(p);
    assert forall i :: 0 <= i < |c| ==> LinkRank(c[i]) == i;
    FilterStrictlyAscending(c, HasUrl, LinkRank);
  }

  /** The "View Details" button appears: some `whatIDid` or `achievements` entry, or a non-empty `improvements`. */
  predicate HasDetails(p: Project) {
    |p.whatIDid| > 0 || |p.achievements| > 0 || p.improvements != ""
  }

  /** What I did, then achievements, then the improvements line when there is one. */
  function DetailLines(p: Project): (r: seq<string>)
    ensures |r| == |p.whatIDid| + |p.achievements| + (if p.improvements != "" then 1 else 0)
    ensures r[..|p.whatIDid|] == p.whatIDid
    ensures r[|p.whatIDid|..|p.whatIDid| + |p.achievements|] == p.achievements
    ensures p.improvements != "" ==> r[|r| - 1] == p.improvements
  {
    var r := p.whatIDid + p.achievements + (if p.improvements != "" then [p.improvements] else []);
    assert r[..|p.whatIDid|] == p.whatIDid;
    assert r[|p.whatIDid|..|p.whatIDid| + |p.achievements|] == p.achievements;
    r
  }

  /** The details button is offered exactly when there is a detail line to show. */
  lemma HasDetailsIffLines(p: Project)
    ensures HasDetails(p) <==> DetailLines(p) != []
  {
    if HasDetails(p) {
      assert |DetailLines(p)| > 0;
    }
  }

  /** `toggleProjectDetails(name)`: collapses `name` if it is the expanded one, else expands it alone. */
  function ToggledExpansion(expanded: Option<string>, name: string): (r: Option<string>)
    ensures r == Some(name) <==> expanded != Some(name)
    ensures r.Some? ==> r.value == name
  {
    if expanded == Some(name) then None else Some(name)
  }

  /** Toggling the same project twice restores the previous state only from the collapsed-or-same state. */
  lemma {:induction false} ToggleTwice(expanded: Option<string>, name: string)
    ensures ToggledExpansion(ToggledExpansion(expanded, name), name) == (if expanded == Some(name) then Some(name) else None)
  {
  }

  /** A card's details are shown when its name is the expanded one and it has details. */
  predicate DetailsShown(p: Project, expanded: Option<string>) {
    expanded == Some(p.name) && HasDetails(p)
  }

  /**
   * A click on a card's details button opens its details if they were closed
   * and closes them if they were open; any card with another name has its
   * details closed afterwards, so at most one card shows details.
   */
  lemma DetailsAfterToggle(p: Project, q: Project, expanded: Option<string>)
    requires HasDetails(p)
    ensures DetailsShown(p, ToggledExpansion(expanded, p.name)) <==> !DetailsShown(p, expanded)
    ensures q.name != p.name ==> !DetailsShown(q, ToggledExpansion(expanded, p.name))
  {
  }

  // ---- The body of the section ----

  datatype Body = Skeletons(count: nat) | Cards(projects: seq<Project>) | NoMatch | ComingSoon

  /** Skeletons while loading; else the filtered cards, or one of the two messages. */
  function SectionBody(loading: bool, projects: seq<Project>, selected: string): (b: Body)
    ensures b.Skeletons? <==> loading
    ensures b.Skeletons? ==> b.count >= 1 && b.count >= |projects|
    ensures b == ComingSoon <==> !loading && projects == []
    ensures b == NoMatch <==> !loading && projects != [] && FilteredProjects(projects, selected) == []
    ensures b.Cards? ==> b.projects == FilteredProjects(projects, selected) && b.projects != []
  {
    if loading then Skeletons(if |projects| > 1 then |projects| else 1)
    else if |projects| > 0 then
      var filtered := FilteredProjects(projects, selected);
      if |filtered| > 0 then Cards(filtered) else NoMatch
    else ComingSoon
  }

  /** Under "all" (or any unknown value) a non-empty list never gives the no-match message. */
  lemma AllNeverEmpty(projects: seq<Project>, selected: string)
    requires selected != "industrial" && selected != "academic-personal"
    ensures SectionBody(false, projects, selected) == if projects == [] then ComingSoon else Cards(projects)
  {
  }

  /** The state of the section: selected filter, menu visibility and the expanded card. */
  class ProjectsSection {
    const projects: seq<Project>
    var selectedFilter: string
    var isFilterMenuOpen: bool
    var expandedProject: Option<string>

    constructor (projects: seq<Project>)
      ensures this.projects == projects
      ensures selectedFilter == "all" && !isFilterMenuOpen && expandedProject == None
    {
      this.projects := projects;
      selectedFilter := "all";
      isFilterMenuOpen := false;
      expandedProject := None;
    }

    function Shown(loading: bool): Body
      reads this
    {
      SectionBody(loading, projects, selectedFilter)
    }

    /** The "View Details" / "Hide Details" button of the card named `name`. */
    method ToggleProjectDetails(name: string)
      modifies this
      ensures expandedProject == ToggledExpansion(old(expandedProject), name)
      ensures selectedFilter == old(selectedFilter) && isFilterMenuOpen == old(isFilterMenuOpen)
    {
      if expandedProject == Some(name) {
        expandedProject := None;
      } else {
        expandedProject := Some(name);
      }
    }

    /** The filter button. */
    method ToggleFilterMenu()
      modifies this
      ensures isFilterMenuOpen == !old(isFilterMenuOpen)
      ensures selectedFilter == old(selectedFilter) && expandedProject == old(expandedProject)
    {
      isFilterMenuOpen := !isFilterMenuOpen;
    }

    /** Choosing an option of the menu selects it and closes the menu. */
    method SelectFilter(value: string)
      modifies this
      ensures selectedFilter == value && !isFilterMenuOpen
      ensures expandedProject == old(expandedProject)
    {
      selectedFilter := value;
      isFilterMenuOpen := false;
    }

    /** Escape or a click outside the menu closes it. */
    method CloseFilterMenu()
      modifies this
      ensures !isFilterMenuOpen
      ensures selectedFilter == old(selectedFilter) && expandedProject == old(expandedProject)
    {
      isFilterMenuOpen := false;
    }
  }
}
