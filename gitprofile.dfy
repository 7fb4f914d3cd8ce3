/**
 * The GitHub synchronisation of the top-level `GitProfile` component: the
 * mount effect, `loadData` (profile fetch, then, when GitHub projects are
 * displayed, the search for them), the construction of the search URLs in
 * automatic and manual mode, and the classification of failures into the
 * error page shown instead of the content.
 *
 * The network is not modelled: each request is named by its URL, and what the
 * network answers is a `Response` given as a parameter. The relative reset
 * time that date-fns computes from the `x-ratelimit-reset` header is an
 * opaque `Option<string>` carried by the failure (`None` when the header is
 * missing or unusable, where `formatDistance` throws).
 */
module GitProfile {
  import opened Wrappers
  import opened Strings

  /** `sanitizedConfig.projects.github`: the part of the configuration the synchronisation reads. */
  datatype GithubProjectsConfig = GithubProjectsConfig(
    display: bool,
    mode: string,
    sortBy: string,
    limit: int,
    excludeForks: bool,
    excludeProjects: seq<string>,
    manualProjects: seq<string>)

  /** A non-empty sanitized configuration. The empty one (`{}`) is `None` wherever it can occur. */
  datatype SanitizedConfig = SanitizedConfig(username: string, projects: GithubProjectsConfig)

  /** The fields of the `GET /users/{username}` response that are read; `None` is a null or missing field. */
  datatype UserData = UserData(
    avatarUrl: Option<string>,
    name: Option<string>,
    bio: Option<string>,
    location: Option<string>,
    company: Option<string>,
    publicRepos: int)

  datatype Profile = Profile(avatar: Option<string>, name: string, bio: string, location: string, company: string)

  /** One element of the search response's `items`, passed through unchanged. */
  datatype GithubProject = GithubProject(name: string, stars: int, updatedAt: string, description: string)

  /**
   * A rejected request: an `AxiosError`, with the response status when it is a
   * number and the reset phrase when it can be computed, or any other error.
   */
  datatype Failure =
    | AxiosFailure(status: Option<int>, resetPhrase: Option<string>)
    | OtherFailure

  datatype Response<T> = Ok(data: T) | Failed(failure: Failure)

  /** The error kinds of the error page. */
  datatype CustomError = GenericError | TooManyRequests(reset: string) | InvalidUsername | InvalidConfig

  const GithubApi := "https://api.github.com"
  const SearchBase := GithubApi + "/search/repositories?q="

  function UserUrl(username: string): string {
    GithubApi + "/users/" + username
  }

  predicate IsAutomatic(c: SanitizedConfig) {
    c.projects.mode == "automatic"
  }

  /** `user:<name>+fork:<!excludeForks>` followed by `+-repo:<p>` for each excluded project. */
  function AutomaticQuery(c: SanitizedConfig): (r: string)
    ensures StartsWith(r, "user:" + c.username + "+fork:" + BoolToString(!c.projects.excludeForks))
    ensures c.projects.excludeProjects == [] ==> r == "user:" + c.username + "+fork:" + BoolToString(!c.projects.excludeForks)
  {
    "user:" + c.username + "+fork:" + BoolToString(!c.projects.excludeForks)
    + Prefixed("+-repo:", c.projects.excludeProjects)
  }

  /** The automatic search: the query is the `q` parameter, and the URL ends with the type parameter. */
  function AutomaticUrl(c: SanitizedConfig): (r: string)
    ensures StartsWith(r, SearchBase + AutomaticQuery(c) + "&sort=" + c.projects.sortBy + "&per_page=")
    ensures EndsWith(r, "&type=Repositories")
  {
    var head := SearchBase + AutomaticQuery(c) + "&sort=" + c.projects.sortBy + "&per_page=";
    var r := head + IntToString(c.projects.limit) + "&type=Repositories";
    assert r[..|head|] == head;
    r
  }

  /** `+repo:<p>` for each listed project, then `+fork:true`. */
  function ManualQuery(c: SanitizedConfig): (r: string)
    ensures EndsWith(r, "+fork:true")
    ensures c.projects.manualProjects != [] ==> StartsWith(r, "+repo:" + c.projects.manualProjects[0])
  {
    var ps := c.projects.manualProjects;
    var r := Prefixed("+repo:", ps) + "+fork:true";
    if ps == [] then r
    else
      var head := "+repo:" + ps[0];
      assert r == head + (Prefixed("+repo:", ps[1..]) + "+fork:true");
      assert r[..|head|] == head;
      r
  }

  /** The manual search: the query is the `q` parameter, and the URL ends with the type parameter. */
  function ManualUrl(c: SanitizedConfig): (r: string)
    ensures StartsWith(r, SearchBase + ManualQuery(c))
    ensures EndsWith(r, "&type=Repositories")
  {
    var head := SearchBase + ManualQuery(c);
    var r := head + "&type=Repositories";
    assert r[..|head|] == head;
    r
  }

  /**
   * The search `getGithubProjects` issues, or `None` when it returns `[]`
   * without a request: automatic mode with no public repository, or a manual
   * list that is empty. Any mode other than "automatic" is manual.
   */
  function ProjectsRequest(c: SanitizedConfig, publicRepoCount: int): (r: Option<string>)
    ensures r.None? <==>
      (IsAutomatic(c) && publicRepoCount == 0) || (!IsAutomatic(c) && c.projects.manualProjects == [])
    ensures r.Some? && IsAutomatic(c) ==> r.value == AutomaticUrl(c)
    ensures r.Some? && !IsAutomatic(c) ==> r.value == ManualUrl(c)
  {
    if IsAutomatic(c) then
      if publicRepoCount == 0 then None else Some(AutomaticUrl(c))
    else
      if |c.projects.manualProjects| == 0 then None else Some(ManualUrl(c))
  }

  /**
   * `handleError`. The reset phrase is computed before the status is looked
   * at, so an Axios error without one is generic whatever its status.
   */
  function HandleError(f: Failure): (e: CustomError)
    ensures e != InvalidConfig
    ensures e.TooManyRequests? <==> f.AxiosFailure? && f.resetPhrase.Some? && f.status == Some(403)
    ensures e.TooManyRequests? ==> e.reset == f.resetPhrase.value
    ensures e == InvalidUsername <==> f.AxiosFailure? && f.resetPhrase.Some? && f.status == Some(404)
  {
    match f
    case OtherFailure => GenericError
    case AxiosFailure(status, resetPhrase) =>
      match resetPhrase
      case None => GenericError
      case Some(reset) =>
        match status
        case None => GenericError
        case Some(code) =>
          if code == 403 then TooManyRequests(reset)
          else if code == 404 then InvalidUsername
          else GenericError
  }

  /** JavaScript's `x || d` on a nullable string. */
  function OrDefault(x: Option<string>, d: string): (r: string)
    ensures x.Some? && x.value != "" ==> r == x.value
    ensures !(x.Some? && x.value != "") ==> r == d
  {
    if x.Some? && x.value != "" then x.value else d
  }

  /** The profile `loadData` stores: name defaults to " ", bio, location and company to "". */
  function ProfileOf(d: UserData): (p: Profile)
    ensures p.avatar == d.avatarUrl
    ensures p.name != "" && (p.name == " " || Some(p.name) == d.name)
    ensures d.name.Some? && d.name.value != "" ==> p.name == d.name.value
    ensures p.bio == d.bio.GetOr("") && p.location == d.location.GetOr("") && p.company == d.company.GetOr("")
  {
    Profile(
      d.avatarUrl,
      OrDefault(d.name, " "),
      OrDefault(d.bio, ""),
      OrDefault(d.location, ""),
      OrDefault(d.company, ""))
  }

  /** The four state fields of the component. */
  datatype ViewState = ViewState(
    loading: bool,
    error: Option<CustomError>,
    profile: Option<Profile>,
    githubProjects: seq<GithubProject>)

  const Initial := ViewState(false, None, None, [])

  /**
   * The mount effect: an empty sanitized config sets the invalid-config error
   * and loads nothing; otherwise the error is cleared and `loadData` runs up to
   * its first request, having set `loading`.
   */
  function Mount(config: Option<SanitizedConfig>, s: ViewState): (r: ViewState)
    ensures config.None? ==> r.error == Some(InvalidConfig) && r.loading == s.loading
    ensures config.Some? ==> r.error == None && r.loading
    ensures r.profile == s.profile && r.githubProjects == s.githubProjects
  {
    if config.None? then s.(error := Some(InvalidConfig)) else s.(error := None, loading := true)
  }

  /**
   * `loadData` once the profile request settles: the new state, and the search
   * it now waits for, if any. Every path that ends here clears `loading`.
   */
  function OnProfile(c: SanitizedConfig, s: ViewState, r: Response<UserData>): (o: (ViewState, Option<string>))
    ensures o.1.Some? <==> r.Ok? && c.projects.display && ProjectsRequest(c, r.data.publicRepos).Some?
    ensures o.1.Some? ==> o.1 == ProjectsRequest(c, r.data.publicRepos) && o.0 == s.(profile := o.0.profile)
    ensures o.1.None? ==> !o.0.loading
    ensures r.Failed? ==> o.0 == s.(error := Some(HandleError(r.failure)), loading := false)
    ensures r.Ok? ==> o.0.profile == Some(ProfileOf(r.data)) && o.0.error == s.error
    ensures r.Ok? && c.projects.display && ProjectsRequest(c, r.data.publicRepos).None? ==> o.0.githubProjects == []
    ensures r.Ok? && !c.projects.display ==> o.0.githubProjects == s.githubProjects
  {
    match r
    case Failed(f) => (s.(error := Some(HandleError(f)), loading := false), None)
    case Ok(d) =>
      var s1 := s.(profile := Some(ProfileOf(d)));
      if !c.projects.display then (s1.(loading := false), None)
      else
        match ProjectsRequest(c, d.publicRepos)
        case None => (s1.(githubProjects := [], loading := false), None)
        case Some(url) => (s1, Some(url))
  }

  /** `loadData` once the search request settles. */
  function OnProjects(s: ViewState, r: Response<seq<GithubProject>>): (o: ViewState)
    ensures !o.loading && o.profile == s.profile
    ensures r.Ok? ==> o.githubProjects == r.data && o.error == s.error
    ensures r.Failed? ==> o.error == Some(HandleError(r.failure)) && o.githubProjects == s.githubProjects
  {
    match r
    case Ok(items) => s.(githubProjects := items, loading := false)
    case Failed(f) => s.(error := Some(HandleError(f)), loading := false)
  }

  /**
   * One whole `loadData` run from state `s`, given what the network answers to
   * the profile request and (if it is issued) to the search: the final state
   * and the URLs requested, in order.
   */
  function LoadData(c: SanitizedConfig, s: ViewState, user: Response<UserData>, search: Response<seq<GithubProject>>)
    : (r: (ViewState, seq<string>))
    ensures !r.0.loading
    ensures 1 <= |r.1| <= 2 && r.1[0] == UserUrl(c.username)
  {
    var (s1, next) := OnProfile(c, s.(loading := true), user);
    match next
    case None => (s1, [UserUrl(c.username)])
    case Some(url) => (OnProjects(s1, search), [UserUrl(c.username), url])
  }

  /** A page session: the mount effect on a fresh component, then `loadData` if it starts. */
  function Session(config: Option<SanitizedConfig>, user: Response<UserData>, search: Response<seq<GithubProject>>)
    : (r: (ViewState, seq<string>))
    ensures !r.0.loading && |r.1| <= 2
    ensures r.1 == [] <==> config.None?
  {
    if config.None? then (Mount(config, Initial), [])
    else LoadData(config.value, Mount(config, Initial), user, search)
  }

  /**
   * How a page session ends as the component is written. Every render
   * evaluates the dependency lists of `getGithubProjects` and `loadData`, which
   * read `sanitizedConfig.github.username`; for the empty config `github` is
   * undefined, so the first render throws before the mount effect can run.
   */
  datatype Outcome = RenderCrash | Rendered(state: ViewState, requests: seq<string>)

  function SessionAsWritten(config: Option<SanitizedConfig>, user: Response<UserData>, search: Response<seq<GithubProject>>)
    : (o: Outcome)
    ensures o.RenderCrash? <==> config.None?
    ensures o.Rendered? ==> (o.state, o.requests) == Session(config, user, search)
  {
    if config.None? then RenderCrash
    else
      var (s, requests) := Session(config, user, search);
      Rendered(s, requests)
  }

  /**
   * As written, the invalid-config page is never shown: the empty config
   * crashes the render, and every other session ends without that error;
   * the intended session ends on it.
   */
  lemma {:induction false} InvalidConfigUnreachable(config: Option<SanitizedConfig>, user: Response<UserData>, search: Response<seq<GithubProject>>)
    ensures SessionAsWritten(None, user, search) == RenderCrash
    ensures Session(None, user, search).0.error == Some(InvalidConfig)
    ensures SessionAsWritten(config, user, search).Rendered? ==> SessionAsWritten(config, user, search).state.error != Some(InvalidConfig)
  {
    SessionInvalidConfig(config, user, search);
  }

  /** What the component renders: a set error replaces the whole content. */
  datatype Page =
    | ErrorPage(error: CustomError)
    | ContentPage(loading: bool, githubProjects: Option<seq<GithubProject>>)

  function Render(c: SanitizedConfig, s: ViewState): (p: Page)
    ensures p.ErrorPage? <==> s.error.Some?
    ensures p.ErrorPage? ==> p.error == s.error.value
    ensures p.ContentPage? ==> p.loading == s.loading && (p.githubProjects.Some? <==> c.projects.display)
    ensures p.ContentPage? && c.projects.display ==> p.githubProjects == Some(s.githubProjects)
  {
    if s.error.Some? then ErrorPage(s.error.value)
    else ContentPage(s.loading, if c.projects.display then Some(s.githubProjects) else None)
  }

  // ---- Properties of the query construction ----

  /** Each excluded project contributes `+-repo:<p>`, in the order of the configured list. */
  lemma AutomaticQueryExcludes(c: SanitizedConfig, i: nat)
    requires i < |c.projects.excludeProjects|
    ensures AutomaticQuery(c) ==
      "user:" + c.username + "+fork:" + BoolToString(!c.projects.excludeForks)
      + Prefixed("+-repo:", c.projects.excludeProjects[..i])
      + "+-repo:" + c.projects.excludeProjects[i]
      + Prefixed("+-repo:", c.projects.excludeProjects[i + 1..])
  {
    PrefixedAt("+-repo:", c.projects.excludeProjects, i);
  }

  /** Each manual project contributes `+repo:<p>` in order, and forks are always included. */
  lemma ManualQueryRepos(c: SanitizedConfig, i: nat)
    requires i < |c.projects.manualProjects|
    ensures ManualQuery(c) ==
      Prefixed("+repo:", c.projects.manualProjects[..i])
      + "+repo:" + c.projects.manualProjects[i]
      + Prefixed("+repo:", c.projects.manualProjects[i + 1..])
      + "+fork:true"
  {
    PrefixedAt("+repo:", c.projects.manualProjects, i);
  }

  /** The automatic URL ends with the sort key, the page size and the type, and the page size reads back as the limit. */
  lemma AutomaticUrlTail(c: SanitizedConfig)
    ensures AutomaticUrl(c) ==
      SearchBase + AutomaticQuery(c) + "&sort=" + c.projects.sortBy + "&per_page=" + IntToString(c.projects.limit)
      + "&type=Repositories"
    ensures ParseInt(IntToString(c.projects.limit)) == Some(c.projects.limit)
  {
    ParseIntOfIntToString(c.projects.limit);
  }

  /** In manual mode the public repository count is never consulted. */
  lemma ManualIgnoresRepoCount(c: SanitizedConfig, n: int, m: int)
    requires !IsAutomatic(c)
    ensures ProjectsRequest(c, n) == ProjectsRequest(c, m)
  {
  }

  // ---- Properties of the load sequence ----

  /** With project display off, only the profile is requested and the project list is left as it was. */
  lemma {:induction false} DisplayOffKeepsProjects(c: SanitizedConfig, s: ViewState, d: UserData, search: Response<seq<GithubProject>>)
    requires !c.projects.display
    ensures LoadData(c, s, Ok(d), search) ==
      (s.(loading := false, profile := Some(ProfileOf(d))), [UserUrl(c.username)])
  {
  }

  /** When the search short-circuits, only the profile is requested and the project list becomes empty. */
  lemma {:induction false} ShortCircuitEmptiesProjects(c: SanitizedConfig, s: ViewState, d: UserData, search: Response<seq<GithubProject>>)
    requires c.projects.display
    requires (IsAutomatic(c) && d.publicRepos == 0) || (!IsAutomatic(c) && c.projects.manualProjects == [])
    ensures LoadData(c, s, Ok(d), search) ==
      (s.(loading := false, profile := Some(ProfileOf(d)), githubProjects := []), [UserUrl(c.username)])
  {
  }

  /** A successful search replaces the project list with its items and leaves the error as it was. */
  lemma {:induction false} SearchSuccess(c: SanitizedConfig, s: ViewState, d: UserData, items: seq<GithubProject>)
    requires c.projects.display && ProjectsRequest(c, d.publicRepos).Some?
    ensures LoadData(c, s, Ok(d), Ok(items)) ==
      (s.(loading := false, profile := Some(ProfileOf(d)), githubProjects := items),
       [UserUrl(c.username), ProjectsRequest(c, d.publicRepos).value])
  {
  }

  /**
   * A failing search leaves the profile that was already stored, but the
   * error it sets replaces the whole page.
   */
  lemma {:induction false} SearchFailureShowsError(c: SanitizedConfig, s: ViewState, d: UserData, f: Failure)
    requires c.projects.display && ProjectsRequest(c, d.publicRepos).Some?
    ensures var (s', _) := LoadData(c, s, Ok(d), Failed(f));
      && s'.profile == Some(ProfileOf(d))
      && s'.githubProjects == s.githubProjects
      && Render(c, s') == ErrorPage(HandleError(f))
  {
  }

  /** A failing profile request changes nothing but the error and the loading flag, and issues no search. */
  lemma {:induction false} ProfileFailure(c: SanitizedConfig, s: ViewState, f: Failure, search: Response<seq<GithubProject>>)
    ensures LoadData(c, s, Failed(f), search) ==
      (s.(loading := false, error := Some(HandleError(f))), [UserUrl(c.username)])
  {
  }

  /** Of a whole session: the invalid-config error exactly when the sanitized config is empty, and no request then. */
  lemma {:induction false} SessionInvalidConfig(config: Option<SanitizedConfig>, user: Response<UserData>, search: Response<seq<GithubProject>>)
    ensures var (s, requests) := Session(config, user, search);
      && (s.error == Some(InvalidConfig) <==> config.None?)
      && (requests == [] <==> config.None?)
      && (config.Some? ==> requests[0] == UserUrl(config.value.username) && !s.loading)
  {
    var (s, requests) := Session(config, user, search);
    if config.Some? {
      var c := config.value;
      match user
      case Failed(f) =>
        assert s.error == Some(HandleError(f));
      case Ok(d) =>
        var (s1, next) := OnProfile(c, Mount(config, Initial).(loading := true), user);
        assert s1.error == None;
        if next.Some? {
          match search
          case Ok(items) =>
          case Failed(f) => assert s.error == Some(HandleError(f));
        }
    }
  }

  // ---- End-to-end scenarios ----

  /** Display off, the profile fetch succeeds: not loading, no error, the fetched name, no projects. */
  lemma ScenarioDisplayOff(search: Response<seq<GithubProject>>)
    ensures var c := SanitizedConfig("alice", GithubProjectsConfig(false, "automatic", "stars", 8, true, [], []));
      var d := UserData(None, Some("Alice"), None, None, None, 5);
      var (s, requests) := Session(Some(c), Ok(d), search);
      && !s.loading && s.error == None && s.profile.Some? && s.profile.value.name == "Alice"
      && s.githubProjects == [] && requests == ["https://api.github.com/users/alice"]
  {
    assert UserUrl("alice") == "https://api.github.com/users/alice";
    assert OrDefault(Some("Alice"), " ") == "Alice";
  }

  /** Automatic mode excluding forks and one project, sorted by stars, eight per page. */
  lemma ScenarioAutomatic()
    ensures var c := SanitizedConfig("alice", GithubProjectsConfig(true, "automatic", "stars", 8, true, ["alice/old"], []));
      ProjectsRequest(c, 3) == Some(SearchBase + "user:alice+fork:false+-repo:alice/old"
        + "&sort=" + "stars" + "&per_page=" + "8" + "&type=Repositories")
  {
    var c := SanitizedConfig("alice", GithubProjectsConfig(true, "automatic", "stars", 8, true, ["alice/old"], []));
    ScenarioAutomaticQuery(c);
    assert NatToString(8) == "8";
    assert IntToString(8) == "8";
    AutomaticUrlTail(c);
  }

  lemma ScenarioAutomaticQuery(c: SanitizedConfig)
    requires c == SanitizedConfig("alice", GithubProjectsConfig(true, "automatic", "stars", 8, true, ["alice/old"], []))
    ensures AutomaticQuery(c) == "user:alice+fork:false+-repo:alice/old"
  {
    assert Prefixed("+-repo:", ["alice/old"][1..]) == "";
    assert Prefixed("+-repo:", ["alice/old"]) == "+-repo:alice/old";
    assert BoolToString(false) == "false";
  }

  /** Manual mode with two projects: one repo term each, forks included, whatever the repository count. */
  lemma ScenarioManual(publicRepos: int)
    ensures var c := SanitizedConfig("alice", GithubProjectsConfig(true, "manual", "stars", 8, true, [], ["alice/foo", "alice/bar"]));
      ProjectsRequest(c, publicRepos) == Some(SearchBase + "+repo:alice/foo+repo:alice/bar+fork:true" + "&type=Repositories")
  {
    assert Prefixed("+repo:", ["alice/bar"][1..]) == "";
    assert Prefixed("+repo:", ["alice/bar"]) == "+repo:alice/bar";
    assert ["alice/foo", "alice/bar"][1..] == ["alice/bar"];
    assert Prefixed("+repo:", ["alice/foo", "alice/bar"]) == "+repo:alice/foo+repo:alice/bar";
    var c := SanitizedConfig("alice", GithubProjectsConfig(true, "manual", "stars", 8, true, [], ["alice/foo", "alice/bar"]));
    assert ManualQuery(c) == "+repo:alice/foo+repo:alice/bar+fork:true";
  }

  /** A 403 whose reset header is unusable is generic, not a rate-limit error (and so is a 404). */
  lemma ScenarioForbiddenWithoutReset()
    ensures HandleError(AxiosFailure(Some(403), None)) == GenericError
    ensures HandleError(AxiosFailure(Some(404), None)) == GenericError
  {
  }

  /** Where the asynchronous `loadData` is suspended. */
  datatype Pending = Idle | AwaitingProfile | AwaitingSearch | Settled

  /**
   * The component's state fields, updated by the mount effect and by `loadData`
   * at each of its two suspension points.
   */
  class GitProfileView {
    const config: Option<SanitizedConfig>
    var loading: bool
    var error: Option<CustomError>
    var profile: Option<Profile>
    var githubProjects: seq<GithubProject>
    var pending: Pending

    function State(): ViewState
      reads this
    {
      ViewState(loading, error, profile, githubProjects)
    }

    ghost predicate Valid()
      reads this
    {
      (pending == AwaitingProfile || pending == AwaitingSearch) ==> config.Some? && loading
    }

    constructor (config: Option<SanitizedConfig>)
      ensures this.config == config && State() == Initial && pending == Idle && Valid()
    {
      this.config := config;
      loading, error, profile, githubProjects := false, None, None, [];
      pending := Idle;
    }

    /** The mount effect; returns the profile request `loadData` issues, if it runs. */
    method MountEffect() returns (request: Option<string>)
      requires Valid()
      modifies this
      ensures Valid()
      ensures State() == Mount(config, old(State()))
      ensures config.None? ==> request == None && pending == old(pending)
      ensures config.Some? ==> request == Some(UserUrl(config.value.username)) && pending == AwaitingProfile
    {
      if config.None? {
        error := Some(InvalidConfig);
        request := None;
      } else {
        error := None;
        loading := true;
        request := Some(UserUrl(config.value.username));
        pending := AwaitingProfile;
      }
    }

    /** `loadData` resumed with the profile response; returns the search it then issues, if any. */
    method ProfileSettled(r: Response<UserData>) returns (request: Option<string>)
      requires Valid() && pending == AwaitingProfile
      modifies this
      ensures Valid()
      ensures (State(), request) == OnProfile(config.value, old(State()), r)
      ensures pending == if request.Some? then AwaitingSearch else Settled
    {
      var c := config.value;
      request := None;
      match r {
        case Failed(f) =>
          error := Some(HandleError(f));
          loading := false;
          pending := Settled;
        case Ok(d) =>
          profile := Some(ProfileOf(d));
          if !c.projects.display {
            loading := false;
            pending := Settled;
            return;
          }
          request := ProjectsRequest(c, d.publicRepos);
          if request.None? {
            githubProjects := [];
            loading := false;
            pending := Settled;
          } else {
            pending := AwaitingSearch;
          }
      }
    }

    /** `loadData` resumed with the search response. */
    method SearchSettled(r: Response<seq<GithubProject>>)
      requires Valid() && pending == AwaitingSearch
      modifies this
      ensures Valid()
      ensures State() == OnProjects(old(State()), r) && pending == Settled
    {
      match r {
        case Ok(items) => githubProjects := items;
        case Failed(f) => error := Some(HandleError(f));
      }
      loading := false;
      pending := Settled;
    }
  }
}
