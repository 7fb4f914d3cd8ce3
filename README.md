# A verified model of the portfolio's component logic

The portfolio is a React site that renders a static configuration as a set of
cards. This project models the decision and data-shaping logic inside those
cards in Dafny and proves what each piece promises. The markup itself is not
modelled.

- **GitHub synchronisation** (`GitProfile`):
  - The search URL for automatic and manual mode, and the cases that need no request.
  - The profile record with its defaults.
  - The `loadData` sequence over the component state (`loading`, `error`, `profile`, `githubProjects`).
  - The mount effect's empty-configuration check.
  - The classification of request failures into the error page's kinds.
  - The asynchronous `loadData` is a class whose methods are the points where it resumes. Each method is tied to a pure step function, and the lemmas are stated about those functions.
- **Projects section** (`Projects`):
  - Category filtering on a lower-cased, trimmed category.
  - The fallback of the selected filter option.
  - The ordered link list of a card.
  - The detail lines.
  - The expand/collapse toggle and the filter menu state.
  - What the section body shows.
- **Experience card** (`ExperienceCard`):
  - Completion of entries with defaults.
  - The descending sort on the year at the end of `to`.
  - The three-way grouping into current, previous and side projects, written as the loop `categorizeExperiences` runs.
  - The offset keys of the expansion map.
- **Education card** (`EducationCard`): the end-year key, the descending sort, the graduate flag, the location fallback and the "Program" degree fallback.
- **Carousels** (`TestimonialCard`, `LifeOutsideWorkCard`, `VolunteerCard`, sharing `Carousel`):
  - Wrap-around next and previous, selection, and what the card shows.
  - The icon lookup with its default.
  - The volunteer card's modular `safeIndex`, written with JavaScript's truncating `%`, and its keyboard handler.
- **Contact card** (`ContactCard`): the ordered list of configured contact links, the `mailto:` new-tab rule and the location line.
- **Certification card** (`CertificationCard`): the per-index expansion map and when an item's link, lines and body are shown.

Helper modules:

- `Wrappers` holds `Option`.
- `Strings` holds ASCII `toLowerCase` and `trim`, `includes`, the last token of `split(" ")`, `parseInt` with and without a radix, and number rendering.
- `Seqs` holds `filter`, subsequences and `find`.
- `Sorting` holds `Array.prototype.sort` with a descending key comparator, as a stable insertion sort.
- `ExpandMap` holds the `{...prev, [k]: !prev[k]}` toggle.

The current year is a parameter, `nowYear`. A missing optional string is `""`, since every use in the source is a truthiness test. The GitHub user record is the exception: its fields are `Option<string>`, and `x || d` is written out.

## Model

| member | source | states |
|---|---|---|
| GitProfile.AutomaticQuery | src/components/gitprofile.tsx:65-70 | the query starts with `user:<name>+fork:` and the negation of `excludeForks`, and is exactly that with no excluded projects |
| GitProfile.AutomaticUrl | src/components/gitprofile.tsx:71 | the URL is the search base and the query, then `&sort=<sortBy>&per_page=`, and it ends with `&type=Repositories` |
| GitProfile.ManualQuery | src/components/gitprofile.tsx:83-85 | the query ends with `+fork:true` and, with any manual project, starts with `+repo:` and the first one |
| GitProfile.ManualUrl | src/components/gitprofile.tsx:87 | the URL is the search base and the manual query, and it ends with `&type=Repositories` |
| GitProfile.ProjectsRequest | src/components/gitprofile.tsx:58-95 | no request exactly when automatic mode sees zero public repositories or manual mode has no projects; otherwise the automatic or the manual search URL according to the mode, any mode other than "automatic" being manual |
| GitProfile.AutomaticQueryExcludes | src/components/gitprofile.tsx:65-70 | each excluded project contributes `+-repo:<p>` at its position in the configured order |
| GitProfile.AutomaticUrlTail | src/components/gitprofile.tsx:71 | the automatic URL is the search base, the query, then `&sort=`, `&per_page=` with the limit and `&type=Repositories`; the rendered limit reads back as the limit |
| GitProfile.ManualQueryRepos | src/components/gitprofile.tsx:83-87 | each manual project contributes `+repo:<p>` in order, followed by `+fork:true` |
| GitProfile.ManualIgnoresRepoCount | src/components/gitprofile.tsx:79-87 | in manual mode the request does not depend on the public repository count |
| GitProfile.HandleError | src/components/gitprofile.tsx:156-188 | never the invalid-config error; rate-limit error exactly for an Axios failure with a computable reset phrase and status 403, carrying that phrase; invalid-username exactly for such a failure with status 404; generic otherwise, including an unusable reset header |
| GitProfile.ScenarioForbiddenWithoutReset | src/components/gitprofile.tsx:160-165 | a 403 or a 404 whose reset header cannot be formatted is classified as generic |
| GitProfile.OrDefault | src/components/gitprofile.tsx:119-122 | `x \|\| d` is the value of `x` exactly when `x` is a non-empty string, and `d` in every other case |
| GitProfile.ProfileOf | src/components/gitprofile.tsx:117-123 | avatar copied; name never empty, the fetched name when non-empty and " " otherwise; bio, location and company the fetched value or "" |
| GitProfile.Mount | src/components/gitprofile.tsx:141-150 | an empty config sets the invalid-config error and leaves the loading flag; otherwise the error is cleared and loading starts; profile and projects are untouched |
| GitProfile.OnProfile | src/components/gitprofile.tsx:108-129 | a search is issued exactly for a fetched profile with project display on and a request to make, and in that case only the profile is set so far; a failure sets the classified error, stops loading and issues nothing; a fetched profile is set with the error kept; a short-circuit empties the projects; display off keeps them |
| GitProfile.OnProjects | src/components/gitprofile.tsx:129-134 | loading stops and the profile is kept; a successful search sets the items with the error kept; a failed one sets the classified error and keeps the projects |
| GitProfile.LoadData | src/components/gitprofile.tsx:108-134 | `loading` is false afterwards on every path; one or two requests, the first being the user URL |
| GitProfile.DisplayOffKeepsProjects | src/components/gitprofile.tsx:125-127 | with project display off only the profile is requested and set, and the project list is left as it was |
| GitProfile.ShortCircuitEmptiesProjects | src/components/gitprofile.tsx:60-63 | when the search short-circuits only the profile is requested and the project list becomes empty |
| GitProfile.SearchSuccess | src/components/gitprofile.tsx:129 | a successful search replaces the project list with its items and sets the profile |
| GitProfile.SearchFailureShowsError | src/components/gitprofile.tsx:129-134 | a failing search keeps the profile already set, sets the classified error and the error page replaces the content |
| GitProfile.ProfileFailure | src/components/gitprofile.tsx:112-114 | a failing profile request changes only the error and the loading flag and issues no search |
| GitProfile.Session | src/components/gitprofile.tsx:108-150 | a session always ends not loading, with at most two requests, and issues none exactly when the config is empty |
| GitProfile.SessionAsWritten | src/components/gitprofile.tsx:96-105 | the component as written crashes during render exactly when the sanitized config is empty; otherwise it runs the session |
| GitProfile.InvalidConfigUnreachable | src/components/gitprofile.tsx:135-139 | the empty config crashes the render as written, although the intended session ends with the invalid-config error; a rendered session never shows that error |
| GitProfile.Render | src/components/gitprofile.tsx:197-203 | the error page is shown exactly when there is an error, with that error; otherwise the content shows the loading flag and the projects exactly when display is on |
| GitProfile.SessionInvalidConfig | src/components/gitprofile.tsx:141-150 | a session ends with the invalid-config error and no request exactly when the sanitized config is empty |
| GitProfile.ScenarioDisplayOff | src/components/gitprofile.tsx:108-127 | a concrete configuration with display off ends loaded, without error, with the fetched name and no projects |
| GitProfile.ScenarioAutomatic | src/components/gitprofile.tsx:65-71 | a concrete automatic configuration produces the expected search URL |
| GitProfile.ScenarioManual | src/components/gitprofile.tsx:83-87 | a concrete manual configuration produces the expected search URL for any repository count |
| GitProfile.GitProfileView.constructor | src/components/gitprofile.tsx:53-56 | the initial state: not loading, no error, no profile, no projects |
| GitProfile.GitProfileView.MountEffect | src/components/gitprofile.tsx:141-150 | the state becomes `Mount` of the old one; an empty config issues no request, otherwise the profile request is issued |
| GitProfile.GitProfileView.ProfileSettled | src/components/gitprofile.tsx:110-129 | state and issued search are those of `OnProfile`; the view then awaits the search or is settled |
| GitProfile.GitProfileView.SearchSettled | src/components/gitprofile.tsx:129-134 | the state becomes `OnProjects` of the old one and the view is settled |
| Projects.NormalizeCategory | src/components/projects/index.tsx:117-118 | the lower-cased category with only its leading and trailing white space removed: no upper-case letter and no surrounding white space remain |
| Projects.FilteredProjects | src/components/projects/index.tsx:112-139 | an empty list gives []; "all" or an unrecognised filter gives the list unchanged; "industrial" keeps exactly the industrial projects; "academic-personal" keeps exactly the four academic/personal categories |
| Projects.FilteredIsSubsequence | src/components/projects/index.tsx:121-136 | every filter result is an order-preserving subsequence of the input |
| Projects.CategoryNormalized | src/components/projects/index.tsx:117-124 | a category written " Industrial " counts as industrial and not as academic/personal |
| Projects.SelectedFilterOption | src/components/projects/index.tsx:79-80 | the displayed option is one of the options, the one matching the selection, or the first when none matches |
| Projects.SelectedFilterOptionCases | src/components/projects/index.tsx:52-80 | each of the three values shows its own option; any other value shows "All Projects" |
| Projects.ProjectLinks | src/components/projects/index.tsx:166-183 | at most five links; a link of a kind is present exactly when that URL field is non-empty, and it carries that URL |
| Projects.ProjectLinksOrdered | src/components/projects/index.tsx:24-50 | the links come in the order GitHub, Company, Docs, Article, YouTube |
| Projects.DetailLines | src/components/projects/index.tsx:267-271 | the lines are `whatIDid`, then `achievements`, then `improvements` only when non-empty |
| Projects.HasDetailsIffLines | src/components/projects/index.tsx:206 | the details button appears exactly when there is at least one detail line |
| Projects.ToggledExpansion | src/components/projects/index.tsx:141-143 | toggling expands `name` unless it was the expanded one, in which case nothing is expanded |
| Projects.DetailsAfterToggle | src/components/projects/index.tsx:141-143 | toggling a project with details flips whether its details show, and no other project's details show afterwards |
| Projects.SectionBody | src/components/projects/index.tsx:392-406 | skeletons exactly while loading; "coming soon" exactly for no projects; "no match" exactly when the filter leaves nothing; otherwise the non-empty filtered cards |
| Projects.AllNeverEmpty | src/components/projects/index.tsx:138 | with the "all" filter the body is the coming-soon message or every project |
| Projects.ProjectsSection.constructor | src/components/projects/index.tsx:74-77 | filter "all", menu closed, nothing expanded |
| Projects.ProjectsSection.ToggleProjectDetails | src/components/projects/index.tsx:141-143 | the expanded project becomes `ToggledExpansion` of the old one; nothing else changes |
| Projects.ProjectsSection.ToggleFilterMenu | src/components/projects/index.tsx:317 | the menu flag flips; nothing else changes |
| Projects.ProjectsSection.SelectFilter | src/components/projects/index.tsx:355-358 | the filter is set and the menu closes |
| Projects.ProjectsSection.CloseFilterMenu | src/components/projects/index.tsx:93-99 | the menu closes; nothing else changes |
| Seqs.Filter | src/components/projects/index.tsx:121-135 | the result holds exactly the input elements satisfying the predicate |
| ExperienceCard.Enhance | src/components/experience-card/index.tsx:201-207 | absent `description` and `technologies` become []; present ones and every other field are copied |
| ExperienceCard.EnhanceAll | src/components/experience-card/index.tsx:201 | one enhanced entry per configured one, in order |
| ExperienceCard.YearKey | src/components/experience-card/index.tsx:158-167 | "Present" is next year; an empty last token counts as 0; otherwise the `parseInt` value of the last token, 0 when it does not parse |
| ExperienceCard.YearKeyOfDate | src/components/experience-card/index.tsx:158-167 | a "Month Year" end sorts by its year, and "Present" sorts above every year up to the current one |
| ExperienceCard.SortedExperiences | src/components/experience-card/index.tsx:158 | the sorted copy is a permutation of the input |
| ExperienceCard.CategorizeExperiences | src/components/experience-card/index.tsx:150-191 | the loop's three groups are the sorted entries of each kind, in sorted order |
| ExperienceCard.Categorized | src/components/experience-card/index.tsx:150-191 | every grouped entry is a configured one: current entries end "Present", side projects are side roles, previous entries are neither |
| ExperienceCard.BucketsPartition | src/components/experience-card/index.tsx:170-188 | the three kind filters together take every entry exactly once |
| ExperienceCard.CategoriesPartition | src/components/experience-card/index.tsx:170-188 | the groups together are the input entry for entry, and their sizes sum to its length |
| ExperienceCard.CategoriesMembership | src/components/experience-card/index.tsx:172-187 | current holds exactly the entries whose `to` is "Present"; side projects the other entries whose position or type marks them; previous the rest |
| ExperienceCard.CategoriesSorted | src/components/experience-card/index.tsx:158-170 | each group is in descending year order |
| ExperienceCard.SortedExperiencesStable | src/components/experience-card/index.tsx:158-168 | entries with the same year keep their configured order |
| ExperienceCard.ExpandKey | src/components/experience-card/index.tsx:320-363 | below 100, the key's hundreds are the group's offset and its remainder the item's index |
| ExperienceCard.ExpandKeysDistinct | src/components/experience-card/index.tsx:324-363 | below 100 items per group, two items share an expansion key only if they are the same item |
| ExperienceCard.ExpandKeyCollision | src/components/experience-card/index.tsx:324-344 | the 101st current item and the first previous item share a key |
| ExperienceCard.ToggleOneItem | src/components/experience-card/index.tsx:214-219 | toggling an item's key flips that item and, within the key bound, no other |
| ExperienceCard.ExperienceCardState.constructor | src/components/experience-card/index.tsx:210-212 | the expansion map starts empty |
| ExperienceCard.ExperienceCardState.ToggleExpand | src/components/experience-card/index.tsx:214-219 | the map becomes `Toggled` of the old one at the key |
| ExpandMap.Toggled | src/components/experience-card/index.tsx:215-218 | the key flips, every other key reads as before, and the key is now present |
| ExpandMap.EmptyCollapsed | src/components/certification-card/index.tsx:99-101 | an absent key reads as collapsed |
| ExpandMap.ToggleTwice | src/components/certification-card/index.tsx:102-103 | toggling the same key twice restores every entry |
| Sorting.SortDesc | src/components/education-card/index.tsx:39-40 | the sort is a permutation of its input |
| Sorting.SortDescSorted | src/components/education-card/index.tsx:40 | the sort's result is in descending key order |
| Sorting.SortDescStable | src/components/experience-card/index.tsx:158-168 | entries with equal keys keep their relative order |
| Strings.ParseIntOfIntToString | src/components/education-card/index.tsx:35 | the decimal `parseInt` of a rendered integer is that integer |
| Strings.ParseIntAnyRadixOfIntToString | src/components/experience-card/index.tsx:162 | `parseInt` without a radix reads a rendered integer back too |
| Strings.LastTokenAfterSpace | src/components/education-card/index.tsx:34-35 | the last token of `split(" ")` after a space is the space-free tail |
| EducationCard.EndYear | src/components/education-card/index.tsx:28-37 | an empty end is 0; an end mentioning "present" in any case is next year; otherwise the decimal `parseInt` of the last token, 0 when it does not parse |
| EducationCard.PresentIsNextYear | src/components/education-card/index.tsx:31-33 | "Present" and "present" sort as next year |
| EducationCard.EndYearOfDate | src/components/education-card/index.tsx:34-36 | an end not mentioning "present" sorts by the year it ends with |
| EducationCard.EndYearUndated | src/components/education-card/index.tsx:30-36 | an empty end, or one whose last token is empty, sorts as 0 |
| EducationCard.Normalize | src/components/education-card/index.tsx:41-58 | the graduate flag is set exactly when the lower-cased degree mentions "master", "m.s." or "ph.d"; the location is `Ilocation` when set, else `location`; the other fields are copied |
| EducationCard.DisplayDegree | src/components/education-card/index.tsx:98 | the degree line is never empty: the degree itself when set, and "Program" for an empty degree |
| EducationCard.SortedEducations | src/components/education-card/index.tsx:39-40 | the sorted copy is a permutation of the input |
| EducationCard.NormalizeEducations | src/components/education-card/index.tsx:39-59 | one record per entry, each the normalized entry at that position of the sorted copy |
| EducationCard.NormalizeEducationsSorted | src/components/education-card/index.tsx:40 | the timeline is in descending end-year order |
| EducationCard.MapNormalize | src/components/education-card/index.tsx:41 | the records of a list, position by position |
| EducationCard.MapNormalizeInsert | src/components/education-card/index.tsx:39-41 | normalizing after inserting an entry by end year is inserting its record into the normalized list |
| EducationCard.SortThenNormalize | src/components/education-card/index.tsx:39-41 | normalizing the sorted list is sorting the normalized list by the same key |
| EducationCard.NormalizeThenSort | src/components/education-card/index.tsx:39-59 | the timeline is the normalized entries sorted by end year, so normalizing and sorting commute |
| EducationCard.NormalizeEducationsPermutation | src/components/education-card/index.tsx:39-59 | every configured entry appears in the timeline exactly as often as it is configured |
| Carousel.NextWrap | src/components/testimonial-card/index.tsx:86-90 | on a valid index the next index is in range and is `(i + 1) mod n` |
| Carousel.PrevWrap | src/components/testimonial-card/index.tsx:92-96 | on a valid index the previous index is in range and is `(i - 1) mod n` |
| Carousel.NextPrevInverse | src/components/testimonial-card/index.tsx:86-96 | next and previous undo each other on a valid index |
| Carousel.NextTimesModular | src/components/lifeoutsidework-card/index.tsx:41-45 | `k` presses of next advance by `k` modulo the count |
| TestimonialCard.CardBody | src/components/testimonial-card/index.tsx:131-140 | skeleton exactly while loading; the empty message exactly for no testimonials; otherwise the active testimonial, with controls exactly when there are several |
| TestimonialCard.TestimonialCarousel.constructor | src/components/testimonial-card/index.tsx:84 | the active index starts at 0 |
| TestimonialCard.TestimonialCarousel.Next | src/components/testimonial-card/index.tsx:86-90 | the index becomes `NextWrap` of the old one and stays valid |
| TestimonialCard.TestimonialCarousel.Prev | src/components/testimonial-card/index.tsx:92-96 | the index becomes `PrevWrap` of the old one and stays valid |
| TestimonialCard.TestimonialCarousel.Select | src/components/testimonial-card/index.tsx:204 | a dot click sets the index to exactly that dot |
| LifeOutsideWorkCard.IconTable | src/components/lifeoutsidework-card/index.tsx:14-27 | a found icon is the one listed under that name |
| LifeOutsideWorkCard.IconTableComplete | src/components/lifeoutsidework-card/index.tsx:15-26 | each of the twelve icons is found under its own name |
| LifeOutsideWorkCard.GetIconComponentAsWritten | src/components/lifeoutsidework-card/index.tsx:13-30 | the lookup as written reads an inherited member exactly for an unlisted name that `Object.prototype` provides |
| LifeOutsideWorkCard.AsWrittenSkipsDefault | src/components/lifeoutsidework-card/index.tsx:29 | "toString" is not listed, yet the lookup as written does not fall back to FaChess |
| LifeOutsideWorkCard.GetIconComponent | src/components/lifeoutsidework-card/index.tsx:13-30 | a listed name gives its own icon; every other name gives FaChess |
| LifeOutsideWorkCard.GetIconComponentCorrect | src/components/lifeoutsidework-card/index.tsx:13-30 | every icon maps back to itself; off the prototype names the corrected lookup agrees with the written one |
| LifeOutsideWorkCard.CardBody | src/components/lifeoutsidework-card/index.tsx:81-90 | skeleton exactly while loading; the empty message exactly for no areas; otherwise the active area, with controls exactly when there are several |
| LifeOutsideWorkCard.LifeAreaCarousel.constructor | src/components/lifeoutsidework-card/index.tsx:39 | the active index starts at 0 |
| LifeOutsideWorkCard.LifeAreaCarousel.Next | src/components/lifeoutsidework-card/index.tsx:41-45 | the index becomes `NextWrap` of the old one and stays valid |
| LifeOutsideWorkCard.LifeAreaCarousel.Prev | src/components/lifeoutsidework-card/index.tsx:47-51 | the index becomes `PrevWrap` of the old one and stays valid |
| LifeOutsideWorkCard.LifeAreaCarousel.Select | src/components/lifeoutsidework-card/index.tsx:153 | a click sets the index, and only that item is marked active |
| VolunteerCard.JsRem | src/components/volunteer-card/index.tsx:37 | JavaScript's `%`: the mathematical remainder for a non-negative dividend, a non-positive one above `-n` otherwise, and the dividend less it is always a multiple of `n` |
| VolunteerCard.SafeIndex | src/components/volunteer-card/index.tsx:37 | 0 for an empty list; in range and congruent to `i` for `i >= -count`; the identity on a valid index |
| VolunteerCard.SafeIndexBelowRange | src/components/volunteer-card/index.tsx:37 | with three works, -4 normalizes to -1, out of range |
| VolunteerCard.NextPrevInverse | src/components/volunteer-card/index.tsx:38-39 | from a valid index next and previous stay in range and undo each other |
| VolunteerCard.KeyStep | src/components/volunteer-card/index.tsx:63-66 | ArrowRight is next, ArrowLeft is previous, any other key keeps the index |
| VolunteerCard.Work | src/components/volunteer-card/index.tsx:80 | no work for an empty list; the work at a valid index; any work shown is one of the list |
| VolunteerCard.ViewDocsHref | src/components/volunteer-card/index.tsx:81 | the document URL, else the certificate URL, else nothing; never an empty link |
| VolunteerCard.PointLines | src/components/volunteer-card/index.tsx:174-179 | the points, or the single placeholder line when there are none |
| VolunteerCard.CardBody | src/components/volunteer-card/index.tsx:137-139 | skeleton exactly while loading; the empty message for no works; the work at a valid index, with controls exactly when there are several |
| VolunteerCard.VolunteerCarousel.constructor | src/components/volunteer-card/index.tsx:32 | the active index starts at 0 |
| VolunteerCard.VolunteerCarousel.Next | src/components/volunteer-card/index.tsx:38 | the index becomes the normalized successor and stays valid |
| VolunteerCard.VolunteerCarousel.Prev | src/components/volunteer-card/index.tsx:39 | the index becomes the normalized predecessor and stays valid |
| VolunteerCard.VolunteerCarousel.OnKey | src/components/volunteer-card/index.tsx:63-66 | the index becomes `KeyStep` of the old one for the pressed key |
| VolunteerCard.VolunteerCarousel.Select | src/components/volunteer-card/index.tsx:127-128 | a chip click sets the index to exactly that chip |
| ContactCard.OptionFor | src/components/contact-card/index.tsx:29-48 | the entry of a kind carries that kind, with the label and href of the array literal |
| ContactCard.ContactOptions | src/components/contact-card/index.tsx:28-49 | at most four options; an option is present exactly when its source is non-empty, and it is the entry built from that source |
| ContactCard.ContactOptionsPresent | src/components/contact-card/index.tsx:28-49 | the entry of each kind is offered exactly when its source is set |
| ContactCard.ContactOptionsOrdered | src/components/contact-card/index.tsx:28-49 | the options come in the order email, LinkedIn, GitHub, resume |
| ContactCard.EmailOption | src/components/contact-card/index.tsx:29-33 | with an e-mail set, the first option is labelled with the address and links to `mailto:` it |
| ContactCard.NewTabByKind | src/components/contact-card/index.tsx:77-78 | the e-mail link opens in place, LinkedIn and GitHub in a new tab, the resume unless its URL is a `mailto:` |
| ContactCard.LocationLine | src/components/contact-card/index.tsx:58-61 | the location line, with the location, exactly when the profile has a non-empty location and the card is not loading |
| ContactCard.CardRows | src/components/contact-card/index.tsx:66-73 | three placeholder rows while loading, otherwise the options |
| CertificationCard.IfSet | src/components/certification-card/index.tsx:55-67 | a line is rendered, with the value, exactly for a non-empty value |
| CertificationCard.ViewOf | src/components/certification-card/index.tsx:39-89 | the name links exactly for a non-empty link; organization and year only when set; the body exactly when expanded and non-empty; the chevron follows the flag |
| CertificationCard.Items | src/components/certification-card/index.tsx:145-151 | one view per certification, item `i` reading key `i` of the map |
| CertificationCard.InitiallyCollapsed | src/components/certification-card/index.tsx:99-101 | with the empty map no body is shown |
| CertificationCard.ToggleChangesOneItem | src/components/certification-card/index.tsx:102-103 | toggling item `i` flips its chevron and leaves every other item's view unchanged |
| CertificationCard.CertificationCardState.constructor | src/components/certification-card/index.tsx:99-101 | the expansion map starts empty |
| CertificationCard.CertificationCardState.ToggleExpand | src/components/certification-card/index.tsx:102-103 | the map becomes `Toggled` of the old one at `i` |

## Left out

- Network requests are not performed. The user and search responses are inputs (`Response<T>`), and the search items are passed through as opaque values.
- The date-fns `formatDistance` call is not modelled. The reset phrase is an opaque `Option<string>` carried by the failure, `None` standing for a header that cannot be formatted. `new Date()` is the parameter `nowYear`.
- `getSanitizedConfig`, `setupHotjar` and the analytics calls are library or configuration code without logic of their own here. A sanitized config is `Option<SanitizedConfig>`, `None` being the empty one.
- `calculateExperienceYears` is not modelled: it depends on `Date` parsing and fractional rounding.
- React scheduling is not modelled: effects, the batching of state updates, and the absence of cancellation for an in-flight `loadData`. The awaits of `loadData` are the separate methods of `GitProfileView`.
- Props do not change after mount. The item lists of the carousels are constants of their classes.
- The document and window listeners of the projects section are not modelled. `CloseFilterMenu` models their effect (a click outside or Escape).
- The volunteer card's autoplay `setInterval` is not modelled. A tick is a call of `Next`. The keyboard listener is installed once at mount (src/components/volunteer-card/index.tsx:60-69, dependencies `[]`), so it keeps the `next` and `prev` of the first render, and with them that render's `count`. This is harmless only because props do not change after mount, and `next` and `prev` use functional updates.
- The markup is out of scope: skeleton contents, icons, styling, the navbar, the starfield, the publication, external-project and about-me cards.
- A life area whose icon is already a component rather than a name is not modelled; only the string lookup is.
- `toLowerCase`, `trim` and `includes` are ASCII-only. `parseInt` is the optional sign, then `0x` for hexadecimal (without a radix), then the leading digit prefix.
- `ExperienceCard.YearKey`: an end token that does not parse is taken as 0. In the source it is NaN in the comparator, and the resulting order is engine-specific.
- Sorting a copy (`[...experiences]`, `[...educations]`) needs no separate statement: Dafny sequences are values, so the caller's list can never be reordered.
- `ExperienceCard.ExpandKeysDistinct`: the key scheme is proved collision-free only below 100 items per group. `ExpandKeyCollision` shows the clash beyond that.
- `VolunteerCard.SafeIndex`: range is guaranteed only for `i >= -count`. The card only ever passes `activeIndex ± 1` from a valid index, and `SafeIndexBelowRange` shows what happens below.
- A failed project fetch leaves the profile already set in state; the error page hides it.
- The `console.error` call of `handleError` (src/components/gitprofile.tsx:157) is output only and is not modelled.
- GitProfile.SessionInvalidConfig: proved about the intended behaviour. As written, the dependency lists of `getGithubProjects` and `loadData` (src/components/gitprofile.tsx:96-105, 135-139) read `sanitizedConfig.github.username` and `sanitizedConfig.projects.github.mode` on every render, so an empty config throws before the effect runs; `SessionAsWritten` models that (see Findings).
- GitProfile.GitProfileView.MountEffect: like `SessionInvalidConfig`, it describes the mount effect once the render has succeeded, which for an empty config it does not as written.
- A missing or invalid rate-limit reset header gives the generic error even for a 403 or a 404, because the reset phrase is computed before the status is examined. The model follows the code (`ScenarioForbiddenWithoutReset`).

## Findings

| source | as written | input that shows it | evidently intended | confidence | as-written member | corrected member |
|---|---|---|---|---|---|---|
| src/components/gitprofile.tsx:96-105 | the `useCallback` dependency lists read `sanitizedConfig.github.username` and `sanitizedConfig.projects.github.mode` during render | an empty sanitized config `{}`: `sanitizedConfig.github` is undefined, so reading `.username` throws and the invalid-config check of the mount effect is never reached | an empty config shows the invalid-config error page | not executed | GitProfile.SessionAsWritten (lemma GitProfile.InvalidConfigUnreachable) | GitProfile.Session (lemmas GitProfile.SessionInvalidConfig and GitProfile.GitProfileView.MountEffect) |
| src/components/lifeoutsidework-card/index.tsx:13-30 | `icons[iconName] \|\| <FaChess/>` on a plain object literal | icon name "toString" (or "constructor", "valueOf", ...) reads the function inherited from `Object.prototype`, which is truthy, so the FaChess default is skipped | every name other than the twelve listed gives FaChess | not executed | LifeOutsideWorkCard.GetIconComponentAsWritten (lemma LifeOutsideWorkCard.AsWrittenSkipsDefault) | LifeOutsideWorkCard.GetIconComponent (lemma LifeOutsideWorkCard.GetIconComponentCorrect) |
