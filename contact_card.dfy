/**
 * The contact card: the list of contact links, in a fixed order and only for
 * the configured sources, whether each opens in a new tab, and when the
 * profile's location line is shown.
 */
module ContactCard {
  import opened Wrappers
  import opened Strings
  import opened Seqs
  import GitProfile

  datatype ContactKind = Email | LinkedIn | GitHub | Resume {
    /** The position of the entry in `contactOptions`. */
    function Rank(): int {
      match this
      case Email => 0
      case LinkedIn => 1
      case GitHub => 2
      case Resume => 3
    }
  }

  datatype ContactOption = ContactOption(kind: ContactKind, caption: string, href: string)

  /** The inputs the options are built from; a missing value is "". */
  datatype ContactSources = ContactSources(email: string, linkedin: string, githubUsername: string, resumeFileUrl: string)

  function Source(s: ContactSources, k: ContactKind): string {
    match k
    case Email => s.email
    case LinkedIn => s.linkedin
    case GitHub => s.githubUsername
    case Resume => s.resumeFileUrl
  }

  /** The entry of kind `k` built from its source, as in the array literal. */
  function OptionFor(s: ContactSources, k: ContactKind): (o: ContactOption)
    ensures o.kind == k
  {
    match k
    case Email => ContactOption(Email, s.email, "mailto:" + s.email)
    case LinkedIn => ContactOption(LinkedIn, "LinkedIn", "https://www.linkedin.com/in/" + s.linkedin)
    case GitHub => ContactOption(GitHub, "GitHub", "https://github.com/" + s.githubUsername)
    case Resume => ContactOption(Resume, "Download Resume", s.resumeFileUrl)
  }

  /** The four entries of the array literal, in order, before the falsy ones are dropped. */
  function Candidates(s: ContactSources): seq<ContactOption> {
    [OptionFor(s, Email), OptionFor(s, LinkedIn), OptionFor(s, GitHub), OptionFor(s, Resume)]
  }

  function OptionRank(o: ContactOption): int {
    o.kind.Rank()
  }

  /** `contactOptions`: the entries whose source is set, `.filter(Boolean)` dropping the others. */
  function ContactOptions(s: ContactSources): (r: seq<ContactOption>)
    ensures |r| <= 4
    ensures forall o :: o in r <==> Source(s, o.kind) != "" && o == OptionFor(s, o.kind)
  {
    var c := Candidates(s);
    assert forall o :: o in c <==> o == OptionFor(s, o.kind);
    Filter(c, (o: ContactOption) => Source(s, o.kind) != "")
  }

  /** One option per non-empty source: exactly the configured ones are offered. */
  lemma ContactOptionsPresent(s: ContactSources, k: ContactKind)
    ensures OptionFor(s, k) in ContactOptions(s) <==> Source(s, k) != ""
  {
  }

  /** The options come in the order email, LinkedIn, GitHub, resume. */
  lemma ContactOptionsOrdered(s: ContactSources)
    ensures StrictlyAscending(ContactOptions(s), OptionRank)
  {
    var c := Candidates(s);
    assert forall i :: 0 <= i < |c| ==> OptionRank(c[i]) == i;
    FilterStrictlyAscending(c, (o: ContactOption) => Source(s, o.kind) != "", OptionRank);
  }

  /** The e-mail entry: labelled with the address itself, linking to `mailto:` it. */
  lemma EmailOption(s: ContactSources)
    requires s.email != ""
    ensures ContactOptions(s)[0] == ContactOption(Email, s.email, "mailto:" + s.email)
  {
  }

  /** `target` and `rel` are set unless the link is a `mailto:` one. */
  predicate OpensInNewTab(href: string) {
    !StartsWith(href, "mailto:")
  }

  /** The e-mail link opens in place; LinkedIn and GitHub open in a new tab; the resume does unless its URL is a `mailto:`. */
  lemma NewTabByKind(s: ContactSources)
    ensures !OpensInNewTab(OptionFor(s, Email).href)
    ensures OpensInNewTab(OptionFor(s, LinkedIn).href) && OpensInNewTab(OptionFor(s, GitHub).href)
    ensures OpensInNewTab(OptionFor(s, Resume).href) <==> !StartsWith(s.resumeFileUrl, "mailto:")
  {
    var li := OptionFor(s, LinkedIn).href;
    assert li[6] == '/';
    var gh := OptionFor(s, GitHub).href;
    assert gh[6] == '/';
    assert "mailto:"[6] == ':';
  }

  /** The location line: shown once loaded, when the profile has a non-empty location. */
  function LocationLine(profile: Option<GitProfile.Profile>, loading: bool): (r: Option<string>)
    ensures r.Some? <==> profile.Some? && profile.value.location != "" && !loading
    ensures r.Some? ==> r.value == profile.value.location
  {
    if profile.Some? && profile.value.location != "" && !loading then Some(profile.value.location) else None
  }

  /** What the list shows: three placeholder rows while loading, else the options. */
  datatype Rows = Placeholders(count: nat) | Links(options: seq<ContactOption>)

  function CardRows(s: ContactSources, loading: bool): (r: Rows)
    ensures loading ==> r == Placeholders(3)
    ensures !loading ==> r == Links(ContactOptions(s))
  {
    if loading then Placeholders(3) else Links(ContactOptions(s))
  }
}
