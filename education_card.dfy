/**
 * The education card's `normalizeEducations`: a copy of the entries sorted by
 * the year their `to` field ends in (latest first), each turned into the
 * record the timeline renders, with the graduate flag and the location
 * fallback.
 *
 * The current year is a parameter. A missing optional string is "".
 */
module EducationCard {
  import opened Strings
  import opened Seqs
  import opened Sorting

  datatype Education = Education(
    degree: string,
    institution: string,
    institutionLink: string,
    from: string,
    to: string,
    location: string,
    iLocation: string,
    summary: string)

  datatype NormalizedEducation = NormalizedEducation(
    degree: string,
    institution: string,
    institutionLink: string,
    from: string,
    to: string,
    location: string,
    summary: string,
    isGraduate: bool)

  /**
   * `valueOf`: 0 for an empty end; next year when it mentions "present" in
   * any case; otherwise the decimal `parseInt` of its last space-separated
   * token, NaN becoming 0.
   */
  function EndYear(to: string, nowYear: int): (r: int)
    ensures to == "" ==> r == 0
    ensures to != "" && Contains(ToLower(to), "present") ==> r == nowYear + 1
    ensures to != "" && !Contains(ToLower(to), "present") && ParseInt(LastToken(to)).None? ==> r == 0
    ensures to != "" && !Contains(ToLower(to), "present") && ParseInt(LastToken(to)).Some? ==> r == ParseInt(LastToken(to)).value
  {
    if to == "" then 0
    else if Contains(ToLower(to), "present") then nowYear + 1
    else ParseInt(LastToken(to)).GetOr(0)
  }

  function EndKey(nowYear: int): Education -> int {
    (e: Education) => EndYear(e.to, nowYear)
  }

  /** An ongoing entry, in any case, sorts as next year. */
  lemma PresentIsNextYear(nowYear: int)
    ensures EndYear("Present", nowYear) == nowYear + 1
    ensures EndYear("present", nowYear) == nowYear + 1
  {
    var lower := ToLower("Present");
    assert lower[0] == LowerChar('P') == 'p';
    assert forall i :: 1 <= i < 7 ==> lower[i] == LowerChar("Present"[i]) == "Present"[i];
    assert lower == "present";
    assert StartsWith("present"[0..], "present");
    assert ToLower("present") == "present";
  }

  /** An end date that does not mention "present" sorts by the year it ends with. */
  lemma EndYearOfDate(month: string, year: int, nowYear: int)
    requires !Contains(ToLower(month + " " + IntToString(year)), "present")
    ensures EndYear(month + " " + IntToString(year), nowYear) == year
  {
    var digits := IntToString(year);
    NoSpaceInIntToString(year);
    LastTokenAfterSpace(month, digits);
    ParseIntOfIntToString(year);
  }

  /** An entry without an end, or whose end has no last token (a trailing space), sorts as 0. */
  lemma EndYearUndated(to: string, nowYear: int)
    requires to == "" || (to[|to| - 1] == ' ' && !Contains(ToLower(to), "present"))
    ensures EndYear(to, nowYear) == 0
  {
    if to != "" {
      assert LastToken(to) == [];
      assert DigitPrefix(SplitSign([]).1, IsDigit) == [];
    }
  }

  /** Mentions "master", "m.s." or "ph.d" once lower-cased. */
  predicate IsGraduateDegree(degree: string) {
    var lower := ToLower(degree);
    Contains(lower, "master") || Contains(lower, "m.s.") || Contains(lower, "ph.d")
  }

  /** The record of one entry: `Ilocation` wins over `location` when non-empty. */
  function Normalize(e: Education): (n: NormalizedEducation)
    ensures n.isGraduate <==> IsGraduateDegree(e.degree)
    ensures n.location == (if e.iLocation != "" then e.iLocation else e.location)
    ensures (n.degree, n.institution, n.institutionLink, n.from, n.to, n.summary)
         == (e.degree, e.institution, e.institutionLink, e.from, e.to, e.summary)
  {
    NormalizedEducation(e.degree, e.institution, e.institutionLink, e.from, e.to,
      if e.iLocation != "" then e.iLocation else e.location, e.summary, IsGraduateDegree(e.degree))
  }

  /** The degree line: `degree || "Program"`. */
  function DisplayDegree(degree: string): (r: string)
    ensures r != ""
    ensures degree != "" ==> r == degree
    ensures degree == "" ==> r == "Program"
  {
    if degree == "" then "Program" else degree
  }

  /** The sorted copy. */
  function SortedEducations(educations: seq<Education>, nowYear: int): (r: seq<Education>)
    ensures |r| == |educations| && multiset(r) == multiset(educations)
  {
    SortDesc(educations, EndKey(nowYear))
  }

  function NormalizeEducations(educations: seq<Education>, nowYear: int): (r: seq<NormalizedEducation>)
    ensures |r| == |educations|
    ensures forall i :: 0 <= i < |r| ==> r[i] == Normalize(SortedEducations(educations, nowYear)[i])
  {
    var sorted := SortedEducations(educations, nowYear);
    seq(|sorted|, i requires 0 <= i < |sorted| => Normalize(sorted[i]))
  }

  function NormalizedEndKey(nowYear: int): NormalizedEducation -> int {
    (n: NormalizedEducation) => EndYear(n.to, nowYear)
  }

  /** The timeline is latest first. */
  lemma NormalizeEducationsSorted(educations: seq<Education>, nowYear: int)
    ensures SortedDesc(NormalizeEducations(educations, nowYear), NormalizedEndKey(nowYear))
  {
    var sorted := SortedEducations(educations, nowYear);
    SortDescSorted(educations, EndKey(nowYear));
    var r := NormalizeEducations(educations, nowYear);
    forall i, j | 0 <= i < j < |r|
      ensures NormalizedEndKey(nowYear)(r[i]) >= NormalizedEndKey(nowYear)(r[j])
    {
      assert r[i].to == sorted[i].to && r[j].to == sorted[j].to;
    }
  }

  /** The records of `s`, in the order of `s`. */
  function MapNormalize(s: seq<Education>): (r: seq<NormalizedEducation>)
    ensures |r| == |s| && forall i :: 0 <= i < |s| ==> r[i] == Normalize(s[i])
  {
    if s == [] then [] else [Normalize(s[0])] + MapNormalize(s[1..])
  }

  lemma {:induction false} MapNormalizeInsert(x: Education, s: seq<Education>, nowYear: int)
    ensures MapNormalize(Insert(x, s, EndKey(nowYear))) == Insert(Normalize(x), MapNormalize(s), NormalizedEndKey(nowYear))
  {
    if s != [] && EndKey(nowYear)(x) < EndKey(nowYear)(s[0]) {
      MapNormalizeInsert(x, s[1..], nowYear);
      assert MapNormalize(s)[1..] == MapNormalize(s[1..]);
    }
  }

  /**
   * Normalizing commutes with the sort, since the key only reads `to`: the
   * timeline is the configured records, reordered latest first.
   */
  lemma {:induction false} NormalizeThenSort(educations: seq<Education>, nowYear: int)
    ensures NormalizeEducations(educations, nowYear) == SortDesc(MapNormalize(educations), NormalizedEndKey(nowYear))
  {
    SortThenNormalize(educations, nowYear);
    assert NormalizeEducations(educations, nowYear) == MapNormalize(SortedEducations(educations, nowYear));
  }

  lemma {:induction false} SortThenNormalize(s: seq<Education>, nowYear: int)
    ensures MapNormalize(SortDesc(s, EndKey(nowYear))) == SortDesc(MapNormalize(s), NormalizedEndKey(nowYear))
  {
    if s != [] {
      SortThenNormalize(s[1..], nowYear);
      MapNormalizeInsert(s[0], SortDesc(s[1..], EndKey(nowYear)), nowYear);
      assert MapNormalize(s)[1..] == MapNormalize(s[1..]);
    }
  }

  /** Every entry is shown exactly as often as it is configured. */
  lemma NormalizeEducationsPermutation(educations: seq<Education>, nowYear: int)
    ensures multiset(NormalizeEducations(educations, nowYear)) == multiset(MapNormalize(educations))
  {
    NormalizeThenSort(educations, nowYear);
  }
}
