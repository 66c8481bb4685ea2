/**
 * Loading the drafts from the `site_content` rows: every row is dispatched on
 * its `section_key` to one draft, rows with other keys are ignored, and a
 * failed fetch changes nothing.
 */
module Loading {
  import opened Options
  import opened Content

  /** A `section_key` that none of the four editors handles. */
  type UnknownKey = k: string | k !in KnownKeys witness ""

  /**
   * A fetched row, its `content` read the way the editor reads it under its
   * `section_key`: the hero and education rows hold the record itself, the
   * skills and experience rows hold a wrapping object whose `categories` or
   * `jobs` value is a list, or is missing or falsy (`None`), which `|| []`
   * turns into the empty list.
   */
  datatype Row =
    | HeroRow(hero: HeroContent)
    | SkillsRow(categories: Option<seq<SkillCategory>>)
    | ExperienceRow(jobs: Option<seq<Job>>)
    | EducationRow(education: EducationContent)
    | OtherRow(key: UnknownKey)

  /** The row's `section_key`. */
  function RowKey(r: Row): string {
    match r
    case HeroRow(_) => Key(Hero)
    case SkillsRow(_) => Key(Skills)
    case ExperienceRow(_) => Key(Experience)
    case EducationRow(_) => Key(Education)
    case OtherRow(k) => k
  }

  /** The section whose draft the row sets, if any. */
  function Target(r: Row): (t: Option<Section>)
    ensures forall s :: t == Some(s) <==> RowKey(r) == Key(s)
    ensures t == None <==> r.OtherRow?
  {
    match r
    case HeroRow(_) => Some(Hero)
    case SkillsRow(_) => Some(Skills)
    case ExperienceRow(_) => Some(Experience)
    case EducationRow(_) => Some(Education)
    case OtherRow(_) => None
  }

  /** The draft the row gives its section; a missing `categories` or `jobs`
      falls back to the empty list (`... || []`), the hero and education
      records are taken as they are. */
  function Decode(r: Row): (v: SectionValue)
    requires Target(r).Some?
    ensures SectionOf(v) == Target(r).value
    ensures r.SkillsRow? ==> v.categories == (if r.categories.Some? then r.categories.value else [])
    ensures r.ExperienceRow? ==> v.jobs == (if r.jobs.Some? then r.jobs.value else [])
  {
    match r
    case HeroRow(h) => HeroValue(h)
    case SkillsRow(cs) => SkillsValue(if cs.Some? then cs.value else [])
    case ExperienceRow(js) => ExperienceValue(if js.Some? then js.value else [])
    case EducationRow(ed) => EducationValue(ed)
  }

  /** One turn of the `forEach`: the row's section takes the decoded draft,
      every other section keeps its own; a row with an unknown key changes nothing. */
  function ApplyRow(d: Drafts, r: Row): (e: Drafts)
    ensures Target(r).None? ==> e == d
    ensures Target(r).Some? ==> Get(e, Target(r).value) == Decode(r)
    ensures forall s :: Target(r) != Some(s) ==> Get(e, s) == Get(d, s)
  {
    match r
    case HeroRow(h) => d.(hero := h)
    case SkillsRow(cs) => d.(skills := if cs.Some? then cs.value else [])
    case ExperienceRow(js) => d.(experience := if js.Some? then js.value else [])
    case EducationRow(ed) => d.(education := ed)
    case OtherRow(_) => d
  }

  /** The drafts after the rows are dispatched in order. */
  function ApplyRows(d: Drafts, rows: seq<Row>): Drafts {
    if rows == [] then d
    else ApplyRow(ApplyRows(d, rows[..|rows| - 1]), rows[|rows| - 1])
  }

  /** The fetch's `{ data, error }`. */
  datatype FetchResponse = FetchResponse(data: Option<seq<Row>>, error: Option<string>)

  /** `loadContent`: nothing changes on an error or when there is no data. */
  function Load(d: Drafts, response: FetchResponse): (e: Drafts)
    ensures response.error.Some? ==> e == d
    ensures response.data.None? ==> e == d
  {
    if response.error.Some? then d
    else if response.data.None? then d
    else ApplyRows(d, response.data.value)
  }

  // ---------------------------------------------------------------------------
  // what a load does to each section

  /** Rows with unknown keys change nothing. */
  lemma {:induction false} UnknownRowsChangeNothing(d: Drafts, rows: seq<Row>)
    requires forall i :: 0 <= i < |rows| ==> rows[i].OtherRow?
    ensures ApplyRows(d, rows) == d
  {
    if rows != [] {
      UnknownRowsChangeNothing(d, rows[..|rows| - 1]);
    }
  }

  /** A section no row is about keeps the draft it had, so a section missing
      from the table keeps its initial default. */
  lemma {:induction false} SectionWithoutRowKept(d: Drafts, rows: seq<Row>, s: Section)
    requires forall i :: 0 <= i < |rows| ==> Target(rows[i]) != Some(s)
    ensures Get(ApplyRows(d, rows), s) == Get(d, s)
  {
    if rows != [] {
      SectionWithoutRowKept(d, rows[..|rows| - 1], s);
    }
  }

  /** When several rows share a key the last of them decides the draft. */
  lemma {:induction false} LastRowWins(d: Drafts, rows: seq<Row>, i: nat, s: Section)
    requires i < |rows| && Target(rows[i]) == Some(s)
    requires forall j :: i < j < |rows| ==> Target(rows[j]) != Some(s)
    ensures Get(ApplyRows(d, rows), s) == Decode(rows[i])
  {
    var n := |rows| - 1;
    if i < n {
      LastRowWins(d, rows[..n], i, s);
    }
  }

  /** After a successful load every section holds the draft of its last row,
      or its earlier draft when no row is about it. */
  lemma LoadBySection(d: Drafts, rows: seq<Row>, s: Section)
    ensures (forall i :: 0 <= i < |rows| ==> Target(rows[i]) != Some(s)) ==>
              Get(Load(d, FetchResponse(Some(rows), None)), s) == Get(d, s)
    ensures forall i :: 0 <= i < |rows| && Target(rows[i]) == Some(s) &&
                        (forall j :: i < j < |rows| ==> Target(rows[j]) != Some(s)) ==>
              Get(Load(d, FetchResponse(Some(rows), None)), s) == Decode(rows[i])
  {
    if forall i :: 0 <= i < |rows| ==> Target(rows[i]) != Some(s) {
      SectionWithoutRowKept(d, rows, s);
    }
    forall i | 0 <= i < |rows| && Target(rows[i]) == Some(s) &&
               (forall j :: i < j < |rows| ==> Target(rows[j]) != Some(s))
      ensures Get(Load(d, FetchResponse(Some(rows), None)), s) == Decode(rows[i])
    {
      LastRowWins(d, rows, i, s);
    }
  }

  /** With no education row the education draft stays `{ degrees: [], certifications: [] }`. */
  lemma NoEducationRowKeepsDefault(rows: seq<Row>)
    requires forall i :: 0 <= i < |rows| ==> !rows[i].EducationRow?
    ensures Load(InitialDrafts, FetchResponse(Some(rows), None)).education == EducationContent([], [])
  {
    SectionWithoutRowKept(InitialDrafts, rows, Education);
  }

  /** A skills row without `categories` empties the skills draft, and an
      experience row without `jobs` empties the experience draft. */
  lemma MissingWrapperKeyEmpties(d: Drafts)
    ensures ApplyRow(d, SkillsRow(None)).skills == []
    ensures ApplyRow(d, ExperienceRow(None)).experience == []
  {
  }
}
