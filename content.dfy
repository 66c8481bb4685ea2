/**
 * The content the admin editor works on: the four section shapes, the drafts
 * the page holds for them, and the single-field record updates its inputs make.
 */
module Content {

  /** The hero record: seven free-text fields, any string accepted. */
  datatype HeroContent = HeroContent(
    name: string,
    title: string,
    description: string,
    email: string,
    phone: string,
    linkedin: string,
    github: string)

  datatype SkillCategory = SkillCategory(title: string, skills: seq<string>)

  datatype Job = Job(
    title: string,
    company: string,
    location: string,
    period: string,
    achievements: seq<string>)

  datatype Degree = Degree(
    degree: string,
    institution: string,
    location: string,
    period: string,
    details: string)

  /** The education section: the degrees and the certification lines. */
  datatype EducationContent = EducationContent(degrees: seq<Degree>, certifications: seq<string>)

  /** The four sections; they are also the four tabs. */
  datatype Section = Hero | Skills | Experience | Education

  /** The `section_key` of a section's row. */
  function Key(s: Section): (k: string)
    ensures k in KnownKeys
  {
    match s
    case Hero => "hero"
    case Skills => "skills"
    case Experience => "experience"
    case Education => "education"
  }

  const KnownKeys: set<string> := {"hero", "skills", "experience", "education"}

  /** Different sections have different keys. */
  lemma KeyInjective(s: Section, t: Section)
    requires Key(s) == Key(t)
    ensures s == t
  {
  }

  // ---------------------------------------------------------------------------
  // the drafts

  /** The four drafts the page keeps between load and save. */
  datatype Drafts = Drafts(
    hero: HeroContent,
    skills: seq<SkillCategory>,
    experience: seq<Job>,
    education: EducationContent)

  const EmptyHero := HeroContent("", "", "", "", "", "", "")

  /** The drafts before anything is loaded: an all-empty hero and empty collections. */
  const InitialDrafts := Drafts(EmptyHero, [], [], EducationContent([], []))

  /** One section's draft, whatever its shape. */
  datatype SectionValue =
    | HeroValue(hero: HeroContent)
    | SkillsValue(categories: seq<SkillCategory>)
    | ExperienceValue(jobs: seq<Job>)
    | EducationValue(education: EducationContent)

  /** The section a value is the draft of. */
  function SectionOf(v: SectionValue): Section {
    match v
    case HeroValue(_) => Hero
    case SkillsValue(_) => Skills
    case ExperienceValue(_) => Experience
    case EducationValue(_) => Education
  }

  /** The draft of section `s`. */
  function Get(d: Drafts, s: Section): (v: SectionValue)
    ensures SectionOf(v) == s
  {
    match s
    case Hero => HeroValue(d.hero)
    case Skills => SkillsValue(d.skills)
    case Experience => ExperienceValue(d.experience)
    case Education => EducationValue(d.education)
  }

  /** The drafts with the draft of `v`'s section replaced by `v`. */
  function Put(d: Drafts, v: SectionValue): (e: Drafts)
    ensures Get(e, SectionOf(v)) == v
    ensures forall s :: s != SectionOf(v) ==> Get(e, s) == Get(d, s)
  {
    match v
    case HeroValue(h) => d.(hero := h)
    case SkillsValue(cs) => d.(skills := cs)
    case ExperienceValue(js) => d.(experience := js)
    case EducationValue(ed) => d.(education := ed)
  }

  /** Drafts are equal when every section's draft is. */
  lemma DraftsBySection(d: Drafts, e: Drafts)
    requires forall s :: Get(d, s) == Get(e, s)
    ensures d == e
  {
    assert Get(d, Hero) == Get(e, Hero);
    assert Get(d, Skills) == Get(e, Skills);
    assert Get(d, Experience) == Get(e, Experience);
    assert Get(d, Education) == Get(e, Education);
  }

  // ---------------------------------------------------------------------------
  // single-field updates

  /** The seven inputs of the hero editor. */
  datatype HeroField = Name | Title | Description | Email | Phone | LinkedIn | GitHub

  function HeroGet(h: HeroContent, f: HeroField): string {
    match f
    case Name => h.name
    case Title => h.title
    case Description => h.description
    case Email => h.email
    case Phone => h.phone
    case LinkedIn => h.linkedin
    case GitHub => h.github
  }

  /** `{ ...hero, [f]: value }`: field `f` takes the value, every other field keeps its own. */
  function SetHeroField(h: HeroContent, f: HeroField, value: string): (r: HeroContent)
    ensures HeroGet(r, f) == value
    ensures forall g :: g != f ==> HeroGet(r, g) == HeroGet(h, g)
  {
    match f
    case Name => h.(name := value)
    case Title => h.(title := value)
    case Description => h.(description := value)
    case Email => h.(email := value)
    case Phone => h.(phone := value)
    case LinkedIn => h.(linkedin := value)
    case GitHub => h.(github := value)
  }

  /** The four one-line inputs of a job; the achievements area is separate. */
  datatype JobField = JobTitle | Company | JobLocation | JobPeriod

  function JobGet(j: Job, f: JobField): string {
    match f
    case JobTitle => j.title
    case Company => j.company
    case JobLocation => j.location
    case JobPeriod => j.period
  }

  /** `job[f] = value`: field `f` takes the value; the other fields and the
      achievements are kept. */
  function SetJobField(j: Job, f: JobField, value: string): (r: Job)
    ensures JobGet(r, f) == value
    ensures forall g :: g != f ==> JobGet(r, g) == JobGet(j, g)
    ensures r.achievements == j.achievements
  {
    match f
    case JobTitle => j.(title := value)
    case Company => j.(company := value)
    case JobLocation => j.(location := value)
    case JobPeriod => j.(period := value)
  }

  /** The five inputs of a degree. */
  datatype DegreeField = DegreeName | Institution | DegreeLocation | DegreePeriod | Details

  function DegreeGet(d: Degree, f: DegreeField): string {
    match f
    case DegreeName => d.degree
    case Institution => d.institution
    case DegreeLocation => d.location
    case DegreePeriod => d.period
    case Details => d.details
  }

  /** `degree[f] = value`: field `f` takes the value, the others are kept. */
  function SetDegreeField(d: Degree, f: DegreeField, value: string): (r: Degree)
    ensures DegreeGet(r, f) == value
    ensures forall g :: g != f ==> DegreeGet(r, g) == DegreeGet(d, g)
  {
    match f
    case DegreeName => d.(degree := value)
    case Institution => d.(institution := value)
    case DegreeLocation => d.(location := value)
    case DegreePeriod => d.(period := value)
    case Details => d.(details := value)
  }

  /** A hero record is determined by its seven fields, so the spread update
      leaves nothing but field `f` changed. */
  lemma HeroFieldsDetermine(h: HeroContent, k: HeroContent)
    requires forall f :: HeroGet(h, f) == HeroGet(k, f)
    ensures h == k
  {
    assert HeroGet(h, Name) == HeroGet(k, Name);
    assert HeroGet(h, Title) == HeroGet(k, Title);
    assert HeroGet(h, Description) == HeroGet(k, Description);
    assert HeroGet(h, Email) == HeroGet(k, Email);
    assert HeroGet(h, Phone) == HeroGet(k, Phone);
    assert HeroGet(h, LinkedIn) == HeroGet(k, LinkedIn);
    assert HeroGet(h, GitHub) == HeroGet(k, GitHub);
  }

  /** Typing back the value a hero field already holds changes nothing. */
  lemma SetHeroFieldSameValue(h: HeroContent, f: HeroField)
    ensures SetHeroField(h, f, HeroGet(h, f)) == h
  {
    var r := SetHeroField(h, f, HeroGet(h, f));
    forall g ensures HeroGet(r, g) == HeroGet(h, g) {
    }
    HeroFieldsDetermine(r, h);
  }
}
