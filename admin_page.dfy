/**
 * The admin page's state: the four drafts, the active tab and the saving
 * flag, with the input handlers, the content load and the save.
 */
module AdminPage {
  import opened Options
  import opened TextCodec
  import opened Content
  import opened Loading
  import opened Persistence
  import opened Gate

  /** A save in flight: the key, the wrapped draft as it was at the click, and
      the editing user's id (`user?.id`). */
  datatype SaveRequest = SaveRequest(key: string, content: Row, editor: Option<string>)

  class Admin {
    var isSaving: bool
    var activeTab: Section
    var hero: HeroContent
    var skills: seq<SkillCategory>
    var experience: seq<Job>
    var education: EducationContent

    /** The four drafts as one value. */
    function Snapshot(): Drafts
      reads this
    {
      Drafts(hero, skills, experience, education)
    }

    /** What the page renders for the given authentication state. */
    function View(a: Auth): Screen
      reads this
    {
      Render(a, activeTab, isSaving)
    }

    /** The initial state: empty drafts, the hero tab, no save in flight. */
    constructor ()
      ensures Snapshot() == InitialDrafts
      ensures activeTab == Hero && !isSaving
    {
      isSaving := false;
      activeTab := Hero;
      hero := EmptyHero;
      skills := [];
      experience := [];
      education := EducationContent([], []);
    }

    /** A tab click changes the active tab and nothing else. */
    method SelectTab(tab: Section)
      modifies this`activeTab
      ensures activeTab == tab
      ensures Snapshot() == old(Snapshot()) && isSaving == old(isSaving)
    {
      activeTab := tab;
    }

    // -------------------------------------------------------------------------
    // input handlers

    /** A hero input: that field takes the typed value, every other field keeps its own. */
    method EditHero(f: HeroField, value: string)
      modifies this`hero
      ensures hero == SetHeroField(old(hero), f, value)
      ensures HeroGet(hero, f) == value
      ensures forall g :: g != f ==> HeroGet(hero, g) == HeroGet(old(hero), g)
    {
      hero := SetHeroField(hero, f, value);
    }

    /** A category title input: copy the list, then set that category's title. */
    method EditCategoryTitle(i: nat, value: string)
      requires i < |skills|
      modifies this`skills
      ensures |skills| == |old(skills)|
      ensures skills[i].title == value && skills[i].skills == old(skills[i].skills)
      ensures forall j :: 0 <= j < |skills| && j != i ==> skills[j] == old(skills[j])
    {
      var copy := skills;
      copy := copy[i := copy[i].(title := value)];
      skills := copy;
    }

    /** A category's skills input: copy the list, then set that category's skills
        to the parsed comma-separated text. */
    method EditCategorySkills(i: nat, text: string)
      requires i < |skills|
      modifies this`skills
      ensures |skills| == |old(skills)|
      ensures skills[i].skills == ParseSkills(text) && skills[i].title == old(skills[i].title)
      ensures forall j :: 0 <= j < |skills| && j != i ==> skills[j] == old(skills[j])
    {
      var copy := skills;
      copy := copy[i := copy[i].(skills := ParseSkills(text))];
      skills := copy;
    }

    /** A job's title, company, location or period input. */
    method EditJobField(i: nat, f: JobField, value: string)
      requires i < |experience|
      modifies this`experience
      ensures |experience| == |old(experience)|
      ensures experience[i] == SetJobField(old(experience[i]), f, value)
      ensures JobGet(experience[i], f) == value
      ensures forall g :: g != f ==> JobGet(experience[i], g) == JobGet(old(experience[i]), g)
      ensures experience[i].achievements == old(experience[i].achievements)
      ensures forall j :: 0 <= j < |experience| && j != i ==> experience[j] == old(experience[j])
    {
      var copy := experience;
      copy := copy[i := SetJobField(copy[i], f, value)];
      experience := copy;
    }

    /** A job's achievements area: the lines of the text, empty ones dropped. */
    method EditJobAchievements(i: nat, text: string)
      requires i < |experience|
      modifies this`experience
      ensures |experience| == |old(experience)|
      ensures experience[i].achievements == ParseLines(text)
      ensures forall g :: JobGet(experience[i], g) == JobGet(old(experience[i]), g)
      ensures forall j :: 0 <= j < |experience| && j != i ==> experience[j] == old(experience[j])
    {
      var copy := experience;
      copy := copy[i := copy[i].(achievements := ParseLines(text))];
      experience := copy;
    }

    /** A degree's input: copy the education record, then set that field of that
        degree; the certifications are kept. */
    method EditDegreeField(i: nat, f: DegreeField, value: string)
      requires i < |education.degrees|
      modifies this`education
      ensures |education.degrees| == |old(education.degrees)|
      ensures education.degrees[i] == SetDegreeField(old(education.degrees[i]), f, value)
      ensures DegreeGet(education.degrees[i], f) == value
      ensures forall g :: g != f ==> DegreeGet(education.degrees[i], g) == DegreeGet(old(education.degrees[i]), g)
      ensures forall j :: 0 <= j < |education.degrees| && j != i ==> education.degrees[j] == old(education.degrees[j])
      ensures education.certifications == old(education.certifications)
    {
      var copy := education;
      var degrees := copy.degrees;
      degrees := degrees[i := SetDegreeField(degrees[i], f, value)];
      copy := copy.(degrees := degrees);
      education := copy;
    }

    /** The certifications area: `{ ...education, certifications: lines }`. */
    method EditCertifications(text: string)
      modifies this`education
      ensures education.certifications == ParseLines(text)
      ensures education.degrees == old(education.degrees)
    {
      education := education.(certifications := ParseLines(text));
    }

    // -------------------------------------------------------------------------
    // load

    /** `loadContent`: on an error return at once; otherwise dispatch every row
        in order to its draft. */
    method LoadContent(response: FetchResponse)
      modifies this`hero, this`skills, this`experience, this`education
      ensures Snapshot() == Load(old(Snapshot()), response)
    {
      if response.error.Some? {
        return;
      }
      if response.data.None? {
        return;
      }
      var rows := response.data.value;
      var i := 0;
      while i < |rows|
        invariant 0 <= i <= |rows|
        invariant Snapshot() == ApplyRows(old(Snapshot()), rows[..i])
      {
        var row := rows[i];
        match row {
          case HeroRow(h) =>
            hero := h;
          case SkillsRow(cs) =>
            skills := if cs.Some? then cs.value else [];
          case ExperienceRow(js) =>
            experience := if js.Some? then js.value else [];
          case EducationRow(ed) =>
            education := ed;
          case OtherRow(_) =>
        }
        assert rows[..i + 1][..i] == rows[..i];
        i := i + 1;
      }
      assert rows[..i] == rows;
    }

    // -------------------------------------------------------------------------
    // save

    /** A save click: raise the saving flag, which disables every save button,
        and send section `s`'s wrapped draft. The drafts are not touched. */
    method StartSave(s: Section, editor: Option<string>) returns (request: SaveRequest)
      modifies this`isSaving
      ensures isSaving
      ensures request == SaveRequest(Key(s), Wrap(s, Snapshot()), editor)
      ensures forall a :: View(a).Editors? ==> View(a).saveDisabled
      ensures Snapshot() == old(Snapshot()) && activeTab == old(activeTab)
    {
      isSaving := true;
      request := SaveRequest(Key(s), Wrap(s, Snapshot()), editor);
    }

    /** The write's completion: the table as the backend left it, the flag
        lowered, and the notification. The drafts are kept, so a failed save
        can be retried. */
    method FinishSave(request: SaveRequest, store: Store, outcome: WriteOutcome) returns (newStore: Store, toast: Toast)
      modifies this`isSaving
      ensures !isSaving
      ensures newStore == AfterWrite(store, request.key, request.content, request.editor, outcome)
      ensures toast == SaveToast(request.key, outcome)
      ensures Snapshot() == old(Snapshot()) && activeTab == old(activeTab)
    {
      newStore := AfterWrite(store, request.key, request.content, request.editor, outcome);
      isSaving := false;
      toast := SaveToast(request.key, outcome);
    }

    /** `saveContent` from click to completion: only the row of section `s` is
        written, with the wrapped draft, and only if the write succeeds. */
    method SaveContent(s: Section, editor: Option<string>, store: Store, outcome: WriteOutcome)
      returns (newStore: Store, toast: Toast)
      modifies this`isSaving
      ensures !isSaving
      ensures Snapshot() == old(Snapshot()) && activeTab == old(activeTab)
      ensures newStore.Keys == store.Keys
      ensures forall k :: k in store && k != Key(s) ==> newStore[k] == store[k]
      ensures Key(s) in store && outcome.WriteFailed? ==> newStore[Key(s)] == store[Key(s)]
      ensures Key(s) in store && outcome.Written? ==> newStore[Key(s)].content == Wrap(s, Snapshot())
      ensures Key(s) in store && outcome.Written? ==>
                newStore[Key(s)].updatedBy == if editor.Some? then editor else store[Key(s)].updatedBy
      ensures toast == SaveToast(Key(s), outcome)
    {
      var request := StartSave(s, editor);
      newStore, toast := FinishSave(request, store, outcome);
    }
  }

  /** Switching to another tab and back leaves every draft as it was. */
  method SwitchTabAndBack(page: Admin, other: Section)
    modifies page
    ensures page.Snapshot() == old(page.Snapshot())
    ensures page.activeTab == old(page.activeTab)
  {
    var before := page.activeTab;
    page.SelectTab(other);
    page.SelectTab(before);
  }
}
