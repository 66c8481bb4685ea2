/**
 * Saving a section: its draft is wrapped into the row's `content` and written
 * over the `site_content` row with that section's key, together with the id of
 * the editing user, and the outcome is reported in a notification.
 */
module Persistence {
  import opened Options
  import opened Content
  import opened Loading

  /** A `site_content` row: its content and the `updated_by` user id. */
  datatype Entry = Entry(content: Row, updatedBy: Option<string>)

  /** The table, keyed by `section_key`. */
  type Store = map<string, Entry>

  /** The payload a save button sends: the hero record as it is,
      `{ categories: skills }`, `{ jobs: experience }`, the education record as it is. */
  function Wrap(s: Section, d: Drafts): (r: Row)
    ensures RowKey(r) == Key(s)
    ensures Target(r) == Some(s)
    ensures Decode(r) == Get(d, s)
  {
    match s
    case Hero => HeroRow(d.hero)
    case Skills => SkillsRow(Some(d.skills))
    case Experience => ExperienceRow(Some(d.experience))
    case Education => EducationRow(d.education)
  }

  /** What the backend reports for the write. */
  datatype WriteOutcome = Written | WriteFailed(message: string)

  /** `update({ content, updated_by }).eq("section_key", key)`: the row with that
      key takes the new content; it takes the editor's id when there is a user,
      and keeps its old `updated_by` when there is none, since an undefined
      `user?.id` is dropped from the request body. Every other row is
      untouched, and no row is added when none has the key. */
  function Update(store: Store, key: string, content: Row, editor: Option<string>): (r: Store)
    ensures r.Keys == store.Keys
    ensures key in store ==> r[key].content == content
    ensures key in store && editor.Some? ==> r[key].updatedBy == editor
    ensures key in store && editor.None? ==> r[key].updatedBy == store[key].updatedBy
    ensures forall k :: k in store && k != key ==> r[k] == store[k]
  {
    if key in store then
      store[key := Entry(content, if editor.Some? then editor else store[key].updatedBy)]
    else store
  }

  /** The table after the write: updated when the backend reports success,
      unchanged when it reports an error. */
  function AfterWrite(store: Store, key: string, content: Row, editor: Option<string>, outcome: WriteOutcome): (r: Store)
    ensures outcome.WriteFailed? ==> r == store
    ensures outcome.Written? ==> r == Update(store, key, content, editor)
  {
    if outcome.Written? then Update(store, key, content, editor) else store
  }

  /** The notification shown after a save. */
  datatype Toast = Toast(title: string, description: string, destructive: bool)

  /** A destructive "Error saving" carrying the backend's message, or
      "Saved!" naming the section. */
  function SaveToast(key: string, outcome: WriteOutcome): (t: Toast)
    ensures t.destructive <==> outcome.WriteFailed?
    ensures outcome.WriteFailed? ==> t.title == "Error saving" && t.description == outcome.message
    ensures outcome.Written? ==> t.title == "Saved!" && t.description == key + " section updated successfully."
  {
    match outcome
    case WriteFailed(message) => Toast("Error saving", message, true)
    case Written => Toast("Saved!", key + " section updated successfully.", false)
  }

  // ---------------------------------------------------------------------------
  // save, then load

  /** Loading the saved payload gives back the saved draft and leaves the other
      sections alone. */
  lemma SavedRowLoadsBack(s: Section, d: Drafts, e: Drafts)
    ensures Get(ApplyRow(e, Wrap(s, d)), s) == Get(d, s)
    ensures forall t :: t != s ==> Get(ApplyRow(e, Wrap(s, d)), t) == Get(e, t)
  {
  }

  /** Saving the four sections and loading their rows into a new page gives
      back all four drafts. */
  lemma SaveAllThenLoadReproduces(d: Drafts)
    ensures Load(InitialDrafts, FetchResponse(Some([Wrap(Hero, d), Wrap(Skills, d), Wrap(Experience, d), Wrap(Education, d)]), None)) == d
  {
    var rows := [Wrap(Hero, d), Wrap(Skills, d), Wrap(Experience, d), Wrap(Education, d)];
    var e := Load(InitialDrafts, FetchResponse(Some(rows), None));
    forall s
      ensures Get(e, s) == Get(d, s)
    {
      var i := match s case Hero => 0 case Skills => 1 case Experience => 2 case Education => 3;
      assert Target(rows[i]) == Some(s);
      LastRowWins(InitialDrafts, rows, i, s);
    }
    DraftsBySection(e, d);
  }

  /** `rows` is a listing of the table: one row per stored key, each the stored content. */
  ghost predicate Lists(store: Store, rows: seq<Row>) {
    (forall i :: 0 <= i < |rows| ==> RowKey(rows[i]) in store && store[RowKey(rows[i])].content == rows[i])
    && (forall k :: k in store ==> exists i :: 0 <= i < |rows| && RowKey(rows[i]) == k)
    && (forall i, j :: 0 <= i < j < |rows| ==> RowKey(rows[i]) != RowKey(rows[j]))
  }

  /** A section whose row holds a saved payload loads back as the saved draft,
      whatever order the table is listed in. */
  lemma StoredSectionLoadsBack(store: Store, rows: seq<Row>, s: Section, d: Drafts, e: Drafts)
    requires Lists(store, rows)
    requires Key(s) in store && store[Key(s)].content == Wrap(s, d)
    ensures Get(Load(e, FetchResponse(Some(rows), None)), s) == Get(d, s)
  {
    var i :| 0 <= i < |rows| && RowKey(rows[i]) == Key(s);
    assert rows[i] == Wrap(s, d);
    forall j | i < j < |rows|
      ensures Target(rows[j]) != Some(s)
    {
      assert RowKey(rows[i]) != RowKey(rows[j]);
    }
    LastRowWins(e, rows, i, s);
  }

  /** The listing of the table after a write: the row with the written key
      carries the new content when the write succeeded. */
  function Relisted(rows: seq<Row>, key: string, content: Row, outcome: WriteOutcome): (r: seq<Row>)
    ensures |r| == |rows|
    ensures outcome.WriteFailed? ==> r == rows
    ensures forall i :: 0 <= i < |rows| && RowKey(rows[i]) != key ==> r[i] == rows[i]
    ensures outcome.Written? ==> forall i :: 0 <= i < |rows| && RowKey(rows[i]) == key ==> r[i] == content
  {
    if outcome.WriteFailed? then rows
    else seq(|rows|, i requires 0 <= i < |rows| => if RowKey(rows[i]) == key then content else rows[i])
  }

  /** A write keeps the table listable: a listing of the old table, with the
      written row replaced, lists the table the write leaves. */
  lemma ListingAfterWrite(store: Store, rows: seq<Row>, key: string, content: Row, editor: Option<string>, outcome: WriteOutcome)
    requires Lists(store, rows)
    requires RowKey(content) == key
    ensures Lists(AfterWrite(store, key, content, editor, outcome), Relisted(rows, key, content, outcome))
  {
    if outcome.Written? {
      ListingAfterUpdate(store, rows, key, content, editor);
    }
  }

  /** The successful case: the update replaces exactly the rows listed under the key. */
  lemma ListingAfterUpdate(store: Store, rows: seq<Row>, key: string, content: Row, editor: Option<string>)
    requires Lists(store, rows)
    requires RowKey(content) == key
    ensures Lists(Update(store, key, content, editor), Relisted(rows, key, content, Written))
  {
    var after := Update(store, key, content, editor);
    var listed := Relisted(rows, key, content, Written);
    forall i | 0 <= i < |listed|
      ensures RowKey(listed[i]) == RowKey(rows[i])
      ensures RowKey(listed[i]) in after && after[RowKey(listed[i])].content == listed[i]
    {
    }
    forall k | k in after
      ensures exists i :: 0 <= i < |listed| && RowKey(listed[i]) == k
    {
      var i :| 0 <= i < |rows| && RowKey(rows[i]) == k;
      assert RowKey(listed[i]) == k;
    }
  }

  /** A successful save of section `s` whose row exists, followed by a load of
      the table in any order, gives back the saved draft. */
  lemma SaveThenReload(store: Store, s: Section, d: Drafts, editor: Option<string>, rows: seq<Row>, e: Drafts)
    requires Key(s) in store
    requires Lists(AfterWrite(store, Key(s), Wrap(s, d), editor, Written), rows)
    ensures Get(Load(e, FetchResponse(Some(rows), None)), s) == Get(d, s)
  {
    StoredSectionLoadsBack(AfterWrite(store, Key(s), Wrap(s, d), editor, Written), rows, s, d, e);
  }

  /** Saving section `s` over a listed table and reloading the new listing
      gives back the saved draft. */
  lemma SaveListedThenReload(store: Store, rows: seq<Row>, s: Section, d: Drafts, editor: Option<string>, e: Drafts)
    requires Lists(store, rows) && Key(s) in store
    ensures Get(Load(e, FetchResponse(Some(Relisted(rows, Key(s), Wrap(s, d), Written)), None)), s) == Get(d, s)
  {
    ListingAfterWrite(store, rows, Key(s), Wrap(s, d), editor, Written);
    SaveThenReload(store, s, d, editor, Relisted(rows, Key(s), Wrap(s, d), Written), e);
  }
}
