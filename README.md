# Admin content editor of the CV site, in Dafny

This project models the admin page of the portfolio site (`src/pages/Admin.tsx`).
On that page a signed-in administrator edits the four content sections of the
site: hero, skills, experience and education. The sections are kept in the
`site_content` table, one row per `section_key`.

The model covers five parts of the page:

- **The list codecs** (`TextCodec`, `text_codec.dfy`).
  - A skills input shows its list joined with `", "`. Its text is read back by
    splitting at `,`, trimming each piece and dropping the empty ones.
  - The achievements and certifications areas show their lines joined with
    `"\n"`. Their text is read back by splitting at line breaks and dropping the
    empty pieces, with no trimming.
  - `split`, `trim`, `filter(Boolean)` and `join` follow their JavaScript
    meaning. `trim` strips the full ECMAScript WhiteSpace and LineTerminator set.
- **The content shapes and single-field updates** (`Content`, `content.dfy`):
  the four section records, the page's drafts and their initial values, and the
  `{ ...record, field: value }` updates.
- **Loading** (`Loading`, `loading.dfy`).
  - Every fetched row is dispatched on its `section_key` to one draft.
  - A skills or experience row without `categories` or `jobs` gives the empty list.
  - Rows with other keys are ignored, and a failed fetch changes nothing.
- **Saving** (`Persistence`, `persistence.dfy`).
  - The payload of each section is wrapped as the page wraps it.
  - The write updates the row with the section's key, and no other row.
  - The notification depends on the outcome.
  - Saving and then reloading gives back the saved draft.
- **Gating and the page itself** (`Gate`, `gate.dfy`; `AdminPage`, `admin_page.dfy`).
  - `Gate` holds the redirect condition, the load trigger and the choice of
    screen: spinner, nothing, or the editor of the active tab.
  - `AdminPage` has the class `Admin`. Its fields are the page's state slots:
    `isSaving`, `activeTab` and the four drafts.
  - Its methods are the input handlers, the `loadContent` loop and `saveContent`.
  - Each method is proved against the functions above.

`Options` (`options.dfy`) holds the `Option` type.

Three points of the code are easy to misread, and the model follows the code in each:

- Only the skills input trims its pieces (line 283). The achievements and
  certifications areas split and filter with no trim (lines 360 and 456), so a
  line holding only blanks is kept (`LinesKeepWhitespaceOnlyLine`).
- Only the skills and experience rows fall back to an empty list when their
  wrapping key is missing (`|| []`, lines 99 and 102). The hero and education
  rows are taken as they are (lines 96 and 105).
- The save is an update filtered on the section key (lines 114-117), which
  inserts nothing. A section without a row in the table stays without one, so
  `SaveThenReload` requires that the row exists.

## Model

| member | source | states |
|---|---|---|
| TextCodec.Split | src/pages/Admin.tsx:283 | `split` on a one-character separator gives at least one piece, and no piece contains the separator |
| TextCodec.JoinSplit | src/pages/Admin.tsx:283 | joining the pieces of a split with the separator gives the text back, so splitting loses no character |
| TextCodec.SplitJoin | src/pages/Admin.tsx:280-283 | splitting items joined with the separator followed by a pad gives back the items, the first with its prefix and the others with the pad in front, when no item holds the separator |
| TextCodec.Join | src/pages/Admin.tsx:280 | `join`: the items with the separator between neighbours; its partner `SplitJoin` shows that `Split` undoes it, `JoinSplit` that it undoes `Split`, and `SkillsRoundTrip` and `LinesRoundTrip` build on `SplitJoin` |
| TextCodec.SplitAtSeparator | src/pages/Admin.tsx:283 | the pieces of the text before a separator come first, then those after it |
| TextCodec.Trim | src/pages/Admin.tsx:283 | `trim` gives a result no longer than its input that neither starts nor ends with whitespace |
| TextCodec.TrimIsFactor | src/pages/Admin.tsx:283 | the trimmed text is the input with a whitespace-only prefix and a whitespace-only suffix removed |
| TextCodec.TrimKeepsCharacters | src/pages/Admin.tsx:283 | every character of the trimmed text occurs in the input, so trimming adds no comma |
| TextCodec.TrimLeadingSpace | src/pages/Admin.tsx:283 | a whitespace character in front of a text does not change its trim |
| TextCodec.TrimOfTrimmed | src/pages/Admin.tsx:283 | trimming a trimmed text changes nothing |
| TextCodec.TrimAll | src/pages/Admin.tsx:283 | `map(s => s.trim())` keeps the length and trims each item in place |
| TextCodec.TrimAllAppend | src/pages/Admin.tsx:283 | trimming every item distributes over concatenation |
| TextCodec.DropEmpty | src/pages/Admin.tsx:283 | `filter(Boolean)` on strings gives no more items than its input and no empty item |
| TextCodec.DropEmptyMembers | src/pages/Admin.tsx:283 | a string is kept by the filter exactly when it is in the input and not empty |
| TextCodec.DropEmptyAppend | src/pages/Admin.tsx:283 | the filter distributes over concatenation, so the kept items keep their order |
| TextCodec.DropEmptyNoneEmpty | src/pages/Admin.tsx:283 | the filter returns a list with no empty item unchanged |
| TextCodec.ParseSkills | src/pages/Admin.tsx:283 | every parsed skill is non-empty, trimmed and free of commas |
| TextCodec.SkillFromPiece | src/pages/Admin.tsx:283 | every parsed skill is the trimmed text of some comma piece of the input |
| TextCodec.PieceGivesSkill | src/pages/Admin.tsx:283 | every comma piece that is not blank gives a skill, its trimmed text |
| TextCodec.SkillsKeepOrder | src/pages/Admin.tsx:283 | the skills of the text before a comma come first, then those after it, in order |
| TextCodec.DisplaySkills | src/pages/Admin.tsx:280 | the text a skills input shows, the list joined with `", "`; its partner `SkillsRoundTrip` shows `ParseSkills` reads it back |
| TextCodec.SkillsRoundTrip | src/pages/Admin.tsx:280-283 | a list of non-empty, trimmed, comma-free skills read back from its `", "` display is the same list |
| TextCodec.SkillsParseIdempotent | src/pages/Admin.tsx:280-283 | parsing the display of a parsed skill list gives the same list |
| TextCodec.SkillsTrailingCommaAbsorbed | src/pages/Admin.tsx:280-283 | a comma typed after the displayed skills does not change the parsed list |
| TextCodec.SkillsDropBlankPieces | src/pages/Admin.tsx:283 | in `a, b, , c` the blank piece is dropped and the three skills come out in order |
| TextCodec.ParseLines | src/pages/Admin.tsx:360 | every parsed line is non-empty and has no line break, and a line is kept exactly when it is a non-empty piece of the text; the certifications area at line 456 uses the same parse |
| TextCodec.LinesKeepOrder | src/pages/Admin.tsx:360 | the lines of the text before a line break come first, then those after it |
| TextCodec.DisplayLines | src/pages/Admin.tsx:357 | the text an achievements or certifications area shows, the lines joined with a line break (also line 452); its partner `LinesRoundTrip` shows `ParseLines` reads it back |
| TextCodec.LinesRoundTrip | src/pages/Admin.tsx:357-360 | non-empty single-line items read back from their `"\n"` display are the same list; the same holds for certifications at lines 452-456 |
| TextCodec.LinesParseIdempotent | src/pages/Admin.tsx:357-360 | parsing the display of a parsed line list gives the same list |
| TextCodec.LinesTrailingBreakAbsorbed | src/pages/Admin.tsx:357-360 | a line break typed after the displayed lines does not change the parsed list |
| TextCodec.LinesDropEmptyLine | src/pages/Admin.tsx:360 | an empty line is dropped, and the lines on either side of it come out in order |
| TextCodec.LinesKeepWhitespaceOnlyLine | src/pages/Admin.tsx:360 | a line holding only a blank is kept as it is, with no trimming |
| Content.Key | src/pages/Admin.tsx:94-106 | every section has one of the four known `section_key`s |
| Content.KeyInjective | src/pages/Admin.tsx:94-106 | different sections have different keys |
| Content.Get | src/pages/Admin.tsx:53-68 | a section's draft has that section's shape |
| Content.Put | src/pages/Admin.tsx:53-68 | replacing one section's draft leaves the other three as they were |
| Content.DraftsBySection | src/pages/Admin.tsx:53-68 | the page's drafts are determined by the four sections' drafts |
| Content.SetHeroField | src/pages/Admin.tsx:201-244 | `{ ...hero, f: value }` sets field `f` to the value and keeps every other field |
| Content.HeroFieldsDetermine | src/pages/Admin.tsx:13-21 | a hero record is determined by its seven fields |
| Content.SetHeroFieldSameValue | src/pages/Admin.tsx:201-244 | typing back the value a hero field already holds changes nothing |
| Content.SetJobField | src/pages/Admin.tsx:314-350 | setting a job's title, company, location or period changes that field only and keeps the achievements |
| Content.SetDegreeField | src/pages/Admin.tsx:395-442 | setting one of a degree's five fields changes that field only |
| Loading.Target | src/pages/Admin.tsx:94-107 | a row goes to section `s` exactly when its key is `s`'s key, and to none when the key is unknown |
| Loading.Decode | src/pages/Admin.tsx:95-106 | a row's draft has its section's shape, and a missing `categories` or `jobs` gives the empty list |
| Loading.ApplyRow | src/pages/Admin.tsx:93-107 | one row sets its section's draft to the decoded content, keeps the other sections, and changes nothing when its key is unknown |
| Loading.ApplyRows | src/pages/Admin.tsx:92-108 | the `forEach` over the rows, applying them one after another in order; its partners `LoadBySection` and `LastRowWins` give each section's result, and `LoadContent`'s loop invariant is stated against it |
| Loading.Load | src/pages/Admin.tsx:82-109 | a failed fetch, or one with no data, leaves every draft as it was |
| Loading.UnknownRowsChangeNothing | src/pages/Admin.tsx:94-107 | rows whose keys are all unknown change no draft |
| Loading.SectionWithoutRowKept | src/pages/Admin.tsx:53-68 | a section that no row is about keeps its draft, so it keeps the initial default |
| Loading.LastRowWins | src/pages/Admin.tsx:92-108 | when several rows share a key, the last of them sets the draft |
| Loading.LoadBySection | src/pages/Admin.tsx:82-109 | after a load each section holds its last row's draft, or its earlier draft when no row is about it |
| Loading.NoEducationRowKeepsDefault | src/pages/Admin.tsx:65-68 | without an education row the education draft stays empty degrees and empty certifications |
| Loading.MissingWrapperKeyEmpties | src/pages/Admin.tsx:99-102 | a skills row without `categories`, or an experience row without `jobs`, empties that draft |
| Persistence.Wrap | src/pages/Admin.tsx:249-464 | the payload of a save button carries its section's key and decodes back to the draft it wraps |
| Persistence.Update | src/pages/Admin.tsx:114-117 | the write replaces the content of the row with the key when it exists, sets its `updated_by` to the user's id when there is a user and keeps the old one when there is none, keeps every other row, and adds none |
| Persistence.AfterWrite | src/pages/Admin.tsx:114-121 | the table is updated on success and unchanged on error |
| Persistence.SaveToast | src/pages/Admin.tsx:121-128 | the notification is destructive exactly on error. It is "Error saving" with the backend's message, or "Saved!" with `<key> section updated successfully.` |
| Persistence.SavedRowLoadsBack | src/pages/Admin.tsx:92-117 | loading a saved payload gives back the saved draft and leaves the other sections alone |
| Persistence.SaveAllThenLoadReproduces | src/pages/Admin.tsx:82-130 | the four saved payloads loaded into a fresh page give back all four drafts |
| Persistence.StoredSectionLoadsBack | src/pages/Admin.tsx:92-108 | a row holding a saved payload loads back as the saved draft, in whatever order the table is listed |
| Persistence.SaveThenReload | src/pages/Admin.tsx:111-117 | after a successful save of an existing row, any listing of the table loads back the saved draft |
| Persistence.Relisted | src/pages/Admin.tsx:114-117 | the listing after a write keeps its length, changes no row under another key, and after success lists the new content under the written key |
| Persistence.ListingAfterWrite | src/pages/Admin.tsx:114-121 | a listing of the old table, with the written row replaced, lists the table the write leaves, whatever the outcome |
| Persistence.SaveListedThenReload | src/pages/Admin.tsx:82-117 | saving a section over a listed table and reloading the new listing gives back the saved draft |
| Gate.Render | src/pages/Admin.tsx:132-142 | the spinner exactly while auth is resolving, nothing exactly for a non-admin, and otherwise only the active tab's editor, with its save button disabled while saving |
| Gate.RedirectsToAuth | src/pages/Admin.tsx:70-74 | the redirect to `/auth` happens once auth resolution is over and there is no user or no admin; its partners `NonAdminNeverEdits` and `EditorsAndRedirectExclusive` relate it to what is rendered |
| Gate.LoadTriggered | src/pages/Admin.tsx:76-80 | the effect keyed on `isAdmin` runs on the first render and whenever `isAdmin` changes, and loads when it is true; its partner `LoadOncePerAdminConfirmation` states when a load happens |
| Gate.NonAdminNeverEdits | src/pages/Admin.tsx:70-74 | a non-admin never sees an editor and is redirected exactly once auth resolution is over |
| Gate.ExactlyOneEditor | src/pages/Admin.tsx:193-382 | when editors are shown, exactly one is, the one for `activeTab` |
| Gate.EditorsAndRedirectExclusive | src/pages/Admin.tsx:70-142 | an admin with a user is never both shown the editors and redirected; an admin flag with no user gets both |
| Gate.LoadOncePerAdminConfirmation | src/pages/Admin.tsx:76-80 | the load runs when `isAdmin` becomes true or is true on the first run, not again while it stays true, and never for a non-admin |
| AdminPage.Admin.constructor | src/pages/Admin.tsx:49-68 | the page starts with empty drafts, on the hero tab, with no save in flight |
| AdminPage.Admin.SelectTab | src/pages/Admin.tsx:180 | a tab click sets `activeTab` and changes no draft and not the saving flag |
| AdminPage.SwitchTabAndBack | src/pages/Admin.tsx:180 | switching to another tab and back leaves the drafts and the tab as they were |
| AdminPage.Admin.EditHero | src/pages/Admin.tsx:201-244 | a hero input sets that field and keeps the other six |
| AdminPage.Admin.EditCategoryTitle | src/pages/Admin.tsx:270-274 | the category list keeps its length, category `i` takes the title and keeps its skills, and every other category is unchanged |
| AdminPage.Admin.EditCategorySkills | src/pages/Admin.tsx:281-285 | category `i`'s skills become the parsed text, its title is kept, and every other category is unchanged |
| AdminPage.Admin.EditJobField | src/pages/Admin.tsx:314-350 | job `i` takes the value in one field and keeps the other fields and its achievements; every other job is unchanged |
| AdminPage.Admin.EditJobAchievements | src/pages/Admin.tsx:358-362 | job `i`'s achievements become the parsed lines and its other fields are kept; every other job is unchanged |
| AdminPage.Admin.EditDegreeField | src/pages/Admin.tsx:395-442 | degree `i` takes the value in one field and keeps the others; other degrees and the certifications are unchanged |
| AdminPage.Admin.EditCertifications | src/pages/Admin.tsx:453-458 | the certifications become the parsed lines and the degrees are kept |
| AdminPage.Admin.LoadContent | src/pages/Admin.tsx:82-109 | the `forEach` over the rows leaves the drafts exactly as `Load` describes them |
| AdminPage.Admin.StartSave | src/pages/Admin.tsx:111-117 | the saving flag is raised, which disables every save button, and the request carries the section's key, its wrapped draft and the editor; the drafts are untouched |
| AdminPage.Admin.FinishSave | src/pages/Admin.tsx:114-130 | the table is as the outcome leaves it, the flag is lowered, the notification matches the outcome, and the drafts are kept for a retry |
| AdminPage.Admin.SaveContent | src/pages/Admin.tsx:111-130 | a save changes at most the row of its own section, writes the wrapped draft only on success, sets `updated_by` only when there is a user, and leaves the drafts and the tab as they were |

## Left out

- Loading: a row whose stored content the code cannot read as its section's shape is not represented; `Row` holds only rows the casts at lines 93-106 read as intended. The code casts `content` without a check. A `null` content on a skills or experience row makes the `.categories` or `.jobs` read throw inside the `forEach`, so the rows before it are applied, every later row is skipped and the load fails. A `null` hero or education content, or a truthy `categories` or `jobs` value that is not a list, is stored as the draft unchanged; a falsy one (`null`, `0`, `""`, `false`) becomes the empty list like a missing one.
- The list edit handlers copy the array shallowly and then assign into the shared element. They so also change the element of the previous state in place. This aliasing is not visible on this page, and the model treats elements as values.
- The Supabase client is not part of this model. The table is a map from key to entry, and the outcome of a write is a parameter. An update on a missing key changes nothing, and no row is inserted.
- Asynchronous timing is not modelled. A load and a save run to completion in one step, and a save is split into a start and a finish around the write. A second click before the re-render that disables the buttons is not modelled.
- `console.error` on a failed load is I/O, and is left out.
- Navigation, the "Back to Site" button, the toast rendering and the icons are left out.
- The auth context is reduced to three inputs: whether auth is resolving, whether there is a user, and whether that user is an admin. The user's id is an opaque optional string.
- The effect scheduling of React is modelled only by the dependency rule of the load effect: it runs on the first render and whenever `isAdmin` changes.
- The presentational components of the site contain no logic beyond markup, and are not part of this model.
