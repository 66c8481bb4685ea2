/**
 * Access gating of the admin page: when it sends the visitor to the sign-in
 * page, when it starts loading the content, and what it renders.
 */
module Gate {
  import opened Options
  import opened Content

  /** What the authentication context reports. */
  datatype Auth = Auth(isLoading: bool, hasUser: bool, isAdmin: bool)

  /** The redirect effect: navigate to "/auth" once resolution is over and
      there is no user or the user is not an admin. */
  predicate RedirectsToAuth(a: Auth) {
    !a.isLoading && (!a.hasUser || !a.isAdmin)
  }

  /** The effect keyed on `isAdmin` runs on the first render and whenever
      `isAdmin` changes (`previous` is the value at the last run, None before
      the first), and it loads the content when `isAdmin` holds. */
  predicate LoadTriggered(previous: Option<bool>, isAdmin: bool) {
    (previous.None? || previous.value != isAdmin) && isAdmin
  }

  /** What the page renders. */
  datatype Screen =
    | Spinner
    | Blank
    | Editors(tab: Section, saveDisabled: bool)

  /** Whether `s`'s editor is on screen. */
  predicate EditorShown(v: Screen, s: Section) {
    v.Editors? && v.tab == s
  }

  /** The spinner while resolution is pending, nothing for a non-admin, and
      for an admin the tab strip with the active tab's editor, whose save
      button is disabled while a save is in flight. */
  function Render(a: Auth, activeTab: Section, isSaving: bool): (v: Screen)
    ensures v == Spinner <==> a.isLoading
    ensures v == Blank <==> !a.isLoading && !a.isAdmin
    ensures forall s :: EditorShown(v, s) <==> !a.isLoading && a.isAdmin && s == activeTab
    ensures v.Editors? ==> v.saveDisabled == isSaving
  {
    if a.isLoading then Spinner
    else if !a.isAdmin then Blank
    else Editors(activeTab, isSaving)
  }

  /** A visitor who is not an admin never sees an editor, and is redirected
      as soon as resolution is over. */
  lemma NonAdminNeverEdits(a: Auth, tab: Section, isSaving: bool)
    requires !a.isAdmin
    ensures forall s :: !EditorShown(Render(a, tab, isSaving), s)
    ensures RedirectsToAuth(a) <==> !a.isLoading
  {
  }

  /** When editors are shown exactly one of them is, the active tab's. */
  lemma ExactlyOneEditor(a: Auth, tab: Section, isSaving: bool)
    requires Render(a, tab, isSaving).Editors?
    ensures EditorShown(Render(a, tab, isSaving), tab)
    ensures forall s :: EditorShown(Render(a, tab, isSaving), s) ==> s == tab
  {
  }

  /** The page never both shows editors and redirects, provided the auth
      context reports an admin only together with a user; without that, an
      admin flag with no user renders the editors and redirects at once. */
  lemma EditorsAndRedirectExclusive(a: Auth, tab: Section, isSaving: bool)
    ensures a.isAdmin ==> a.hasUser ==> !(Render(a, tab, isSaving).Editors? && RedirectsToAuth(a))
    ensures Render(Auth(false, false, true), tab, isSaving).Editors? && RedirectsToAuth(Auth(false, false, true))
  {
  }

  /** The content is loaded when `isAdmin` turns true, or is true at the first
      run, and not again while it stays true; `isLoading` plays no part. */
  lemma LoadOncePerAdminConfirmation(previous: Option<bool>)
    ensures LoadTriggered(previous, true) <==> previous != Some(true)
    ensures !LoadTriggered(previous, false)
  {
  }
}
