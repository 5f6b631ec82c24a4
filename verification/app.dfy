/** The page shell (App.tsx): the language toggle, the mobile menu, the
    active demo role driven by the navigation links and hero buttons, and
    the one-shot reveal-on-scroll flag. */
module App {
  import opened Wrappers
  import opened Types
  import Translations

  datatype AppState = AppState(lang: Language, menuOpen: bool, role: Role)

  /** On load: Uzbek, the admin dashboard, the mobile menu closed. */
  const InitialApp := AppState(Uz, false, AsAdmin)

  /** `toggleLang`: switches to the other locale. */
  function ToggleLang(l: Language): (r: Language)
    ensures r != l
  {
    match l
    case Uz => Ru
    case Ru => Uz
  }

  /** Toggling twice restores the language, and the other locale has every
      key the current one has. */
  lemma ToggleLangTwice(l: Language)
    ensures ToggleLang(ToggleLang(l)) == l
    ensures forall k :: k in Translations.LocaleKeys(l) ==> k in Translations.LocaleKeys(ToggleLang(l))
  {
    Translations.SameShape();
  }

  /** An in-page link: its anchor, the section it scrolls to, and the demo
      role it selects, if any. */
  datatype NavLink = NavLink(href: string, target: string, role: Option<Role>)

  /** The navigation bar: features, clinic system, online queue, why us. */
  const NavLinks: seq<NavLink> := [
    NavLink("#features", "features", None),
    NavLink("#demo", "demo", Some(AsAdmin)),
    NavLink("#demo", "demo", Some(AsPatient)),
    NavLink("#why-us", "why-us", None)
  ]

  /** The hero's primary and secondary buttons. */
  const HeroPrimary := NavLink("#demo", "demo", Some(AsAdmin))
  const HeroSecondary := NavLink("#demo", "demo", Some(AsPatient))

  /** `handleNavClick`: always closes the mobile menu; selects the link's
      role when it carries one and otherwise keeps the current role. The
      scroll to the target section is not modelled. */
  function NavClick(s: AppState, role: Option<Role>): (r: AppState)
    ensures !r.menuOpen && r.lang == s.lang
    ensures role.Some? ==> r.role == role.value
    ensures role.None? ==> r.role == s.role
  {
    match role
    case Some(ro) => s.(menuOpen := false, role := ro)
    case None => s.(menuOpen := false)
  }

  datatype AppEvent =
    | ToggleLanguage
    | ToggleMenu
    | ClickLink(link: NavLink)
    | ChooseRole(role: Role)

  /** The links on the page are the four navigation links and the two hero
      buttons; the three role buttons of the demo are always present. */
  predicate Rendered(e: AppEvent) {
    e.ClickLink? ==> e.link in NavLinks || e.link == HeroPrimary || e.link == HeroSecondary
  }

  function Dispatch(s: AppState, e: AppEvent): AppState {
    match e
    case ToggleLanguage => s.(lang := ToggleLang(s.lang))
    case ToggleMenu => s.(menuOpen := !s.menuOpen)
    case ClickLink(link) => NavClick(s, link.role)
    case ChooseRole(role) => s.(role := role)
  }

  /** The routing table: the clinic-system link and the primary hero button
      open the admin dashboard, the online-queue link and the secondary hero
      button open the patient app, and the features and why-us links keep
      whatever role was showing. */
  lemma RoutingTable(s: AppState)
    ensures Dispatch(s, ClickLink(NavLinks[1])).role == AsAdmin
    ensures Dispatch(s, ClickLink(HeroPrimary)).role == AsAdmin
    ensures Dispatch(s, ClickLink(NavLinks[2])).role == AsPatient
    ensures Dispatch(s, ClickLink(HeroSecondary)).role == AsPatient
    ensures Dispatch(s, ClickLink(NavLinks[0])).role == s.role
    ensures Dispatch(s, ClickLink(NavLinks[3])).role == s.role
  {
  }

  /** The role changes only through a link that carries one or through the
      demo's role buttons; the language changes only through the toggle. */
  lemma RoleChangesOnlyByChoice(s: AppState, e: AppEvent)
    requires Rendered(e)
    ensures Dispatch(s, e).role != s.role ==>
      (e.ClickLink? && e.link.role == Some(Dispatch(s, e).role)) || e.ChooseRole?
    ensures Dispatch(s, e).lang != s.lang <==> e.ToggleLanguage?
  {
  }

  /** No page link selects the doctor dashboard: only the demo's own role
      button does. */
  lemma NoLinkSelectsDoctor(s: AppState, e: AppEvent)
    requires Rendered(e) && s.role != AsDoctor
    ensures Dispatch(s, e).role == AsDoctor ==> e == ChooseRole(AsDoctor)
  {
  }

  /** On load the page shows Uzbek, the menu closed and the admin
      dashboard, so the clinic-system link and the primary hero button
      change nothing, and the online-queue link switches to the patient app. */
  lemma OnLoad()
    ensures InitialApp.lang == Uz && !InitialApp.menuOpen && InitialApp.role == AsAdmin
    ensures Dispatch(InitialApp, ClickLink(NavLinks[1])) == InitialApp
    ensures Dispatch(InitialApp, ClickLink(HeroPrimary)) == InitialApp
    ensures Dispatch(InitialApp, ClickLink(NavLinks[2])) == InitialApp.(role := AsPatient)
  {
  }

  // ---------------------------------------------------------------- reveal

  /** A `Reveal` wrapper: whether its content is shown, and whether the
      intersection observer still watches it. */
  datatype RevealState = RevealState(visible: bool, observing: bool)

  const RevealInitial := RevealState(false, true)

  /** One observer callback: an intersecting entry shows the content and
      stops the observation; once unobserved, no further entry arrives. */
  function OnEntry(s: RevealState, intersecting: bool): (r: RevealState)
    ensures s.visible ==> r.visible
    ensures r.visible && !s.visible ==> intersecting && s.observing && !r.observing
  {
    if s.observing && intersecting then RevealState(true, false) else s
  }

  /** The state after a sequence of observer entries. */
  function RevealRun(s: RevealState, entries: seq<bool>): RevealState
    decreases |entries|
  {
    if entries == [] then s else RevealRun(OnEntry(s, entries[0]), entries[1..])
  }

  /** Starting hidden and observed, the content is visible exactly when some
      entry intersected, and a visible wrapper is no longer observed. */
  lemma {:induction false} RevealOneShot(s: RevealState, entries: seq<bool>)
    requires s == RevealInitial || s == RevealState(true, false)
    ensures RevealRun(s, entries).visible <==> s.visible || exists i :: 0 <= i < |entries| && entries[i]
    ensures RevealRun(s, entries).visible <==> !RevealRun(s, entries).observing
    decreases |entries|
  {
    if entries != [] {
      RevealOneShot(OnEntry(s, entries[0]), entries[1..]);
      if !entries[0] {
        assert forall i :: 1 <= i < |entries| ==> entries[i] == entries[1..][i - 1];
      }
    }
  }

  /** Once shown, the content stays shown whatever entries follow. */
  lemma {:induction false} RevealNeverResets(s: RevealState, entries: seq<bool>)
    requires s.visible
    ensures RevealRun(s, entries).visible
    decreases |entries|
  {
    if entries != [] {
      RevealNeverResets(OnEntry(s, entries[0]), entries[1..]);
    }
  }
}
