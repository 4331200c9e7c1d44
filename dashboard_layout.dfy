/**
 * The admin dashboard's frame: the sidebar's navigation list with its
 * active-item highlighting, the header title looked up from the same list,
 * the gate that waits for a signed-in user, logout, and the mobile sidebar.
 */
module DashboardLayout {
  import opened Wrappers
  import opened JsText

  datatype NavItem = NavItem(name: string, href: string)

  const DashboardHref := "/admin/dashboard"
  const LoginPath := "/admin/login"
  const FallbackTitle := "Dashboard"

  function SectionHref(slug: string): string {
    DashboardHref + "/" + slug
  }

  const Navigation: seq<NavItem> := [
    NavItem("Dashboard", DashboardHref),
    NavItem("Artículos", SectionHref("articulos")),
    NavItem("Eventos", SectionHref("eventos")),
    NavItem("Programación", SectionHref("programacion")),
    NavItem("Videos", SectionHref("videos")),
    NavItem("Galería", SectionHref("galeria"))
  ]

  /** The path segment of each section, for items 1 to 5. */
  const SectionSlugs: seq<string> := ["articulos", "eventos", "programacion", "videos", "galeria"]

  /** The sidebar test: the path is the item's page or a page below it. A path
      that is not known yet (`null`) activates nothing. */
  predicate IsActive(href: string, pathname: Option<string>) {
    pathname.Some? && (pathname.value == href || StartsWith(pathname.value, href + "/"))
  }

  /** The index of the first element satisfying `p`, as `find` scans. */
  function FirstWhere<T>(xs: seq<T>, p: T -> bool): (r: Option<nat>)
    ensures r.Some? ==> r.value < |xs| && p(xs[r.value]) && forall j :: 0 <= j < r.value ==> !p(xs[j])
    ensures r.None? ==> forall j :: 0 <= j < |xs| ==> !p(xs[j])
  {
    if xs == [] then None
    else if p(xs[0]) then Some(0)
    else match FirstWhere(xs[1..], p)
      case None => None
      case Some(k) => Some(k + 1)
  }

  /** The header: the name of the first active item, else `"Dashboard"`. */
  function HeaderTitle(pathname: Option<string>): string {
    match FirstWhere(Navigation, (item: NavItem) => IsActive(item.href, pathname))
    case None => FallbackTitle
    case Some(i) => Navigation[i].name
  }

  lemma NavigationShape()
    ensures |Navigation| == 6 && |SectionSlugs| == 5
    ensures Navigation[0].href == DashboardHref
    ensures forall i :: 1 <= i < 6 ==> Navigation[i].href == SectionHref(SectionSlugs[i - 1])
    ensures forall i :: 0 <= i < 5 ==> SectionSlugs[i] != [] && '/' !in SectionSlugs[i]
    ensures forall i, j :: 0 <= i < 5 && 0 <= j < 5 && i != j ==> SectionSlugs[i][0] != SectionSlugs[j][0]
  {
  }

  /** `/admin/dashboardx` is not below `/admin/dashboard`. */
  lemma SiblingPrefixIsNotActive()
    ensures !IsActive(DashboardHref, Some("/admin/dashboardx"))
  {
    assert "/admin/dashboardx"[16] != (DashboardHref + "/")[16];
  }

  /** Before the path is known no item is highlighted and the title falls back. */
  lemma NullPathActivatesNothing()
    ensures forall i :: 0 <= i < |Navigation| ==> !IsActive(Navigation[i].href, None)
    ensures HeaderTitle(None) == FallbackTitle
  {
  }

  /** Dashboard comes first and matches by prefix, so every page below it is
      titled "Dashboard", whatever section it belongs to. */
  lemma EveryDashboardPageIsTitledDashboard(path: string)
    requires StartsWith(path, DashboardHref + "/")
    ensures IsActive(DashboardHref, Some(path))
    ensures HeaderTitle(Some(path)) == "Dashboard"
  {
  }

  /** A path at or below a section. */
  predicate Under(path: string, href: string) {
    path == href || StartsWith(path, href + "/")
  }

  /** A section's pages highlight Dashboard and the section together. */
  lemma SectionHighlightsDashboardToo(i: nat, path: string)
    requires 1 <= i < |Navigation| && Under(path, Navigation[i].href)
    ensures IsActive(Navigation[0].href, Some(path)) && IsActive(Navigation[i].href, Some(path))
  {
    NavigationShape();
    UnderSectionIsUnderDashboard(path, SectionSlugs[i - 1]);
  }

  lemma UnderSectionIsUnderDashboard(path: string, slug: string)
    requires Under(path, SectionHref(slug))
    ensures StartsWith(path, DashboardHref + "/")
  {
    var p := DashboardHref + "/";
    var h := SectionHref(slug);
    assert h[..|p|] == p;
    assert path[..|h|] == h;
    assert path[..|p|] == h[..|p|];
  }

  /** The articles page is titled "Dashboard", not "Artículos". */
  lemma ArticlesPageTitle()
    ensures HeaderTitle(Some(SectionHref("articulos"))) == "Dashboard"
    ensures Navigation[1].name == "Artículos"
  {
    EveryDashboardPageIsTitledDashboard(SectionHref("articulos"));
  }

  /** When one path is under two sections, the shorter segment starts the
      longer one, and a longer one continues with `/`. */
  lemma ShorterSegmentStartsLonger(path: string, a: string, b: string)
    requires |a| <= |b|
    requires Under(path, SectionHref(a)) && Under(path, SectionHref(b))
    ensures b[..|a|] == a
    ensures |a| < |b| ==> b[|a|] == '/' && '/' in b
  {
    var k := |DashboardHref| + 1;
    var ha := SectionHref(a);
    var hb := SectionHref(b);
    assert path[..|ha|] == ha;
    assert path[..|hb|] == hb;
    assert a == ha[k..] && b == hb[k..];
    assert hb[..|ha|] == ha;
    assert b[..|a|] == hb[k..|ha|];
    if |a| < |b| {
      assert path != ha;
      assert path[|ha|] == (ha + "/")[|ha|];
      assert b[|a|] == path[|ha|];
    }
  }

  /** Pages below two sections belong to the same one: a section's segment
      holds no `/`, so no segment extends another. */
  lemma OneSegment(path: string, a: string, b: string)
    requires '/' !in a && '/' !in b
    requires Under(path, SectionHref(a)) && Under(path, SectionHref(b))
    ensures a == b
  {
    if |a| <= |b| {
      ShorterSegmentStartsLonger(path, a, b);
    } else {
      ShorterSegmentStartsLonger(path, b, a);
    }
  }

  /** The intended test: Dashboard only for its own page, the sections as
      written. */
  predicate IntendedIsActive(item: NavItem, pathname: Option<string>) {
    if item.href == DashboardHref then pathname == Some(DashboardHref)
    else IsActive(item.href, pathname)
  }

  function IntendedHeaderTitle(pathname: Option<string>): string {
    match FirstWhere(Navigation, (item: NavItem) => IntendedIsActive(item, pathname))
    case None => FallbackTitle
    case Some(i) => Navigation[i].name
  }

  /** A section item is highlighted by the intended test exactly on that
      section's pages. */
  lemma {:induction false} IntendedActiveOnlyInOwnSection(i: nat, j: nat, path: string)
    requires 1 <= i < |Navigation| && j < |Navigation| && Under(path, Navigation[i].href)
    ensures IntendedIsActive(Navigation[j], Some(path)) <==> j == i
  {
    NavigationShape();
    if j == 0 {
      assert |path| > |DashboardHref|;
    } else if j != i && IntendedIsActive(Navigation[j], Some(path)) {
      OneSegment(path, SectionSlugs[i - 1], SectionSlugs[j - 1]);
    } else if j == i {
      assert Navigation[i].href != DashboardHref by {
        assert |Navigation[i].href| > |DashboardHref|;
      }
    }
  }

  /** With the intended test each section's pages carry the section's name,
      and Dashboard's own page carries "Dashboard". */
  lemma IntendedTitleNamesSection(i: nat, path: string)
    requires 1 <= i < |Navigation| && Under(path, Navigation[i].href)
    ensures IntendedHeaderTitle(Some(path)) == Navigation[i].name
  {
    var p := (item: NavItem) => IntendedIsActive(item, Some(path));
    forall j | 0 <= j < |Navigation|
      ensures p(Navigation[j]) <==> j == i
    {
      IntendedActiveOnlyInOwnSection(i, j, path);
    }
  }

  lemma IntendedTitleOfDashboard()
    ensures IntendedHeaderTitle(Some(DashboardHref)) == "Dashboard"
  {
  }

  /** Effects the layout causes outside itself, in order. */
  datatype Effect = SignOut | Push(path: string)

  /** How `auth.getUser()` settles: rejected, or resolved with the signed-in
      user's e-mail if there is one. */
  datatype AuthAnswer = Rejected | Answered(found: Option<string>)

  class AdminLayout {
    var sidebarOpen: bool
    /** The signed-in user's e-mail once the auth check has found one. */
    var user: Option<string>
    var effects: seq<Effect>

    constructor ()
      ensures !sidebarOpen && user.None? && effects == []
    {
      sidebarOpen := false;
      user := None;
      effects := [];
    }

    /** Only the spinner renders until a user is known. */
    predicate ShowsSpinnerOnly()
      reads this
    {
      user.None?
    }

    /** The mount effect's answer from `auth.getUser()`. A rejected promise
        has no handler: the layout neither navigates nor records a user, so
        the spinner stays. */
    method AuthChecked(answer: AuthAnswer)
      modifies this`user, this`effects
      ensures answer.Rejected? ==> user == old(user) && effects == old(effects)
      ensures answer.Answered? && answer.found.None? ==>
        user == old(user) && effects == old(effects) + [Push(LoginPath)]
      ensures answer.Answered? && answer.found.Some? ==> user == answer.found && effects == old(effects)
    {
      if answer.Rejected? {
        return;
      }
      if answer.found.None? {
        effects := effects + [Push(LoginPath)];
      } else {
        user := answer.found;
      }
    }

    /** Logout signs out first and navigates afterwards. */
    method Logout()
      modifies this`effects
      ensures effects == old(effects) + [SignOut, Push(LoginPath)]
    {
      effects := effects + [SignOut];
      effects := effects + [Push(LoginPath)];
    }

    method MenuClicked()
      modifies this`sidebarOpen
      ensures sidebarOpen
    {
      sidebarOpen := true;
    }

    /** The overlay and the close button. */
    method CloseClicked()
      modifies this`sidebarOpen
      ensures !sidebarOpen
    {
      sidebarOpen := false;
    }

    /** A click on nav item `i`: the sidebar closes and the link navigates. */
    method NavClicked(i: nat)
      requires i < |Navigation|
      modifies this`sidebarOpen, this`effects
      ensures !sidebarOpen
      ensures effects == old(effects) + [Push(Navigation[i].href)]
    {
      sidebarOpen := false;
      effects := effects + [Push(Navigation[i].href)];
    }
  }
}
