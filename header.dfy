/**
 * The header's language logic: the other language, the path that switches to it, the
 * navigation paths of the current language and the active-item test, plus the mobile
 * menu's open flag.
 */
module Header {
  import opened I18n
  import Text

  /** `otherLang`. */
  function OtherLang(lang: Lang): (r: Lang)
    ensures r != lang
  {
    if lang == Fr then En else Fr
  }

  lemma OtherLangInvolution(lang: Lang)
    ensures OtherLang(OtherLang(lang)) == lang
  {
  }

  /** `/${lang}`. */
  function LangPrefix(lang: Lang): (r: string)
    ensures |r| == 3 && r[0] == '/' && r[1..] == LangCode(lang)
  {
    "/" + LangCode(lang)
  }

  /** `location.pathname.replace(`/${lang}`, `/${otherLang}`)`. */
  function SwitchPath(pathname: string, lang: Lang): (r: string)
    ensures (forall j :: !Text.OccursAt(pathname, LangPrefix(lang), j)) ==> r == pathname
  {
    Text.ReplaceFirst(pathname, LangPrefix(lang), LangPrefix(OtherLang(lang)))
  }

  /** Only the first occurrence changes; what is before and after it is kept. */
  lemma SwitchPathFirstOnly(pathname: string, lang: Lang, i: nat)
    requires Text.OccursAt(pathname, LangPrefix(lang), i)
    requires forall j :: 0 <= j < i ==> !Text.OccursAt(pathname, LangPrefix(lang), j)
    ensures SwitchPath(pathname, lang) == pathname[..i] + LangPrefix(OtherLang(lang)) + pathname[i + 3..]
  {
    Text.ReplaceFirstSplit(pathname, LangPrefix(lang), LangPrefix(OtherLang(lang)), i);
  }

  /** A path of the current language becomes the same path in the other language. */
  lemma SwitchPathPrefix(pathname: string, lang: Lang)
    requires Text.StartsWith(pathname, LangPrefix(lang))
    ensures SwitchPath(pathname, lang) == LangPrefix(OtherLang(lang)) + pathname[3..]
  {
    Text.ReplaceFirstPrefix(pathname, LangPrefix(lang), LangPrefix(OtherLang(lang)));
  }

  /** Switching twice from a path of the current language comes back to it. */
  lemma SwitchPathRoundTrip(pathname: string, lang: Lang)
    requires Text.StartsWith(pathname, LangPrefix(lang))
    ensures SwitchPath(SwitchPath(pathname, lang), OtherLang(lang)) == pathname
  {
    var other := OtherLang(lang);
    var rest := pathname[3..];
    SwitchPathPrefix(pathname, lang);
    var switched := LangPrefix(other) + rest;
    assert switched[..3] == LangPrefix(other) && switched[3..] == rest;
    SwitchPathPrefix(switched, other);
    OtherLangInvolution(lang);
    assert pathname == LangPrefix(lang) + rest by {
      assert pathname == pathname[..3] + rest;
    }
  }

  datatype NavLabel = Home | Products | Compensation | Kits | Shops | Testimonials | Contact

  datatype NavItem = NavItem(title: NavLabel, path: string)

  /** `navItems`. */
  function NavItems(lang: Lang): (r: seq<NavItem>)
    ensures |r| == 7
    ensures forall i :: 0 <= i < |r| ==> Text.StartsWith(r[i].path, LangPrefix(lang))
    ensures r[0].path == LangPrefix(lang)
  {
    var p := LangPrefix(lang);
    [NavItem(Home, p), NavItem(Products, p + "/products"), NavItem(Compensation, p + "/compensation"),
     NavItem(Kits, p + "/kits"), NavItem(Shops, p + "/shops"), NavItem(Testimonials, p + "/testimonials"),
     NavItem(Contact, p + "/contact")]
  }

  /** `location.pathname === item.path`. */
  predicate IsActive(pathname: string, item: NavItem) {
    pathname == item.path
  }

  lemma {:induction false} NavPathsDistinct(lang: Lang)
    ensures forall i, j :: 0 <= i < j < 7 ==> NavItems(lang)[i].path != NavItems(lang)[j].path
  {
    var r := NavItems(lang);
    var p := LangPrefix(lang);
    assert r[1].path[3..] == "/products";
    assert r[2].path[3..] == "/compensation";
    assert r[3].path[3..] == "/kits";
    assert r[4].path[3..] == "/shops";
    assert r[5].path[3..] == "/testimonials";
    assert r[6].path[3..] == "/contact";
  }

  /** At most one navigation item is highlighted for any path. */
  lemma AtMostOneActive(lang: Lang, pathname: string)
    ensures forall i, j :: (0 <= i < 7 && 0 <= j < 7 && IsActive(pathname, NavItems(lang)[i])
                           && IsActive(pathname, NavItems(lang)[j])) ==> i == j
  {
    NavPathsDistinct(lang);
  }

  /** The mobile menu flag. */
  class MobileMenu {
    var mobileOpen: bool

    constructor ()
      ensures !mobileOpen
    {
      mobileOpen := false;
    }

    /** The menu button. */
    method Toggle()
      modifies this
      ensures mobileOpen == !old(mobileOpen)
    {
      mobileOpen := !mobileOpen;
    }

    /** Following a link of the open menu closes it. */
    method FollowLink()
      modifies this
      ensures !mobileOpen
    {
      mobileOpen := false;
    }
  }
}
