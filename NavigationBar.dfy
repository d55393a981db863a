/** The site navigation bar: the mobile menu flag, the logo fallback, the
    `menuselect` event and the pages the menu entries lead to. */
module NavigationBar {
  import opened Js

  /** The `menuselect` event's detail. */
  datatype MenuSelect = MenuSelect(menuType: Option<string>, menuLabel: string)

  /** Menu entries and the named community pages they open. */
  const PageMapping: map<string, string> := map[
    "maintenance" := "maintenance",
    "charging" := "charging",
    "premium-care" := "premium-care",
    "in-payment" := "in-payment"
  ]

  const DefaultLogoText := "CRM AUTOQ"

  /** The page a menu entry navigates to, if it has one. */
  function PageFor(menuType: Option<string>): (r: Option<string>)
    ensures r.Some? <==> menuType.Some? && menuType.value in {"maintenance", "charging", "premium-care", "in-payment"}
    ensures r.Some? ==> r == menuType
  {
    if menuType.Some? && menuType.value in PageMapping && PageMapping[menuType.value] != "" then
      Some(PageMapping[menuType.value])
    else None
  }

  /** The event detail for a clicked entry: its type and its trimmed text. */
  function MenuSelectOf(menuType: Option<string>, text: string): (e: MenuSelect)
    ensures e.menuType == menuType && e.menuLabel == Trim(text)
  {
    MenuSelect(menuType, Trim(text))
  }

  /** The maintenance entry, whose text is '정비', reports the label '정비'. */
  lemma MaintenanceLabel()
    ensures MenuSelectOf(Some("maintenance"), "정비") == MenuSelect(Some("maintenance"), "정비")
  {
    assert !IsWhitespace('정') && !IsWhitespace('비');
  }

  /** The class of the mobile menu. */
  function MenuClass(open: bool): (r: string)
    ensures Contains(r, "mobile-menu-open") <==> open
  {
    var r := "mobile-menu " + (if open then "mobile-menu-open" else "");
    assert open ==> Contains(r, "mobile-menu-open") by {
      if open {
        assert r[12..] == "mobile-menu-open";
        ContainsPrefix(r[12..], "mobile-menu-open");
        ContainsFrom(r, 12, "mobile-menu-open");
      }
    }
    r
  }

  class NavigationBar {
    var isMobileMenuOpen: bool
    var logoLoadError: bool
    /** The static resource's URL. */
    var logoImg: string
    var logoUrl: Option<string>
    var logoText: string

    constructor (logoImg: string, logoUrl: Option<string>)
      ensures !isMobileMenuOpen && !logoLoadError
      ensures this.logoImg == logoImg && this.logoUrl == logoUrl && logoText == DefaultLogoText
    {
      isMobileMenuOpen := false;
      logoLoadError := false;
      this.logoImg := logoImg;
      this.logoUrl := logoUrl;
      logoText := DefaultLogoText;
    }

    /** The configured logo URL when set, else the static resource. */
    function ActualLogoUrl(): (r: string)
      reads this
      ensures Truthy(logoUrl) ==> r == logoUrl.value
      ensures !Truthy(logoUrl) ==> r == logoImg
    {
      Or(logoUrl, logoImg)
    }

    /** The logo is shown while there is a URL and it has not failed to load. */
    function DisplayLogo(): (r: bool)
      reads this
      ensures r <==> ActualLogoUrl() != "" && !logoLoadError
    {
      ActualLogoUrl() != "" && !logoLoadError
    }

    method HandleLogoError()
      modifies this`logoLoadError
      ensures logoLoadError && !DisplayLogo()
    {
      logoLoadError := true;
    }

    function MobileMenuClass(): (r: string)
      reads this
      ensures Contains(r, "mobile-menu-open") <==> isMobileMenuOpen
    {
      MenuClass(isMobileMenuOpen)
    }

    /** A click on a desktop entry: the event, and the page navigated to, if any. */
    method HandleMenuClick(menuType: Option<string>, text: string) returns (e: MenuSelect, page: Option<string>)
      ensures e == MenuSelectOf(menuType, text) && page == PageFor(menuType)
    {
      e := MenuSelectOf(menuType, text);
      page := PageFor(menuType);
    }

    /** A click on a mobile entry: as on the desktop, and the menu closes. */
    method HandleMobileMenuClick(menuType: Option<string>, text: string) returns (e: MenuSelect, page: Option<string>)
      modifies this`isMobileMenuOpen
      ensures !isMobileMenuOpen
      ensures e == MenuSelectOf(menuType, text) && page == PageFor(menuType)
    {
      isMobileMenuOpen := false;
      e := MenuSelectOf(menuType, text);
      page := PageFor(menuType);
    }

    method ToggleMobileMenu()
      modifies this`isMobileMenuOpen
      ensures isMobileMenuOpen == !old(isMobileMenuOpen)
    {
      isMobileMenuOpen := !isMobileMenuOpen;
    }

    method CloseMobileMenu()
      modifies this`isMobileMenuOpen
      ensures !isMobileMenuOpen
    {
      isMobileMenuOpen := false;
    }

    /** The login link dispatches a `login` event, then opens the login page;
        the menu and the logo are left as they were. */
    method HandleLogin() returns (eventName: string, page: string)
      ensures eventName == "login" && page == "login"
    {
      eventName := "login";
      page := "login";
    }

    /** The sign-up link dispatches a `signup` event, then opens the sign-up page;
        the menu and the logo are left as they were. */
    method HandleSignup() returns (eventName: string, page: string)
      ensures eventName == "signup" && page == "signup"
    {
      eventName := "signup";
      page := "signup";
    }
  }

  /** The menu starts closed, one toggle opens it, a second closes it again. */
  method ToggleOpensThenCloses(logoImg: string) returns (classes: seq<string>)
    ensures |classes| == 3
    ensures !Contains(classes[0], "mobile-menu-open") && Contains(classes[1], "mobile-menu-open")
    ensures !Contains(classes[2], "mobile-menu-open")
  {
    var nav := new NavigationBar(logoImg, None);
    classes := [nav.MobileMenuClass()];
    nav.ToggleMobileMenu();
    classes := classes + [nav.MobileMenuClass()];
    nav.ToggleMobileMenu();
    classes := classes + [nav.MobileMenuClass()];
  }
}
