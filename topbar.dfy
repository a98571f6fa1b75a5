/** The top bar: login, admin and tools buttons, a search form, and sticking
    to the top of the window once scrolled past. */
module TopBar {
  import opened Wrappers
  import opened PageTypes

  /** Whether the bar is fixed after a scroll event: an unfixed bar becomes
      fixed once its top is more than 6 pixels above the window; a fixed bar
      comes loose once the page is scrolled above the bar's original offset. */
  function ScrollFixed(fixed: bool, nodeTop: real, pageYOffset: real, initialOffsetTop: real): (r: bool)
    ensures !fixed ==> (r <==> nodeTop < -6.0)
    ensures fixed ==> (r <==> pageYOffset >= initialOffsetTop)
  {
    if !fixed then nodeTop < -6.0 else !(pageYOffset < initialOffsetTop)
  }

  /** While unfixed the bar is in the page's flow, so its top in the window is
      its offset minus the scroll position. Scrolling within the 6-pixel band
      below the offset never changes the state, fixed or not. */
  lemma HysteresisBand(fixed: bool, pageYOffset: real, initialOffsetTop: real, nodeTopWhenFixed: real)
    requires initialOffsetTop <= pageYOffset <= initialOffsetTop + 6.0
    ensures
      var nodeTop := if fixed then nodeTopWhenFixed else initialOffsetTop - pageYOffset;
      ScrollFixed(fixed, nodeTop, pageYOffset, initialOffsetTop) == fixed
  {
  }

  /** A bar that just became fixed stays fixed while the page is not scrolled
      back: no flicker. */
  lemma FixedStaysFixed(pageYOffset: real, initialOffsetTop: real, nodeTopWhenFixed: real)
    requires ScrollFixed(false, initialOffsetTop - pageYOffset, pageYOffset, initialOffsetTop)
    ensures ScrollFixed(true, nodeTopWhenFixed, pageYOffset, initialOffsetTop)
  {
  }

  datatype User = User(isLoggedIn: bool, isStaff: bool)

  datatype TopBarView =
    | Nothing
    | Bar(
        pageTitle: bool,
        hideTitleEditButton: bool,
        loggedInAs: bool,
        loginButton: bool,
        logoutButton: bool,
        adminButton: bool,
        toolsButton: bool,
        searchButton: bool,
        menuButton: bool,
        searchForm: bool,
        placeholder: bool,
        placeholderHeight: Option<real>)

  class TopBarComponent {
    var showSearchForm: bool
    var fixed: bool
    var initialOffsetTop: real
    var initialHeight: Option<real>

    constructor ()
      ensures !showSearchForm && !fixed && initialOffsetTop == -1.0 && initialHeight.None?
    {
      showSearchForm := false;
      fixed := false;
      initialOffsetTop := -1.0;
      initialHeight := None;
    }

    /** Remember where the bar sits in the page and how tall it is. */
    method ComponentDidMount(rectTop: real, rectBottom: real, pageYOffset: real)
      modifies this
      ensures initialOffsetTop == rectTop + pageYOffset && initialHeight == Some(rectBottom - rectTop)
      ensures fixed == old(fixed) && showSearchForm == old(showSearchForm)
    {
      initialOffsetTop := rectTop + pageYOffset;
      initialHeight := Some(rectBottom - rectTop);
    }

    /** A scroll event; `nodeTop` is the bar's top in the window. */
    method OnScroll(nodeTop: real, pageYOffset: real)
      modifies this
      ensures fixed == ScrollFixed(old(fixed), nodeTop, pageYOffset, initialOffsetTop)
      ensures showSearchForm == old(showSearchForm) && initialOffsetTop == old(initialOffsetTop)
      ensures initialHeight == old(initialHeight)
    {
      if !fixed {
        if nodeTop < -6.0 {
          fixed := true;
        }
      } else {
        if pageYOffset < initialOffsetTop {
          fixed := false;
        }
      }
    }

    method OnSearchClick()
      modifies this
      ensures showSearchForm == !old(showSearchForm)
      ensures fixed == old(fixed) && initialOffsetTop == old(initialOffsetTop) && initialHeight == old(initialHeight)
    {
      showSearchForm := !showSearchForm;
    }

    method CloseSearchForm()
      modifies this
      ensures !showSearchForm
      ensures fixed == old(fixed) && initialOffsetTop == old(initialOffsetTop) && initialHeight == old(initialHeight)
    {
      showSearchForm := false;
    }

    /** What the bar shows; `toolsDialogEmpty` says whether the page tools
        dialog has anything to offer. */
    function View(pageRole: PageRole, user: User, toolsDialogEmpty: bool): (v: TopBarView)
      reads this
      ensures v.Nothing? <==> pageRole == HomePage
      ensures v.Bar? ==>
        v.loginButton != v.logoutButton &&
        (v.logoutButton <==> user.isLoggedIn) && v.loggedInAs == user.isLoggedIn &&
        (v.adminButton <==> user.isStaff) &&
        (v.toolsButton <==> user.isStaff && !toolsDialogEmpty) &&
        !v.searchButton && v.menuButton &&
        v.searchForm == showSearchForm &&
        (v.pageTitle <==> pageRole == Forum) && v.hideTitleEditButton == fixed &&
        v.placeholder == fixed && (fixed ==> v.placeholderHeight == initialHeight)
    {
      if pageRole == HomePage then Nothing
      else
        Bar(pageRole == Forum, fixed,
          user.isLoggedIn, !user.isLoggedIn, user.isLoggedIn,
          user.isStaff, user.isStaff && !toolsDialogEmpty,
          false, true, showSearchForm,
          fixed, if fixed then initialHeight else None)
    }
  }

  /** The tools button implies the admin button: both are for staff. */
  lemma ToolsImpliesAdmin(bar: TopBarComponent, pageRole: PageRole, user: User, toolsDialogEmpty: bool)
    requires bar.View(pageRole, user, toolsDialogEmpty).Bar?
    ensures bar.View(pageRole, user, toolsDialogEmpty).toolsButton ==> bar.View(pageRole, user, toolsDialogEmpty).adminButton
  {
  }

  /** Two clicks on search leave the form as it was. */
  method SearchClickTwice(bar: TopBarComponent)
    modifies bar
    ensures bar.showSearchForm == old(bar.showSearchForm) && bar.fixed == old(bar.fixed)
  {
    bar.OnSearchClick();
    bar.OnSearchClick();
  }

  /** Closing the search form twice is closing it once. */
  method CloseSearchFormTwice(bar: TopBarComponent)
    modifies bar
    ensures !bar.showSearchForm && bar.fixed == old(bar.fixed)
  {
    bar.CloseSearchForm();
    bar.CloseSearchForm();
  }
}
