/** The page title editor: title, category, topic type, and for admins the
    forum layout and the page's URL path and HTML settings. */
module TitleEditor {
  import opened Wrappers
  import opened PageTypes

  /** Starts and ends with a slash. */
  predicate IsFolderPath(f: string) {
    |f| > 0 && f[0] == '/' && f[|f| - 1] == '/'
  }

  /** `addFolderSlashes`: a missing folder stays missing; a string gets a slash
      appended unless it ends with one, then one prepended unless it starts
      with one. */
  function AddFolderSlashes(folder: Option<string>): (r: Option<string>)
    ensures folder.None? <==> r.None?
    ensures r.Some? ==> IsFolderPath(r.value)
    ensures r.Some? ==>
      var s := folder.value;
      var suffix := if |s| > 0 && s[|s| - 1] == '/' then "" else "/";
      var prefix := if (s + suffix)[0] == '/' then "" else "/";
      r.value == prefix + s + suffix
    ensures folder.Some? && IsFolderPath(folder.value) ==> r == folder
  {
    if folder.None? then None
    else
      var f := folder.value;
      var f1 := if |f| > 0 && f[|f| - 1] == '/' then f else f + "/";
      var f2 := if f1[0] == '/' then f1 else "/" + f1;
      Some(f2)
  }

  /** Normalising a folder twice is normalising it once. */
  lemma AddFolderSlashesIdempotent(folder: Option<string>)
    ensures AddFolderSlashes(AddFolderSlashes(folder)) == AddFolderSlashes(folder)
  {
  }

  /** The empty folder is the root folder. */
  lemma EmptyFolderIsRoot()
    ensures AddFolderSlashes(Some("")) == Some("/")
  {
    assert "" + "/" == "/";
  }

  /** The menu text of a topic list layout; a missing one is title only. */
  function TopicListLayoutGetName(pageLayout: Option<TopicListLayout>): (name: string)
    ensures name == "Show topic title only" <==> pageLayout.None? || pageLayout == Some(TitleOnly)
    ensures pageLayout == Some(TitleExcerptSameLine) ==> name == "Title and excerpt on same line"
    ensures pageLayout == Some(ExcerptBelowTitle) ==> name == "Excerpt below title"
    ensures pageLayout == Some(ThumbnailsBelowTitle) ==> name == "Excerpt and preview images below title"
    ensures pageLayout == Some(NewsFeed) ==> name == "News feed"
  {
    if pageLayout.None? then "Show topic title only"
    else match pageLayout.value {
      case TitleExcerptSameLine => "Title and excerpt on same line"
      case ExcerptBelowTitle => "Excerpt below title"
      case ThumbnailsBelowTitle => "Excerpt and preview images below title"
      case NewsFeed => "News feed"
      case TitleOnly => "Show topic title only"
    }
  }

  /** Two layouts share a menu text only when both show the title only. */
  lemma LayoutNamesDistinct(a: Option<TopicListLayout>, b: Option<TopicListLayout>)
    requires TopicListLayoutGetName(a) == TopicListLayoutGetName(b)
    ensures a == b || ((a.None? || a == Some(TitleOnly)) && (b.None? || b == Some(TitleOnly)))
  {
  }

  /** The page URL shown in the advanced settings: origin, the normalised
      folder, `-<pageId>` when the id is shown, then the slug, after a slash
      only when both the id part and the slug are non-empty. */
  function PageUrl(origin: string, folder: string, showId: bool, pageId: string, slug: string): (url: string)
    ensures showId && slug != "" ==>
      url == origin + AddFolderSlashes(Some(folder)).value + "-" + pageId + "/" + slug
    ensures showId && slug == "" ==>
      url == origin + AddFolderSlashes(Some(folder)).value + "-" + pageId
    ensures !showId ==> url == origin + AddFolderSlashes(Some(folder)).value + slug
  {
    var dashId := if showId then "-" + pageId else "";
    var slashSlug := if dashId != "" && slug != "" then "/" + slug else slug;
    origin + AddFolderSlashes(Some(folder)).value + dashId + slashSlug
  }

  /** Without the page id the slug follows the folder's closing slash. */
  lemma PageUrlWithoutId(origin: string, folder: string, pageId: string, slug: string)
    ensures
      var url := PageUrl(origin, folder, false, pageId, slug);
      var f := AddFolderSlashes(Some(folder)).value;
      url[..|origin| + |f|] == origin + f && url[|origin| + |f| - 1] == '/' && url[|origin| + |f|..] == slug
  {
    var f := AddFolderSlashes(Some(folder)).value;
    assert PageUrl(origin, folder, false, pageId, slug) == (origin + f) + slug;
  }

  datatype PagePath = PagePath(folder: string, slug: string, showId: bool)

  /** The page being edited, as the store holds it. */
  datatype Page = Page(
    pageId: string,
    pageRole: PageRole,
    categoryId: Option<int>,
    pagePath: PagePath,
    pageHtmlTagCssClasses: Option<string>,
    pageHtmlHeadTitle: Option<string>,
    pageHtmlHeadDescription: Option<string>)

  /** What `getSettings` sends; absent fields are `None`. */
  datatype PageSettings = PageSettings(
    categoryId: Option<int>,
    pageRole: PageRole,
    pageLayout: Option<TopicListLayout>,
    folder: Option<string>,
    slug: Option<string>,
    showId: Option<bool>,
    htmlTagCssClasses: Option<string>,
    htmlHeadTitle: Option<string>,
    htmlHeadDescription: Option<string>,
    layout: Option<string>)

  datatype SaveRequest = SaveRequest(settings: PageSettings, newTitle: string)

  /** What the page and the user decide, as the render reads them from the store. */
  datatype RenderContext = RenderContext(
    origin: string,
    page: Page,
    isAdmin: bool,
    showExperimental: bool,
    hasIntro: bool,
    canChangeCategory: bool,
    showCategories: bool,
    mayChangeRole: bool,
    selectTopicType: bool)

  datatype EditorView =
    | Placeholder
    | Editor(
        selectCategory: bool,
        selectTopicType: bool,
        addForumIntroButton: bool,
        layoutAndSettingsButton: bool,
        advancedButton: bool,
        layoutAndSettingsPanel: bool,
        advancedPanel: bool,
        seoInputs: bool,
        urlAndCssEditor: bool,
        slugAndShowIdInputs: bool,
        url: Option<string>,
        savingDots: bool)

  /** The editor's whole React state, as one value. */
  datatype EditorState = EditorState(
    showComplicated: bool,
    showLayoutAndSettings: bool,
    editorScriptsLoaded: bool,
    isSaving: bool,
    pageRole: PageRole,
    categoryId: Option<int>,
    pageLayout: Option<TopicListLayout>,
    folder: Option<string>,
    slug: Option<string>,
    showId: Option<bool>,
    htmlTagCssClasses: Option<string>,
    htmlHeadTitle: Option<string>,
    htmlHeadDescription: Option<string>)

  class TitleEditorComponent {
    var showComplicated: bool
    var showLayoutAndSettings: bool
    var editorScriptsLoaded: bool
    var isSaving: bool
    var pageRole: PageRole
    var categoryId: Option<int>
    var pageLayout: Option<TopicListLayout>
    var folder: Option<string>
    var slug: Option<string>
    var showId: Option<bool>
    var htmlTagCssClasses: Option<string>
    var htmlHeadTitle: Option<string>
    var htmlHeadDescription: Option<string>

    function State(): EditorState
      reads this
    {
      EditorState(showComplicated, showLayoutAndSettings, editorScriptsLoaded, isSaving, pageRole, categoryId,
        pageLayout, folder, slug, showId, htmlTagCssClasses, htmlHeadTitle, htmlHeadDescription)
    }

    /** At most one of the two extra panels is open, and the advanced panel
        has the page path to show. */
    predicate Valid()
      reads this
    {
      !(showComplicated && showLayoutAndSettings) &&
      (showComplicated ==> folder.Some? && slug.Some? && showId.Some?)
    }

    constructor (page: Page)
      ensures Valid()
      ensures !showComplicated && !showLayoutAndSettings && !editorScriptsLoaded && !isSaving
      ensures pageRole == page.pageRole && categoryId == page.categoryId
      ensures pageLayout.None? && folder.None? && slug.None? && showId.None?
      ensures htmlTagCssClasses.None? && htmlHeadTitle.None? && htmlHeadDescription.None?
    {
      showComplicated := false;
      showLayoutAndSettings := false;
      editorScriptsLoaded := false;
      isSaving := false;
      pageRole := page.pageRole;
      categoryId := page.categoryId;
      pageLayout := None;
      folder := None;
      slug := None;
      showId := None;
      htmlTagCssClasses := None;
      htmlHeadTitle := None;
      htmlHeadDescription := None;
    }

    /** The editor scripts have arrived. */
    method OnEditorScriptsLoaded()
      requires Valid()
      modifies this
      ensures Valid() && State() == old(State()).(editorScriptsLoaded := true)
    {
      editorScriptsLoaded := true;
    }

    /** The "Layout and settings" button, shown only while the advanced panel is closed. */
    method ShowLayoutAndSettings()
      requires Valid() && !showComplicated
      modifies this
      ensures Valid() && State() == old(State()).(showLayoutAndSettings := true)
    {
      showLayoutAndSettings := true;
    }

    /** The "Advanced" button, shown only while the layout panel is closed:
        copy the page's path and HTML settings into the form. */
    method ShowComplicated(page: Page)
      requires Valid() && !showLayoutAndSettings
      modifies this
      ensures Valid() && showComplicated && !showLayoutAndSettings
      ensures folder == Some(page.pagePath.folder) && slug == Some(page.pagePath.slug)
      ensures showId == Some(page.pagePath.showId)
      ensures htmlTagCssClasses == Some(page.pageHtmlTagCssClasses.GetOr(""))
      ensures htmlHeadTitle == page.pageHtmlHeadTitle && htmlHeadDescription == page.pageHtmlHeadDescription
      ensures pageRole == old(pageRole) && categoryId == old(categoryId) && pageLayout == old(pageLayout)
      ensures isSaving == old(isSaving) && editorScriptsLoaded == old(editorScriptsLoaded)
    {
      showComplicated := true;
      folder := Some(page.pagePath.folder);
      slug := Some(page.pagePath.slug);
      showId := Some(page.pagePath.showId);
      htmlTagCssClasses := Some(page.pageHtmlTagCssClasses.GetOr(""));
      htmlHeadTitle := page.pageHtmlHeadTitle;
      htmlHeadDescription := page.pageHtmlHeadDescription;
    }

    /** The title changed: the slug follows it (through `slugify`) only when
        the page id will be in the URL, as the show-id checkbox says when it
        is rendered and the page's path says otherwise. */
    method OnTitleChanged(page: Page, showIdInput: Option<bool>, editedTitle: string, slugify: string -> string)
      requires Valid()
      modifies this
      ensures Valid()
      ensures showIdInput.GetOr(page.pagePath.showId) ==> slug == Some(slugify(editedTitle))
      ensures !showIdInput.GetOr(page.pagePath.showId) ==> slug == old(slug)
      ensures State() == old(State()).(slug := slug)
    {
      var idWillBeInUrlPath := if showIdInput.Some? then showIdInput.value else page.pagePath.showId;
      if !idWillBeInUrlPath {
        return;
      }
      slug := Some(slugify(editedTitle));
    }

    method OnCategoryChanged(id: int)
      requires Valid()
      modifies this
      ensures Valid() && State() == old(State()).(categoryId := Some(id))
    {
      categoryId := Some(id);
    }

    method OnPageRoleChanged(role: PageRole)
      requires Valid()
      modifies this
      ensures Valid() && State() == old(State()).(pageRole := role)
    {
      pageRole := role;
    }

    /** A layout menu item. */
    method SetPageLayout(layout: TopicListLayout)
      requires Valid()
      modifies this
      ensures Valid() && State() == old(State()).(pageLayout := Some(layout))
    {
      pageLayout := Some(layout);
    }

    /** The folder, slug and show-id inputs exist only in the advanced panel. */
    method OnFolderChanged(value: string)
      requires Valid() && showComplicated
      modifies this
      ensures Valid() && State() == old(State()).(folder := Some(value))
    {
      folder := Some(value);
    }

    method OnSlugChanged(value: string)
      requires Valid() && showComplicated
      modifies this
      ensures Valid() && State() == old(State()).(slug := Some(value))
    {
      slug := Some(value);
    }

    method OnShowIdChanged(checked: bool)
      requires Valid() && showComplicated
      modifies this
      ensures Valid() && State() == old(State()).(showId := Some(checked))
    {
      showId := Some(checked);
    }

    /** `getSettings`: the form's fields, the folder normalised, plus the
        layout input's value when such an input exists. */
    function GetSettings(layoutInput: Option<string>): (s: PageSettings)
      reads this
      ensures s.folder == AddFolderSlashes(folder)
      ensures s.folder.Some? ==> IsFolderPath(s.folder.value)
      ensures s.layout == layoutInput
      ensures s.categoryId == categoryId && s.pageRole == pageRole && s.pageLayout == pageLayout
      ensures s.slug == slug && s.showId == showId
      ensures s.htmlTagCssClasses == htmlTagCssClasses
      ensures s.htmlHeadTitle == htmlHeadTitle && s.htmlHeadDescription == htmlHeadDescription
    {
      PageSettings(categoryId, pageRole, pageLayout, AddFolderSlashes(folder), slug, showId,
        htmlTagCssClasses, htmlHeadTitle, htmlHeadDescription, layoutInput)
    }

    /** `save`: mark saving and send the settings with the new title. */
    method Save(newTitle: string, layoutInput: Option<string>) returns (req: SaveRequest)
      requires Valid()
      modifies this
      ensures Valid() && State() == old(State()).(isSaving := true)
      ensures req == SaveRequest(old(GetSettings(layoutInput)), newTitle)
    {
      isSaving := true;
      req := SaveRequest(GetSettings(layoutInput), newTitle);
    }

    /** The save request failed: the Save button comes back. */
    method OnSaveError()
      requires Valid()
      modifies this
      ensures Valid() && State() == old(State()).(isSaving := false)
    {
      isSaving := false;
    }

    /** Which parts of the editor are shown. */
    function View(ctx: RenderContext): (v: EditorView)
      reads this
      requires Valid()
      ensures v.Placeholder? <==> !editorScriptsLoaded
      ensures v.Editor? ==>
        var isForum := ctx.page.pageRole == Forum;
        (v.layoutAndSettingsButton <==>
          ctx.isAdmin && isForum && !showLayoutAndSettings && !showComplicated) &&
        (v.advancedButton <==>
          ctx.isAdmin && (isForum || ctx.showExperimental) && ctx.page.pageRole != FormalMessage &&
          !showComplicated && !showLayoutAndSettings) &&
        v.layoutAndSettingsPanel == showLayoutAndSettings &&
        v.advancedPanel == showComplicated &&
        (v.seoInputs <==> showComplicated && isForum) &&
        (v.urlAndCssEditor <==> showComplicated && ctx.showExperimental) &&
        (v.slugAndShowIdInputs <==> v.urlAndCssEditor && !isForum) &&
        (v.url.Some? <==> v.urlAndCssEditor) &&
        (v.url.Some? ==>
          v.url.value == PageUrl(ctx.origin, folder.value, showId.value, ctx.page.pageId, slug.value)) &&
        (v.selectCategory <==> ctx.canChangeCategory && ctx.showCategories) &&
        (v.selectTopicType <==> ctx.mayChangeRole && ctx.selectTopicType) &&
        (v.addForumIntroButton <==> isForum && !ctx.hasIntro) &&
        v.savingDots == isSaving
    {
      if !editorScriptsLoaded then Placeholder
      else
        var isForum := ctx.page.pageRole == Forum;
        var layoutAndSettingsButton :=
          !(showLayoutAndSettings || !ctx.isAdmin || ctx.page.pageRole != Forum);
        var existsAdvStuffToEdit := isForum || ctx.showExperimental;
        var advancedStuffButton :=
          !(!existsAdvStuffToEdit || showComplicated || !ctx.isAdmin || ctx.page.pageRole == FormalMessage);
        var urlEditor := showComplicated && ctx.showExperimental;
        Editor(
          ctx.canChangeCategory && ctx.showCategories,
          ctx.mayChangeRole && ctx.selectTopicType,
          isForum && !ctx.hasIntro,
          if showComplicated then false else layoutAndSettingsButton,
          if showLayoutAndSettings then false else advancedStuffButton,
          showLayoutAndSettings,
          showComplicated,
          showComplicated && isForum,
          urlEditor,
          urlEditor && !isForum,
          if urlEditor then Some(PageUrl(ctx.origin, folder.value, showId.value, ctx.page.pageId, slug.value)) else None,
          isSaving)
    }
  }

  /** A shown button never appears beside an open panel, and both buttons are
      for admins only. */
  lemma ButtonsExcludePanels(e: TitleEditorComponent, ctx: RenderContext)
    requires e.Valid() && e.View(ctx).Editor?
    ensures
      var v := e.View(ctx);
      (v.layoutAndSettingsButton || v.advancedButton) ==> ctx.isAdmin && !v.layoutAndSettingsPanel && !v.advancedPanel
    ensures !(e.View(ctx).layoutAndSettingsPanel && e.View(ctx).advancedPanel)
  {
  }

  /** Opening either panel hides both buttons. */
  method OpenPanelHidesButtons(e: TitleEditorComponent, ctx: RenderContext, page: Page, advanced: bool)
    requires e.Valid() && e.editorScriptsLoaded && !e.showComplicated && !e.showLayoutAndSettings
    modifies e
    ensures e.Valid()
    ensures e.View(ctx).Editor?
    ensures !e.View(ctx).layoutAndSettingsButton && !e.View(ctx).advancedButton
  {
    if advanced {
      e.ShowComplicated(page);
    } else {
      e.ShowLayoutAndSettings();
    }
  }
}
