# Talkyard UI rules in Dafny

This project models the decision logic of five Talkyard client files. Talkyard is a forum and discussion system. Its browser client decides many small things on its own, and this model covers those decisions:

- **Forum topic list** (`forum.ts`):
  - the pagination cursor taken from the last listed topic;
  - when a fetch starts, and how a view change resets the list;
  - how a fetched batch is merged: appended, then de-duplicated by page id with first occurrences kept;
  - when "load more" is offered;
  - the preview-image URLs of a topic;
  - the create-topic button title and the topic type of a new topic;
  - the title icon and tooltip table;
  - validation of the forum URL's sort-order segment;
  - the URLs the category, sort-order and filter buttons navigate to.
- **Talkyard Tour** (`talkyard-tour.ts`): a step machine with start, next, prev, exit and click to advance. It keeps a per-tour progress map on the user object, which it updates in place. The dialog and highlight are placed per `PlaceHow`, computed with exact `real` arithmetic. The render shows the dialog's buttons and counter.
- **Title editor** (`title-editor.more.ts`):
  - folder normalisation (`addFolderSlashes`);
  - layout names;
  - the previewed page URL;
  - the slug that follows the title;
  - the settings sent on save;
  - which buttons and panels are visible.
- **Change-page dialog** (`ChangePageModal.more.ts`): the open/close record, and which items the dialog lists for a page. The items are status, category, type, view-answer, close and reopen.
- **Top bar** (`topbar.ts`): sticking to the window on scroll, with a 6-pixel hysteresis band. It also covers the search form toggle and which buttons a user sees.

Form of the model:

- **Stateful parts** are Dafny classes whose fields are the React state:
  - `ForumPagination.LoadAndListTopics`
  - `TalkyardTour.TalkyardTourComponent`
  - `TalkyardTour.Myself`
  - `TitleEditor.TitleEditorComponent`
  - `ChangePageModal.ChangePageDialog`
  - `TopBar.TopBarComponent`

  Each handler is a method that states the whole new state. Where an invariant exists, it is kept as `Valid()`.
- **Pure decisions** are functions. Lemmas relate them to each other or to an independent characterisation.
- **JavaScript semantics are written out:**
  - Truthiness of optional numbers: `0` and `undefined` are false.
  - `String.replace` with a string pattern cuts out only the first occurrence.
  - `split('/')`.
  - `toLowerCase` is ASCII only.
  - lodash `_.uniq`/`_.uniqBy` keep first occurrences.
  - `x || fallback` on optional numbers.
  - JavaScript turns `undefined` into the text "undefined" when a string is appended to it.
- **Inputs that come from elsewhere** are parameters:
  - DOM measurements: bounding boxes, `clientHeight`, `pageYOffset`.
  - The element lookup of a tour step, as a function from selector to optional box.
  - `slugify`.
  - The store's pages.
  - Answers of helpers not shown here, passed as booleans: `page_hasDoingStatus`, `page_canToggleClosed`, `isStaff`, `store_thisIsMyPage`, the settings predicates, and whether the tools dialog is empty.
  - The values of the `RoutePath*` constants: they are declared in a file that is not part of this model (`latest`, `new`, `top`, `categories`).

### Behaviour of the code worth noting

- "Load more" is offered when the last batch had **at least** 40 topics (`>=`, `forum.ts:837`, `forum.ts:680`).
- The fetch callback only tests `isGone` (`forum.ts:823`); it does not check that the response belongs to the view still shown. A late response for an old view is merged, and with `isNewView = true` it replaces the list.
- `loadForumTopics` is given no error callback (`forum.ts:822`). A failed fetch therefore never clears `isLoading`. The model has no failure transition.
- `goToPrevStep` has no lower bound (`talkyard-tour.ts:169-172`): Prev on the first step gives index −1, which shows the "no tour" marker.
- The cursor is reset when the pathname, the query string or the top period changes (`forum.ts:779-782`). Category and sort order are part of the pathname, and the topic filter is part of the query.

## Model

| member | source | states |
|---|---|---|
| ForumTopics.IsDone | client/app-slim/forum/forum.ts:1661-1665 | a done topic has a truthy done time and is never a question, which is answered instead |
| ForumTopics.IsAnswered | client/app-slim/forum/forum.ts:1661-1671 | an answered question is never "done": done needs a problem, idea, to-do or usability-test role |
| ForumTopics.WithoutGifs | client/app-slim/forum/forum.ts:1357 | a URL is kept iff it was in the input and its lower-cased text contains no ".gif" |
| ForumTopics.MediaThumbnailUrls | client/app-slim/forum/forum.ts:1354-1359 | a URL is listed iff it is a body or popular-reply image URL without ".gif" in any case; no URL is listed twice |
| ForumTopics.MediaThumbnailOrder | client/app-slim/forum/forum.ts:1354-1359 | the body's non-GIF images come first, each once and in their order, followed by the popular replies' non-GIF images that the body lacks, each once and in their order |
| ForumTopics.CreateTopicBtnTitle | client/app-slim/forum/forum.ts:1632-1657 | each single-type list gets its own title (idea, question, problem, mind map), in both directions; "Create page" iff the list has one or two types, all web pages; a missing list is the TypeError of `topicTypes[0]` |
| ForumTopics.MakeTitle | client/app-slim/forum/forum.ts:1492-1629 | corrected title: a present tooltip is non-empty and never contains "undefined"; a pinned topic's tooltip ends with the pin text; marked deleted iff `deletedAtMs` is truthy |
| ForumTopics.RoleIcon | client/app-slim/forum/forum.ts:1497-1612 | the closed icon iff closed, not done and not answered; with topic-type icons on, every topic gets an icon and a base tooltip; a topic without a base tooltip shows no icon |
| ForumTopics.MakeTitleAsWritten | client/app-slim/forum/forum.ts:1492-1629 | as written: the role's icon; the tooltip contains the word "undefined" exactly when the topic is pinned and has no base tooltip; marked deleted iff `deletedAtMs` is truthy |
| ForumTopics.PinnedTooltipShowsUndefined | client/app-slim/forum/forum.ts:1619-1622 | as written, the tooltip of a pinned, open discussion with topic-type icons off begins with the word "undefined" |
| ForumTopics.MakeTitleAgrees | client/app-slim/forum/forum.ts:1492-1629 | the corrected title has the same icon as the as-written one, and is identical whenever a base tooltip exists or the topic is not pinned |
| ForumTopics.ClosedIconIffClosedUnresolved | client/app-slim/forum/forum.ts:1499-1503 | the closed icon is shown iff the topic is closed and neither done nor answered |
| ForumTopics.ResolvedIcons | client/app-slim/forum/forum.ts:1504-1580 | done problems, ideas and usability tests show the check icon, and answered questions the ok icon, whatever the icon setting |
| ForumTopics.IconsWhenTypesHidden | client/app-slim/forum/forum.ts:1497-1612 | with topic-type icons off, only closed, answered, done, lock, mail and info-page icons remain; no icon means not closed-unresolved, not answered, and done only for a to-do |
| ForumRoutes.RouteSegments | client/app-slim/forum/forum.ts:182-185 | the path after the forum path always has at least one segment |
| ForumRoutes.ForumRender | client/app-slim/forum/forum.ts:165-196 | a non-forum page shows "Loading"; a forum page lists topics iff the first segment is latest, new, top or categories, and otherwise shows the bad-route error with that segment; a listing has a category slug iff there is a second segment, and it is that segment |
| ForumRoutes.ForumRenderOfForumUrl | client/app-slim/forum/forum.ts:182-196 | forum path + route + "/" + slug is read back as exactly that route and that slug |
| ForumRoutes.ForumRenderOfSortOrderUrl | client/app-slim/forum/forum.ts:182-196 | forum path + route is read back as that route with no slug |
| ForumRoutes.FindIndex | client/app-slim/forum/forum.ts:148-150 | `_.find`: the first index whose category satisfies the predicate, or none when no category does |
| ForumRoutes.GetActiveCategory | client/app-slim/forum/forum.ts:142-163 | without a slug, the forum root pseudo-category (forum itself, no topic types); with a slug, the first category with that slug, and none iff no category has it |
| ForumRoutes.ActiveOrDefaultCategory | client/app-slim/forum/forum.ts:494-499 | the active category unless it is the forum itself; then the first default category, when one exists and no listed category is itself the forum |
| ForumRoutes.SetCategory | client/app-slim/forum/forum.ts:314-323 | the query is kept; the sort order is kept, except that the category tree becomes the latest-topics view; the slug is appended after a slash only when non-empty |
| ForumRoutes.SetCategoryIsListed | client/app-slim/forum/forum.ts:314-323 | from a valid route, the URL setCategory navigates to is accepted by the forum route check and lists the chosen category in the kept sort order |
| ForumRoutes.SetSortOrder | client/app-slim/forum/forum.ts:332-338 | the query is kept; the path is the forum path, the new sort order and the current category slug after a slash when non-empty (read back by SetSortOrderIsListed) |
| ForumRoutes.SetSortOrderIsListed | client/app-slim/forum/forum.ts:332-338 | from a valid sort order, the URL setSortOrder navigates to is accepted by the forum route check and lists the same category in the new sort order |
| ForumRoutes.SetTopicFilter | client/app-slim/forum/forum.ts:358-370 | "show all" removes `filter`; any other choice sets it; every other query parameter is unchanged |
| ForumRoutes.SetTopicFilterIdempotent | client/app-slim/forum/forum.ts:358-370 | choosing the same filter twice gives the same query as choosing it once |
| ForumRoutes.NewTopicRole | client/app-slim/forum/forum.ts:415-429 | a category listing exactly one type gives that type; no list, an empty list or several types give Discussion |
| ForumRoutes.CreateTopicType | client/app-slim/forum/forum.ts:407-430 | a specific category gets the topic, with its type rule; while all categories are listed, the topic goes to the FIRST default category with that category's type rule, and the call fails iff no category is a default one |
| ForumPagination.GetOrderOffset | client/app-slim/forum/forum.ts:847-876 | top: score-and-bump order with the period, and the last topic's bump time (falling back to its creation time) and score; new: created-at order with the last creation time; other routes: bump order with the last bump time; no topics: no `olderThan` and no score |
| ForumPagination.OffsetDependsOnLastTopic | client/app-slim/forum/forum.ts:853-857 | the cursor after `listed + [t]` equals the cursor after `[t]` |
| ForumPagination.Merge | client/app-slim/forum/forum.ts:824-828 | `_.uniqBy(old.concat(new), 'pageId')`: no page id twice, and never longer than both lists together |
| ForumPagination.MergeSpec | client/app-slim/forum/forum.ts:824-828 | after a merge no page id appears twice; every topic came from the old list or the batch; every page id of either appears |
| ForumPagination.MergeKeepsOldFirst | client/app-slim/forum/forum.ts:824-828 | an old list without repeated ids is kept as a prefix, in order, followed by the batch's topics with new ids in their order |
| ForumPagination.MergeOfNewTopics | client/app-slim/forum/forum.ts:824-828 | a batch of distinct, not yet listed topics is appended whole |
| ForumPagination.MergeWithBoundaryOverlap | client/app-slim/forum/forum.ts:826-828 | a batch that starts with the last listed topic (the boundary record) loses exactly that topic, and the rest is appended |
| ForumPagination.CanUseTopicsInScriptTag | client/app-slim/forum/forum.ts:721-732 | the server-included topics are used iff they are present and fresh, the route is latest, the filter is empty or "show all", and no category slug is given |
| ForumPagination.CurrentPageIsForumPage | client/app-slim/forum/forum.ts:785-792 | true iff some store page has the forum's path and is the current page |
| ForumPagination.LoadAndListTopics.constructor | client/app-slim/forum/forum.ts:672-686 | starts from the store's topics, with "load more" iff at least 40, when they are usable; otherwise with no list and no button |
| ForumPagination.LoadAndListTopics.LoadTopics | client/app-slim/forum/forum.ts:772-821 | a fetch starts iff there is an active category, the forum page is current, and the view is new, "load more" was asked for, or nothing is listed or loading; without a fetch nothing changes; a fetch sets `isLoading` and asks for the active category with the next filter; a new view empties the list, hides "load more", remembers the height and drops `olderThan` and score; otherwise the list stays and the cursor continues after the last topic; "load more" is never shown without a list |
| ForumPagination.LoadAndListTopics.OnTopicsLoaded | client/app-slim/forum/forum.ts:822-838 | after unmount nothing changes; otherwise the list becomes the merge of the old list (empty for a new view) and the batch, "load more" is shown iff the batch had at least 40 topics, and loading ends |
| ForumPagination.LoadAndListTopics.ComponentDidMount | client/app-slim/forum/forum.ts:734-739 | loading for the current props is never a new view: a fetch starts iff there is an active category, the forum page is current and nothing is listed or loading; the fetch is for the active category from the current cursor with the filter, and sets `isLoading`; nothing else changes |
| ForumPagination.LoadAndListTopics.ReceiveProps | client/app-slim/forum/forum.ts:755-758 | adopts the next props; a fetch starts iff there is an active category, the forum page is current, and the view is new or nothing is listed or loading; a new view empties the list, hides "load more", remembers the height and restarts the cursor with the next filter; otherwise the list stays and the cursor continues; without a fetch nothing else changes |
| ForumPagination.LoadAndListTopics.LoadMoreTopics | client/app-slim/forum/forum.ts:768-770 | a fetch starts iff there is an active category and the forum page is current; it is a load-more fetch for the active category, never a new view, continues from the current cursor and sets `isLoading`; the list, the button and the height are kept |
| ForumPagination.LoadAndListTopics.ComponentWillUnmount | client/app-slim/forum/forum.ts:764-766 | marks the component gone and changes nothing else |
| ForumPagination.FullPageThenShortPage | client/app-slim/forum/forum.ts:822-838 | a full page of 40 followed by a 6-topic batch overlapping it by the boundary topic lists 45 topics and offers no "load more" |
| Text.IndexOf | client/app-slim/forum/forum.ts:1357 | `indexOf`: the first position where the pattern occurs, or none when it occurs nowhere |
| Text.RemoveFirst | client/app-slim/forum/forum.ts:182 | `replace` with a string removes the first occurrence of the pattern only, and returns the input when there is none |
| Text.SplitJoin | client/app-slim/forum/forum.ts:185 | `split` parts joined with the separator give back the string, and no part contains the separator |
| Text.ToLower | client/app-slim/forum/forum.ts:1357 | lower-casing keeps the length and maps each character on its own |
| Uniq.UniqFromSpec | client/app-slim/forum/forum.ts:828 | de-duplication keeps only input elements; the kept keys are exactly the input keys not yet seen, each kept once |
| Uniq.UniqFromAppend | client/app-slim/forum/forum.ts:826-828 | de-duplicating `a + b` is de-duplicating `a`, then `b` against the keys of `a` |
| Uniq.Uniq | client/app-slim/forum/forum.ts:1358 | `_.uniq` keeps every value and repeats none |
| TalkyardTour.StepAt | client/app-slim/utils/talkyard-tour.ts:157 | there is a step iff a tour exists and the index lies within its steps |
| TalkyardTour.Render | client/app-slim/utils/talkyard-tour.ts:154-206 | no tour renders nothing; an index with no step renders the "no tour" marker; a dialog has Next disabled iff the step waits for a click, "Goodbye" on Next iff it is the last step, the Exit button iff it is not, and the counter `index+1 / steps` |
| TalkyardTour.ExactlyOneGoodbye | client/app-slim/utils/talkyard-tour.ts:199-205 | a dialog offers exactly one way to say goodbye |
| TalkyardTour.Place | client/app-slim/utils/talkyard-tour.ts:82-127 | the placement satisfies `PlacedPer`: left, right, above and below put the dialog 2·13 beyond that edge of the target, centred along it; the default centres it and turns the highlight off; otherwise the highlight is centred on the target plus the offsets, padded by the step's padding or 13 |
| TalkyardTour.TalkyardTourComponent.constructor | client/app-slim/utils/talkyard-tour.ts:52-54 | no tour, index 0, element not visible |
| TalkyardTour.TalkyardTourComponent.StartNewTour | client/app-slim/utils/talkyard-tour.ts:148-152 | shows the tour from its stored progress, or from no index when none is stored |
| TalkyardTour.TalkyardTourComponent.GoToNextStep | client/app-slim/utils/talkyard-tour.ts:161-167 | the index grows by exactly 1; the progress map stores the index being left for this tour, and the other entries stay the same |
| TalkyardTour.TalkyardTourComponent.GoToPrevStep | client/app-slim/utils/talkyard-tour.ts:169-172 | the index shrinks by exactly 1, with no lower bound |
| TalkyardTour.TalkyardTourComponent.ExitTour | client/app-slim/utils/talkyard-tour.ts:174-176 | the tour is cleared; the index and the progress map stay |
| TalkyardTour.TalkyardTourComponent.MaybeGoNextOnElemClick | client/app-slim/utils/talkyard-tour.ts:178-182 | on a step waiting for a click it behaves like Next; otherwise nothing changes |
| TalkyardTour.TalkyardTourComponent.PlaceAtStepElem | client/app-slim/utils/talkyard-tour.ts:63-127 | a missing element means waiting for it and nothing changes; a present one is marked visible and the dialog and highlight are placed per `PlacedPer` for that element's box, listening for a click iff the step waits for one |
| TalkyardTour.TalkyardTourComponent.DoWhenPlaceAtElemVisibleAsWritten | client/app-slim/utils/talkyard-tour.ts:60-127 | as written: nothing without a tour; with a tour but no step at the index the effect crashes; with a step it waits iff the element is absent, and otherwise places the dialog per the element's box |
| TalkyardTour.TalkyardTourComponent.DoWhenPlaceAtElemVisible | client/app-slim/utils/talkyard-tour.ts:60-127 | corrected: the effect never crashes and does nothing without a step; with a step it waits iff the element is absent, and otherwise marks it visible and places the dialog and highlight per the element's box |
| TalkyardTour.NoStepAfterLastStep | client/app-slim/utils/talkyard-tour.ts:157-201 | "Goodbye" on the last step leads to an index with no step, which renders the marker |
| TalkyardTour.NoStepBeforeFirstStep | client/app-slim/utils/talkyard-tour.ts:169-172 | Prev on the first step leads to index −1, which has no step |
| TalkyardTour.GoodbyeThenEffect | client/app-slim/utils/talkyard-tour.ts:60-63 | after "Goodbye" on the last step there is no step; the as-written effect then returns Crash and the corrected one NoEffect |
| TalkyardTour.RestartAfterNext | client/app-slim/utils/talkyard-tour.ts:148-167 | after Next on step 0, exit and restart, the tour shows step 0 again, because the stored progress is the index Next was pressed on |
| TitleEditor.AddFolderSlashes | client/app-more/editor/title-editor.more.ts:318-324 | a missing folder stays missing; a string comes back starting and ending with '/', with at most one slash added at each end, and unchanged if it already had both |
| TitleEditor.AddFolderSlashesIdempotent | client/app-more/editor/title-editor.more.ts:318-324 | normalising twice is normalising once |
| TitleEditor.EmptyFolderIsRoot | client/app-more/editor/title-editor.more.ts:319-321 | the empty folder becomes "/" |
| TitleEditor.TopicListLayoutGetName | client/app-more/editor/title-editor.more.ts:305-315 | the four named layouts get their own names; title-only and a missing layout get "Show topic title only", and only they do |
| TitleEditor.LayoutNamesDistinct | client/app-more/editor/title-editor.more.ts:305-315 | two layouts share a name only when both are title-only or missing |
| TitleEditor.PageUrl | client/app-more/editor/title-editor.more.ts:179-183 | origin + normalised folder + "-id" when the id is shown + the slug, after a slash only when both the id part and the slug are non-empty |
| TitleEditor.PageUrlWithoutId | client/app-more/editor/title-editor.more.ts:179-183 | without the id the slug directly follows the folder's closing slash |
| TitleEditor.TitleEditorComponent.constructor | client/app-more/editor/title-editor.more.ts:33-42 | nothing opened or saving; role and category are taken from the page |
| TitleEditor.TitleEditorComponent.OnEditorScriptsLoaded | client/app-more/editor/title-editor.more.ts:44-49 | the editor becomes renderable, and no other field changes |
| TitleEditor.TitleEditorComponent.ShowLayoutAndSettings | client/app-more/editor/title-editor.more.ts:55-57 | opens the layout panel while the advanced one is closed, and no other field changes |
| TitleEditor.TitleEditorComponent.ShowComplicated | client/app-more/editor/title-editor.more.ts:59-72 | opens the advanced panel, copying the page's folder, slug, show-id and HTML settings (CSS classes default to "") |
| TitleEditor.TitleEditorComponent.OnTitleChanged | client/app-more/editor/title-editor.more.ts:74-88 | the slug becomes the slugified title iff the id will be in the URL (the checkbox if rendered, else the page path); no other field changes |
| TitleEditor.TitleEditorComponent.OnCategoryChanged | client/app-more/editor/title-editor.more.ts:90-92 | sets the category, and no other field changes |
| TitleEditor.TitleEditorComponent.OnPageRoleChanged | client/app-more/editor/title-editor.more.ts:94-96 | sets the topic type, and no other field changes |
| TitleEditor.TitleEditorComponent.SetPageLayout | client/app-more/editor/title-editor.more.ts:157 | sets the chosen layout, and no other field changes |
| TitleEditor.TitleEditorComponent.OnFolderChanged | client/app-more/editor/title-editor.more.ts:98-100 | sets the folder, and no other field changes |
| TitleEditor.TitleEditorComponent.OnSlugChanged | client/app-more/editor/title-editor.more.ts:102-104 | sets the slug, and no other field changes |
| TitleEditor.TitleEditorComponent.OnShowIdChanged | client/app-more/editor/title-editor.more.ts:106-108 | sets show-id, and no other field changes |
| TitleEditor.TitleEditorComponent.GetSettings | client/app-more/editor/title-editor.more.ts:119-135 | the form's fields, with the folder always normalised (so it starts and ends with '/'), and `layout` present iff a layout input exists |
| TitleEditor.TitleEditorComponent.Save | client/app-more/editor/title-editor.more.ts:110-114 | marks saving and sends the settings from before the call together with the new title; no other field changes |
| TitleEditor.TitleEditorComponent.OnSaveError | client/app-more/editor/title-editor.more.ts:114-116 | the error callback clears saving, and no other field changes |
| TitleEditor.TitleEditorComponent.View | client/app-more/editor/title-editor.more.ts:147-300 | placeholder until the scripts load; "Layout and settings" iff admin, forum page and no panel open; "Advanced" iff admin, forum or experimental, not a formal message and no panel open; SEO inputs only on a forum; the URL, folder and CSS inputs iff the advanced panel is open with experimental settings on; slug and show-id inputs only off a forum among those |
| TitleEditor.ButtonsExcludePanels | client/app-more/editor/title-editor.more.ts:236-247 | a shown button is for an admin and never appears beside an open panel; the two panels are never open together |
| TitleEditor.OpenPanelHidesButtons | client/app-more/editor/title-editor.more.ts:292-294 | opening either panel hides both buttons |
| ChangePageModal.CloseItemText | client/app-more/page-dialogs/ChangePageModal.more.ts:175-188 | question: own or others' text by `isOwnPage`; to-do: the to-do text; every other role: the generic text (each in both directions) |
| ChangePageModal.CloseOrReopen | client/app-more/page-dialogs/ChangePageModal.more.ts:160-196 | nothing for a done or answered page, or one that cannot toggle closed; otherwise Reopen iff closed, else Close with the role's text |
| ChangePageModal.Items | client/app-more/page-dialogs/ChangePageModal.more.ts:140-154 | the category and topic-type items are always listed |
| ChangePageModal.ViewAnswerShown | client/app-more/page-dialogs/ChangePageModal.more.ts:100-107 | the view-answer button iff the page has an answer time and the caller asked for it |
| ChangePageModal.StatusItemsShown | client/app-more/page-dialogs/ChangePageModal.more.ts:98-138 | status items iff the page has a doing status and is not closed-but-not-done; then all four are listed, each active iff it is the page's status |
| ChangePageModal.StatusItemsComplete | client/app-more/page-dialogs/ChangePageModal.more.ts:112-138 | there is an item for every doing status |
| ChangePageModal.AtMostOneActiveStatus | client/app-more/page-dialogs/ChangePageModal.more.ts:112-138 | at most one item is active, and exactly one when status items are shown and the page has a status |
| ChangePageModal.CloseAndReopenShown | client/app-more/page-dialogs/ChangePageModal.more.ts:160-196 | never both Reopen and Close; neither for done, answered or non-togglable pages; otherwise Reopen iff closed and Close iff open |
| ChangePageModal.ChangePageDialog.constructor | client/app-more/page-dialogs/ChangePageModal.more.ts:46-51 | starts closed |
| ChangePageModal.ChangePageDialog.OpenAtFor | client/app-more/page-dialogs/ChangePageModal.more.ts:58-65 | open, with that page, at the box's left and bottom; the view-answer flag is replaced only when given |
| ChangePageModal.ChangePageDialog.Close | client/app-more/page-dialogs/ChangePageModal.more.ts:67-73 | closed, with the page and the view-answer flag cleared |
| ChangePageModal.ChangePageDialog.View | client/app-more/page-dialogs/ChangePageModal.more.ts:96-197 | a closed dialog lists no items; an open one lists the page's items |
| ChangePageModal.CloseEmpties | client/app-more/page-dialogs/ChangePageModal.more.ts:67-73 | after closing, no items are listed |
| TopBar.ScrollFixed | client/app/react-elements/topbar.ts:66-78 | an unfixed bar becomes fixed iff its top is above −6; a fixed bar stays fixed iff the page is not scrolled above its original offset |
| TopBar.HysteresisBand | client/app/react-elements/topbar.ts:66-78 | scrolling within 6 pixels below the original offset never changes the state, fixed or not |
| TopBar.FixedStaysFixed | client/app/react-elements/topbar.ts:66-78 | a bar that just became fixed stays fixed at the same scroll position |
| TopBar.TopBarComponent.constructor | client/app/react-elements/topbar.ts:43-50 | unfixed, no search form, offset −1 |
| TopBar.TopBarComponent.ComponentDidMount | client/app/react-elements/topbar.ts:52-58 | records the bar's page offset and height |
| TopBar.TopBarComponent.OnScroll | client/app/react-elements/topbar.ts:66-78 | `fixed` follows ScrollFixed, and nothing else changes |
| TopBar.TopBarComponent.OnSearchClick | client/app/react-elements/topbar.ts:109-113 | toggles the search form only |
| TopBar.TopBarComponent.CloseSearchForm | client/app/react-elements/topbar.ts:103-107 | hides the search form only |
| TopBar.TopBarComponent.View | client/app/react-elements/topbar.ts:115-192 | nothing on a home page; exactly one of log in / log out by login state; admin iff staff; tools iff staff and the tools dialog is not empty; no search button; a placeholder of the initial height iff fixed |
| TopBar.ToolsImpliesAdmin | client/app/react-elements/topbar.ts:133-139 | the tools button never appears without the admin button |
| TopBar.SearchClickTwice | client/app/react-elements/topbar.ts:109-113 | two search clicks leave the form as it was |
| TopBar.CloseSearchFormTwice | client/app/react-elements/topbar.ts:103-107 | closing the search form is idempotent |

## Left out

- Network calls are left out: `Server.loadForumTopics`, `loadStaffTours`, `editTitleAndSettings`, `saveTourTipsStates`, logout and `loadEditorAndMoreBundles`. A request is an output value and a response is an input value.
- No failure path is modelled for the topic fetch, because the code gives it no error callback.
- Timers are left out: the 1-second retry of the tour effect (modelled as the `WaitForElem` outcome), `scrollToLastPositionSoon`, and the layout-width polling.
- Scroll-position bookkeeping is left out.
- Click-blocker positioning against the window size is left out.
- The listener registration of a waiting step appears only as a flag.
- React element trees, CSS classes and i18n texts are left out. Views are records of booleans, and texts are tokens.
- `LoadAndListTopics.onChange` is left out. It re-sorts the store's topics with `topic_sortByLatestActivity`, a function that is not part of this model, and it starts the admin tour.
- `maybeRunTour` and its singleton mounting are left out. They are module-level globals and timers.
- `binProbLowerBound` and the feelings column are left out: floating-point square roots in an unused column.
- `getSortOrderName` is left out: it only picks an i18n text.
- `window['debikiSlugify']` is a function parameter of `OnTitleChanged`.
- `stringifyQueryString` is left out. `ForumRoutes.SetTopicFilter` returns the query map instead of its text.
- `history.push` is left out. Navigation results are `Location` values.
- `SearchForm` is left out: form submit, XSRF cookie and keymaster binding.
- The topic-type and category dropdown components are left out.
- Lower-casing covers ASCII letters only. This is enough to recognise ".gif" in any case, but the rest of Unicode case mapping is not modelled.
- `TitleEditor.TitleEditorComponent.Save`: the success callback `closeEditor` belongs to the caller and is not modelled.
- `TitleEditor.TitleEditorComponent.GetSettings`: the render never creates a `layoutInput` ref, so the source always omits `layout`. The model keeps the input as an optional parameter and states `layout` present iff it is given.
- `ForumPagination.LoadAndListTopics.LoadTopics`: the source reads `this.props.forumPath` for the page check, but also `nextProps.store`. The model takes the store's pages as a parameter. It does not model a view-staleness guarantee, because the code has none.
- `TalkyardTour.PlaceHow`: `Centered` stands for every value the placement switch sends to its default branch.
- `TalkyardTour.TalkyardTourComponent.GoToNextStep`, `GoToPrevStep`, `ExitTour` and `MaybeGoNextOnElemClick` require a shown step. Their handlers exist only in a render that shows one.
- `TitleEditor.TitleEditorComponent.ShowLayoutAndSettings` and `ShowComplicated` require the other panel to be closed. Their buttons are rendered only then.
- `TitleEditor.TitleEditorComponent.OnFolderChanged`, `OnSlugChanged` and `OnShowIdChanged` require the advanced panel to be open. Their inputs are rendered only then.
- `TopBar.TopBarComponent.OnSearchClick` is modelled, but the search button that calls it is commented out in the source. The view always reports no search button.

## Findings

| source | as written | input that shows it | evidently intended | confidence | as-written member | corrected member |
|---|---|---|---|---|---|---|
| client/app-slim/forum/forum.ts:1619-1622 | `tooltip += <pin text>` runs when `tooltip` is still `undefined`, so the tooltip text begins with "undefined" | a pinned, open Discussion topic with topic-type icons switched off (the branch at 1607-1611 leaves `tooltip` unset) | the pin text alone when there is no base tooltip | not executed | ForumTopics.PinnedTooltipShowsUndefined | ForumTopics.MakeTitle |
| client/app-slim/utils/talkyard-tour.ts:60-63 | the effect reads `tour.steps[nextStepIx].placeAt` without checking that the step exists, which throws a TypeError | "Goodbye" (Next) on the last step, giving index `steps.length`; or Prev on step 0; or starting a tour with no stored progress | do nothing when there is no step, as the render already does at 157-159 | not executed | TalkyardTour.GoodbyeThenEffect | TalkyardTour.TalkyardTourComponent.DoWhenPlaceAtElemVisible |
