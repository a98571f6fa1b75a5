/** Forum routing: validating the sort-order segment of the URL, finding the
    active category, and the URLs and topic types the forum buttons produce. */
module ForumRoutes {
  import opened Wrappers
  import opened PageTypes
  import Text

  /** The values of the RoutePath* constants. */
  const RoutePathLatest := "latest"
  const RoutePathNew := "new"
  const RoutePathTop := "top"
  const RoutePathCategories := "categories"

  const FilterShowAll := "ShowAll"
  const FilterShowWaiting := "ShowWaiting"
  const FilterShowDeleted := "ShowDeleted"

  predicate IsSortOrderRoute(s: string) {
    s == RoutePathLatest || s == RoutePathNew || s == RoutePathTop || s == RoutePathCategories
  }

  datatype Category = Category(
    id: int,
    slug: string,
    isForumItself: bool,
    isDefaultCategory: bool,
    newTopicTypes: Option<seq<PageRole>>)

  // ----- The route check of the forum page

  datatype ForumView =
    | Loading                                   // the current page is not yet the forum page
    | BadRoute(segment: string)                 // the inline "Bad route in the URL" error
    | Listing(sortOrderRoute: string, categorySlug: Option<string>)

  /** The path segments after the forum's own path: the first occurrence of
      `forumPath` is cut out of `pathname` and the rest split on '/'. */
  function RouteSegments(pathname: string, forumPath: string): (parts: seq<string>)
    ensures |parts| >= 1
  {
    Text.Split(Text.RemoveFirst(pathname, forumPath), '/')
  }

  function ForumRender(pageRole: PageRole, pathname: string, forumPath: string): (v: ForumView)
    ensures pageRole != Forum <==> v == Loading
    ensures v.BadRoute? ==> v.segment == RouteSegments(pathname, forumPath)[0] && !IsSortOrderRoute(v.segment)
    ensures v.Listing? ==> v.sortOrderRoute == RouteSegments(pathname, forumPath)[0] && IsSortOrderRoute(v.sortOrderRoute)
    ensures pageRole == Forum ==> (v.Listing? <==> IsSortOrderRoute(RouteSegments(pathname, forumPath)[0]))
    ensures v.Listing? ==> (v.categorySlug.Some? <==> |RouteSegments(pathname, forumPath)| >= 2)
    ensures v.Listing? && |RouteSegments(pathname, forumPath)| >= 2 ==>
      v.categorySlug == Some(RouteSegments(pathname, forumPath)[1])
  {
    if pageRole != Forum then Loading
    else
      var routes := RouteSegments(pathname, forumPath);
      if !IsSortOrderRoute(routes[0]) then BadRoute(routes[0])
      else Listing(routes[0], if |routes| >= 2 then Some(routes[1]) else None)
  }

  lemma RemoveForumPath(forumPath: string, rest: string)
    ensures Text.RemoveFirst(forumPath + rest, forumPath) == rest
  {
    var pathname := forumPath + rest;
    assert pathname[..|forumPath|] == forumPath;
    assert Text.OccursAt(pathname, forumPath, 0);
    assert pathname[|forumPath|..] == rest;
  }

  lemma SplitTwo(a: string, b: string)
    requires '/' !in a && '/' !in b
    ensures Text.Split(a + "/" + b, '/') == [a, b]
  {
    var s := a + "/" + b;
    assert s[|a|] == '/';
    var i := Text.FirstIndex(s, '/');
    assert s[..|a|] == a;
    assert s[i + 1..] == b;
  }

  lemma RoutesHaveNoSlash(route: string)
    requires IsSortOrderRoute(route)
    ensures '/' !in route
  {
  }

  /** A URL made of the forum path, a sort order and a category slug is read
      back as that sort order and that slug. */
  lemma ForumRenderOfForumUrl(forumPath: string, route: string, slug: string)
    requires IsSortOrderRoute(route) && '/' !in slug
    ensures ForumRender(Forum, forumPath + route + "/" + slug, forumPath) == Listing(route, Some(slug))
  {
    RoutesHaveNoSlash(route);
    assert forumPath + route + "/" + slug == forumPath + (route + "/" + slug);
    RemoveForumPath(forumPath, route + "/" + slug);
    SplitTwo(route, slug);
  }

  /** The same without a category slug. */
  lemma ForumRenderOfSortOrderUrl(forumPath: string, route: string)
    requires IsSortOrderRoute(route)
    ensures ForumRender(Forum, forumPath + route, forumPath) == Listing(route, None)
  {
    RoutesHaveNoSlash(route);
    RemoveForumPath(forumPath, route);
  }

  // ----- The active category

  function FindIndex(cats: seq<Category>, p: Category -> bool): (r: Option<nat>)
    ensures r.Some? ==> r.value < |cats| && p(cats[r.value]) && forall k :: 0 <= k < r.value ==> !p(cats[k])
    ensures r.None? ==> forall k :: 0 <= k < |cats| ==> !p(cats[k])
  {
    if cats == [] then None
    else if p(cats[0]) then Some(0)
    else match FindIndex(cats[1..], p)
      case None => None
      case Some(k) => Some(k + 1)
  }

  function Find(cats: seq<Category>, p: Category -> bool): Option<Category> {
    match FindIndex(cats, p)
    case None => None
    case Some(k) => Some(cats[k])
  }

  /** `getActiveCategory`: the first category with the slug of the URL, or,
      without a slug, the forum itself as an "all categories" pseudo-category. */
  function GetActiveCategory(slug: Option<string>, categories: seq<Category>, forumCategoryId: int): (r: Option<Category>)
    ensures slug.None? || slug == Some("") ==>
      r == Some(Category(forumCategoryId, "", true, false, Some([])))
    ensures slug.Some? && slug.value != "" ==>
      (r.None? <==> forall k :: 0 <= k < |categories| ==> categories[k].slug != slug.value)
    ensures slug.Some? && slug.value != "" && r.Some? ==>
      exists i :: 0 <= i < |categories| && r.value == categories[i] && r.value.slug == slug.value &&
        forall k :: 0 <= k < i ==> categories[k].slug != slug.value
  {
    if slug.Some? && slug.value != "" then
      Find(categories, (c: Category) => c.slug == slug.value)
    else
      Some(Category(forumCategoryId, "", true, false, Some([])))
  }

  /** The category whose topic types decide the create-topic button title: the
      active one, replaced by a default category while the active one is the
      forum itself, as the category menu is built. */
  method ActiveOrDefaultCategory(active: Category, categories: seq<Category>) returns (r: Category)
    ensures r == active || r in categories
    ensures !active.isForumItself ==> r == active
    ensures (forall k :: 0 <= k < |categories| ==> !categories[k].isDefaultCategory) ==> r == active
    ensures active.isForumItself && (forall k :: 0 <= k < |categories| ==> !categories[k].isForumItself) ==>
      match FindIndex(categories, IsDefaultCategory)
      case None => r == active
      case Some(k) => r == categories[k]
  {
    r := active;
    var i := 0;
    ghost var firstDefault: Option<nat> := None;
    while i < |categories|
      invariant 0 <= i <= |categories|
      invariant r == active || r in categories[..i]
      invariant !active.isForumItself ==> r == active
      invariant (forall k :: 0 <= k < i ==> !categories[k].isDefaultCategory) ==> r == active
      invariant firstDefault.None? <==> forall k :: 0 <= k < i ==> !categories[k].isDefaultCategory
      invariant firstDefault.Some? ==>
        (firstDefault.value < i && categories[firstDefault.value].isDefaultCategory &&
         forall k :: 0 <= k < firstDefault.value ==> !categories[k].isDefaultCategory)
      invariant (active.isForumItself && (forall k :: 0 <= k < |categories| ==> !categories[k].isForumItself) &&
        firstDefault.Some?) ==> r == categories[firstDefault.value]
    {
      var category := categories[i];
      if r.isForumItself && category.isDefaultCategory {
        r := category;
      }
      if firstDefault.None? && category.isDefaultCategory {
        firstDefault := Some(i);
      }
      i := i + 1;
    }
    assert categories[..i] == categories;
    var p := IsDefaultCategory;
    assert firstDefault == FindIndex(categories, p) by {
      var f := FindIndex(categories, p);
      if f.Some? && firstDefault.Some? {
        assert !(f.value < firstDefault.value) && !(firstDefault.value < f.value);
      }
    }
  }

  // ----- Where the forum buttons navigate

  datatype Location = Location(pathname: string, search: string)

  function SlashSlug(slug: string): string {
    if slug != "" then "/" + slug else ""
  }

  /** `setCategory`: keep the sort order (the category tree view becomes the
      latest-topics view), replace the category slug, keep the query. */
  function SetCategory(forumPath: string, sortOrderRoute: string, newCategorySlug: string, search: string): (loc: Location)
    ensures loc.search == search
    ensures sortOrderRoute == RoutePathCategories ==>
      loc.pathname == forumPath + RoutePathLatest + SlashSlug(newCategorySlug)
    ensures sortOrderRoute != RoutePathCategories ==>
      loc.pathname == forumPath + sortOrderRoute + SlashSlug(newCategorySlug)
  {
    var nextPath := if sortOrderRoute == RoutePathCategories then RoutePathLatest else sortOrderRoute;
    Location(forumPath + nextPath + SlashSlug(newCategorySlug), search)
  }

  /** From a valid route, choosing a category navigates to a URL the forum
      accepts, listing that category in the kept sort order (or the latest
      topics, coming from the category tree). */
  lemma SetCategoryIsListed(forumPath: string, sortOrderRoute: string, newCategorySlug: string, search: string)
    requires IsSortOrderRoute(sortOrderRoute) && '/' !in newCategorySlug
    ensures var next := if sortOrderRoute == RoutePathCategories then RoutePathLatest else sortOrderRoute;
      ForumRender(Forum, SetCategory(forumPath, sortOrderRoute, newCategorySlug, search).pathname, forumPath) ==
        Listing(next, if newCategorySlug == "" then None else Some(newCategorySlug))
  {
    var next := if sortOrderRoute == RoutePathCategories then RoutePathLatest else sortOrderRoute;
    if newCategorySlug == "" {
      assert SetCategory(forumPath, sortOrderRoute, newCategorySlug, search).pathname == forumPath + next;
      ForumRenderOfSortOrderUrl(forumPath, next);
    } else {
      assert SetCategory(forumPath, sortOrderRoute, newCategorySlug, search).pathname ==
        forumPath + next + "/" + newCategorySlug;
      ForumRenderOfForumUrl(forumPath, next, newCategorySlug);
    }
  }

  /** `setSortOrder`: replace the sort order, keep the category and the query. */
  function SetSortOrder(forumPath: string, newPath: string, activeCategorySlug: string, search: string): (loc: Location)
    ensures loc.search == search
    ensures loc.pathname == forumPath + newPath + SlashSlug(activeCategorySlug)
  {
    Location(forumPath + newPath + SlashSlug(activeCategorySlug), search)
  }

  /** From a valid route, choosing a sort order navigates to a URL the forum
      accepts, listing the same category in the new sort order. */
  lemma SetSortOrderIsListed(forumPath: string, newPath: string, activeCategorySlug: string, search: string)
    requires IsSortOrderRoute(newPath) && '/' !in activeCategorySlug
    ensures ForumRender(Forum, SetSortOrder(forumPath, newPath, activeCategorySlug, search).pathname, forumPath) ==
      Listing(newPath, if activeCategorySlug == "" then None else Some(activeCategorySlug))
  {
    if activeCategorySlug == "" {
      assert SetSortOrder(forumPath, newPath, activeCategorySlug, search).pathname == forumPath + newPath;
      ForumRenderOfSortOrderUrl(forumPath, newPath);
    } else {
      assert SetSortOrder(forumPath, newPath, activeCategorySlug, search).pathname ==
        forumPath + newPath + "/" + activeCategorySlug;
      ForumRenderOfForumUrl(forumPath, newPath, activeCategorySlug);
    }
  }

  /** `setTopicFilter`: the query parameters with `filter` removed for "show
      all" and set to the chosen filter otherwise; nothing else changes. */
  function SetTopicFilter(eventKey: string, queryParams: map<string, string>): (q: map<string, string>)
    ensures eventKey == FilterShowAll ==> "filter" !in q
    ensures eventKey != FilterShowAll ==> "filter" in q && q["filter"] == eventKey
    ensures forall k :: k != "filter" ==> (k in q <==> k in queryParams)
    ensures forall k :: k != "filter" && k in q ==> q[k] == queryParams[k]
  {
    if eventKey == FilterShowAll then queryParams - {"filter"}
    else queryParams["filter" := eventKey]
  }

  /** Applying the same filter twice navigates to the same query as once. */
  lemma SetTopicFilterIdempotent(eventKey: string, queryParams: map<string, string>)
    ensures SetTopicFilter(eventKey, SetTopicFilter(eventKey, queryParams)) == SetTopicFilter(eventKey, queryParams)
  {
  }

  // ----- The topic type of a new topic

  predicate IsDefaultCategory(c: Category) {
    c.isDefaultCategory
  }

  /** The type of a new topic in `c`: its one listed type, else Discussion
      (no list, an empty list, or several types). */
  function NewTopicRole(c: Category): (role: PageRole)
    ensures c.newTopicTypes.Some? && |c.newTopicTypes.value| == 1 ==> role == c.newTopicTypes.value[0]
    ensures c.newTopicTypes.None? || |c.newTopicTypes.value| != 1 ==> role == Discussion
  {
    var types := c.newTopicTypes.GetOr([]);
    if |types| == 1 then types[0] else Discussion
  }

  /** `dieIf(!category, ...)`: the forum has no default category. */
  datatype NoDefaultCategory = NoDefaultCategory

  /** `createTopic`: the category the topic goes to (a default category while
      all categories are listed) and its type: the one listed type, or
      Discussion when the category lists none or several. */
  function CreateTopicType(active: Category, categories: seq<Category>): (r: Result<(int, PageRole), NoDefaultCategory>)
    ensures !active.isForumItself ==> r.Ok? && r.value.0 == active.id
    ensures active.isForumItself ==>
      (r.Err? <==> forall k :: 0 <= k < |categories| ==> !categories[k].isDefaultCategory)
    ensures !active.isForumItself ==> r == Ok((active.id, NewTopicRole(active)))
    ensures active.isForumItself && r.Ok? ==>
      var k := FindIndex(categories, IsDefaultCategory);
      k.Some? && r == Ok((categories[k.value].id, NewTopicRole(categories[k.value])))
  {
    var category :=
      if active.isForumItself then Find(categories, IsDefaultCategory) else Some(active);
    match category
    case None => Err(NoDefaultCategory)
    case Some(c) => Ok((c.id, NewTopicRole(c)))
  }
}
