/** The forum topic list: the pagination cursor, when topics are fetched,
    and how a fetched batch is merged into the list already shown. */
module ForumPagination {
  import opened Wrappers
  import opened ForumTopics
  import opened ForumRoutes
  import Uniq

  /** Topics returned per request; the server's page size. */
  const NumNewTopicsPerRequest := 40

  datatype TopicSortOrder = BumpTime | CreatedAt | ScoreAndBumpTime

  /** The cursor sent with a fetch: topics older than `olderThan` (and, for the
      top order, with a score at most `score`, within `period`). */
  datatype OrderOffset = OrderOffset(
    sortOrder: TopicSortOrder,
    olderThan: Option<int>,
    score: Option<int>,
    period: Option<int>,
    topicFilter: Option<string>)

  /** The bump time of a topic, falling back to its creation time. */
  function BumpedOrCreated(t: Topic): int {
    if Truthy(t.bumpedAtMs) then t.bumpedAtMs.value else t.createdAtMs
  }

  function LastTopic(topics: Option<seq<Topic>>): Option<Topic> {
    if topics.Some? && |topics.value| > 0 then Some(topics.value[|topics.value| - 1]) else None
  }

  /** `getOrderOffset`: the cursor continuing after the last listed topic. */
  function GetOrderOffset(topics: Option<seq<Topic>>, sortOrderRoute: string, topPeriod: int): (o: OrderOffset)
    ensures o.topicFilter.None?
    ensures LastTopic(topics).None? ==> o.olderThan.None? && o.score.None?
    ensures sortOrderRoute == RoutePathTop ==>
      o.sortOrder == ScoreAndBumpTime && o.period == Some(topPeriod) &&
      (LastTopic(topics).Some? ==>
        o.olderThan == Some(BumpedOrCreated(LastTopic(topics).value)) &&
        o.score == LastTopic(topics).value.popularityScore)
    ensures sortOrderRoute == RoutePathNew ==>
      o.sortOrder == CreatedAt && o.period.None? && o.score.None? &&
      (LastTopic(topics).Some? ==> o.olderThan == Some(LastTopic(topics).value.createdAtMs))
    ensures sortOrderRoute != RoutePathTop && sortOrderRoute != RoutePathNew ==>
      o.sortOrder == BumpTime && o.period.None? && o.score.None? &&
      (LastTopic(topics).Some? ==> o.olderThan == Some(BumpedOrCreated(LastTopic(topics).value)))
  {
    var last := LastTopic(topics);
    var lastBumpedAt := if last.Some? then Some(BumpedOrCreated(last.value)) else None;
    var lastCreatedAt := if last.Some? then Some(last.value.createdAtMs) else None;
    var lastScore := if last.Some? then last.value.popularityScore else None;
    if sortOrderRoute == RoutePathTop then
      OrderOffset(ScoreAndBumpTime, lastBumpedAt, lastScore, Some(topPeriod), None)
    else if sortOrderRoute == RoutePathNew then
      OrderOffset(CreatedAt, lastCreatedAt, None, None, None)
    else
      OrderOffset(BumpTime, lastBumpedAt, None, None, None)
  }

  /** The cursor depends on the last topic only: loading after `listed + [t]` is
      loading after `[t]`. */
  lemma OffsetDependsOnLastTopic(listed: seq<Topic>, t: Topic, sortOrderRoute: string, topPeriod: int)
    ensures GetOrderOffset(Some(listed + [t]), sortOrderRoute, topPeriod) == GetOrderOffset(Some([t]), sortOrderRoute, topPeriod)
  {
  }

  // ----- Merging a fetched batch

  function PageIdOf(t: Topic): string { t.pageId }

  predicate UniquePageIds(topics: seq<Topic>) {
    Uniq.DistinctKeys(topics, PageIdOf)
  }

  /** `_.uniqBy(listed.concat(fetched), 'pageId')`. */
  function Merge(listed: seq<Topic>, fetched: seq<Topic>): (r: seq<Topic>)
    ensures UniquePageIds(r)
    ensures |r| <= |listed| + |fetched|
  {
    Uniq.UniqFromSpec(listed + fetched, PageIdOf, {});
    Uniq.UniqBy(listed + fetched, PageIdOf)
  }

  /** After a merge no page id appears twice, every topic in it was listed or
      fetched, and every listed or fetched page id appears. */
  lemma MergeSpec(listed: seq<Topic>, fetched: seq<Topic>)
    ensures UniquePageIds(Merge(listed, fetched))
    ensures forall t :: t in Merge(listed, fetched) ==> t in listed || t in fetched
    ensures Uniq.Keys(Merge(listed, fetched), PageIdOf) == Uniq.Keys(listed, PageIdOf) + Uniq.Keys(fetched, PageIdOf)
  {
    Uniq.UniqFromSpec(listed + fetched, PageIdOf, {});
    Uniq.KeysAppend(listed, fetched, PageIdOf);
  }

  /** Old topics first, in their order, then the fetched topics whose page id is
      not yet listed, in their order: a list without repeated ids is a prefix
      of the merged list. */
  lemma MergeKeepsOldFirst(listed: seq<Topic>, fetched: seq<Topic>)
    requires UniquePageIds(listed)
    ensures Merge(listed, fetched) == listed + Uniq.UniqFrom(fetched, PageIdOf, Uniq.Keys(listed, PageIdOf))
  {
    Uniq.UniqFromAppend(listed, fetched, PageIdOf, {});
    Uniq.UniqFromIdentity(listed, PageIdOf, {});
    assert {} + Uniq.Keys(listed, PageIdOf) == Uniq.Keys(listed, PageIdOf);
  }

  /** A batch of distinct topics none of which is listed yet grows the list by
      its whole length. */
  lemma MergeOfNewTopics(listed: seq<Topic>, fetched: seq<Topic>)
    requires UniquePageIds(listed) && UniquePageIds(fetched)
    requires Uniq.Keys(listed, PageIdOf) !! Uniq.Keys(fetched, PageIdOf)
    ensures Merge(listed, fetched) == listed + fetched
    ensures |Merge(listed, fetched)| == |listed| + |fetched|
  {
    MergeKeepsOldFirst(listed, fetched);
    Uniq.UniqFromIdentity(fetched, PageIdOf, Uniq.Keys(listed, PageIdOf));
  }

  /** The fetched batch overlaps the list by its last topic, the boundary
      record: that topic is dropped from the batch and the rest appended. */
  lemma MergeWithBoundaryOverlap(listed: seq<Topic>, fetched: seq<Topic>)
    requires UniquePageIds(listed) && |listed| > 0
    requires UniquePageIds(fetched) && |fetched| > 0 && fetched[0] == listed[|listed| - 1]
    requires Uniq.Keys(listed, PageIdOf) !! Uniq.Keys(fetched[1..], PageIdOf)
    ensures Merge(listed, fetched) == listed + fetched[1..]
  {
    MergeKeepsOldFirst(listed, fetched);
    var seen := Uniq.Keys(listed, PageIdOf);
    assert PageIdOf(fetched[0]) in seen;
    assert fetched == [fetched[0]] + fetched[1..];
    assert Uniq.UniqFrom(fetched, PageIdOf, seen) == Uniq.UniqFrom(fetched[1..], PageIdOf, seen);
    assert Uniq.DistinctKeys(fetched[1..], PageIdOf) by {
      forall i, j | 0 <= i < j < |fetched[1..]|
        ensures PageIdOf(fetched[1..][i]) != PageIdOf(fetched[1..][j])
      {
        assert fetched[1..][i] == fetched[i + 1] && fetched[1..][j] == fetched[j + 1];
      }
    }
    Uniq.UniqFromIdentity(fetched[1..], PageIdOf, seen);
  }

  // ----- The component

  datatype Props = Props(
    pathname: string,
    search: string,
    topPeriod: int,
    forumPath: string,
    sortOrderRoute: string,
    filter: Option<string>,
    categorySlug: Option<string>,
    activeCategory: Option<Category>)

  /** Pathname, query or top period differ: a different list is asked for. */
  predicate IsNewView(current: Props, next: Props) {
    current.pathname != next.pathname || current.search != next.search || current.topPeriod != next.topPeriod
  }

  /** `canUseTopicsInScriptTag`: the topics the server put in the page are the
      latest topics of all categories, unfiltered, and still fresh. */
  function CanUseTopicsInScriptTag(storeTopics: Option<seq<Topic>>, topicsInStoreMightBeOld: bool, props: Props): (b: bool)
    ensures b ==> storeTopics.Some? && !topicsInStoreMightBeOld && props.sortOrderRoute == RoutePathLatest
    ensures b ==> props.filter.None? || props.filter == Some("") || props.filter == Some(FilterShowAll)
    ensures b ==> props.categorySlug.None? || props.categorySlug == Some("")
    ensures (storeTopics.Some? && !topicsInStoreMightBeOld && props.sortOrderRoute == RoutePathLatest &&
             (props.filter.None? || props.filter == Some("") || props.filter == Some(FilterShowAll)) &&
             (props.categorySlug.None? || props.categorySlug == Some(""))) ==> b
  {
    if storeTopics.None? || topicsInStoreMightBeOld then false
    else
      props.sortOrderRoute == RoutePathLatest &&
      (props.filter.None? || props.filter.value == "" || props.filter.value == FilterShowAll) &&
      (props.categorySlug.None? || props.categorySlug.value == "")
  }

  /** A page of the store: its id and its URL path. */
  datatype StorePage = StorePage(pageId: string, path: string)

  /** Some page of the store has the forum's path and is the current page. */
  predicate ForumPageIsCurrent(pagesById: seq<StorePage>, forumPath: string, currentPageId: string) {
    exists k :: 0 <= k < |pagesById| && pagesById[k].path == forumPath && pagesById[k].pageId == currentPageId
  }

  /** Whether the store's current page is the forum page at `forumPath`. */
  method CurrentPageIsForumPage(pagesById: seq<StorePage>, forumPath: string, currentPageId: string) returns (b: bool)
    ensures b <==> ForumPageIsCurrent(pagesById, forumPath, currentPageId)
  {
    b := false;
    for i := 0 to |pagesById|
      invariant b <==> exists k :: 0 <= k < i && pagesById[k].path == forumPath && pagesById[k].pageId == currentPageId
    {
      var page := pagesById[i];
      if page.path == forumPath && page.pageId == currentPageId {
        b := true;
      }
    }
  }

  /** A fetch started by `LoadTopics`; the callback remembers whether it was
      for a new view. */
  datatype Request = Request(categoryId: int, orderOffset: OrderOffset, isNewView: bool, loadMore: bool)

  datatype CategoryInfo = CategoryInfo(categoryId: int, categoryParentId: Option<int>, categoryName: string, categoryDescr: string)

  datatype Response = Response(topics: seq<Topic>, category: CategoryInfo)

  class LoadAndListTopics {
    var props: Props
    /** `None` is the not-yet-loaded list (shown as "Loading..."). */
    var topics: Option<seq<Topic>>
    var showLoadMoreButton: bool
    var isLoading: bool
    var minHeight: Option<int>
    var category: Option<CategoryInfo>
    var isGone: bool

    /** The "load more" button is never shown without a list. */
    predicate Valid()
      reads this
    {
      showLoadMoreButton ==> topics.Some?
    }

    /** `getInitialState`: start from the server-included topics when usable. */
    constructor (props: Props, storeTopics: Option<seq<Topic>>, topicsInStoreMightBeOld: bool)
      ensures Valid()
      ensures this.props == props && !isLoading && !isGone && minHeight.None? && category.None?
      ensures CanUseTopicsInScriptTag(storeTopics, topicsInStoreMightBeOld, props) ==>
        topics == storeTopics && showLoadMoreButton == (|storeTopics.value| >= NumNewTopicsPerRequest)
      ensures !CanUseTopicsInScriptTag(storeTopics, topicsInStoreMightBeOld, props) ==>
        topics.None? && !showLoadMoreButton
    {
      this.props := props;
      if CanUseTopicsInScriptTag(storeTopics, topicsInStoreMightBeOld, props) {
        topics := storeTopics;
        showLoadMoreButton := |storeTopics.value| >= NumNewTopicsPerRequest;
      } else {
        topics := None;
        showLoadMoreButton := false;
      }
      isLoading := false;
      minHeight := None;
      category := None;
      isGone := false;
    }

    /** `loadTopics(nextProps, loadMore)`: decide whether to fetch, reset the list
        for a new view, and return the fetch to start, if any. The store's pages
        decide whether the current page is the forum page yet; `clientHeight`
        is the list's measured height. */
    method LoadTopics(nextProps: Props, loadMore: bool, pagesById: seq<StorePage>, currentPageId: string, clientHeight: int)
      returns (req: Option<Request>)
      requires Valid()
      modifies this
      ensures Valid()
      ensures props == old(props) && isGone == old(isGone) && category == old(category)
      ensures req.Some? <==>
        nextProps.activeCategory.Some? && ForumPageIsCurrent(pagesById, old(props).forumPath, currentPageId) &&
        (IsNewView(old(props), nextProps) || loadMore || (old(topics).None? && !old(isLoading)))
      ensures req.None? ==>
        topics == old(topics) && showLoadMoreButton == old(showLoadMoreButton) &&
        isLoading == old(isLoading) && minHeight == old(minHeight)
      ensures req.Some? ==>
        nextProps.activeCategory.Some? && isLoading &&
        req.value.categoryId == nextProps.activeCategory.value.id &&
        req.value.isNewView == IsNewView(old(props), nextProps) && req.value.loadMore == loadMore &&
        req.value.orderOffset.topicFilter == nextProps.filter
      ensures req.Some? && req.value.isNewView ==>
        topics.None? && !showLoadMoreButton && minHeight == Some(clientHeight) &&
        req.value.orderOffset ==
          GetOrderOffset(old(topics), nextProps.sortOrderRoute, nextProps.topPeriod)
            .(olderThan := None, score := None, topicFilter := nextProps.filter)
      ensures req.Some? && !req.value.isNewView ==>
        topics == old(topics) && showLoadMoreButton == old(showLoadMoreButton) && minHeight == old(minHeight) &&
        req.value.orderOffset ==
          GetOrderOffset(old(topics), nextProps.sortOrderRoute, nextProps.topPeriod).(topicFilter := nextProps.filter)
    {
      if nextProps.activeCategory.None? {
        return None;
      }
      var isNewView := IsNewView(props, nextProps);
      var currentPageIsForumPage := CurrentPageIsForumPage(pagesById, props.forumPath, currentPageId);
      if !currentPageIsForumPage {
        return None;
      }
      if !isNewView && !loadMore && (topics.Some? || isLoading) {
        return None;
      }
      var orderOffset := GetOrderOffset(topics, nextProps.sortOrderRoute, nextProps.topPeriod);
      orderOffset := orderOffset.(topicFilter := nextProps.filter);
      if isNewView {
        minHeight := Some(clientHeight);
        topics := None;
        showLoadMoreButton := false;
        // Load from the start; keep the topic filter.
        orderOffset := orderOffset.(olderThan := None, score := None);
      }
      isLoading := true;
      req := Some(Request(nextProps.activeCategory.value.id, orderOffset, isNewView, loadMore));
    }

    /** The fetch callback: merge the batch (into an empty list for a new view)
        and show "load more" iff the batch was a full page. */
    method OnTopicsLoaded(req: Request, response: Response)
      requires Valid()
      modifies this
      ensures Valid()
      ensures props == old(props) && isGone == old(isGone)
      ensures old(isGone) ==>
        topics == old(topics) && showLoadMoreButton == old(showLoadMoreButton) &&
        isLoading == old(isLoading) && minHeight == old(minHeight) && category == old(category)
      ensures !old(isGone) ==>
        topics == Some(Merge(if req.isNewView then [] else old(topics).GetOr([]), response.topics)) &&
        showLoadMoreButton == (|response.topics| >= NumNewTopicsPerRequest) &&
        !isLoading && minHeight.None? && category == Some(response.category)
    {
      if isGone {
        return;
      }
      var listed := if req.isNewView then [] else topics.GetOr([]);
      isLoading := false;
      minHeight := None;
      category := Some(response.category);
      topics := Some(Merge(listed, response.topics));
      showLoadMoreButton := |response.topics| >= NumNewTopicsPerRequest;
    }

    /** `componentDidMount`: load for the current props, which is never a new
        view, so it fetches only while nothing is listed or loading. */
    method ComponentDidMount(pagesById: seq<StorePage>, currentPageId: string, clientHeight: int)
      returns (req: Option<Request>)
      requires Valid()
      modifies this
      ensures Valid() && props == old(props)
      ensures req.Some? <==>
        props.activeCategory.Some? && ForumPageIsCurrent(pagesById, props.forumPath, currentPageId) &&
        old(topics).None? && !old(isLoading)
      ensures isGone == old(isGone) && category == old(category) && minHeight == old(minHeight)
      ensures showLoadMoreButton == old(showLoadMoreButton)
      ensures req.Some? ==>
        !req.value.isNewView && !req.value.loadMore && isLoading && topics.None? &&
        req.value.categoryId == props.activeCategory.value.id &&
        req.value.orderOffset == GetOrderOffset(old(topics), props.sortOrderRoute, props.topPeriod).(topicFilter := props.filter)
      ensures req.None? ==> topics == old(topics) && isLoading == old(isLoading)
    {
      req := LoadTopics(props, false, pagesById, currentPageId, clientHeight);
    }

    /** `componentWillReceiveProps`: load for the new props, then adopt them. */
    method ReceiveProps(nextProps: Props, pagesById: seq<StorePage>, currentPageId: string, clientHeight: int)
      returns (req: Option<Request>)
      requires Valid()
      modifies this
      ensures Valid() && props == nextProps && isGone == old(isGone) && category == old(category)
      ensures req.Some? <==>
        nextProps.activeCategory.Some? && ForumPageIsCurrent(pagesById, old(props).forumPath, currentPageId) &&
        (IsNewView(old(props), nextProps) || (old(topics).None? && !old(isLoading)))
      ensures req.None? ==>
        topics == old(topics) && showLoadMoreButton == old(showLoadMoreButton) &&
        isLoading == old(isLoading) && minHeight == old(minHeight)
      ensures req.Some? ==>
        isLoading && !req.value.loadMore &&
        req.value.categoryId == nextProps.activeCategory.value.id &&
        req.value.isNewView == IsNewView(old(props), nextProps) &&
        req.value.orderOffset.topicFilter == nextProps.filter
      ensures req.Some? && req.value.isNewView ==>
        topics.None? && !showLoadMoreButton && minHeight == Some(clientHeight) &&
        req.value.orderOffset ==
          GetOrderOffset(old(topics), nextProps.sortOrderRoute, nextProps.topPeriod)
            .(olderThan := None, score := None, topicFilter := nextProps.filter)
      ensures req.Some? && !req.value.isNewView ==>
        topics == old(topics) && showLoadMoreButton == old(showLoadMoreButton) && minHeight == old(minHeight) &&
        req.value.orderOffset ==
          GetOrderOffset(old(topics), nextProps.sortOrderRoute, nextProps.topPeriod).(topicFilter := nextProps.filter)
    {
      req := LoadTopics(nextProps, false, pagesById, currentPageId, clientHeight);
      props := nextProps;
    }

    /** The "load more" button: continue the current view from its cursor. */
    method LoadMoreTopics(pagesById: seq<StorePage>, currentPageId: string, clientHeight: int)
      returns (req: Option<Request>)
      requires Valid()
      modifies this
      ensures Valid() && props == old(props) && isGone == old(isGone) && category == old(category)
      ensures req.Some? <==> props.activeCategory.Some? && ForumPageIsCurrent(pagesById, props.forumPath, currentPageId)
      ensures topics == old(topics) && showLoadMoreButton == old(showLoadMoreButton) && minHeight == old(minHeight)
      ensures req.None? ==> isLoading == old(isLoading)
      ensures req.Some? ==>
        !req.value.isNewView && req.value.loadMore && isLoading && req.value.categoryId == props.activeCategory.value.id &&
        req.value.orderOffset == GetOrderOffset(old(topics), props.sortOrderRoute, props.topPeriod).(topicFilter := props.filter)
    {
      req := LoadTopics(props, true, pagesById, currentPageId, clientHeight);
    }

    method ComponentWillUnmount()
      modifies this
      ensures isGone
      ensures props == old(props) && topics == old(topics) && showLoadMoreButton == old(showLoadMoreButton)
      ensures isLoading == old(isLoading) && minHeight == old(minHeight) && category == old(category)
    {
      isGone := true;
    }
  }

  /** A fresh view fed one full page and then a short page that overlaps it by
      the boundary topic lists both pages once each and offers no more. */
  method FullPageThenShortPage(l: LoadAndListTopics, r1: Request, page1: seq<Topic>, r2: Request, page2: seq<Topic>)
    requires l.Valid() && !l.isGone && r1.isNewView && !r2.isNewView
    requires |page1| == NumNewTopicsPerRequest && UniquePageIds(page1)
    requires |page2| == 6 && UniquePageIds(page2) && page2[0] == page1[|page1| - 1]
    requires Uniq.Keys(page1, PageIdOf) !! Uniq.Keys(page2[1..], PageIdOf)
    modifies l
    ensures l.topics == Some(page1 + page2[1..]) && |l.topics.value| == 45
    ensures !l.showLoadMoreButton
  {
    l.OnTopicsLoaded(r1, Response(page1, CategoryInfo(1, None, "", "")));
    assert l.showLoadMoreButton;
    Uniq.UniqFromIdentity(page1, PageIdOf, {});
    assert [] + page1 == page1;
    assert l.topics == Some(page1);
    l.OnTopicsLoaded(r2, Response(page2, CategoryInfo(1, None, "", "")));
    MergeWithBoundaryOverlap(page1, page2);
  }
}
