/** Per-topic rules of the forum topic list: done/answered, preview images,
    the create-topic button title and the title icon. */
module ForumTopics {
  import opened Wrappers
  import opened PageTypes
  import Text
  import Uniq

  datatype PinWhere = Globally | InCategory

  /** A topic as listed; optional fields are absent on the wire when unset. */
  datatype Topic = Topic(
    pageId: string,
    pageRole: PageRole,
    createdAtMs: int,
    bumpedAtMs: Option<int>,
    popularityScore: Option<int>,
    closedAtMs: Option<int>,
    doneAtMs: Option<int>,
    answeredAtMs: Option<int>,
    startedAtMs: Option<int>,
    plannedAtMs: Option<int>,
    deletedAtMs: Option<int>,
    pinWhere: Option<PinWhere>,
    firstImageUrls: Option<seq<string>>,
    popularRepliesImageUrls: Option<seq<string>>)

  /** Done applies to problems, ideas, to-dos and usability tests, never to
      questions: those are answered instead. */
  predicate IsDone(t: Topic)
    ensures IsDone(t) ==> Truthy(t.doneAtMs) && t.pageRole != Question
  {
    Truthy(t.doneAtMs) && t.pageRole in {Problem, Idea, ToDo, UsabilityTesting}
  }

  predicate IsAnswered(t: Topic)
    ensures IsAnswered(t) ==> !IsDone(t)
  {
    Truthy(t.answeredAtMs) && t.pageRole == Question
  }

  // ----- Preview images

  predicate IsGifUrl(url: string) {
    Text.Contains(Text.ToLower(url), ".gif")
  }

  function WithoutGifs(urls: seq<string>): (r: seq<string>)
    ensures forall u :: u in r <==> u in urls && !IsGifUrl(u)
  {
    if urls == [] then []
    else (if IsGifUrl(urls[0]) then [] else [urls[0]]) + WithoutGifs(urls[1..])
  }

  /** The preview image URLs of a topic: those of its body, then those of its
      popular replies, without GIFs (any case) and without repetitions. */
  function MediaThumbnailUrls(t: Topic): (r: seq<string>)
    ensures forall u :: u in r <==>
      (u in t.firstImageUrls.GetOr([]) || u in t.popularRepliesImageUrls.GetOr([])) && !IsGifUrl(u)
    ensures forall i, j :: 0 <= i < j < |r| ==> r[i] != r[j]
  {
    var all := t.firstImageUrls.GetOr([]) + t.popularRepliesImageUrls.GetOr([]);
    Uniq.Uniq(WithoutGifs(all))
  }

  lemma {:induction false} WithoutGifsAppend(a: seq<string>, b: seq<string>)
    ensures WithoutGifs(a + b) == WithoutGifs(a) + WithoutGifs(b)
  {
    if a == [] {
      assert a + b == b;
    } else {
      assert (a + b)[0] == a[0] && (a + b)[1..] == a[1..] + b;
      WithoutGifsAppend(a[1..], b);
    }
  }

  /** The order of the preview images: the body's images first, each once and
      in their order, then those of the popular replies that the body does
      not already have, each once and in their order. */
  lemma MediaThumbnailOrder(t: Topic)
    ensures
      var first := WithoutGifs(t.firstImageUrls.GetOr([]));
      var popular := WithoutGifs(t.popularRepliesImageUrls.GetOr([]));
      MediaThumbnailUrls(t) == Uniq.Uniq(first) + Uniq.UniqFrom(popular, Uniq.Identity, set u | u in first)
  {
    var a, b := t.firstImageUrls.GetOr([]), t.popularRepliesImageUrls.GetOr([]);
    WithoutGifsAppend(a, b);
    Uniq.UniqFromAppend(WithoutGifs(a), WithoutGifs(b), Uniq.Identity, {});
    Uniq.KeysIdentity(WithoutGifs(a));
    assert {} + Uniq.Keys(WithoutGifs(a), Uniq.Identity) == set u | u in WithoutGifs(a);
  }

  // ----- The create-topic button

  datatype CreateButtonTitle = CreateTopic | PostIdea | AskQuestion | ReportProblem | CreateMindMap | CreatePage

  /** Reading element 0 of an absent type list throws in the source. */
  datatype TypeError = TypeError

  /** The button title for a category's list of new-topic types. `None` is a
      category without the list, on which the source throws. */
  method CreateTopicBtnTitle(newTopicTypes: Option<seq<PageRole>>) returns (r: Result<CreateButtonTitle, TypeError>)
    ensures r.Err? <==> newTopicTypes.None?
    ensures r == Ok(PostIdea) <==> newTopicTypes == Some([Idea])
    ensures r == Ok(AskQuestion) <==> newTopicTypes == Some([Question])
    ensures r == Ok(ReportProblem) <==> newTopicTypes == Some([Problem])
    ensures r == Ok(CreateMindMap) <==> newTopicTypes == Some([MindMap])
    ensures r == Ok(CreatePage) <==>
      newTopicTypes.Some? && 1 <= |newTopicTypes.value| <= 2 &&
      forall k :: 0 <= k < |newTopicTypes.value| ==> IsWebPage(newTopicTypes.value[k])
  {
    if newTopicTypes.Some? && |newTopicTypes.value| == 1 {
      assert newTopicTypes.value == [newTopicTypes.value[0]];
    }
    var title := CreateTopic;
    if newTopicTypes == Some([Idea]) {
      title := PostIdea;
    } else if newTopicTypes == Some([Question]) {
      title := AskQuestion;
    } else if newTopicTypes == Some([Problem]) {
      title := ReportProblem;
    } else if newTopicTypes == Some([MindMap]) {
      title := CreateMindMap;
    } else {
      if newTopicTypes.None? {
        return Err(TypeError);
      }
      var types := newTopicTypes.value;
      // `types[0]` of an empty list is undefined, which is no web page.
      var areWebPages := |types| > 0 && IsWebPage(types[0]) &&
        (|types| == 1 || (|types| == 2 && IsWebPage(types[1])));
      assert areWebPages <==> 1 <= |types| <= 2 && forall k :: 0 <= k < |types| ==> IsWebPage(types[k]) by {
        if 1 <= |types| <= 2 && forall k :: 0 <= k < |types| ==> IsWebPage(types[k]) {
          assert IsWebPage(types[0]);
          assert |types| == 2 ==> IsWebPage(types[1]);
        }
      }
      if areWebPages {
        title := CreatePage;
      }
    }
    r := Ok(title);
  }

  // ----- The title icon and tooltip

  datatype Icon =
    | NoIcon | Block | OkIcon | HelpCircled | Check | CheckEmpty | AttentionCircled
    | IdeaBulb | CheckDashed | Chat | Lock | Sitemap | Mail | DocText | CommentEmpty

  datatype TooltipText =
    | ClosedText(role: PageRole) | QuestionText(answeredAtMs: Option<int>)
    | FixedText | DoneText | StartedFixingText | StartedText | UnsolvedText | IdeaText
    | PlanningFixText | PlanningDoText | TestingDoneText | WaitingForFeedbackText
    | ChatText | PrivateChatText | MindMapText | PrivateMessageText | InfoPageText | DiscussionText

  /** One piece of a tooltip string. `UndefinedWord` is the text JavaScript
      makes of `undefined` when a string is appended to it. */
  datatype TooltipPart = Part(text: TooltipText) | UndefinedWord | PinnedGlobally | PinnedInCategory

  datatype TitleDecoration = TitleDecoration(icon: Icon, tooltip: Option<seq<TooltipPart>>, deleted: bool)

  predicate ClosedUnresolved(t: Topic) {
    Truthy(t.closedAtMs) && !IsDone(t) && !IsAnswered(t)
  }

  /** The role-dependent part of the title: its icon and its base tooltip
      (`None` where the source leaves the tooltip undefined). */
  function RoleIcon(t: Topic, showIcons: bool): (r: (Icon, Option<TooltipText>))
    ensures r.0 == Block <==> ClosedUnresolved(t)
    ensures showIcons ==> r.0 != NoIcon && r.1.Some?
    ensures r.1.None? ==> r.0 == NoIcon
  {
    var role := t.pageRole;
    if ClosedUnresolved(t) then (Block, Some(ClosedText(role)))
    else if role == Question then
      (if Truthy(t.answeredAtMs) then OkIcon else if showIcons then HelpCircled else NoIcon,
       Some(QuestionText(t.answeredAtMs)))
    else if role == Problem || role == Idea then
      if Truthy(t.doneAtMs) then (Check, Some(if role == Problem then FixedText else DoneText))
      else if !showIcons then (NoIcon, None)
      else if Truthy(t.startedAtMs) then
        (CheckEmpty, Some(if role == Problem then StartedFixingText else StartedText))
      else if !Truthy(t.plannedAtMs) then
        (if role == Problem then AttentionCircled else IdeaBulb,
         Some(if role == Problem then UnsolvedText else IdeaText))
      else (CheckDashed, Some(if role == Problem then PlanningFixText else PlanningDoText))
    else if role == UsabilityTesting then
      if Truthy(t.doneAtMs) then (Check, Some(TestingDoneText))
      else if showIcons then (CheckEmpty, Some(WaitingForFeedbackText))
      else (NoIcon, None)
    else if role == OpenChat then
      if showIcons then (Chat, Some(ChatText)) else (NoIcon, None)
    else if role == PrivateChat then (Lock, Some(PrivateChatText))
    else if role == MindMap then
      if showIcons then (Sitemap, Some(MindMapText)) else (NoIcon, None)
    else if role == FormalMessage then (Mail, Some(PrivateMessageText))
    else if IsWebPage(role) then (DocText, Some(InfoPageText))
    else if showIcons then (CommentEmpty, Some(DiscussionText))
    else (NoIcon, None)
  }

  function PinPart(p: PinWhere): TooltipPart {
    if p == Globally then PinnedGlobally else PinnedInCategory
  }

  /** `makeTitle` as written: the pin text is appended with `+=` even when the
      tooltip is still undefined. */
  function MakeTitleAsWritten(t: Topic, showIcons: bool): (d: TitleDecoration)
    ensures d.icon == RoleIcon(t, showIcons).0
    ensures (d.tooltip.Some? && UndefinedWord in d.tooltip.value) <==>
      t.pinWhere.Some? && RoleIcon(t, showIcons).1.None?
    ensures d.deleted <==> Truthy(t.deletedAtMs)
  {
    var (icon, base) := RoleIcon(t, showIcons);
    var tooltip :=
      if t.pinWhere.Some? then
        Some((if base.Some? then [Part(base.value)] else [UndefinedWord]) + [PinPart(t.pinWhere.value)])
      else if base.Some? then Some([Part(base.value)])
      else None;
    TitleDecoration(icon, tooltip, Truthy(t.deletedAtMs))
  }

  /** `makeTitle` with the pin text appended to the base tooltip if there is
      one, and standing alone otherwise. */
  function MakeTitle(t: Topic, showIcons: bool): (d: TitleDecoration)
    ensures d.tooltip.Some? ==> |d.tooltip.value| > 0 && UndefinedWord !in d.tooltip.value
    ensures t.pinWhere.Some? ==> d.tooltip.Some? && d.tooltip.value[|d.tooltip.value| - 1] == PinPart(t.pinWhere.value)
    ensures d.deleted <==> Truthy(t.deletedAtMs)
  {
    var (icon, base) := RoleIcon(t, showIcons);
    var baseParts := if base.Some? then [Part(base.value)] else [];
    var tooltip :=
      if t.pinWhere.Some? then Some(baseParts + [PinPart(t.pinWhere.value)])
      else if base.Some? then Some(baseParts)
      else None;
    TitleDecoration(icon, tooltip, Truthy(t.deletedAtMs))
  }

  /** The as-written tooltip of a pinned discussion, with topic-type icons
      switched off, begins with the word "undefined". */
  lemma PinnedTooltipShowsUndefined(t: Topic)
    requires t.pageRole == Discussion && t.pinWhere.Some? && !Truthy(t.closedAtMs)
    ensures MakeTitleAsWritten(t, false).tooltip.Some?
    ensures MakeTitleAsWritten(t, false).tooltip.value[0] == UndefinedWord
  {
  }

  /** The corrected title differs from the as-written one only in the tooltip
      of pinned topics that have no base tooltip. */
  lemma MakeTitleAgrees(t: Topic, showIcons: bool)
    ensures MakeTitle(t, showIcons).icon == MakeTitleAsWritten(t, showIcons).icon
    ensures RoleIcon(t, showIcons).1.Some? || t.pinWhere.None? ==>
      MakeTitle(t, showIcons) == MakeTitleAsWritten(t, showIcons)
  {
  }

  /** An unresolved closed topic shows the closed icon, and only it does. */
  lemma ClosedIconIffClosedUnresolved(t: Topic, showIcons: bool)
    ensures MakeTitle(t, showIcons).icon == Block <==> ClosedUnresolved(t)
  {
  }

  /** Done problems, ideas and usability tests and answered questions show
      their resolved icon whatever the settings; resolved topics never show
      the closed icon. */
  lemma ResolvedIcons(t: Topic, showIcons: bool)
    ensures IsDone(t) && t.pageRole != ToDo ==> MakeTitle(t, showIcons).icon == Check
    ensures IsAnswered(t) ==> MakeTitle(t, showIcons).icon == OkIcon
  {
  }

  /** With topic-type icons switched off only icons that carry information
      remain: closed, answered, done, private chat and message, info page.
      A done to-do is listed like a discussion and so shows no icon. */
  lemma IconsWhenTypesHidden(t: Topic)
    ensures MakeTitle(t, false).icon in {NoIcon, Block, OkIcon, Check, Lock, Mail, DocText}
    ensures MakeTitle(t, false).icon == NoIcon ==>
      !ClosedUnresolved(t) && !IsAnswered(t) && (IsDone(t) ==> t.pageRole == ToDo)
  {
  }
}
