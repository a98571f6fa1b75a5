/** The change-page dropdown: set a topic's doing status, category or type,
    close or reopen it, or jump to its accepted answer. */
module ChangePageModal {
  import opened Wrappers
  import opened PageTypes

  /** The page fields the dialog reads. */
  datatype ModalPage = ModalPage(
    pageRole: PageRole,
    doingStatus: Option<DoingStatus>,
    pageAnsweredAtMs: Option<int>,
    pageAnswerPostUniqueId: Option<int>,
    pageClosedAtMs: Option<int>,
    categoryId: Option<int>)

  /** Answers of helpers outside this file, passed in: whether the page type
      has a doing status, is closed without being done, may be closed and
      reopened, and was created by the current user. */
  datatype PageFacts = PageFacts(
    hasDoingStatus: bool,
    isClosedNotDone: bool,
    canToggleClosed: bool,
    isOwnPage: bool)

  datatype CloseText = CloseOwnQuestion | CloseOthersQuestion | CloseToDo | CloseTopic

  datatype Item =
    | ViewAnswer
    | StatusTitle
    | SetStatus(status: DoingStatus, active: bool)
    | ChangeCategory
    | ChangeTopicType
    | Reopen
    | Close(text: CloseText)

  /** The explanation beside the Close button. */
  function CloseItemText(role: PageRole, isOwnPage: bool): (t: CloseText)
    ensures t == CloseOwnQuestion <==> role == Question && isOwnPage
    ensures t == CloseOthersQuestion <==> role == Question && !isOwnPage
    ensures t == CloseToDo <==> role == ToDo
    ensures t == CloseTopic <==> role != Question && role != ToDo
  {
    match role {
      case Question => if isOwnPage then CloseOwnQuestion else CloseOthersQuestion
      case ToDo => CloseToDo
      case _ => CloseTopic
    }
  }

  predicate CanChangeDoingStatus(page: ModalPage, facts: PageFacts) {
    facts.hasDoingStatus && !facts.isClosedNotDone
  }

  /** The Close or Reopen item, if any. */
  function CloseOrReopen(page: ModalPage, facts: PageFacts): (r: seq<Item>)
    ensures |r| <= 1
    ensures page.doingStatus == Some(Done) || Truthy(page.pageAnswerPostUniqueId) || !facts.canToggleClosed ==> r == []
    ensures page.doingStatus != Some(Done) && !Truthy(page.pageAnswerPostUniqueId) && facts.canToggleClosed ==>
      r == (if Truthy(page.pageClosedAtMs) then [Reopen] else [Close(CloseItemText(page.pageRole, facts.isOwnPage))])
  {
    if page.doingStatus == Some(Done) || Truthy(page.pageAnswerPostUniqueId) then []
    else if !facts.canToggleClosed then []
    else if Truthy(page.pageClosedAtMs) then [Reopen]
    else [Close(CloseItemText(page.pageRole, facts.isOwnPage))]
  }

  /** The item setting `status`, active when it is the page's status. */
  function StatusItem(page: ModalPage, status: DoingStatus): Item {
    SetStatus(status, page.doingStatus == Some(status))
  }

  /** The "Change status to:" title and one item per doing status. */
  function StatusItems(page: ModalPage): seq<Item> {
    [StatusTitle, StatusItem(page, Discussing), StatusItem(page, Planned),
     StatusItem(page, Started), StatusItem(page, Done)]
  }

  lemma StatusItemsComplete(page: ModalPage)
    ensures forall status :: StatusItem(page, status) in StatusItems(page)
  {
    forall status
      ensures StatusItem(page, status) in StatusItems(page)
    {
      var items := StatusItems(page);
      match status {
        case Discussing => assert items[1] == StatusItem(page, status);
        case Planned => assert items[2] == StatusItem(page, status);
        case Started => assert items[3] == StatusItem(page, status);
        case Done => assert items[4] == StatusItem(page, status);
      }
    }
  }

  /** The items of the open dialog, in display order. */
  function Items(page: ModalPage, showViewAnswerButton: bool, facts: PageFacts): (r: seq<Item>)
    ensures ChangeCategory in r && ChangeTopicType in r
    ensures |r| >= 2
  {
    ViewAnswerPart(page, showViewAnswerButton) + StatusPart(page, facts) + [ChangeCategory, ChangeTopicType] + CloseOrReopen(page, facts)
  }

  function ViewAnswerPart(page: ModalPage, showViewAnswerButton: bool): seq<Item> {
    if !Truthy(page.pageAnsweredAtMs) || !showViewAnswerButton then [] else [ViewAnswer]
  }

  function StatusPart(page: ModalPage, facts: PageFacts): seq<Item> {
    if !CanChangeDoingStatus(page, facts) then [] else StatusItems(page)
  }

  /** The view-answer button needs an answer and the caller's request. */
  lemma ViewAnswerShown(page: ModalPage, showViewAnswerButton: bool, facts: PageFacts)
    ensures ViewAnswer in Items(page, showViewAnswerButton, facts) <==>
      Truthy(page.pageAnsweredAtMs) && showViewAnswerButton
  {
    assert ViewAnswer !in CloseOrReopen(page, facts);
  }

  /** The status items are shown iff the status may change; then every status
      has its item, and an item is active iff it is the page's status. */
  lemma StatusItemsShown(page: ModalPage, showViewAnswerButton: bool, facts: PageFacts)
    ensures StatusTitle in Items(page, showViewAnswerButton, facts) <==> CanChangeDoingStatus(page, facts)
    ensures forall it :: it in Items(page, showViewAnswerButton, facts) && it.SetStatus? ==>
      CanChangeDoingStatus(page, facts) && (it.active <==> page.doingStatus == Some(it.status))
    ensures CanChangeDoingStatus(page, facts) ==>
      forall status :: StatusItem(page, status) in Items(page, showViewAnswerButton, facts)
  {
    StatusItemsComplete(page);
    assert StatusTitle !in CloseOrReopen(page, facts);
    assert forall it :: it in CloseOrReopen(page, facts) ==> !it.SetStatus?;
  }

  function CountActive(items: seq<Item>): nat {
    if items == [] then 0
    else (if items[0].SetStatus? && items[0].active then 1 else 0) + CountActive(items[1..])
  }

  lemma {:induction false} CountActiveAppend(a: seq<Item>, b: seq<Item>)
    ensures CountActive(a + b) == CountActive(a) + CountActive(b)
  {
    if a == [] {
      assert a + b == b;
    } else {
      assert (a + b)[1..] == a[1..] + b;
      CountActiveAppend(a[1..], b);
    }
  }

  lemma {:induction false} NoActive(items: seq<Item>)
    requires forall it :: it in items ==> !it.SetStatus?
    ensures CountActive(items) == 0
  {
    if items != [] {
      assert forall it :: it in items[1..] ==> it in items;
      NoActive(items[1..]);
    }
  }

  lemma CountActiveSingle(x: Item)
    ensures CountActive([x]) == if x.SetStatus? && x.active then 1 else 0
  {
    assert [x][1..] == [];
  }

  lemma StatusItemsActive(page: ModalPage)
    ensures CountActive(StatusItems(page)) == if page.doingStatus.Some? then 1 else 0
  {
    var st := StatusItems(page);
    assert st == [st[0]] + [st[1]] + [st[2]] + [st[3]] + [st[4]];
    CountActiveAppend([st[0]] + [st[1]] + [st[2]] + [st[3]], [st[4]]);
    CountActiveAppend([st[0]] + [st[1]] + [st[2]], [st[3]]);
    CountActiveAppend([st[0]] + [st[1]], [st[2]]);
    CountActiveAppend([st[0]], [st[1]]);
    CountActiveSingle(st[0]);
    CountActiveSingle(st[1]);
    CountActiveSingle(st[2]);
    CountActiveSingle(st[3]);
    CountActiveSingle(st[4]);
    assert CountActive(st) ==
      CountActive([st[0]]) + CountActive([st[1]]) + CountActive([st[2]]) + CountActive([st[3]]) + CountActive([st[4]]);
    if page.doingStatus.Some? {
      match page.doingStatus.value {
        case Discussing => assert st[1].active && !st[2].active && !st[3].active && !st[4].active;
        case Planned => assert !st[1].active && st[2].active && !st[3].active && !st[4].active;
        case Started => assert !st[1].active && !st[2].active && st[3].active && !st[4].active;
        case Done => assert !st[1].active && !st[2].active && !st[3].active && st[4].active;
      }
    }
  }

  /** Exactly one status item is active when the page has a status and status
      items are shown; otherwise none. */
  lemma AtMostOneActiveStatus(page: ModalPage, showViewAnswerButton: bool, facts: PageFacts)
    ensures CountActive(Items(page, showViewAnswerButton, facts)) <= 1
    ensures CountActive(Items(page, showViewAnswerButton, facts)) == 1 <==>
      CanChangeDoingStatus(page, facts) && page.doingStatus.Some?
  {
    var viewAnswer := ViewAnswerPart(page, showViewAnswerButton);
    var statusItems := StatusPart(page, facts);
    var rest := [ChangeCategory, ChangeTopicType] + CloseOrReopen(page, facts);
    assert Items(page, showViewAnswerButton, facts) == viewAnswer + (statusItems + rest);
    CountActiveAppend(viewAnswer, statusItems + rest);
    CountActiveAppend(statusItems, rest);
    NoActive(viewAnswer);
    NoActive(rest);
    if CanChangeDoingStatus(page, facts) {
      StatusItemsActive(page);
    } else {
      NoActive(statusItems);
    }
  }

  /** Reopen and Close are never offered together; a done or answered page,
      or one that cannot be toggled, offers neither; otherwise Reopen iff it
      is closed. */
  lemma CloseAndReopenShown(page: ModalPage, showViewAnswerButton: bool, facts: PageFacts)
    ensures !(Reopen in Items(page, showViewAnswerButton, facts) &&
              exists t :: Close(t) in Items(page, showViewAnswerButton, facts))
    ensures page.doingStatus == Some(Done) || Truthy(page.pageAnswerPostUniqueId) || !facts.canToggleClosed ==>
      forall it :: it in Items(page, showViewAnswerButton, facts) ==> !it.Reopen? && !it.Close?
    ensures page.doingStatus != Some(Done) && !Truthy(page.pageAnswerPostUniqueId) && facts.canToggleClosed ==>
      (Reopen in Items(page, showViewAnswerButton, facts) <==> Truthy(page.pageClosedAtMs)) &&
      (Close(CloseItemText(page.pageRole, facts.isOwnPage)) in Items(page, showViewAnswerButton, facts) <==>
        !Truthy(page.pageClosedAtMs))
  {
    var viewAnswer := ViewAnswerPart(page, showViewAnswerButton);
    var statusItems := StatusPart(page, facts);
    assert forall it :: it in viewAnswer + statusItems + [ChangeCategory, ChangeTopicType] ==> !it.Reopen? && !it.Close?;
  }

  class ChangePageDialog {
    var isOpen: bool
    var page: Option<ModalPage>
    var showViewAnswerButton: Option<bool>
    var atX: Option<real>
    var atY: Option<real>

    /** An open dialog has a page. */
    predicate Valid()
      reads this
    {
      isOpen ==> page.Some?
    }

    constructor ()
      ensures Valid() && !isOpen && page.None? && showViewAnswerButton.None? && atX.None? && atY.None?
    {
      isOpen := false;
      page := None;
      showViewAnswerButton := None;
      atX := None;
      atY := None;
    }

    /** Open below the clicked element's box; a view-answer flag not given
        leaves the previous one. */
    method OpenAtFor(rectLeft: real, rectBottom: real, p: ModalPage, showViewAnswer: Option<bool>)
      modifies this
      ensures Valid() && isOpen && page == Some(p)
      ensures atX == Some(rectLeft) && atY == Some(rectBottom)
      ensures showViewAnswer.Some? ==> showViewAnswerButton == showViewAnswer
      ensures showViewAnswer.None? ==> showViewAnswerButton == old(showViewAnswerButton)
    {
      page := Some(p);
      if showViewAnswer.Some? {
        showViewAnswerButton := showViewAnswer;
      }
      isOpen := true;
      atX := Some(rectLeft);
      atY := Some(rectBottom);
    }

    method Close()
      modifies this
      ensures Valid() && !isOpen && page.None? && showViewAnswerButton.None?
      ensures atX == old(atX) && atY == old(atY)
    {
      isOpen := false;
      page := None;
      showViewAnswerButton := None;
    }

    /** The dialog's items; none while closed. */
    function View(facts: PageFacts): (r: seq<Item>)
      reads this
      requires Valid()
      ensures !isOpen ==> r == []
      ensures isOpen ==> r == Items(page.value, showViewAnswerButton == Some(true), facts)
    {
      if isOpen then Items(page.value, showViewAnswerButton == Some(true), facts) else []
    }
  }

  /** Closing always empties the dialog, whatever was open. */
  method CloseEmpties(d: ChangePageDialog, facts: PageFacts)
    modifies d
    ensures d.Valid() && d.View(facts) == []
  {
    d.Close();
  }
}
