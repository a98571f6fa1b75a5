/** Talkyard Tour: a guided tour through a list of steps, each pointing at a
    page element, with the user's progress remembered per tour. */
module TalkyardTour {
  import opened Wrappers

  /** The current user; only the per-tour progress map is modelled. */
  class Myself {
    var tourTipsStates: map<string, int>

    constructor (tourTipsStates: map<string, int>)
      ensures this.tourTipsStates == tourTipsStates
    {
      this.tourTipsStates := tourTipsStates;
    }
  }

  /** Where the dialog goes relative to the element; `Centered` stands for
      every other value, which the placement switch treats as its default. */
  datatype PlaceHow = ToTheLeft | ToTheRight | Above | Below | Centered

  datatype Step = Step(
    title: string,
    text: string,
    placeAt: string,
    placeHow: PlaceHow,
    waitForClick: bool,
    highlightPadding: Option<real>,
    highlightOffsetX: Option<real>,
    highlightOffsetY: Option<real>)

  datatype Tour = Tour(id: string, forWho: Myself, steps: seq<Step>)

  /** `tour.steps[nextStepIx]`: undefined without a tour, without an index, or
      with an index outside the steps. */
  function StepAt(tour: Option<Tour>, nextStepIx: Option<int>): (s: Option<Step>)
    ensures s.Some? <==>
      tour.Some? && nextStepIx.Some? && 0 <= nextStepIx.value < |tour.value.steps|
    ensures s.Some? ==> s.value == tour.value.steps[nextStepIx.value]
  {
    if tour.Some? && nextStepIx.Some? && 0 <= nextStepIx.value < |tour.value.steps| then
      Some(tour.value.steps[nextStepIx.value])
    else None
  }

  // ----- Rendering

  datatype NextButtonText = Next | Goodbye

  datatype TourView =
    | Nothing
    | NoTourMarker
    | Dialog(
        title: string,
        text: string,
        nextDisabled: bool,
        nextText: NextButtonText,
        position: int,
        stepCount: int,
        showExitButton: bool,
        highlightIgnoresClicks: bool,
        dialogVisible: bool)

  /** What the tour component shows. */
  function Render(tour: Option<Tour>, nextStepIx: Option<int>, elemVisible: bool): (v: TourView)
    ensures v.Nothing? <==> tour.None?
    ensures v.NoTourMarker? <==> tour.Some? && StepAt(tour, nextStepIx).None?
    ensures v.Dialog? ==>
      var step := StepAt(tour, nextStepIx).value;
      var isLastStep := nextStepIx.value == |tour.value.steps| - 1;
      v.title == step.title && v.text == step.text &&
      v.nextDisabled == step.waitForClick &&
      (v.nextText == Goodbye <==> isLastStep) &&
      (v.showExitButton <==> !isLastStep) &&
      1 <= v.position <= v.stepCount == |tour.value.steps| &&
      v.position == nextStepIx.value + 1 &&
      (v.highlightIgnoresClicks <==> step.waitForClick && elemVisible) &&
      v.dialogVisible == elemVisible
  {
    if tour.None? then Nothing
    else
      var step := StepAt(tour, nextStepIx);
      if step.None? then NoTourMarker
      else
        var isLastStep := nextStepIx.value == |tour.value.steps| - 1;
        Dialog(step.value.title, step.value.text, step.value.waitForClick,
          if isLastStep then Goodbye else Next,
          nextStepIx.value + 1, |tour.value.steps|,
          !isLastStep, step.value.waitForClick && elemVisible, elemVisible)
  }

  /** A shown dialog offers exactly one "Goodbye" button: Next on the last
      step, Exit on every other. */
  lemma ExactlyOneGoodbye(tour: Option<Tour>, nextStepIx: Option<int>, elemVisible: bool)
    requires Render(tour, nextStepIx, elemVisible).Dialog?
    ensures
      var v := Render(tour, nextStepIx, elemVisible);
      (v.nextText == Goodbye) != v.showExitButton
  {
  }

  // ----- Placement

  /** The target element's bounding box. */
  datatype Rect = Rect(left: real, top: real, width: real, height: real)

  /** The highlight ellipse: its centre and its vertical and horizontal padding. */
  datatype Highlight = Highlight(left: real, top: real, paddingY: real, paddingX: real)

  datatype Placement = Placement(dialogLeft: real, dialogTop: real, highlight: Highlight)

  const ExtraPadding: real := 13.0

  const NoHighlight := Highlight(0.0, 0.0, 0.0, 0.0)

  /** `x || fallback` on an optional number. */
  function OrElse(x: Option<real>, fallback: real): real {
    if x.Some? && x.value != 0.0 then x.value else fallback
  }

  /** The placement switch: the dialog `2 * ExtraPadding` beyond the named edge
      of the target and centred along it, or centred on the target without a
      highlight by default; the highlight is centred on the target (moved by
      the step's offsets) and padded by the step's padding, 13 when unset. */
  predicate PlacedPer(step: Step, rect: Rect, dialogWidth: real, dialogHeight: real, p: Placement) {
    (step.placeHow == ToTheLeft ==>
      p.dialogLeft + dialogWidth + 2.0 * ExtraPadding == rect.left &&
      p.dialogTop + dialogHeight / 2.0 == rect.top + rect.height / 2.0) &&
    (step.placeHow == ToTheRight ==>
      p.dialogLeft == rect.left + rect.width + 2.0 * ExtraPadding &&
      p.dialogTop + dialogHeight / 2.0 == rect.top + rect.height / 2.0) &&
    (step.placeHow == Above ==>
      p.dialogLeft + dialogWidth / 2.0 == rect.left + rect.width / 2.0 &&
      p.dialogTop + dialogHeight + 2.0 * ExtraPadding == rect.top) &&
    (step.placeHow == Below ==>
      p.dialogLeft + dialogWidth / 2.0 == rect.left + rect.width / 2.0 &&
      p.dialogTop == rect.top + rect.height + 2.0 * ExtraPadding) &&
    (step.placeHow == Centered ==>
      p.dialogLeft + dialogWidth / 2.0 == rect.left + rect.width / 2.0 &&
      p.dialogTop + dialogHeight / 2.0 == rect.top + rect.height / 2.0 &&
      p.highlight == NoHighlight) &&
    (step.placeHow != Centered ==>
      p.highlight.left == rect.left + rect.width / 2.0 + step.highlightOffsetX.GetOr(0.0) &&
      p.highlight.top == rect.top + rect.height / 2.0 + step.highlightOffsetY.GetOr(0.0) &&
      p.highlight.paddingY == rect.height / 2.0 + OrElse(step.highlightPadding, ExtraPadding) &&
      p.highlight.paddingX == rect.width / 2.0 + OrElse(step.highlightPadding, ExtraPadding))
  }

  /** The placement the effect computes for the found element. */
  method Place(step: Step, rect: Rect, dialogWidth: real, dialogHeight: real) returns (p: Placement)
    ensures PlacedPer(step, rect, dialogWidth, dialogHeight, p)
  {
    var left: real;
    var top: real;
    var highlight := true;
    match step.placeHow {
      case ToTheLeft =>
        left := rect.left - dialogWidth - 2.0 * ExtraPadding;
        top := rect.top + rect.height / 2.0 - dialogHeight / 2.0;
      case ToTheRight =>
        left := rect.left + rect.width + 2.0 * ExtraPadding;
        top := rect.top + rect.height / 2.0 - dialogHeight / 2.0;
      case Above =>
        left := rect.left + rect.width / 2.0 - dialogWidth / 2.0;
        top := rect.top - dialogHeight - 2.0 * ExtraPadding;
      case Below =>
        left := rect.left + rect.width / 2.0 - dialogWidth / 2.0;
        top := rect.top + rect.height + 2.0 * ExtraPadding;
      case Centered =>
        left := rect.left + rect.width / 2.0 - dialogWidth / 2.0;
        top := rect.top + rect.height / 2.0 - dialogHeight / 2.0;
        highlight := false;
    }
    var h := NoHighlight;
    if highlight {
      var offsetX := OrElse(step.highlightOffsetX, 0.0);
      var offsetY := OrElse(step.highlightOffsetY, 0.0);
      var padding := OrElse(step.highlightPadding, ExtraPadding);
      h := Highlight(rect.left + rect.width / 2.0 + offsetX, rect.top + rect.height / 2.0 + offsetY,
        rect.height / 2.0 + padding, rect.width / 2.0 + padding);
    }
    p := Placement(left, top, h);
  }

  /** What one run of the placement effect does. */
  datatype Effect =
    | NoEffect
    | WaitForElem              // element absent: highlight padding cleared, retried later
    | Placed(placement: Placement, listenForClick: bool)
    | Crash                    // a property of `undefined` was read: TypeError

  /** The effect for an existing step: wait iff its element is absent,
      otherwise place the dialog per the element's box. */
  predicate StepEffect(step: Step, findElem: string -> Option<Rect>, dialogWidth: real, dialogHeight: real, e: Effect) {
    (e == WaitForElem <==> findElem(step.placeAt).None?) &&
    (findElem(step.placeAt).Some? ==>
      e.Placed? && e.listenForClick == step.waitForClick &&
      PlacedPer(step, findElem(step.placeAt).value, dialogWidth, dialogHeight, e.placement))
  }

  // ----- The component

  class TalkyardTourComponent {
    var tour: Option<Tour>
    var nextStepIx: Option<int>
    var elemVisible: bool

    constructor ()
      ensures tour.None? && nextStepIx == Some(0) && !elemVisible
    {
      tour := None;
      nextStepIx := Some(0);
      elemVisible := false;
    }

    function CurrentStep(): Option<Step>
      reads this
    {
      StepAt(tour, nextStepIx)
    }

    /** `startNewTour`: show `t` from its stored progress (undefined when none
        is stored). */
    method StartNewTour(t: Tour)
      modifies this
      ensures tour == Some(t) && elemVisible == old(elemVisible)
      ensures t.id in t.forWho.tourTipsStates ==> nextStepIx == Some(t.forWho.tourTipsStates[t.id])
      ensures t.id !in t.forWho.tourTipsStates ==> nextStepIx.None?
    {
      tour := Some(t);
      nextStepIx := if t.id in t.forWho.tourTipsStates then Some(t.forWho.tourTipsStates[t.id]) else None;
    }

    /** The Next button (also "Goodbye" on the last step): advance by one and
        store the index being left as the tour's progress. */
    method GoToNextStep()
      requires CurrentStep().Some?
      modifies this, tour.value.forWho
      ensures tour == old(tour) && !elemVisible
      ensures nextStepIx == Some(old(nextStepIx.value) + 1)
      ensures tour.value.forWho.tourTipsStates ==
        old(tour.value.forWho.tourTipsStates)[tour.value.id := old(nextStepIx.value)]
    {
      elemVisible := false;
      var ix := nextStepIx.value;
      nextStepIx := Some(ix + 1);
      var me := tour.value.forWho;
      me.tourTipsStates := me.tourTipsStates[tour.value.id := ix];
    }

    /** The Prev button: back by one, with no lower bound. */
    method GoToPrevStep()
      requires CurrentStep().Some?
      modifies this
      ensures tour == old(tour) && !elemVisible
      ensures nextStepIx == Some(old(nextStepIx.value) - 1)
    {
      elemVisible := false;
      nextStepIx := Some(nextStepIx.value - 1);
    }

    /** The Exit button: hide the tour; the index and the progress stay. */
    method ExitTour()
      requires CurrentStep().Some?
      modifies this
      ensures tour.None? && nextStepIx == old(nextStepIx) && elemVisible == old(elemVisible)
    {
      tour := None;
    }

    /** A click on the highlighted element advances only on a step waiting
        for that click. */
    method MaybeGoNextOnElemClick()
      requires CurrentStep().Some?
      modifies this, tour.value.forWho
      ensures tour == old(tour)
      ensures !old(CurrentStep().value.waitForClick) ==>
        nextStepIx == old(nextStepIx) && elemVisible == old(elemVisible) &&
        tour.value.forWho.tourTipsStates == old(tour.value.forWho.tourTipsStates)
      ensures old(CurrentStep().value.waitForClick) ==>
        nextStepIx == Some(old(nextStepIx.value) + 1) && !elemVisible &&
        tour.value.forWho.tourTipsStates ==
          old(tour.value.forWho.tourTipsStates)[tour.value.id := old(nextStepIx.value)]
    {
      if !CurrentStep().value.waitForClick {
        return;
      }
      GoToNextStep();
    }

    /** The effect's work once a step exists: find the element (`findElem`
        stands for the DOM query), then mark it visible and place the dialog. */
    method PlaceAtStepElem(step: Step, findElem: string -> Option<Rect>, dialogWidth: real, dialogHeight: real)
      returns (e: Effect)
      modifies this
      ensures tour == old(tour) && nextStepIx == old(nextStepIx)
      ensures findElem(step.placeAt).None? ==> e == WaitForElem && elemVisible == old(elemVisible)
      ensures findElem(step.placeAt).Some? ==>
        e.Placed? && elemVisible && e.listenForClick == step.waitForClick &&
        PlacedPer(step, findElem(step.placeAt).value, dialogWidth, dialogHeight, e.placement)
    {
      var rect := findElem(step.placeAt);
      if rect.None? {
        return WaitForElem;
      }
      elemVisible := true;
      var p := Place(step, rect.value, dialogWidth, dialogHeight);
      e := Placed(p, step.waitForClick);
    }

    /** `doWhenPlaceAtElemVisible` as written: with a tour but no step at the
        index it reads `placeAt` of `undefined`. */
    method DoWhenPlaceAtElemVisibleAsWritten(findElem: string -> Option<Rect>, dialogWidth: real, dialogHeight: real)
      returns (e: Effect)
      modifies this
      ensures tour == old(tour) && nextStepIx == old(nextStepIx)
      ensures tour.None? ==> e == NoEffect
      ensures tour.Some? && CurrentStep().None? ==> e == Crash
      ensures CurrentStep().None? ==> elemVisible == old(elemVisible)
      ensures CurrentStep().Some? ==> StepEffect(CurrentStep().value, findElem, dialogWidth, dialogHeight, e)
      ensures CurrentStep().Some? ==>
        elemVisible == (old(elemVisible) || findElem(CurrentStep().value.placeAt).Some?)
    {
      if tour.None? {
        return NoEffect;
      }
      var step := CurrentStep();
      if step.None? {
        return Crash;
      }
      e := PlaceAtStepElem(step.value, findElem, dialogWidth, dialogHeight);
    }

    /** The effect as evidently intended: nothing to place without a step. */
    method DoWhenPlaceAtElemVisible(findElem: string -> Option<Rect>, dialogWidth: real, dialogHeight: real)
      returns (e: Effect)
      modifies this
      ensures tour == old(tour) && nextStepIx == old(nextStepIx)
      ensures e != Crash
      ensures CurrentStep().None? ==> e == NoEffect && elemVisible == old(elemVisible)
      ensures CurrentStep().Some? ==> StepEffect(CurrentStep().value, findElem, dialogWidth, dialogHeight, e)
      ensures CurrentStep().Some? ==>
        elemVisible == (old(elemVisible) || findElem(CurrentStep().value.placeAt).Some?)
    {
      var step := CurrentStep();
      if step.None? {
        return NoEffect;
      }
      e := PlaceAtStepElem(step.value, findElem, dialogWidth, dialogHeight);
    }
  }

  /** "Goodbye" on the last step moves past the steps: the marker is shown. */
  lemma NoStepAfterLastStep(t: Tour, ix: int)
    requires |t.steps| > 0 && ix == |t.steps| - 1
    ensures StepAt(Some(t), Some(ix + 1)).None?
    ensures Render(Some(t), Some(ix + 1), false) == NoTourMarker
  {
  }

  /** Prev on the first step moves to index -1: no step either. */
  lemma NoStepBeforeFirstStep(t: Tour)
    ensures StepAt(Some(t), Some(-1)).None?
    ensures Render(Some(t), Some(-1), false) == NoTourMarker
  {
  }

  /** Pressing "Goodbye" on the last step and then running the as-written
      effect crashes; the corrected effect does nothing. */
  method GoodbyeThenEffect(c: TalkyardTourComponent, findElem: string -> Option<Rect>)
    returns (asWritten: Effect, corrected: Effect)
    requires c.tour.Some? && c.nextStepIx == Some(|c.tour.value.steps| - 1) && |c.tour.value.steps| > 0
    modifies c, c.tour.value.forWho
    ensures c.tour == old(c.tour) && c.nextStepIx == Some(|old(c.tour).value.steps|)
    ensures c.CurrentStep().None?
    ensures asWritten == Crash
    ensures corrected == NoEffect
  {
    c.GoToNextStep();
    asWritten := c.DoWhenPlaceAtElemVisibleAsWritten(findElem, 300.0, 200.0);
    corrected := c.DoWhenPlaceAtElemVisible(findElem, 300.0, 200.0);
  }

  /** The stored progress is the index Next was pressed on, so starting the
      tour again shows that same step again, not the one after it. */
  method RestartAfterNext(c: TalkyardTourComponent, t: Tour)
    requires |t.steps| > 1
    requires t.forWho.tourTipsStates == map[t.id := 0]
    modifies c, t.forWho
    ensures c.tour == Some(t) && c.nextStepIx == Some(0)
    ensures t.forWho.tourTipsStates == map[t.id := 0]
  {
    c.StartNewTour(t);
    assert c.nextStepIx == Some(0);
    c.GoToNextStep();
    assert c.nextStepIx == Some(1) && c.CurrentStep().Some?;
    c.ExitTour();
    c.StartNewTour(t);
  }
}
