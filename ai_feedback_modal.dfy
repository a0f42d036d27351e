/**
 * The AI feedback dialog (src/components/annotation/AIFeedbackModal.tsx): the
 * final-decision choice, the order of the two callbacks on Continue, the
 * rounded figures it shows and the boxes it overlays on the image.
 */
module FeedbackModal {
  import opened Wrappers
  import opened Numbers
  import opened Geometry
  import opened StudyTypes
  import opened BoxDrawing

  /** A call the dialog makes to its owner. */
  datatype FeedbackCall = Revise(decision: Diagnosis) | Continued

  class AIFeedbackModal {
    var decision: Diagnosis
    /** The callbacks made so far, oldest first. */
    var calls: seq<FeedbackCall>

    /** The choice starts at the participant's earlier decision, or else the AI's. */
    constructor (initialDecision: Option<Diagnosis>, aiPrediction: Diagnosis)
      ensures initialDecision.Some? ==> decision == initialDecision.value
      ensures initialDecision.None? ==> decision == aiPrediction
      ensures calls == []
    {
      decision := initialDecision.GetOr(aiPrediction);
      calls := [];
    }

    /** Picking an option in the select replaces the choice and calls nobody. */
    method Select(d: Diagnosis)
      modifies this
      ensures decision == d && calls == old(calls)
    {
      decision := d;
    }

    /** Continue reports the current choice first and only then continues. */
    method PressContinue()
      modifies this
      ensures decision == old(decision)
      ensures calls == old(calls) + [Revise(decision), Continued]
    {
      calls := calls + [Revise(decision)];
      calls := calls + [Continued];
    }
  }

  /** Call i revises to d, and no later call revises. */
  predicate RevisedLastAt(calls: seq<FeedbackCall>, i: int, d: Diagnosis) {
    0 <= i < |calls| && calls[i] == Revise(d) && forall j :: i < j < |calls| ==> !calls[j].Revise?
  }

  /** The decision carried by the latest `Revise` call, if any. */
  function LastRevision(calls: seq<FeedbackCall>): (d: Option<Diagnosis>)
    ensures d.None? <==> forall i :: 0 <= i < |calls| ==> !calls[i].Revise?
    ensures d.Some? ==> exists i :: RevisedLastAt(calls, i, d.value)
  {
    if calls == [] then None
    else
      var last := calls[|calls| - 1];
      if last.Revise? then
        assert RevisedLastAt(calls, |calls| - 1, last.decision);
        Some(last.decision)
      else
        var init := calls[..|calls| - 1];
        var d := LastRevision(init);
        assert forall i :: 0 <= i < |init| ==> init[i] == calls[i];
        assert d.Some? ==> exists i :: RevisedLastAt(calls, i, d.value) by {
          if d.Some? {
            var i :| RevisedLastAt(init, i, d.value);
            assert RevisedLastAt(calls, i, d.value);
          }
        }
        d
  }

  /** Whatever happened before, Continue leaves the current choice as the latest revision. */
  lemma ContinueReportsChoice(before: seq<FeedbackCall>, d: Diagnosis)
    ensures LastRevision(before + [Revise(d), Continued]) == Some(d)
  {
    var calls := before + [Revise(d), Continued];
    assert calls[..|calls| - 1] == before + [Revise(d)];
  }

  /** `Math.round(iouPercent)`: the overlap is taken to be a percentage already. */
  function IoULabel(iouPercent: Num): (r: Num)
    ensures r.NaN? <==> iouPercent.NaN?
    ensures r.Finite? ==> IsInteger(r.value) && Abs(r.value - iouPercent.value) <= 0.5
  {
    RoundNum(iouPercent)
  }

  /** `Math.round(aiConfidence * 100)`: the confidence as a whole percentage. */
  function ConfidenceLabel(aiConfidence: Num): (r: Num)
    ensures r.NaN? <==> aiConfidence.NaN?
    ensures r.Finite? ==> IsInteger(r.value) && Abs(r.value - 100.0 * aiConfidence.value) <= 0.5
  {
    match aiConfidence
    case NaN => NaN
    case Finite(c) => Finite(Round(100.0 * c) as real)
  }

  /** A confidence in [0, 1] is shown as a percentage in [0, 100]. */
  lemma ConfidenceLabelRange(c: real)
    requires 0.0 <= c <= 1.0
    ensures 0.0 <= ConfidenceLabel(Finite(c)).value <= 100.0
  {
    var k := Round(100.0 * c);
    assert -0.5 < k as real <= 100.5;
    assert 0 <= k <= 100;
  }

  /**
   * One `drawBox` call of the overlay: the rectangle it paints and the point
   * its caption is painted at, each absent when a coordinate is NaN (the
   * canvas ignores a `strokeRect` or `fillText` with a NaN argument).
   */
  datatype OverlayRect = OverlayRect(rect: Option<Box>, color: string, caption: string, captionAt: Option<(real, real)>)

  const AI_COLOR := "rgba(255, 0, 0, 0.9)"
  const USER_COLOR := "rgba(0, 0, 255, 0.9)"

  /**
   * A box scaled by rendered size / natural size, with its caption at
   * (x + 5, y + 20). Before the image has a natural size the factors are not
   * finite and the canvas draws nothing.
   */
  function OverlayOf(b: NumBox, img: ImageLayout, color: string, caption: string): (r: Option<OverlayRect>)
    ensures r.Some? <==> ToDisplay(img).Some?
    ensures r.Some? ==> r.value.color == color && r.value.caption == caption
    ensures r.Some? ==> (r.value.rect.Some? <==> b.ToBox().Some?)
    ensures r.Some? && r.value.rect.Some? ==> r.value.rect.value == NaturalToDisplay(Some(img), b.ToBox()).value
    ensures r.Some? ==> (r.value.captionAt.Some? <==> b.x.Finite? && b.y.Finite?)
    ensures r.Some? && r.value.captionAt.Some? ==>
              var s := ToDisplay(img).value;
              r.value.captionAt.value.0 == b.x.value * s.sx + 5.0 && r.value.captionAt.value.1 == b.y.value * s.sy + 20.0
  {
    match ToDisplay(img)
    case None => None
    case Some(s) =>
      var rect := if b.ToBox().Some? then Some(Scaled(b.ToBox().value, s)) else None;
      var at := if b.x.Finite? && b.y.Finite? then Some((b.x.value * s.sx + 5.0, b.y.value * s.sy + 20.0)) else None;
      Some(OverlayRect(rect, color, caption, at))
  }

  /** A participant's box as the overlay takes it: every field a number. */
  function FromBox(b: Box): (n: NumBox)
    ensures n.ToBox() == Some(b)
  {
    NumBox(Finite(b.x), Finite(b.y), Finite(b.width), Finite(b.height))
  }

  /**
   * The overlay: the AI box (red) if there is one, then the participant's box
   * (blue) if there is one.
   */
  function Overlay(aiBox: Option<NumBox>, userBox: Option<Box>, img: ImageLayout): (r: seq<OverlayRect>)
    ensures ToDisplay(img).None? ==> r == []
    ensures ToDisplay(img).Some? ==> |r| == (if aiBox.Some? then 1 else 0) + (if userBox.Some? then 1 else 0)
    ensures forall i :: 0 <= i < |r| ==> r[i].caption == "AI" || r[i].caption == "User"
    ensures ToDisplay(img).Some? && aiBox.Some? ==>
              r[0] == OverlayOf(aiBox.value, img, AI_COLOR, "AI").value
    ensures ToDisplay(img).Some? && userBox.Some? ==>
              r[|r| - 1].caption == "User" && r[|r| - 1].color == USER_COLOR
              && r[|r| - 1].rect == NaturalToDisplay(Some(img), userBox)
              && r[|r| - 1].captionAt.Some?
  {
    var ai := if aiBox.Some? then OverlayOf(aiBox.value, img, AI_COLOR, "AI") else None;
    var user := if userBox.Some? then OverlayOf(FromBox(userBox.value), img, USER_COLOR, "User") else None;
    (if ai.Some? then [ai.value] else []) + (if user.Some? then [user.value] else [])
  }

  /**
   * An AI box whose height is NaN (the row of exactly 18 columns) still gets
   * its "AI" caption on screen, but no rectangle.
   */
  lemma CaptionWithoutRectangle(x: real, y: real, w: Num, img: ImageLayout)
    requires ToDisplay(img).Some?
    ensures var r := Overlay(Some(NumBox(Finite(x), Finite(y), w, NaN)), None, img);
            |r| == 1 && r[0].caption == "AI" && r[0].rect.None? && r[0].captionAt.Some?
  {
  }

  /**
   * The AI box is stored normalised to [0, 1] but scaled here as if it were in
   * natural pixels: on a laid-out image it lands inside the rectangle of one
   * natural pixel at the top-left corner.
   */
  lemma NormalisedBoxDrawnInCorner(b: Box, img: ImageLayout)
    requires LaidOut(img)
    requires 0.0 <= b.x && 0.0 <= b.width && b.x + b.width <= 1.0
    requires 0.0 <= b.y && 0.0 <= b.height && b.y + b.height <= 1.0
    ensures ToDisplay(img).Some?
    ensures var d := NaturalToDisplay(Some(img), Some(b)).value;
            var s := ToDisplay(img).value;
            0.0 <= d.x && d.x + d.width <= s.sx && 0.0 <= d.y && d.y + d.height <= s.sy
  {
    var s := ToDisplay(img).value;
    assert s.sx > 0.0 && s.sy > 0.0;
    MulMonotone(b.x + b.width, s.sx, 1.0, s.sx);
    MulMonotone(b.y + b.height, s.sy, 1.0, s.sy);
    MulNonNegative(b.x, s.sx);
    MulNonNegative(b.y, s.sy);
  }
}
