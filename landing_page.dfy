/**
 * The landing page (src/pages/LandingPage.tsx): from the participant's phase,
 * group and completed questionnaires, the next step of the study and the
 * route the Start button navigates to.
 */
module Landing {
  import opened Wrappers
  import opened Strings
  import opened StudyTypes

  /** The steps the landing page can send a participant to. */
  datatype Step = Demographics | Big5 | IQ | Video {
    /** The last segment of the step's route. */
    function Leaf(): string {
      match this
      case Demographics => "demographics"
      case Big5 => "big5"
      case IQ => "iq"
      case Video => "video"
    }
  }

  /** Whether the participant's document already holds a step's result; watching the video is not recorded. */
  predicate Done(p: Participant, s: Step) {
    match s
    case Demographics => p.hasDemographics
    case Big5 => p.hasBig5
    case IQ => p.hasIQ
    case Video => false
  }

  /**
   * The steps before annotation, in the order of the study design: group 0
   * fills in everything in phase 1 and only watches the video in phase 2;
   * group 1 does the psychometric tests in phase 2 instead. Any phase other
   * than phase 1 uses the phase-2 route.
   */
  function Route(p: Participant): (r: seq<Step>)
    ensures |r| > 0 && r[|r| - 1] == Video
    ensures forall i, j :: 0 <= i < j < |r| ==> r[i] != r[j]
  {
    if p.phase == Phase1 then
      if p.group == G0 then [Demographics, Big5, IQ, Video] else [Demographics, Video]
    else
      if p.group == G0 then [Video] else [Big5, IQ, Video]
  }

  /** Position of the first step of a route that is not done yet. */
  function FirstPending(route: seq<Step>, p: Participant): (i: nat)
    requires |route| > 0 && !Done(p, route[|route| - 1])
    ensures i < |route| && !Done(p, route[i])
    ensures forall j :: 0 <= j < i ==> Done(p, route[j])
  {
    if !Done(p, route[0]) then 0
    else
      var k := FirstPending(route[1..], p);
      assert forall j :: 1 <= j <= k ==> route[j] == route[1..][j - 1];
      1 + k
  }

  /** The decision chain of the page, branch by branch. */
  function NextStep(p: Participant): (s: Step)
    ensures !Done(p, s)
    ensures s in Route(p)
  {
    if p.phase == Phase1 then
      if p.group == G0 then
        if !p.hasDemographics then Demographics
        else if !p.hasBig5 then Big5
        else if !p.hasIQ then IQ
        else Video
      else
        if !p.hasDemographics then Demographics else Video
    else
      if p.group == G0 then Video
      else if !p.hasBig5 then Big5
      else if !p.hasIQ then IQ
      else Video
  }

  /** The chain picks the first step of the participant's route that is not done. */
  lemma NextStepIsFirstPending(p: Participant)
    ensures NextStep(p) == Route(p)[FirstPending(Route(p), p)]
  {
    var r := Route(p);
    var i := FirstPending(r, p);
    assert forall j :: 0 <= j < i ==> Done(p, r[j]);
  }

  /**
   * A participant who has at least the results of another, plus the step
   * that one is at, is further along the same route.
   */
  lemma {:induction false} PendingAdvances(route: seq<Step>, p: Participant, q: Participant)
    requires |route| > 0 && !Done(p, route[|route| - 1]) && !Done(q, route[|route| - 1])
    requires forall s :: Done(p, s) ==> Done(q, s)
    requires Done(q, route[FirstPending(route, p)])
    ensures FirstPending(route, q) > FirstPending(route, p)
    decreases |route|
  {
    if Done(p, route[0]) {
      PendingAdvances(route[1..], p, q);
    }
  }

  /** The participant with one more questionnaire recorded. */
  function Record(p: Participant, s: Step): (q: Participant)
    ensures Done(q, s) || s == Video
    ensures forall t :: Done(p, t) ==> Done(q, t)
    ensures q.phase == p.phase && q.group == p.group
  {
    match s
    case Demographics => p.(hasDemographics := true)
    case Big5 => p.(hasBig5 := true)
    case IQ => p.(hasIQ := true)
    case Video => p
  }

  /** Completing the step the page points to moves the page strictly forward along the route. */
  lemma CompletingStepAdvances(p: Participant)
    requires NextStep(p) != Video
    ensures Route(Record(p, NextStep(p))) == Route(p)
    ensures FirstPending(Route(p), Record(p, NextStep(p))) > FirstPending(Route(p), p)
  {
    var q := Record(p, NextStep(p));
    NextStepIsFirstPending(p);
    PendingAdvances(Route(p), p, q);
  }

  /**
   * The route the Start button navigates to, `/${phase}/group${group}/${next}`;
   * `None` while there is no user (the page shows Loading).
   */
  function LandingTarget(user: Option<Participant>): (path: Option<string>)
    ensures path.None? <==> user.None?
    ensures path.Some? ==>
              Split(path.value, '/') == ["", user.value.phase.Text(), "group" + user.value.group.Text(),
                                         NextStep(user.value).Leaf()]
  {
    match user
    case None => None
    case Some(p) =>
      var leaf := NextStep(p).Leaf();
      assert '/' !in p.phase.Text() && '/' !in leaf;
      AppPathSegments(p.phase.Text(), p.group, leaf);
      Some(AppPath(p.phase.Text(), p.group, leaf))
  }
}
