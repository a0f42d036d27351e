/**
 * The phase-2 landing page (src/pages/Phase2LandingPage.tsx): the next
 * introductory step for a returning participant and its route under
 * `/phase2`.
 */
module Phase2Landing {
  import opened Wrappers
  import opened Strings
  import opened StudyTypes
  import Landing

  /** The introductory steps of phase 2. */
  datatype IntroStep = IntroVideo | IntroBig5 | IntroIQ {
    function Leaf(): string {
      match this
      case IntroVideo => "intro-video"
      case IntroBig5 => "intro-big5"
      case IntroIQ => "intro-iq"
    }
  }

  /** Group `'0'` goes to the video; the other group does Big Five, then IQ, then the video. */
  function Phase2NextStep(p: Participant): (s: IntroStep)
    ensures p.group == G0 ==> s == IntroVideo
    ensures s == IntroBig5 ==> !p.hasBig5
    ensures s == IntroIQ ==> p.hasBig5 && !p.hasIQ
  {
    if p.group == G0 then IntroVideo
    else if !p.hasBig5 then IntroBig5
    else if !p.hasIQ then IntroIQ
    else IntroVideo
  }

  /**
   * For a participant past phase 1 this page and the general landing page
   * agree: each points to the introduction of the step the other names.
   */
  lemma AgreesWithLandingPage(p: Participant)
    requires p.phase != Phase1
    ensures Phase2NextStep(p).Leaf() == "intro-" + Landing.NextStep(p).Leaf()
  {
  }

  /**
   * `/phase2/group${group}/${next}`, whatever phase the participant is
   * recorded in; `None` while there is no user.
   */
  function Phase2Target(user: Option<Participant>): (path: Option<string>)
    ensures path.None? <==> user.None?
    ensures path.Some? ==>
              Split(path.value, '/') == ["", "phase2", "group" + user.value.group.Text(),
                                         Phase2NextStep(user.value).Leaf()]
  {
    match user
    case None => None
    case Some(p) =>
      var leaf := Phase2NextStep(p).Leaf();
      assert '/' !in "phase2" && '/' !in leaf;
      AppPathSegments("phase2", p.group, leaf);
      Some(AppPath("phase2", p.group, leaf))
  }

  /** The recorded phase plays no part in the target. */
  lemma TargetIgnoresRecordedPhase(p: Participant, ph: Phase)
    ensures Phase2Target(Some(p.(phase := ph))) == Phase2Target(Some(p))
  {
  }
}
