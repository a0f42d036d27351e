/**
 * The route guard (src/components/PhaseGuard.tsx): a page of one phase is
 * shown only to participants in that phase; anyone else is sent to the
 * login page, the completion page or the landing page of their own phase.
 */
module Guard {
  import opened Wrappers
  import opened Strings
  import opened StudyTypes

  /** What the guard renders. */
  datatype View = LoadingView | Redirect(to: string) | Children

  predicate Completed(ph: Phase) {
    ph == Phase1Completed || ph == Phase2Completed
  }

  /** The ordered checks of the guard. */
  function PhaseGuard(loading: bool, user: Option<Participant>, requiredPhase: Phase): (v: View)
    ensures loading ==> v == LoadingView
    ensures !loading && user.None? ==> v == Redirect("/")
    ensures !loading && user.Some? ==> (v == Children <==> user.value.phase == requiredPhase)
    ensures !loading && user.Some? && user.value.phase != requiredPhase && Completed(user.value.phase) ==>
              v == Redirect("/completion")
    ensures !loading && user.Some? && user.value.phase != requiredPhase && !Completed(user.value.phase) ==>
              v.Redirect? && Split(v.to, '/') == ["", user.value.phase.Text(), "group" + user.value.group.Text(), "landing"]
  {
    if loading then LoadingView
    else if user.None? then Redirect("/")
    else
      var p := user.value;
      if p.phase != requiredPhase then
        if Completed(p.phase) then Redirect("/completion")
        else
          assert '/' !in p.phase.Text() && '/' !in "landing";
          AppPathSegments(p.phase.Text(), p.group, "landing");
          Redirect(AppPath(p.phase.Text(), p.group, "landing"))
      else Children
  }

  /** The phase a route segment names, if any. */
  function PhaseOfSegment(segment: string): (ph: Option<Phase>)
    ensures ph.Some? ==> ph.value.Text() == segment
  {
    if segment == "phase1" then Some(Phase1)
    else if segment == "phase2" then Some(Phase2)
    else if segment == "phase1_completed" then Some(Phase1Completed)
    else if segment == "phase2_completed" then Some(Phase2Completed)
    else None
  }

  /**
   * No redirect loops: a participant sent away to a landing page lands under
   * the segment of their own phase, and the guard of that phase lets them in.
   */
  lemma RedirectReachesOwnPhase(p: Participant, requiredPhase: Phase)
    requires p.phase != requiredPhase && !Completed(p.phase)
    ensures var v := PhaseGuard(false, Some(p), requiredPhase);
            v.Redirect? && |Split(v.to, '/')| == 4
            && PhaseOfSegment(Split(v.to, '/')[1]) == Some(p.phase)
            && PhaseGuard(false, Some(p), PhaseOfSegment(Split(v.to, '/')[1]).value) == Children
  {
  }

  /** A participant who has finished a phase never sees a phase-1 or phase-2 page. */
  lemma CompletedNeverAdmitted(p: Participant, requiredPhase: Phase)
    requires Completed(p.phase) && !Completed(requiredPhase)
    ensures PhaseGuard(false, Some(p), requiredPhase) == Redirect("/completion")
  {
  }
}
