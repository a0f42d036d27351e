/**
 * The AI-assisted trial (src/components/annotation/AITrial.tsx): a trial
 * steps through `initial`, `pre-confidence`, `feedback` and
 * `post-confidence`, and the final submit records it and moves on.
 *
 * Each handler is a method of its own, as the component's callbacks are; the
 * dialogs that call them are not wired in. `Date.now()` is the `now`
 * parameter and each Firestore write is a success flag.
 */
module AnnotationAI {
  import opened Wrappers
  import opened Numbers
  import opened Strings
  import opened Geometry
  import opened StudyTypes
  import opened Persistence
  import opened Lookup

  datatype Step = Initial | PreConfidence | Feedback | PostConfidence

  /** The symptom select: unset (`''`), `'tunet'`, `'bizonytalan'` or `'nincsen'`. */
  datatype SymptomType = Unset | Tunet | Bizonytalan | Nincsen

  /** The part of a prediction the trial shows. */
  datatype ShownPrediction = ShownPrediction(
    id: string,
    imageName: string,
    phase: string,
    diagnosis: Diagnosis,
    confidence: Num,
    heatmapPath: string,
    box: Option<NumBox>)

  function Shown(p: AIPrediction): (s: ShownPrediction)
    ensures s.id == p.id && s.imageName == p.imageName && s.diagnosis == p.diagnosis
    ensures s.confidence == p.confidence && s.box == p.box && s.heatmapPath == p.heatmapPath
  {
    ShownPrediction(p.id, p.imageName, p.phase, p.diagnosis, p.confidence, p.heatmapPath, p.box)
  }

  /** What the trial shows when no prediction exists for the image: a negative with no box. */
  function Fallback(imageId: int): (s: ShownPrediction)
    ensures s.diagnosis == Nem && s.confidence == Finite(0.0) && s.box.None?
    ensures s.id == "fallback_" + IntToString(imageId)
  {
    ShownPrediction("fallback_" + IntToString(imageId), "/dataset/no_map/fallback.png", "fallback",
                    Nem, Finite(0.0), "", None)
  }

  /**
   * The overlap shown in the feedback: `calculateIoU(userBox, aiData.box)`
   * when both exist, else 0. The participant's box is in natural pixels and
   * the AI box is normalised; they are compared as they are.
   */
  function TrialIoU(userBox: Option<Box>, aiBox: Option<NumBox>): (r: Num)
    ensures userBox.None? || aiBox.None? ==> r == Finite(0.0)
    ensures userBox.Some? && aiBox.Some? ==>
              (r.NaN? <==> aiBox.value.ToBox().None?)
              && (r.Finite? ==> r.value == CalculateIoU(userBox, aiBox.value.ToBox()))
  {
    if userBox.Some? && aiBox.Some? then CalculateIoUNum(userBox.value, aiBox.value) else Finite(0.0)
  }

  /**
   * Because of the mixed coordinates, a participant box of area `A` pixels
   * overlaps a normalised AI box (inside the unit square) by at most `100 / A`
   * per cent: any box of 100 square pixels or more scores at most 1.
   */
  lemma MixedCoordinatesIoUBound(user: Box, ai: Box)
    requires NonNegative(user)
    requires 0.0 <= ai.x && 0.0 <= ai.width && ai.x + ai.width <= 1.0
    requires 0.0 <= ai.y && 0.0 <= ai.height && ai.y + ai.height <= 1.0
    ensures CalculateIoU(Some(user), Some(ai)) * Area(user) <= 100.0
  {
    var i := IntersectionArea(user, ai);
    var u := UnionArea(user, ai);
    var r := CalculateIoU(Some(user), Some(ai));
    IntersectionWithinArea(user, ai);
    UnitBoxArea(ai);
    MulNonNegative(user.width, user.height);
    IoURange(Some(user), Some(ai));
    if u != 0.0 {
      ProductBound(r, Area(user), u, i);
    }
  }

  lemma UnitBoxArea(b: Box)
    requires 0.0 <= b.x && 0.0 <= b.width && b.x + b.width <= 1.0
    requires 0.0 <= b.y && 0.0 <= b.height && b.y + b.height <= 1.0
    ensures 0.0 <= Area(b) <= 1.0
  {
    assert b.width <= 1.0 && b.height <= 1.0;
    MulMonotone(b.width, b.height, 1.0, 1.0);
    MulNonNegative(b.width, b.height);
    assert Area(b) == b.width * b.height;
  }

  lemma ProductBound(r: real, a: real, u: real, i: real)
    requires 0.0 <= r && 0.0 <= a <= u && r * u == 100.0 * i && i <= 1.0
    ensures r * a <= 100.0
  {
    MulMonotone(r, a, r, u);
  }

  /** Every field of the trial component, so that a handler can state what it leaves alone. */
  datatype TrialState = TrialState(
    user: Option<Participant>,
    currentTrialIndex: nat,
    loading: bool,
    step: Step,
    symptomType: SymptomType,
    userBox: Option<Box>,
    initialDiagnosis: Option<Diagnosis>,
    initialConfidence: Option<int>,
    finalDiagnosis: Option<Diagnosis>,
    finalConfidence: Option<int>,
    startTime: int,
    aiData: Option<ShownPrediction>,
    store: Store)

  class AITrial {
    // Inputs: the signed-in participant and the session length.
    var user: Option<Participant>
    const totalTrials: nat

    var currentTrialIndex: nat
    var loading: bool
    var step: Step
    var symptomType: SymptomType
    var userBox: Option<Box>
    var initialDiagnosis: Option<Diagnosis>
    var initialConfidence: Option<int>
    var finalDiagnosis: Option<Diagnosis>
    var finalConfidence: Option<int>
    var startTime: int
    var aiData: Option<ShownPrediction>

    /** The participant's documents. */
    var store: Store

    /** The index stays inside the session and no completion precedes its trial document. */
    ghost predicate Valid()
      reads this
    {
      currentTrialIndex < totalTrials && store.Valid()
    }

    function State(): TrialState
      reads this
    {
      TrialState(user, currentTrialIndex, loading, step, symptomType, userBox, initialDiagnosis,
                 initialConfidence, finalDiagnosis, finalConfidence, startTime, aiData, store)
    }

    constructor (user: Option<Participant>, debugMode: bool, now: int, store: Store)
      requires store.Valid()
      ensures Valid()
      ensures this.user == user && totalTrials == TotalTrials(debugMode) && this.store == store
      ensures currentTrialIndex == 0 && loading && step == Initial && aiData.None?
      ensures symptomType == Unset && userBox.None? && startTime == now
      ensures initialDiagnosis.None? && initialConfidence.None?
      ensures finalDiagnosis.None? && finalConfidence.None?
    {
      this.user := user;
      totalTrials := TotalTrials(debugMode);
      currentTrialIndex := 0;
      loading := true;
      step := Initial;
      symptomType := Unset;
      userBox := None;
      initialDiagnosis := None;
      initialConfidence := None;
      finalDiagnosis := None;
      finalConfidence := None;
      startTime := now;
      aiData := None;
      this.store := store;
    }

    /**
     * The resume effect: with `n` completed trials, finish when `n` reaches the
     * session length; otherwise jump to trial `n`, but only from index 0.
     * The result is true when `onComplete` is called.
     */
    method Resume() returns (complete: bool)
      requires Valid()
      modifies this
      ensures Valid()
      ensures user.None? ==> !complete && currentTrialIndex == old(currentTrialIndex)
      ensures user.Some? ==> (complete <==> |user.value.completedTrials| >= totalTrials)
      ensures user.Some? && !complete && old(currentTrialIndex) == 0 && |user.value.completedTrials| > 0 ==>
                currentTrialIndex == |user.value.completedTrials|
      ensures !(user.Some? && !complete && old(currentTrialIndex) == 0 && |user.value.completedTrials| > 0) ==>
                currentTrialIndex == old(currentTrialIndex)
      ensures State() == old(State()).(currentTrialIndex := currentTrialIndex)
    {
      complete := false;
      if user.Some? {
        var completedCount := |user.value.completedTrials|;
        if completedCount >= totalTrials {
          complete := true;
        } else if currentTrialIndex == 0 && completedCount > 0 {
          currentTrialIndex := completedCount;
        }
      }
    }

    /**
     * `loadTrialData`: show the prediction (or the fallback when there is
     * none) and reset every answer of the trial.
     */
    method LoadTrialData(imageId: int, data: Option<AIPrediction>, now: int)
      requires Valid()
      modifies this
      ensures Valid()
      ensures data.Some? ==> aiData == Some(Shown(data.value))
      ensures data.None? ==> aiData == Some(Fallback(imageId))
      ensures step == Initial && symptomType == Unset && userBox.None?
      ensures initialDiagnosis.None? && initialConfidence.None?
      ensures finalDiagnosis.None? && finalConfidence.None?
      ensures startTime == now && !loading
      ensures currentTrialIndex == old(currentTrialIndex) && store == old(store) && user == old(user)
    {
      loading := true;
      if data.None? {
        aiData := Some(Fallback(imageId));
      } else {
        aiData := Some(Shown(data.value));
      }
      ResetAnswers(now);
      loading := false;
    }

    /** The answers of a newly loaded trial: none yet, and the clock restarted. */
    method ResetAnswers(now: int)
      modifies this
      ensures step == Initial && symptomType == Unset && userBox.None?
      ensures initialDiagnosis.None? && initialConfidence.None?
      ensures finalDiagnosis.None? && finalConfidence.None?
      ensures startTime == now
      ensures user == old(user) && currentTrialIndex == old(currentTrialIndex) && loading == old(loading)
      ensures aiData == old(aiData) && store == old(store)
    {
      step := Initial;
      symptomType := Unset;
      userBox := None;
      initialDiagnosis := None;
      initialConfidence := None;
      finalDiagnosis := None;
      finalConfidence := None;
      startTime := now;
    }

    /**
     * The load effect: inside the session, look up the prediction of the
     * current image (when the sequence has one) and load it. `fetched` and
     * `parsers` feed the prediction cache. The branch that completes the
     * session past its end is never taken: the index always stays below the
     * session length (`Valid`), so the result is always false.
     */
    method LoadEffect(cache: PredictionCache, fetched: Option<string>, parsers: NumberParsers, now: int)
      returns (complete: bool)
      requires Valid()
      modifies this, cache
      ensures Valid()
      ensures !complete
      ensures user.Some? && ImageAt(user.value.imageSequence, currentTrialIndex).Some? ==>
                var id := ImageAt(user.value.imageSequence, currentTrialIndex).value;
                var found := FindById(cache.cached, TargetId(id));
                && (cache.isLoaded, cache.cached) == AfterLoad(old(cache.isLoaded), old(cache.cached), fetched, parsers)
                && aiData == Some(if found.Some? then Shown(found.value) else Fallback(id))
                && step == Initial && symptomType == Unset && userBox.None?
                && initialDiagnosis.None? && initialConfidence.None?
                && finalDiagnosis.None? && finalConfidence.None?
                && startTime == now && !loading
      ensures !(user.Some? && ImageAt(user.value.imageSequence, currentTrialIndex).Some?) ==>
                State() == old(State()) && cache.cached == old(cache.cached) && cache.isLoaded == old(cache.isLoaded)
      ensures currentTrialIndex == old(currentTrialIndex) && store == old(store) && user == old(user)
    {
      complete := false;
      if user.Some? {
        if currentTrialIndex < totalTrials {
          var imgId := ImageAt(user.value.imageSequence, currentTrialIndex);
          if imgId.Some? {
            var data := cache.GetAIPrediction(imgId.value, fetched, parsers);
            LoadTrialData(imgId.value, data, now);
          }
        } else {
          complete := true;
        }
      }
    }

    /** Drawing is offered for a symptom and for an unsure answer. */
    predicate CanDraw()
      reads this
      ensures CanDraw() ==> symptomType != Unset && symptomType != Nincsen
    {
      symptomType == Tunet || symptomType == Bizonytalan
    }

    /** A symptom needs a box; every other answer (also none yet) is valid as it is. */
    predicate IsBoxValid()
      reads this
      ensures symptomType != Tunet ==> IsBoxValid()
      ensures userBox.Some? ==> IsBoxValid()
    {
      symptomType == Tunet ==> userBox.Some?
    }

    /** The `Értékelés` button: a diagnosis, a symptom answer and a valid box. */
    predicate InitialSubmitEnabled()
      reads this
      ensures InitialSubmitEnabled() ==> initialDiagnosis.Some? && IsBoxValid()
    {
      initialDiagnosis.Some? && symptomType != Unset && IsBoxValid()
    }

    /** The symptom select; `'nincsen'` also drops any drawn box. */
    method SelectSymptom(s: SymptomType)
      modifies this
      ensures symptomType == s
      ensures s == Nincsen ==> userBox.None?
      ensures s != Nincsen ==> userBox == old(userBox)
      ensures IsBoxValid() <==> (s == Tunet ==> old(userBox).Some?)
      ensures CanDraw() <==> s == Tunet || s == Bizonytalan
      ensures State() == old(State()).(symptomType := s, userBox := userBox)
    {
      symptomType := s;
      if s == Nincsen {
        userBox := None;
      }
    }

    /** The IGEN / NEM buttons. */
    method ChooseInitialDiagnosis(d: Diagnosis)
      modifies this
      ensures State() == old(State()).(initialDiagnosis := Some(d))
    {
      initialDiagnosis := Some(d);
    }

    /** `handleInitialSubmit`: on to the confidence question only with a diagnosis and a valid box. */
    method HandleInitialSubmit()
      modifies this
      ensures old(initialDiagnosis.Some? && IsBoxValid()) ==> step == PreConfidence
      ensures !old(initialDiagnosis.Some? && IsBoxValid()) ==> step == old(step)
      ensures State() == old(State()).(step := step)
    {
      if initialDiagnosis.None? || !IsBoxValid() {
        return;
      }
      step := PreConfidence;
    }

    /** `handlePreConfidenceSubmit`: keep the first confidence and show the feedback. */
    method HandlePreConfidenceSubmit(conf: int)
      modifies this
      ensures State() == old(State()).(initialConfidence := Some(conf), step := Feedback)
    {
      initialConfidence := Some(conf);
      step := Feedback;
    }

    /** `handleFeedbackRevise`: only the final diagnosis changes. */
    method HandleFeedbackRevise(newDecision: Diagnosis)
      modifies this
      ensures State() == old(State()).(finalDiagnosis := Some(newDecision))
    {
      finalDiagnosis := Some(newDecision);
    }

    /** `handleFeedbackContinue`: on to the second confidence question. */
    method HandleFeedbackContinue()
      modifies this
      ensures State() == old(State()).(step := PostConfidence)
    {
      step := PostConfidence;
    }

    /**
     * `handleFinalSubmit`: record the trial under `trial_<index + 1>`, mark it
     * complete, then complete the session after its last trial or move to the
     * next one. A failed write changes neither the index nor the answers.
     */
    method HandleFinalSubmit(conf: int, now: int, trialOk: bool, progressOk: bool) returns (complete: bool)
      requires Valid()
      modifies this
      ensures Valid()
      ensures user == old(user)
      ensures user.None? ==> !complete && State() == old(State())
      ensures user.Some? ==>
                var id := TrialId(old(currentTrialIndex));
                && store == old(store).Commit(id, old(FinalRecord(currentTrialIndex, conf, now)), trialOk, progressOk).0
                && (complete <==> trialOk && progressOk && old(currentTrialIndex) + 1 >= totalTrials)
                && ((trialOk && progressOk && old(currentTrialIndex) + 1 < totalTrials) ==>
                      currentTrialIndex == old(currentTrialIndex) + 1)
                && (!(trialOk && progressOk && old(currentTrialIndex) + 1 < totalTrials) ==>
                      currentTrialIndex == old(currentTrialIndex))
                && State() == old(State()).(finalConfidence := Some(conf), loading := false,
                                             store := store, currentTrialIndex := currentTrialIndex)
    {
      complete := false;
      if user.None? {
        return;
      }
      finalConfidence := Some(conf);
      loading := true;
      var trialId := TrialId(currentTrialIndex);
      var trialData := FinalRecord(currentTrialIndex, conf, now);
      var result := store.Commit(trialId, trialData, trialOk, progressOk);
      store := result.0;
      if result.1 {
        if currentTrialIndex + 1 >= totalTrials {
          complete := true;
        } else {
          currentTrialIndex := currentTrialIndex + 1;
        }
      }
      loading := false;
    }

    /** The trial document the final submit writes. */
    function FinalRecord(index: nat, conf: int, now: int): (rec: TrialRecord)
      requires user.Some?
      reads this
      ensures rec.trialId == TrialId(index)
      ensures rec.imageName == ImageFileName(ImageAt(user.value.imageSequence, index))
      ensures rec.aiShown && rec.boxDrawn == Some(userBox.Some?) && rec.box == userBox
      ensures rec.confidence == conf && rec.finalConfidence == Some(conf)
      ensures rec.diagnosis == rec.finalDiagnosis == finalDiagnosis
      ensures rec.initialDiagnosis == initialDiagnosis && rec.initialConfidence == initialConfidence
      ensures rec.startTime == startTime && rec.endTime == now
    {
      TrialRecord(
        TrialId(index),
        ImageFileName(ImageAt(user.value.imageSequence, index)),
        startTime, now,
        finalDiagnosis, conf,
        true, Some(userBox.Some?), userBox,
        initialDiagnosis, initialConfidence,
        finalDiagnosis, Some(conf))
    }
  }
}
