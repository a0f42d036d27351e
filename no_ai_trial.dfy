/**
 * The trial without AI (src/components/annotation/NoAITrial.tsx): a diagnosis
 * and a confidence per image, saved by `handleNext`, which then moves to the
 * next image or completes the session.
 */
module AnnotationNoAI {
  import opened Wrappers
  import opened StudyTypes
  import opened Persistence

  /** The confidence buttons offer 1 to 7. */
  predicate ConfidenceChoice(c: int) { 1 <= c <= 7 }

  /** The trial document `handleNext` writes. */
  function NoAIRecord(index: nat, imageId: int, startTime: int, endTime: int, d: Diagnosis, c: int): (rec: TrialRecord)
    ensures rec.trialId == TrialId(index) && rec.imageName == ImageFileName(Some(imageId))
    ensures !rec.aiShown && rec.diagnosis == Some(d) && rec.confidence == c
    ensures rec.box.None? && rec.boxDrawn.None? && rec.initialDiagnosis.None? && rec.finalDiagnosis.None?
    ensures rec.startTime == startTime && rec.endTime == endTime
  {
    TrialRecord(TrialId(index), ImageFileName(Some(imageId)), startTime, endTime, Some(d), c,
                false, None, None, None, None, None, None)
  }

  /** Every field of the trial component, so that a handler can state what it leaves alone. */
  datatype TrialState = TrialState(
    user: Option<Participant>,
    currentTrialIndex: nat,
    loading: bool,
    diagnosis: Option<Diagnosis>,
    confidence: Option<int>,
    saving: bool,
    startTime: int,
    store: Store)

  class NoAITrial {
    var user: Option<Participant>
    const totalTrials: nat

    var currentTrialIndex: nat
    var loading: bool
    var diagnosis: Option<Diagnosis>
    var confidence: Option<int>
    var saving: bool
    var startTime: int

    /** The participant's documents. */
    var store: Store

    ghost predicate Valid()
      reads this
    {
      currentTrialIndex < totalTrials && store.Valid()
    }

    function State(): TrialState
      reads this
    {
      TrialState(user, currentTrialIndex, loading, diagnosis, confidence, saving, startTime, store)
    }

    constructor (user: Option<Participant>, debugMode: bool, now: int, store: Store)
      requires store.Valid()
      ensures Valid()
      ensures this.user == user && totalTrials == TotalTrials(debugMode) && this.store == store
      ensures currentTrialIndex == 0 && loading && !saving && startTime == now
      ensures diagnosis.None? && confidence.None?
    {
      this.user := user;
      totalTrials := TotalTrials(debugMode);
      currentTrialIndex := 0;
      loading := true;
      diagnosis := None;
      confidence := None;
      saving := false;
      startTime := now;
      this.store := store;
    }

    /**
     * The resume effect: with `n` completed trials, complete when `n` reaches
     * the session length, else go to trial `n` whatever the current index.
     */
    method Resume(now: int) returns (complete: bool)
      requires Valid()
      modifies this
      ensures Valid()
      ensures user.None? ==> !complete && currentTrialIndex == old(currentTrialIndex)
                             && loading == old(loading) && startTime == old(startTime)
      ensures user.Some? ==> (complete <==> |user.value.completedTrials| >= totalTrials)
      ensures user.Some? ==> !loading && startTime == now
      ensures user.Some? && !complete ==> currentTrialIndex == |user.value.completedTrials|
      ensures complete ==> currentTrialIndex == old(currentTrialIndex)
      ensures diagnosis == old(diagnosis) && confidence == old(confidence) && store == old(store)
      ensures user == old(user) && saving == old(saving)
    {
      complete := false;
      if user.Some? {
        var completedCount := |user.value.completedTrials|;
        if completedCount >= totalTrials {
          complete := true;
        } else {
          currentTrialIndex := completedCount;
        }
        loading := false;
        startTime := now;
      }
    }

    /** The IGEN / NEM buttons. */
    method SetDiagnosis(d: Diagnosis)
      modifies this
      ensures State() == old(State()).(diagnosis := Some(d))
    {
      diagnosis := Some(d);
    }

    /** One of the seven confidence buttons. */
    method SetConfidence(c: int)
      requires ConfidenceChoice(c)
      modifies this
      ensures State() == old(State()).(confidence := Some(c))
    {
      confidence := Some(c);
    }

    /** The Next button: a diagnosis, a (non-zero) confidence, and no save under way. */
    predicate SubmitEnabled()
      reads this
      ensures SubmitEnabled() ==> diagnosis.Some? && confidence.Some? && confidence.value != 0
    {
      diagnosis.Some? && confidence.Some? && confidence.value != 0 && !saving
    }

    /**
     * `handleNext`. Nothing happens without a user, a diagnosis and a
     * confidence. A missing or zero image id stops the save after `saving` is
     * set, leaving it set. Otherwise the trial document is written, then the
     * completion mark; on success the session completes after its last trial
     * or the next trial starts with cleared answers; `saving` is cleared.
     * `endTime` and `restartTime` are the two readings of the clock: the end
     * of this trial and the start of the next.
     */
    method HandleNext(endTime: int, restartTime: int, trialOk: bool, progressOk: bool) returns (complete: bool)
      requires Valid()
      modifies this
      ensures Valid()
      ensures user == old(user)
      ensures old(user.None? || diagnosis.None? || confidence.None?) ==> !complete && State() == old(State())
      ensures old(user.Some? && diagnosis.Some? && confidence.Some?) &&
              ImageAt(user.value.imageSequence, old(currentTrialIndex)) in {None, Some(0)} ==>
                !complete && State() == old(State()).(saving := true)
      ensures old(user.Some? && diagnosis.Some? && confidence.Some?) &&
              ImageAt(user.value.imageSequence, old(currentTrialIndex)) !in {None, Some(0)} ==>
                var rec := NoAIRecord(old(currentTrialIndex),
                                      ImageAt(user.value.imageSequence, old(currentTrialIndex)).value,
                                      old(startTime), endTime, old(diagnosis).value, old(confidence).value);
                var advance := trialOk && progressOk && old(currentTrialIndex) + 1 < totalTrials;
                && store == old(store).Commit(TrialId(old(currentTrialIndex)), rec, trialOk, progressOk).0
                && (complete <==> trialOk && progressOk && old(currentTrialIndex) + 1 >= totalTrials)
                && (advance ==>
                      State() == old(State()).(store := store, saving := false,
                                               currentTrialIndex := old(currentTrialIndex) + 1,
                                               diagnosis := None, confidence := None, startTime := restartTime))
                && (!advance ==> State() == old(State()).(store := store, saving := false))
    {
      complete := false;
      if user.None? || diagnosis.None? || confidence.None? {
        return;
      }
      saving := true;
      var imageId := ImageAt(user.value.imageSequence, currentTrialIndex);
      if imageId.None? || imageId.value == 0 {
        return;
      }
      var trialId := TrialId(currentTrialIndex);
      var trialData := NoAIRecord(currentTrialIndex, imageId.value, startTime, endTime,
                                  diagnosis.value, confidence.value);
      var result := store.Commit(trialId, trialData, trialOk, progressOk);
      store := result.0;
      if result.1 {
        if currentTrialIndex + 1 >= totalTrials {
          complete := true;
        } else {
          currentTrialIndex := currentTrialIndex + 1;
          diagnosis := None;
          confidence := None;
          startTime := restartTime;
        }
      }
      saving := false;
    }
  }
}
