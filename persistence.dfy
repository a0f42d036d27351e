/**
 * The two Firestore documents a trial touches, as values: the participant's
 * `trials` sub-collection and the `completedTrials` map of the participant
 * document. A write is modelled by a success flag chosen by the caller.
 */
module Persistence {
  import opened StudyTypes

  datatype Store = Store(trials: map<string, TrialRecord>, completedTrials: map<string, bool>) {

    /** A trial is marked complete only once its document exists. */
    predicate Valid() {
      completedTrials.Keys <= trials.Keys
    }

    /**
     * Saving a trial: `setDoc` of the trial document, then a merging `setDoc`
     * of `completedTrials[trialId] = true`. The second write happens only if
     * the first succeeded; the result is true when both did.
     */
    function Commit(trialId: string, rec: TrialRecord, trialOk: bool, progressOk: bool): (r: (Store, bool))
      ensures r.1 <==> trialOk && progressOk
      ensures !trialOk ==> r.0 == this
      ensures trialOk ==> trialId in r.0.trials && r.0.trials[trialId] == rec
      ensures r.1 ==> trialId in r.0.completedTrials && r.0.completedTrials[trialId]
      ensures !r.1 ==> r.0.completedTrials == completedTrials
      ensures forall k :: k != trialId ==>
                (k in r.0.trials <==> k in trials) && (k in trials ==> r.0.trials[k] == trials[k])
      ensures forall k :: k != trialId ==>
                (k in r.0.completedTrials <==> k in completedTrials)
                && (k in completedTrials ==> r.0.completedTrials[k] == completedTrials[k])
      ensures Valid() ==> r.0.Valid()
    {
      if !trialOk then (this, false)
      else
        var written := this.(trials := trials[trialId := rec]);
        if !progressOk then (written, false)
        else (written.(completedTrials := completedTrials[trialId := true]), true)
    }
  }

  /**
   * Committing the trials 0..n-1 in order, each successfully, leaves exactly
   * `n` completion keys.
   */
  lemma CommitCountsUp(s: Store, n: nat, rec: TrialRecord)
    requires s.completedTrials.Keys == CompletedKeys(n)
    ensures s.Commit(TrialId(n), rec, true, true).0.completedTrials.Keys == CompletedKeys(n + 1)
    ensures |s.Commit(TrialId(n), rec, true, true).0.completedTrials.Keys| == n + 1
  {
    var t := s.Commit(TrialId(n), rec, true, true).0;
    CompletedKeysStep(n);
    assert t.completedTrials.Keys == s.completedTrials.Keys + {TrialId(n)};
    CompletedKeysCount(n + 1);
  }
}
