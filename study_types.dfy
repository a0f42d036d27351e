/**
 * The study's shared vocabulary (src/types/index.ts, src/config.ts): the
 * configuration constants, participant and trial records, and the document
 * keys the trial components write under.
 */
module StudyTypes {
  import opened Wrappers
  import opened Strings
  import opened Geometry

  // Study parameters.
  const DAY_MS: nat := 24 * 60 * 60 * 1000
  const WASHOUT_PERIOD_MS: nat := 28 * DAY_MS
  const TRIALS_PER_SESSION: nat := 50
  const DEBUG_TRIALS_PER_SESSION: nat := 5

  /** Number of trials in a session: the short sequence in debug mode. */
  function TotalTrials(debugMode: bool): nat {
    if debugMode then DEBUG_TRIALS_PER_SESSION else TRIALS_PER_SESSION
  }

  /** Treatment group `'0'` (no AI in phase 1) or `'1'`. */
  datatype Group = G0 | G1 {
    function Text(): string {
      match this
      case G0 => "0"
      case G1 => "1"
    }
  }

  datatype Phase = Phase1 | Phase2 | Phase1Completed | Phase2Completed {
    function Text(): string {
      match this
      case Phase1 => "phase1"
      case Phase2 => "phase2"
      case Phase1Completed => "phase1_completed"
      case Phase2Completed => "phase2_completed"
    }
  }

  /** A yes/no diagnosis (`'igen'` / `'nem'`). */
  datatype Diagnosis = Igen | Nem

  /**
   * A participant document. The optional questionnaire results are kept only
   * as presence flags, which is all the navigation reads of them.
   */
  datatype Participant = Participant(
    userID: string,
    group: Group,
    phase: Phase,
    imageSequence: seq<int>,
    phase1CompletedAt: Option<int>,
    completedTrials: map<string, bool>,
    hasDemographics: bool,
    hasBig5: bool,
    hasIQ: bool)

  /**
   * A trial document. Optional fields are `None` where the writer leaves them
   * out; `diagnosis` is optional because the AI trial copies a value that may
   * still be null.
   */
  datatype TrialRecord = TrialRecord(
    trialId: string,
    imageName: string,
    startTime: int,
    endTime: int,
    diagnosis: Option<Diagnosis>,
    confidence: int,
    aiShown: bool,
    boxDrawn: Option<bool>,
    box: Option<Box>,
    initialDiagnosis: Option<Diagnosis>,
    initialConfidence: Option<int>,
    finalDiagnosis: Option<Diagnosis>,
    finalConfidence: Option<int>)

  /** `imageSequence[i]`: `undefined` (here `None`) past the end. */
  function ImageAt(sequence: seq<int>, i: int): (r: Option<int>)
    ensures r.Some? <==> 0 <= i < |sequence|
    ensures r.Some? ==> r.value == sequence[i]
  {
    if 0 <= i < |sequence| then Some(sequence[i]) else None
  }

  /** Key of the trial document for the trial at (0-based) index `i`. */
  function TrialId(i: nat): (id: string)
    ensures |id| > 6 && id[..6] == "trial_"
  {
    "trial_" + NatToString(i + 1)
  }

  /** Distinct trial indices get distinct document keys. */
  lemma TrialIdInjective(i: nat, j: nat)
    requires TrialId(i) == TrialId(j)
    ensures i == j
  {
    PrefixCancel("trial_", NatToString(i + 1), NatToString(j + 1));
    NatToStringInjective(i + 1, j + 1);
  }

  /** `img_${imageId}.png`, where an undefined id prints as `undefined`. */
  function ImageFileName(imageId: Option<int>): (name: string)
    ensures |name| > 8 && name[..4] == "img_" && name[|name| - 4..] == ".png"
  {
    "img_" + (match imageId case Some(k) => IntToString(k) case None => "undefined") + ".png"
  }

  /** Different image ids (and an undefined one) give different file names. */
  lemma ImageFileNameInjective(a: Option<int>, b: Option<int>)
    requires ImageFileName(a) == ImageFileName(b)
    ensures a == b
  {
    var ta := match a case Some(k) => IntToString(k) case None => "undefined";
    var tb := match b case Some(k) => IntToString(k) case None => "undefined";
    assert ImageFileName(a) == "img_" + (ta + ".png");
    assert ImageFileName(b) == "img_" + (tb + ".png");
    PrefixCancel("img_", ta + ".png", tb + ".png");
    SuffixCancel(ta, tb, ".png");
    if a.Some? && b.Some? {
      IntToStringInjective(a.value, b.value);
    } else if a.Some? && b.None? {
      IntTextNotUndefined(a.value);
    } else if a.None? && b.Some? {
      IntTextNotUndefined(b.value);
    }
  }

  lemma IntTextNotUndefined(k: int)
    ensures IntToString(k) != "undefined"
  {
    var s := IntToString(k);
    if k >= 0 {
      assert IsDigit(s[0]);
    } else {
      assert s[0] == '-';
    }
  }

  /** The keys of the first `n` trial documents. */
  function CompletedKeys(n: nat): set<string> {
    set i | 0 <= i < n :: TrialId(i)
  }

  /**
   * After the first `n` trials are recorded the completion map has exactly `n`
   * keys, so resuming at the map's size resumes at the next trial.
   */
  lemma {:induction false} CompletedKeysCount(n: nat)
    ensures |CompletedKeys(n)| == n
  {
    if n > 0 {
      CompletedKeysCount(n - 1);
      CompletedKeysStep(n - 1);
      if TrialId(n - 1) in CompletedKeys(n - 1) {
        var i :| 0 <= i < n - 1 && TrialId(i) == TrialId(n - 1);
        TrialIdInjective(i, n - 1);
      }
    }
  }

  lemma CompletedKeysStep(n: nat)
    ensures CompletedKeys(n + 1) == CompletedKeys(n) + {TrialId(n)}
  {
    forall k | k in CompletedKeys(n + 1) ensures k in CompletedKeys(n) + {TrialId(n)} {
      var i :| 0 <= i < n + 1 && TrialId(i) == k;
      if i < n {
        assert k in CompletedKeys(n);
      }
    }
  }

  /** The first completion key not yet used is the next trial's. */
  lemma NextTrialKeyFresh(n: nat)
    ensures TrialId(n) !in CompletedKeys(n)
  {
    if TrialId(n) in CompletedKeys(n) {
      var i :| 0 <= i < n && TrialId(i) == TrialId(n);
      TrialIdInjective(i, n);
    }
  }

  /** A route of the study: `/${phase}/group${group}/${leaf}`. */
  function AppPath(phase: string, group: Group, leaf: string): (path: string)
    ensures |path| > 0 && path[0] == '/'
  {
    "/" + phase + "/group" + group.Text() + "/" + leaf
  }

  /** The route reads back as its phase, group and leaf segments. */
  lemma AppPathSegments(phase: string, group: Group, leaf: string)
    requires '/' !in phase && '/' !in leaf
    ensures Split(AppPath(phase, group, leaf), '/') == ["", phase, "group" + group.Text(), leaf]
  {
    var parts := ["", phase, "group" + group.Text(), leaf];
    assert '/' !in "group" + group.Text();
    assert Join(parts[3..], '/') == leaf;
    assert Join(parts[2..], '/') == "group" + group.Text() + "/" + leaf;
    assert Join(parts[1..], '/') == phase + "/" + ("group" + group.Text() + "/" + leaf);
    assert Join(parts, '/') == AppPath(phase, group, leaf);
    SplitJoin(parts, '/');
  }

  /** Different routes come from different phases, groups or leaves. */
  lemma AppPathInjective(p1: string, g1: Group, l1: string, p2: string, g2: Group, l2: string)
    requires '/' !in p1 && '/' !in l1 && '/' !in p2 && '/' !in l2
    requires AppPath(p1, g1, l1) == AppPath(p2, g2, l2)
    ensures p1 == p2 && g1 == g2 && l1 == l2
  {
    AppPathSegments(p1, g1, l1);
    AppPathSegments(p2, g2, l2);
    assert "group" + g1.Text() == "group" + g2.Text();
    assert g1.Text()[0] == ("group" + g1.Text())[5];
  }
}
