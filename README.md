# Knee X-ray reader study: a Dafny model of its annotation engine

The study app shows knee X-rays to participants. They record a yes/no
arthritis diagnosis ("igen"/"nem") with a confidence rating. In the
AI-assisted condition they also draw a box around the symptom, see the AI's
prediction and box, and may revise their decision. Participants sign in with
a name and PIN. They are assigned alternately to treatment group `'0'` or `'1'`
and get a shuffled sequence of the 50 images. They go through phase 1, a
28-day washout, and phase 2. Questionnaires (demographics, Big Five, a timed
logic test) and a training video come before the annotation sessions.

This project models the core of that app in Dafny and proves its properties:

- **Box geometry.** Overlap as a percentage (`math.ts`). The drawing widget's
  coordinate transforms, press/drag/release state machine, redraw rule and
  colour conversion (`BBoxTool.tsx`).
- **AI predictions.** The CSV row parser, the load-once cache and the
  first-match lookup (`aiLookup.ts`).
- **The two trial components.** The steps of a trial, resuming from the
  stored progress, and the ordered pair of writes that records a trial
  (`AITrial.tsx`, `NoAITrial.tsx`). The AI feedback dialog
  (`AIFeedbackModal.tsx`).
- **Sign-in** (`AuthContext.tsx`, `idGenerator.ts`):
  - the identity key;
  - group parity from the counter;
  - the Fisher–Yates image sequence;
  - the user-id format;
  - the washout gate.
- **Navigation.** The landing pages' next-step tables and the phase guard.
- **Questionnaires.** The logic test (answers, cursor, score, timer, clock
  text), Big Five pagination, and the video gate.

The Firestore documents of a participant are maps (`Persistence.Store`,
`Auth.Db`). Every write is modelled as an input flag that says whether it
succeeded. Other effects are made into inputs:

- `Date.now()` becomes a `now` parameter.
- `Math.random()` becomes a sequence of draws within the ranges the code
  produces.
- `parseFloat`/`parseInt` are given as functions.

JavaScript numbers are reals, or `Num` (`Finite(v) | NaN`) where NaN can occur.

Module per source file:

| module | file |
|---|---|
| `Wrappers`, `Numbers`, `Strings` | `Option`, JavaScript number helpers (`Math.round`, NaN), text helpers (decimal printing, `split`, `toLowerCase`, `trim`, `padStart`) |
| `StudyTypes`, `Persistence` | `src/config.ts`, `src/types/index.ts`, and the participant's trial and progress documents |
| `Geometry` | `src/utils/math.ts` |
| `BoxDrawing` | `src/components/common/BBoxTool.tsx` |
| `Lookup` | `src/utils/aiLookup.ts` |
| `AnnotationAI` | `src/components/annotation/AITrial.tsx` |
| `AnnotationNoAI` | `src/components/annotation/NoAITrial.tsx` |
| `FeedbackModal` | `src/components/annotation/AIFeedbackModal.tsx` |
| `IdGenerator` | `src/utils/idGenerator.ts` |
| `Auth` | `src/contexts/AuthContext.tsx` |
| `Landing`, `Phase2Landing`, `Guard` | `src/pages/LandingPage.tsx`, `src/pages/Phase2LandingPage.tsx`, `src/components/PhaseGuard.tsx` |
| `IQ`, `BigFive`, `Video` | `src/components/psychometrics/IQTest.tsx`, `src/components/psychometrics/Big5Test.tsx`, `src/components/training/VideoModule.tsx` |

## Model

| member | source | states |
|---|---|---|
| Numbers.Round | src/components/common/BBoxTool.tsx:63-66 | `Math.round` gives the integer within half a unit of its argument, halves rounded up |
| Numbers.RoundNum | src/components/annotation/AIFeedbackModal.tsx:109 | rounding keeps NaN as NaN; a number becomes an integer within 0.5 of it |
| Numbers.Sub | src/utils/aiLookup.ts:70-71 | a difference is NaN exactly when either side is NaN; otherwise adding back the subtrahend gives the minuend |
| Geometry.NumBox.ToBox | src/utils/aiLookup.ts:67-72 | a box is usable exactly when all four fields are numbers, and then it carries those values |
| Geometry.IntersectionWidth | src/utils/math.ts:11-16 | the overlap width is never negative |
| Geometry.IntersectionHeight | src/utils/math.ts:12-17 | the overlap height is never negative |
| Geometry.IntersectionArea | src/utils/math.ts:18 | the overlap area is never negative |
| Geometry.UnionArea | src/utils/math.ts:20-22 | for boxes of non-negative size the union is at least each box's area and at least the overlap |
| Geometry.CalculateIoU | src/utils/math.ts:8-27 | 0 when either box is missing; 0 when the union area is 0, so there is no division by zero; otherwise intersection/union × 100 |
| Geometry.CalculateIoUNum | src/utils/math.ts:11-26 | with an AI box holding NaN the result is NaN; otherwise it is the overlap of the two boxes |
| Geometry.IoUSymmetric | src/utils/math.ts:11-22 | swapping the two boxes does not change the overlap |
| Geometry.IntersectionWithinArea | src/utils/math.ts:16-21 | for boxes of non-negative size, the overlap is no larger than either box |
| Geometry.IoURange | src/utils/math.ts:16-26 | for boxes of non-negative size, the result lies in [0, 100] |
| Geometry.IoUDisjoint | src/utils/math.ts:11-18 | boxes apart on either axis score 0 |
| Geometry.IoUSelf | src/utils/math.ts:11-26 | a box of positive area compared with itself scores exactly 100 |
| BoxDrawing.BoxCommand | src/components/common/BBoxTool.tsx:116-133 | one rectangle is stroked in its colour and filled with that colour at alpha 0.2; the caption is drawn only when it is non-empty |
| BoxDrawing.Clamp | src/components/common/BBoxTool.tsx:47-48 | `max(lo, min(hi, v))` lies in [lo, hi] and leaves a value already inside unchanged |
| BoxDrawing.ClientToDisplay | src/components/common/BBoxTool.tsx:43-50 | without an image there is no point; otherwise the point relative to the image is clamped into [0, width] × [0, height], and a point inside is unchanged |
| BoxDrawing.ToNatural | src/components/common/BBoxTool.tsx:58-61 | no factors while the rendered width or height is 0; otherwise the factors carry the rendered size onto the natural size |
| BoxDrawing.ToDisplay | src/components/common/BBoxTool.tsx:75-78 | no factors while the natural width or height is 0; otherwise the factors carry the natural size onto the rendered size |
| BoxDrawing.RoundScaled | src/components/common/BBoxTool.tsx:63-66 | a scaled coordinate is rounded to a whole pixel within 0.5 of the exact value |
| BoxDrawing.DisplayToNatural | src/components/common/BBoxTool.tsx:53-68 | null without an image, without a box, or at rendered size 0; otherwise every field is scaled by natural/rendered size and rounded |
| BoxDrawing.NaturalToDisplay | src/components/common/BBoxTool.tsx:71-85 | null without an image, without a box, or at natural size 0; otherwise every field is scaled by rendered/natural size without rounding |
| BoxDrawing.ScalesInverse | src/components/common/BBoxTool.tsx:58-78 | on a laid-out image the two pairs of factors are positive and each other's inverse |
| BoxDrawing.DisplayNaturalRoundTrip | src/components/common/BBoxTool.tsx:53-85 | a drawn box carried to natural pixels and back moves by at most half a natural pixel per field |
| BoxDrawing.NaturalDisplayRoundTrip | src/components/common/BBoxTool.tsx:53-85 | a stored box on whole natural pixels survives display and back exactly |
| BoxDrawing.DragBox | src/components/common/BBoxTool.tsx:207-211 | the drag box has the component-wise minimum of the two points as its corner, and its width and height reach the maximum, so they are never negative |
| BoxDrawing.VisibleBoxes | src/components/common/BBoxTool.tsx:98-101 | while drawing, the committed box of the active id is skipped and every other box is kept; when not drawing, every box is kept |
| BoxDrawing.StaticCommands | src/components/common/BBoxTool.tsx:98-107 | before the image has a natural size nothing is painted. After that, command i paints committed box i, projected to display pixels, with its own colour and caption, in order |
| BoxDrawing.ActiveColor | src/components/common/BBoxTool.tsx:111 | the drag box takes the colour of the first box with the active id; it is green when there is no such box or its colour is empty, so it is never empty |
| BoxDrawing.SixDigits | src/components/common/BBoxTool.tsx:139-142 | a 6-digit colour keeps its digits; each digit of a 3-digit colour is written twice |
| BoxDrawing.Channels | src/components/common/BBoxTool.tsx:143-144 | the three shifted-and-masked channels are bytes |
| BoxDrawing.HexToRgba | src/components/common/BBoxTool.tsx:135-147 | a `#rgb`/`#rrggbb` colour becomes `rgba(r,g,b,alpha)` built from its channels; any other text becomes `rgba(0,0,0,0.2)` |
| BoxDrawing.ChannelsArePairs | src/components/common/BBoxTool.tsx:139-144 | each channel is the two-digit hexadecimal number of its pair of digits |
| BoxDrawing.ShortHexDoubles | src/components/common/BBoxTool.tsx:140-142 | `#abc` gives the same fill as `#aabbcc`, with channels 17 × the digit values |
| BoxDrawing.BBoxTool.constructor | src/components/common/BBoxTool.tsx:25-40 | the widget starts idle: not drawing, no press point, no drag box |
| BoxDrawing.BBoxTool.Render | src/components/common/BBoxTool.tsx:25-31 | new props replace the old ones and the drawing state is kept |
| BoxDrawing.BBoxTool.PointerDown | src/components/common/BBoxTool.tsx:184-198 | ignored unless the widget is enabled with an active id and there is a point on an image; otherwise it starts drawing at the clamped point with no drag box |
| BoxDrawing.BBoxTool.PointerMove | src/components/common/BBoxTool.tsx:200-213 | while drawing, with a point on an image, the drag box spans the press point and the clamped current point; in every other case nothing changes |
| BoxDrawing.BBoxTool.PointerUp | src/components/common/BBoxTool.tsx:215-227 | a no-op unless drawing; otherwise the drawing state is always cleared. The box is reported in natural pixels only when there is a drag box and an active id and the conversion succeeds; a zero-size box is reported too |
| BoxDrawing.DrawWhileDrawing | src/components/common/BBoxTool.tsx:98-113 | during a drag, every command before the last paints a committed box whose id is not the active one, in order, projected with its colour and caption; the drag box comes last in the active colour with the caption `Rajzolás...` |
| BoxDrawing.DrawIdle | src/components/common/BBoxTool.tsx:98-107 | when not drawing every committed box is painted |
| BoxDrawing.BBoxTool.Draw | src/components/common/BBoxTool.tsx:88-114 | without an image nothing is painted; at most one command per committed box plus the drag box; when not drawing exactly the committed boxes; during a drag the last command carries the `Rajzolás...` caption |
| Lookup.IntColumnOr | src/utils/aiLookup.ts:77-79 | an integer column that does not parse, or is missing, reads as -1 |
| Lookup.FloatColumn | src/utils/aiLookup.ts:41-51 | a missing column reads as NaN, a present one as `parseFloat` gives it |
| Lookup.ParseCSVLine | src/utils/aiLookup.ts:25-82 | null exactly for rows of fewer than 18 columns. Otherwise: the id is column 0 and the image and heatmap paths are built from it; the diagnosis is `igen` exactly when column 9 parses to 1; both confidences are column 4; a box exists exactly when `xmax > 0 \|\| ymax > 0`, with width `xmax − xmin` and height `ymax − ymin` |
| Lookup.EighteenColumnsLoseHeight | src/utils/aiLookup.ts:26-54 | a row of exactly 18 columns passes the guard, but `ymax` (column 18) is missing. A box then appears exactly when `xmax > 0`, and its height is NaN |
| Lookup.ParseJoinedColumns | src/utils/aiLookup.ts:25-54 | columns written with commas between them read back: the id, the confidence and the box test come from the right columns |
| Lookup.ParseAll | src/utils/aiLookup.ts:93-97 | the cache holds exactly the predictions of the rows that parse, and never more entries than rows |
| Lookup.ParseAllSingle | src/utils/aiLookup.ts:93-97 | a line contributes its prediction when it parses and nothing otherwise |
| Lookup.ParseAllAppend | src/utils/aiLookup.ts:93-97 | parsing keeps the order of the lines: the rows of one part come before those of the next |
| Lookup.FindByIdAppend | src/utils/aiLookup.ts:114 | `find` over two parts answers from the first part when it has a match, otherwise from the second |
| Lookup.FirstLineWins | src/utils/aiLookup.ts:93-114 | the lookup answers with the first line of the file that parses to a prediction with the id; later lines with that id are never seen |
| Lookup.FindById | src/utils/aiLookup.ts:114 | the first prediction with the id, or none exactly when no prediction has it |
| Lookup.TargetId | src/utils/aiLookup.ts:111 | the looked-up id ends in `.png` |
| Lookup.TargetIdInjective | src/utils/aiLookup.ts:111 | different image numbers are looked up under different ids |
| Lookup.PredictionCache.constructor | src/utils/aiLookup.ts:21-22 | the cache starts empty and not loaded |
| Lookup.PredictionCache.LoadPredictions | src/utils/aiLookup.ts:84-104 | a no-op once loaded. A failed fetch leaves the cache empty-handed and not loaded. Otherwise every line after the header is parsed and the cache is marked loaded; this is the state `AfterLoad` gives |
| Lookup.PredictionCache.GetAIPrediction | src/utils/aiLookup.ts:106-126 | the cache is left as `loadPredictions` leaves it; the result is its first prediction with id `${index}.png`, or null exactly when there is none |
| Lookup.AfterLoad | src/utils/aiLookup.ts:84-104 | loaded and unchanged once loaded; unchanged and not loaded after a failed fetch; otherwise loaded with the rows after the header |
| StudyTypes.ImageAt | src/components/annotation/NoAITrial.tsx:45 | `imageSequence[i]` is undefined exactly outside the sequence |
| StudyTypes.TrialId | src/components/annotation/NoAITrial.tsx:55 | trial keys start with `trial_` |
| StudyTypes.TrialIdInjective | src/components/annotation/AITrial.tsx:142 | different trial indices get different keys, so no trial document is overwritten within a session |
| StudyTypes.ImageFileName | src/components/annotation/NoAITrial.tsx:59 | the stored image name is `img_<id>.png` |
| StudyTypes.ImageFileNameInjective | src/components/annotation/NoAITrial.tsx:59 | different image ids, and an undefined one, give different names |
| StudyTypes.CompletedKeysCount | src/components/annotation/AITrial.tsx:44 | the first n trial keys are n distinct keys, so the resume count equals the number of trials saved |
| StudyTypes.CompletedKeysStep | src/components/annotation/AITrial.tsx:170 | saving trial n adds exactly its key to the first n keys |
| StudyTypes.NextTrialKeyFresh | src/components/annotation/AITrial.tsx:170 | the next trial's key is not among the keys already saved |
| StudyTypes.AppPath | src/pages/LandingPage.tsx:84 | every study route is absolute |
| StudyTypes.AppPathSegments | src/pages/LandingPage.tsx:84 | `/${phase}/group${group}/${leaf}` splits back into its phase, group and leaf segments |
| StudyTypes.AppPathInjective | src/pages/LandingPage.tsx:84 | different phases, groups or leaves give different routes |
| Persistence.Store.Commit | src/components/annotation/NoAITrial.tsx:68-81 | the trial document is written first and the completion mark second. Success needs both writes. A failed first write changes nothing; the mark is set only on success; other keys are untouched; "a trial is marked only once its document exists" is preserved |
| Persistence.CommitCountsUp | src/components/annotation/NoAITrial.tsx:77-81 | after n saved trials, saving trial n+1 makes exactly n+1 completion marks |
| AnnotationAI.Shown | src/components/annotation/AITrial.tsx:91-93 | a found prediction is shown with its id, image, diagnosis, confidence, heatmap and box |
| AnnotationAI.Fallback | src/components/annotation/AITrial.tsx:77-90 | a missing prediction is replaced by `fallback_<id>` with diagnosis `nem`, confidence 0 and no box |
| AnnotationAI.TrialIoU | src/components/annotation/AITrial.tsx:196 | 0 unless both boxes exist; otherwise the overlap of the participant's box with the AI box as stored, NaN when the AI box has a NaN field |
| AnnotationAI.MixedCoordinatesIoUBound | src/components/annotation/AITrial.tsx:196 | the natural-pixel participant box is compared with a normalised AI box. The score is then at most 100/area: any box of 100 square pixels or more scores at most 1 |
| AnnotationAI.AITrial.constructor | src/components/annotation/AITrial.tsx:20-36 | index 0, loading, step `initial`, no answers, no prediction |
| AnnotationAI.AITrial.Resume | src/components/annotation/AITrial.tsx:42-55 | with n completed trials: complete when n reaches the session length; otherwise jump to trial n only from index 0 and with n > 0. No other field changes |
| AnnotationAI.AITrial.LoadTrialData | src/components/annotation/AITrial.tsx:72-106 | shows the prediction or the fallback; resets the step to `initial` and clears symptom, box and both diagnosis/confidence pairs; restarts the clock; loading ends |
| AnnotationAI.AITrial.ResetAnswers | src/components/annotation/AITrial.tsx:95-103 | step `initial`, no symptom, box, diagnoses or confidences, the clock restarted; the shown prediction, index, loading flag and documents are kept |
| AnnotationAI.AITrial.CanDraw | src/components/annotation/AITrial.tsx:109 | drawing is never offered before a symptom answer or for `nincsen` |
| AnnotationAI.AITrial.IsBoxValid | src/components/annotation/AITrial.tsx:110-114 | only a `tunet` answer needs a box; any drawn box is valid |
| AnnotationAI.AITrial.InitialSubmitEnabled | src/components/annotation/AITrial.tsx:305 | whenever the `Értékelés` button is enabled, `handleInitialSubmit` moves on |
| AnnotationAI.AITrial.LoadEffect | src/components/annotation/AITrial.tsx:58-70 | inside the session, with an image id, the cache is loaded as `loadPredictions` specifies, the current image's first cached prediction (or the fallback) is shown, and every answer is reset with the clock restarted and loading ended; without a user or an image id nothing changes. The completion branch past the session end is unreachable, since the index stays below the session length |
| AnnotationAI.AITrial.SelectSymptom | src/components/annotation/AITrial.tsx:252-256 | the symptom is set; `nincsen` also drops the box; no other field changes. Drawing is offered exactly for `tunet` and `bizonytalan` |
| AnnotationAI.AITrial.ChooseInitialDiagnosis | src/components/annotation/AITrial.tsx:281-290 | the first diagnosis is set and no other field changes |
| AnnotationAI.AITrial.HandleInitialSubmit | src/components/annotation/AITrial.tsx:116-119 | moves to `pre-confidence` exactly when a diagnosis is set and the box is valid (a `tunet` answer needs a box); no other field changes |
| AnnotationAI.AITrial.HandlePreConfidenceSubmit | src/components/annotation/AITrial.tsx:121-124 | stores the first confidence and shows the feedback; no other field changes |
| AnnotationAI.AITrial.HandleFeedbackRevise | src/components/annotation/AITrial.tsx:126-129 | only the final diagnosis changes |
| AnnotationAI.AITrial.HandleFeedbackContinue | src/components/annotation/AITrial.tsx:131-133 | moves to `post-confidence`; no other field changes |
| AnnotationAI.AITrial.HandleFinalSubmit | src/components/annotation/AITrial.tsx:135-189 | without a user nothing changes. Otherwise the record built from the answers before the call (start time, first and final answers, box) is written under `trial_<index+1>`, then the completion mark. The index advances only when both writes succeed before the last trial; on completion or failure it stays. The final confidence is set, loading ends, and no other field changes |
| AnnotationAI.AITrial.FinalRecord | src/components/annotation/AITrial.tsx:141-165 | the record has `aiShown` true, and `boxDrawn` is whether a box exists. The box field is present only with a box. Confidence and final confidence both equal the submitted value |
| AnnotationNoAI.NoAIRecord | src/components/annotation/NoAITrial.tsx:55-66 | the record has key `trial_<index+1>`, image `img_<id>.png`, `aiShown` false, and the chosen diagnosis and confidence |
| AnnotationNoAI.NoAITrial.constructor | src/components/annotation/NoAITrial.tsx:14-19 | index 0, loading, no answers, not saving |
| AnnotationNoAI.NoAITrial.Resume | src/components/annotation/NoAITrial.tsx:24-37 | with n completed trials: complete when n reaches the session length; otherwise the index becomes n unconditionally; loading ends and the clock restarts |
| AnnotationNoAI.NoAITrial.SetDiagnosis | src/components/annotation/NoAITrial.tsx:137-146 | the IGEN/NEM buttons set the diagnosis and no other field changes |
| AnnotationNoAI.NoAITrial.SetConfidence | src/components/annotation/NoAITrial.tsx:162-165 | one of the seven buttons sets the confidence and no other field changes |
| AnnotationNoAI.NoAITrial.HandleNext | src/components/annotation/NoAITrial.tsx:39-102 | nothing changes without a user, a diagnosis and a confidence. A missing or zero image id only sets `saving`, and leaves it set. Otherwise the record (start time, first clock reading as end time, answers) is written, then the mark. On success the session completes after the last trial, or the next trial starts with cleared answers and the second clock reading as start time. On failure only the documents change. `saving` is cleared |
| AnnotationNoAI.NoAITrial.SubmitEnabled | src/components/annotation/NoAITrial.tsx:186 | whenever the Next button is enabled, `handleNext` passes its guard |
| FeedbackModal.AIFeedbackModal.constructor | src/components/annotation/AIFeedbackModal.tsx:29 | the choice starts at the earlier decision when there is one, else at the AI's |
| FeedbackModal.AIFeedbackModal.Select | src/components/annotation/AIFeedbackModal.tsx:128-131 | the select replaces the choice and calls nobody |
| FeedbackModal.AIFeedbackModal.PressContinue | src/components/annotation/AIFeedbackModal.tsx:138-141 | Continue calls `onRevise(decision)` and only then `onContinue()` |
| FeedbackModal.LastRevision | src/components/annotation/AIFeedbackModal.tsx:138-141 | the decision of the latest revise call, or none exactly when there was none |
| FeedbackModal.ContinueReportsChoice | src/components/annotation/AIFeedbackModal.tsx:138-141 | whatever came before, after Continue the latest revision is the current choice |
| FeedbackModal.IoULabel | src/components/annotation/AIFeedbackModal.tsx:109 | the overlap is taken as a percentage already and rounded to a whole number |
| FeedbackModal.ConfidenceLabel | src/components/annotation/AIFeedbackModal.tsx:121 | the AI confidence is shown as a whole percentage within 0.5 of 100 × confidence |
| FeedbackModal.ConfidenceLabelRange | src/components/annotation/AIFeedbackModal.tsx:121 | a confidence in [0, 1] is shown in [0, 100] |
| FeedbackModal.OverlayOf | src/components/annotation/AIFeedbackModal.tsx:46-58 | nothing is drawn before the image has a natural size. Otherwise the rectangle, scaled by client/natural size, is painted exactly when all four fields are numbers, and the caption, at (x+5, y+20), exactly when x and y are |
| FeedbackModal.Overlay | src/components/annotation/AIFeedbackModal.tsx:60-61 | the AI box in red whenever there is one, then the participant's box in blue (rectangle and caption) whenever there is one |
| FeedbackModal.CaptionWithoutRectangle | src/components/annotation/AIFeedbackModal.tsx:46-60 | an AI box with a NaN height shows its "AI" caption but no rectangle |
| FeedbackModal.NormalisedBoxDrawnInCorner | src/components/annotation/AIFeedbackModal.tsx:46-60 | the normalised AI box scaled as if in natural pixels lands inside one natural pixel at the top-left corner |
| IdGenerator.AlphabetShape | src/utils/idGenerator.ts:8 | the alphabet has 32 characters and leaves out I, O, 0 and 1 |
| IdGenerator.Picked | src/utils/idGenerator.ts:11 | one alphabet character per draw |
| IdGenerator.GenerateRandomString | src/utils/idGenerator.ts:7-14 | the loop returns exactly `length` characters, each from the alphabet, the ones the draws pick |
| IdGenerator.GenerateUserID | src/utils/idGenerator.ts:20-24 | the id is the group, a `-`, and five drawn characters |
| IdGenerator.UserId | src/utils/idGenerator.ts:20-24 | the id has length 7 and `-` at position 1, and the rest comes from the alphabet |
| IdGenerator.UserIdGroup | src/utils/idGenerator.ts:20-24 | the group can be read back from the first character |
| IdGenerator.UserIdsOfGroupsDiffer | src/utils/idGenerator.ts:20-24 | ids of the two groups never coincide |
| Auth.IdentityKey | src/contexts/AuthContext.tsx:36 | the key ends in `_` and the PIN |
| Auth.IdentityKeyNormalises | src/contexts/AuthContext.tsx:36 | the key ignores the letter case and surrounding whitespace of the name, so lower-casing and trimming can be done in either order |
| Auth.IdentityKeyAmbiguous | src/contexts/AuthContext.tsx:36 | `_` is not escaped, so name `a_b` with PIN `c` and name `a` with PIN `b_c` share a key |
| Auth.UnderscoreMoves | src/contexts/AuthContext.tsx:36 | for names of lower-case letters and `_`, moving an `_`-separated tail from the name to the front of the PIN leaves the key unchanged |
| Auth.CurrentCount | src/contexts/AuthContext.tsx:56-60 | a missing counter, or a missing count, counts as 0 |
| Auth.GroupsAlternate | src/contexts/AuthContext.tsx:63 | consecutive new participants land in different groups |
| Auth.GroupFor | src/contexts/AuthContext.tsx:63 | an even count gives group `'0'`, an odd one `'1'` |
| Auth.GroupZeroCount | src/contexts/AuthContext.tsx:63 | at most n of the first n participants are in group `'0'` |
| Auth.GroupsBalanced | src/contexts/AuthContext.tsx:63 | the first 2n participants are split n/n |
| Auth.OneTo | src/contexts/AuthContext.tsx:72 | the pool is 1..n in order |
| Auth.ShuffledPermutes | src/contexts/AuthContext.tsx:75-78 | the rounds of the shuffle only swap, so the elements are kept with their multiplicity |
| Auth.PermutationContents | src/contexts/AuthContext.tsx:72-80 | a permutation of 1..n has length n and holds each of 1..n exactly once |
| Auth.FisherYates | src/contexts/AuthContext.tsx:75-78 | the in-place loop from the last position down to 1, swapping with a position `j ≤ i`, gives the specified shuffle and a permutation of the array |
| Auth.ImageSequence | src/contexts/AuthContext.tsx:72-80 | a new sequence is a permutation of 1..50 |
| Auth.NewParticipant | src/contexts/AuthContext.tsx:82-88 | a new participant starts in phase 1 with no completed trials and no questionnaires |
| Auth.CeilDiv | src/contexts/AuthContext.tsx:116 | `Math.ceil(a / b)` for a positive divisor |
| Auth.WashoutGate | src/contexts/AuthContext.tsx:110-123 | a phase-1 participant with a completion time less than 28 days away (in either direction) is locked for 1 to 28 days, rounded up. Further away, phase 2 opens. Anyone else passes |
| Auth.WashoutMessage | src/contexts/AuthContext.tsx:117 | the message starts with `Phase 1 complete. Please return in ` and ends with ` days for Phase 2.` |
| Auth.WashoutMessageInjective | src/contexts/AuthContext.tsx:117 | different day counts give different messages, so the message tells the days left |
| Auth.DaysLeftIsExact | src/contexts/AuthContext.tsx:113-117 | coming back after the announced days opens phase 2; a day earlier does not |
| Auth.ErrorText | src/contexts/AuthContext.tsx:130 | an empty error message becomes `Failed to login.` |
| Auth.Transaction | src/contexts/AuthContext.tsx:41-107 | an existing identity yields its participant, or nothing when that document is missing, and writes nothing. A new identity creates a participant in the counter's group with a shuffled sequence, the identity, and the counter + 1 |
| Auth.LoginSpec | src/contexts/AuthContext.tsx:29-135 | exactly one of user and error is set; a failed sign-in changes nothing |
| Auth.AfterTransaction | src/contexts/AuthContext.tsx:50-134 | a missing participant is an error. Otherwise the washout gate admits the participant, or locks them out with the days-left message. Or it opens phase 2: the stored document (when it exists) and the returned user both switch to phase 2, and a failed update leaves no user and `ErrorText` of the failure. A signed-in user is never a phase-1 participant whose phase 1 is done |
| Auth.FreshParticipantAdmitted | src/contexts/AuthContext.tsx:110-134 | a participant who has not finished phase 1 is signed in unchanged, with no error, whatever the clock and the update outcome |
| Auth.NewParticipantCreated | src/contexts/AuthContext.tsx:54-105 | a first sign-in creates a phase-1 participant in the group of the counter's parity, with a permutation of the 50 images. The identity points to them and the counter goes up by one |
| Auth.SecondLoginFindsSameParticipant | src/contexts/AuthContext.tsx:36-53 | signing in again with the same name (in any letter case) and PIN finds the participant the first sign-in created, and creates no identity |
| Auth.AuthContext.constructor | src/contexts/AuthContext.tsx:19-21 | no user, not loading, no error |
| Auth.AuthContext.RunTransaction | src/contexts/AuthContext.tsx:41-107 | the transaction's reads and writes on the collections are those `Transaction` specifies |
| Auth.AuthContext.Login | src/contexts/AuthContext.tsx:29-135 | the outcome is the one `LoginSpec` describes, and loading has ended |
| Auth.AuthContext.Logout | src/contexts/AuthContext.tsx:137-140 | the user is cleared |
| Landing.Route | src/pages/LandingPage.tsx:33-79 | each route ends at the video and visits no step twice |
| Landing.FirstPending | src/pages/LandingPage.tsx:33-79 | the first step of the route not yet done: every earlier step is done |
| Landing.NextStep | src/pages/LandingPage.tsx:33-79 | the chosen step is not done yet and lies on the participant's route; any phase other than phase 1 takes the phase-2 branch |
| Landing.NextStepIsFirstPending | src/pages/LandingPage.tsx:33-79 | the decision chain equals "the first step of the route that is not done". Group 0 does demographics, Big Five, IQ, video in phase 1 and only the video in phase 2. Group 1 does demographics and video in phase 1, and Big Five, IQ, video in phase 2 |
| Landing.PendingAdvances | src/pages/LandingPage.tsx:33-79 | a participant with more results, including the step another is at, is strictly further along the same route |
| Landing.CompletingStepAdvances | src/pages/LandingPage.tsx:33-79 | completing the step the page points to moves the page strictly forward |
| Landing.LandingTarget | src/pages/LandingPage.tsx:10-84 | no user gives no path. Otherwise the target splits into the participant's phase, `group` + group, and the next step |
| Phase2Landing.Phase2NextStep | src/pages/Phase2LandingPage.tsx:31-55 | group `'0'` goes to `intro-video`. The other group goes to `intro-big5` without Big Five, then `intro-iq` without IQ, then `intro-video` |
| Phase2Landing.AgreesWithLandingPage | src/pages/Phase2LandingPage.tsx:31-55 | past phase 1, this page points to the introduction of the step the general landing page names |
| Phase2Landing.Phase2Target | src/pages/Phase2LandingPage.tsx:57-60 | no user gives no path. Otherwise the target is under `/phase2/group<g>/` |
| Phase2Landing.TargetIgnoresRecordedPhase | src/pages/Phase2LandingPage.tsx:57-60 | the recorded phase plays no part in the target |
| Guard.PhaseGuard | src/components/PhaseGuard.tsx:14-32 | loading comes first. No user goes to `/`. The children are shown exactly when the phase matches. A completed phase goes to `/completion`. Any other mismatch goes to the landing page of the user's own phase and group |
| Guard.PhaseOfSegment | src/components/PhaseGuard.tsx:29 | a route segment names the phase whose text it is |
| Guard.RedirectReachesOwnPhase | src/components/PhaseGuard.tsx:21-29 | no redirect loop: the landing redirect names the user's own phase, and that phase's guard lets them in |
| Guard.CompletedNeverAdmitted | src/components/PhaseGuard.tsx:21-25 | a participant who has completed a phase never sees a phase-1 or phase-2 page |
| IQ.QuestionIdsFollowCursor | src/components/psychometrics/IQTest.tsx:13-19 | question i has id i+1, the key its answer is stored under, and its correct option is one it offers |
| IQ.Score | src/components/psychometrics/IQTest.tsx:58-64 | the score is between 0 and the number of questions |
| IQ.ScoreZeroIffNoneCorrect | src/components/psychometrics/IQTest.tsx:58-64 | the score is 0 exactly when no answer is correct |
| IQ.ScoreFullIffAllCorrect | src/components/psychometrics/IQTest.tsx:58-64 | the score is full exactly when every answer is correct |
| IQ.NextTimeLeft | src/components/psychometrics/IQTest.tsx:34-41 | a tick maps `prev ≤ 1` to 0 and anything else to `prev − 1`, so the time is never negative |
| IQ.TicksToFinish | src/components/psychometrics/IQTest.tsx:33-42 | at least one tick is needed to finish |
| IQ.TicksMatchSeconds | src/components/psychometrics/IQTest.tsx:21-42 | from t ≥ 1 seconds the timer finishes the test after exactly t ticks, so 600 ticks from the start |
| IQ.PaddedReadsBack | src/components/psychometrics/IQTest.tsx:103 | a padded number below 100 has two digits and reads back as itself |
| IQ.FormatTime | src/components/psychometrics/IQTest.tsx:100-104 | the clock text ends in a colon and two characters of seconds |
| IQ.FormatTimeReadsBack | src/components/psychometrics/IQTest.tsx:100-104 | the clock text is minutes, a colon and exactly two digits of seconds, which together give the seconds shown |
| IQ.IQTest.constructor | src/components/psychometrics/IQTest.tsx:25-29 | first question, no answers, ten minutes, not finished |
| IQ.IQTest.HandleSelect | src/components/psychometrics/IQTest.tsx:46-48 | the answer goes under the current question's number; other answers are kept |
| IQ.IQTest.HandleNext | src/components/psychometrics/IQTest.tsx:50-56 | the next question while not at the last; at the last the test finishes. The cursor stays within the questions |
| IQ.IQTest.Tick | src/components/psychometrics/IQTest.tsx:31-44 | a tick before the end lowers the time by one, or sets it to 0 and finishes the test exactly when at most one second was left |
| IQ.IQTest.SelectEnablesNext | src/components/psychometrics/IQTest.tsx:46-48 | selecting a non-empty option enables Next on the shown question |
| IQ.IQTest.NextEnabled | src/components/psychometrics/IQTest.tsx:142 | Next is enabled exactly when a non-empty answer is stored under the current cursor + 1, the key `handleSelect` writes |
| IQ.IQTest.CalculateScore | src/components/psychometrics/IQTest.tsx:58-64 | the counting loop returns the score |
| IQ.IQTest.Submit | src/components/psychometrics/IQTest.tsx:66-88 | without a user nothing is written. Otherwise the score and time are written, and the test completes exactly when the write succeeds |
| BigFive.TotalPages | src/components/psychometrics/Big5Test.tsx:12-30 | `ceil(50 / 10)` is 5 pages, enough and no more |
| BigFive.ResponseKey | src/components/psychometrics/Big5Test.tsx:37 | responses are stored under `q_<index>` |
| BigFive.ResponseKeyInjective | src/components/psychometrics/Big5Test.tsx:37 | different statements use different keys |
| BigFive.PageEnd | src/components/psychometrics/Big5Test.tsx:31-32 | a page never reaches past the last statement |
| BigFive.PageComplete | src/components/psychometrics/Big5Test.tsx:41-47 | a page past the last one has no statements and so is complete |
| BigFive.PagesPartitionQuestions | src/components/psychometrics/Big5Test.tsx:31-32 | statement i is on page i / 10 and on no other |
| BigFive.AllPagesCompleteAnswersAll | src/components/psychometrics/Big5Test.tsx:41-47 | completing every page answers every statement |
| BigFive.SubmittedResponsesComplete | src/components/psychometrics/Big5Test.tsx:41-64 | with every page complete and only the offered ratings 1..5 given, the submitted responses rate all 50 statements |
| BigFive.Big5Test.constructor | src/components/psychometrics/Big5Test.tsx:26-28 | no responses, first page |
| BigFive.Big5Test.HandleResponse | src/components/psychometrics/Big5Test.tsx:34-39 | `q_<i>` gets the value and every other response is kept |
| BigFive.Big5Test.IsPageComplete | src/components/psychometrics/Big5Test.tsx:41-47 | the loop with an early return yields true exactly when every statement on the page has a truthy response |
| BigFive.Big5Test.NextEnabled | src/components/psychometrics/Big5Test.tsx:114 | Next is enabled only when every statement on the page has a truthy response |
| BigFive.Big5Test.HandleNext | src/components/psychometrics/Big5Test.tsx:49-72 | advances the page except on the last, where the responses are submitted. The test completes exactly when there is a user and the write succeeds |
| Video.VideoModule.constructor | src/components/training/VideoModule.tsx:9-10 | neither watched nor checked |
| Video.VideoModule.HandleEnded | src/components/training/VideoModule.tsx:13-15 | the video ending sets `watched` |
| Video.VideoModule.SetChecked | src/components/training/VideoModule.tsx:43-46 | the checkbox, enabled only once watched, sets `checked`, so checked implies watched |
| Video.VideoModule.CheckboxEnabled | src/components/training/VideoModule.tsx:46 | under the invariant, a ticked box is always an enabled one |
| Video.VideoModule.ContinueEnabled | src/components/training/VideoModule.tsx:54 | Continue is enabled only when the checkbox is |
| Video.VideoModule.HandleContinue | src/components/training/VideoModule.tsx:17-21 | completes exactly when watched and checked, which under the invariant is exactly when checked; otherwise no effect |

## Left out

- **Firebase and the network.**
  - Nothing models `signInAnonymously`, Firestore, `fetch`, or their asynchrony.
  - Each write is a success flag. A failed sign-in or phase update is an error text given as input.
  - A transaction that fails to commit is not modelled.
  - `updateDoc` on a participant document that does not exist is modelled as leaving the collections unchanged.
  - The `submitting`/`loading` flags appear only in their state after an awaited operation.
- **Wiring in `AITrial.tsx`.** The handlers are modelled as independent methods; how the trial is wired to its widgets is not:
  - `BBoxTool` gets `onChange={setUserBox}` although it calls `onChange(id, box)`.
  - No `activeBoxId` is passed.
  - `PreConfidenceModal` gets props other than those it declares.
  - `onFinalSubmit` is passed to `AIFeedbackModal`, which does not declare it.
  - The modal only ever calls `onRevise` and `onContinue` (`src/components/annotation/AIFeedbackModal.tsx:139-140`), and nothing else calls `handleFinalSubmit` (`src/components/annotation/AITrial.tsx:222`). As wired, the app therefore never saves an AI trial and never advances the AI session: `AnnotationAI.AITrial.HandleFinalSubmit` models the handler as written, which the app does not reach.
- **Routes.** `src/App.tsx` is not part of this model. The `intro-*` targets of the phase-2 landing page are not registered there and reach the catch-all route (`src/App.tsx:90`).
- **DOM and canvas.**
  - Rendered and natural image sizes are parameters.
  - Drawing is modelled as the list of rectangles painted, not as pixels.
  - The alpha of `hexToRgba` is passed as its printed text.
  - Touch/mouse event decoding (`getClientFromEvent`) is an optional point given as input.
- **Number parsing.** `parseFloat` and `parseInt` are given as functions (`NumberParsers`).
- **Floating point.** Coordinates, scale factors and the overlap are exact reals, not IEEE doubles. `Math.round` is `floor(x + 0.5)`.
- **Text.** `toLowerCase` is modelled on ASCII letters only. `trim` strips the ASCII whitespace, U+00A0, U+FEFF, U+2028 and U+2029, but not the other Unicode space separators (U+1680, U+2000 to U+200A, U+202F, U+205F, U+3000).
- **Randomness and clocks.** `Math.random()` draws and `Date.now()` are inputs. The draws are limited to the ranges the code produces (an index in `[0, 32)`, a swap index in `[0, i]`).
- **Timers.** The one-second `setInterval` of the logic test is a `Tick` method; the cleanup of the interval is not modelled.
- **User ids.** Two new participants can draw the same id; the code does not check for this, and neither does the model.
- **Questionnaire contents.** The statement and question texts and the demographics form are not modelled. The logic test's `submitting` view and the Big Five `window.scrollTo` are left out too.
- Auth.Logout: `auth.signOut()` is left out, since it is a call into Firebase.
- BoxDrawing.BBoxTool.Draw: the canvas clearing and the `resizeCanvas` handler (`src/components/common/BBoxTool.tsx:150-167`) are not modelled, since they only size the drawing surface.
