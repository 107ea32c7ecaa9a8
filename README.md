# Hand-gesture control pipeline — a verified model

The repository's scripts (the gesture menu and games `flappyDedo.py`, `testeFinal.py` and
`testeFinalJogov2.py`, the finger counters `contador_dedos_pc.py`, `contador_dedos_pc4.py` and
`testes/contador_dedos_pc3.py`, the application `aplicativo_principal.py`, the photo booth
`testes/testefoto.py` and the follow-the-finger game `testes/testeseguir.py`) all run the same
per-frame pipeline on the hand landmarks reported by the detector:

- a **finger classifier** turns 21 landmark points into five 0/1 flags (thumb to little finger);
- a **gesture namer** maps the flag vector to a label through an exact-match table with a fallback;
- a **stabilizer** keeps the last K labels and adopts the most common one when it is frequent enough;
- a **cursor smoother** moves the cursor towards the index fingertip by an exponential moving average;
- a **click debouncer** counts consecutive pinch frames and fires a click;
- **hand selection** picks the hand that drives the cursor and the click;
- the screens that consume these signals: the two-hand finger calculator, the buttons, the
  pipe game with its difficulty, scoring and collisions, and the photo-booth timer machine.

The model has one module per component:

- `Geometry`: points, squared distances, rectangles and box overlap.
- `Fingers`: the classifiers and the angle tests.
- `Gestures`: the tables and the label functions.
- `Stabilizer`: the label window, the vote, and the class `GestureStabilizer`.
- `Cursor`: the integer and real smoothers, as the classes `PixelCursor` and `FloatCursor`.
- `Click`: the debouncer as a function, and the class `ClickDetector`.
- `Hands`: hand selection, the per-hand loops and the calculator.
- `Game`: difficulty and pipes, plus the classes `SuiteGame` and `FollowGame`.
- `Photo`: the booth machine and the class `PhotoBooth`.
- `Frames`: each script's per-frame glue. It decides which hand feeds which component, and what a component gets when no hand is reported.

Several choices shape what is modelled:

- **Angles.** An angle test "angle between the two segments < θ" is stated exactly on integer pixels as `dot > 0 && den·dot² > num·|v1|²·|v2|²`, where `num/den` stands for cos²θ. For 30° this is exact (cos² 30° = 3/4). `Fingers.PassesIsCosineThreshold` proves it equal to the cosine comparison over the reals.
- **Cursor arithmetic.** The game scripts truncate the smoothed cursor `0.3*raw + 0.7*last` with `int()` (toward zero). The model evaluates that sum exactly, as `Cursor.TruncTenth(3·raw + 7·last)`, while the scripts evaluate it in IEEE doubles; the two differ on some inputs (see "## Left out"). The counter and the application keep float cursors, modelled over the reals with α = 45/100 and 4/10.
- **Clock and random values.** The clock, random pipe heights and the spawn timer are parameters.

Three behaviours of the code as written are worth knowing:

- **The integer cursor can stall below the finger.** It can stop up to 3 px short when approaching from below: see `Cursor.SmoothCoordStallsBelow`. In exact arithmetic it reaches the finger from above; in doubles it can also stall or step off the finger (see "## Left out").
- **The counter's one-hand display repeats the total.** With one hand, `contador_dedos_pc4.py` shows `a = a` on its calculator display.
- **The counter's label comes from the first reported hand.** `contador_dedos_pc4.py` takes the gesture label from hand 0, even when the cursor follows a right hand reported second.

## Model

| member | source | states |
|---|---|---|
| Geometry.CloserSymmetric | flappyDedo.py:215-216 | the pinch distance test does not depend on which point is the thumb |
| Geometry.CloserIsDistanceBelow | flappyDedo.py:384-385 | `dist < D` on pixel points is exactly `dx²+dy² < D²`, for the real distance |
| Geometry.BorderIsOutside | flappyDedo.py:282-285 | the button test is strict: a cursor on any edge of the rectangle is outside |
| Geometry.BoxesCollideIffShareAPoint | flappyDedo.py:326-333 | the AABB test is true exactly when the two closed boxes have a common point |
| Fingers.Fingers30 | testes/contador_dedos_pc3.py:49-77 | five 0/1 flags, flag i set exactly when finger i's fixed landmark triple passes the 30° test |
| Fingers.Fingers30OrFist | flappyDedo.py:218-238 | five flags; a landmark list shorter than 21 gives `[0,0,0,0,0]`, otherwise the 30° flags |
| Fingers.AppFingersAsWritten | aplicativo_principal.py:77-93 | `[]` unless there are exactly 21 landmarks; then the thumb (1,2,4) flag is the "> 160°" test and the others the 40° test |
| Fingers.AppFingers | aplicativo_principal.py:77-93 | the application's classifier with the thumb test corrected to "within 20° of straight" |
| Fingers.SumOfFlagsIsACount | testes/testeseguir.py:63-79 | a flag vector's sum lies in 0..5, and is 0 or 5 only for the all-down or all-up vectors |
| Fingers.RaisedFingerCount | testes/testeseguir.py:63-79 | `detectar_dedos` returns a count between 0 and 5, the sum of the 30° flags |
| Fingers.PassesIsCosineThreshold | flappyDedo.py:220-229 | the integer test agrees with comparing the cosine of the angle, over the reals |
| Fingers.ParallelSegments | flappyDedo.py:221-223 | collinear segments give a dot product whose square is the product of the squared lengths |
| Fingers.StraightFingerPasses | flappyDedo.py:220-229 | a straight finger (three collinear points in order) passes every "within θ" test |
| Fingers.FoldedFingerIsBeyond | aplicativo_principal.py:79-84 | a finger folded back on itself passes every "beyond θ" test and fails every "within θ" test |
| Fingers.DegenerateFingerFails | flappyDedo.py:220-229 | a zero-length segment never counts as extended (cos = 0, 90°) |
| Fingers.WithinIsMonotone | aplicativo_principal.py:88-91 | a finger within a smaller angle is within every larger angle |
| Fingers.Within30ImpliesWithin40 | aplicativo_principal.py:88-91 | every finger extended for the 30° scripts is extended for the 40° application |
| Fingers.FingerName | contador_dedos_pc.py:115-116 | a fingertip label is a single digit 1..5 |
| Fingers.DrawTipLabels | contador_dedos_pc.py:115-120 | the label loop produces, in finger order, one label per raised finger, 10 px left and 5 px above its tip |
| Fingers.FingerNamesDiffer | contador_dedos_pc.py:115 | the five finger labels are pairwise distinct |
| Fingers.LabelsUpToIff | contador_dedos_pc.py:118-120 | label i+1 is drawn exactly when finger i is raised, and always at tip landmark [4,8,12,16,20][i] |
| Gestures.Lookup | flappyDedo.py:461-466 | the first table entry whose pattern equals the vector, or None when no entry matches |
| Gestures.CountOnesIsSum | contador_dedos_pc4.py:261 | `dedos.count(1)` equals the sum of a 0/1 vector |
| Gestures.NatToString | contador_dedos_pc4.py:261 | decimal rendering is a non-empty digit string |
| Gestures.ParseNatToString | contador_dedos_pc4.py:261 | the rendered count reads back as the same number |
| Gestures.NonEmptyNameIffRecognised | testeFinal.py:327-332 | with the `""` fallback a label is non-empty exactly when the vector is in the table |
| Gestures.LabelDeterminesVector | contador_dedos_pc4.py:244-259 | on a table with distinct names, a named label identifies its vector |
| Gestures.SuiteTableIsWellFormed | flappyDedo.py:461-466 | the five game patterns and names are distinct and non-empty |
| Gestures.CounterTableIsWellFormed | contador_dedos_pc4.py:244-259 | the eight counter patterns and names are distinct and non-empty |
| Gestures.AppTableIsWellFormed | aplicativo_principal.py:96-101 | the five application patterns and names are distinct and non-empty |
| Gestures.SuiteGestureName | testeFinal.py:327-332 | the game label is `""` exactly for the vectors outside the five patterns |
| Gestures.CounterLabelsAreNotCounts | testes/contador_dedos_pc3.py:132-151 | no named counter label starts with `"Dedos: "` |
| Gestures.CounterFallbackShowsCount | contador_dedos_pc4.py:244-261 | a label starts with `"Dedos: "` exactly for unlisted vectors, and then shows the number of raised fingers |
| Gestures.AppGestureName | aplicativo_principal.py:95-102 | `[]` is named `""`; every five-flag vector has a non-empty name |
| Gestures.AppFallbackCountsOneToFour | aplicativo_principal.py:95-102 | the `"{sum} Dedo(s)"` fallback only ever shows 1 to 4 fingers |
| Gestures.OpenHandNameMeansAllRaised | aplicativo_principal.py:99 | the application says "Mão Aberta" only for `[1,1,1,1,1]` |
| Gestures.FlatHandThumbFlexedAsWritten | aplicativo_principal.py:87 | on a flat hand the as-written thumb flag is 0 |
| Gestures.FlatHandThumbExtended | aplicativo_principal.py:87 | on the same hand the corrected thumb flag is 1 |
| Gestures.StraightThumbAsWritten | aplicativo_principal.py:87 | any straight thumb reads as flexed as written, and as extended once corrected |
| Gestures.StraightThumbNeverOpenAsWritten | aplicativo_principal.py:87-102 | as written, a straight-thumbed hand is never named "Mão Aberta"; corrected, it is whenever all flags are up |
| Gestures.StraightHandVectors | aplicativo_principal.py:87-91 | a fully straight hand reads `[0,1,1,1,1]` as written and `[1,1,1,1,1]` corrected |
| Gestures.FourFingersName | aplicativo_principal.py:95-102 | [0,1,1,1,1] matches no pattern and is named "4 Dedo(s)" |
| Gestures.StraightHandNames | aplicativo_principal.py:87-102 | a fully straight hand is named "4 Dedo(s)" as written and "Mão Aberta" corrected |
| Stabilizer.Count | flappyDedo.py:470 | a label's frequency never exceeds the buffer length |
| Stabilizer.CountOfConcat | flappyDedo.py:470 | frequencies add over concatenated buffers |
| Stabilizer.FirstMostCommonFrom | aplicativo_principal.py:258 | the scan finds the first-seen label among those of maximal frequency |
| Stabilizer.MostCommon | flappyDedo.py:470-471 | `most_common(1)` returns a label of the buffer with the highest frequency, the first seen among ties |
| Stabilizer.MostCommonBeatsEveryLabel | flappyDedo.py:470-471 | no label, present or not, is more frequent than the top one |
| Stabilizer.VoteChangesOnlyToFrequentLabel | flappyDedo.py:469-474 | the stable label changes only on a full buffer, and only to a label that meets the threshold and is outnumbered by none |
| Stabilizer.MajorityIsAdopted | flappyDedo.py:472-474 | a label filling more than half of a full buffer and meeting the threshold becomes the stable label |
| Stabilizer.StrictMajorityIffAdopted | testeFinal.py:335-341 | under `freq > K // 2` a new label is adopted exactly when it fills more than half the buffer |
| Stabilizer.TieGoesToFirstSeen | aplicativo_principal.py:256-260 | with K = 8 and `>= 4`, a 4–4 tie goes to the label first seen in the buffer |
| Stabilizer.Window | flappyDedo.py:126 | the deque holds at most K labels: all of them while fewer, else the last K |
| Stabilizer.WindowOfAppend | testes/contador_dedos_pc3.py:181-185 | trimming after every append gives the same window as trimming once |
| Stabilizer.RunBufferIsFill | flappyDedo.py:468 | the votes never touch the buffer |
| Stabilizer.RunKeepsLastLabels | testes/contador_dedos_pc3.py:181-185 | after any run of frames the buffer is the last K labels seen, oldest first |
| Stabilizer.HeldGestureIsAdopted | flappyDedo.py:468-474 | a gesture held for K frames becomes the stable label, whatever came before |
| Stabilizer.ThreeOfFiveIsAdopted | flappyDedo.py:472-474 | 3 of 5 is adopted |
| Stabilizer.TwoTwoOneKeepsStable | flappyDedo.py:472-474 | a 2–2–1 buffer keeps the previous label |
| Stabilizer.PartialBufferKeepsStable | flappyDedo.py:469 | a buffer that is not yet full never votes |
| Stabilizer.EightFrameTieExample | aplicativo_principal.py:256-260 | an alternating 4–4 buffer adopts its first label |
| Stabilizer.DequeAppendIsWindow | flappyDedo.py:468 | appending to a full `deque(maxlen=K)` drops the oldest label, and either way the result is the last K labels |
| Stabilizer.ListAppendIsWindow | testes/contador_dedos_pc3.py:181-185 | `append` then `pop(0)` once the list passes K leaves the last K labels |
| Stabilizer.GestureStabilizer.constructor | flappyDedo.py:125-127 | empty buffer, empty stable label |
| Stabilizer.GestureStabilizer.Observe | flappyDedo.py:468-474 | deque append then vote: the new buffer is the last K labels and the stable label is the vote's |
| Stabilizer.GestureStabilizer.ObserveList | testes/contador_dedos_pc3.py:181-201 | list append, `pop(0)` past K, vote: same new state as the deque |
| Stabilizer.GestureStabilizer.Decide | flappyDedo.py:469-474 | the vote after an append leaves the buffer alone and sets the stable label to the vote's outcome |
| Stabilizer.GestureStabilizer.ClearBuffer | contador_dedos_pc4.py:228-236 | entering a screen empties the buffer and keeps the stable label |
| Stabilizer.GestureStabilizer.Reset | flappyDedo.py:483-486 | Voltar empties the buffer and the stable label |
| Cursor.TruncTenthBetween | flappyDedo.py:376-377 | `int()` of a tenth stays between the bounds of the value |
| Cursor.SmoothCoordBetween | flappyDedo.py:375-378 | each smoothed coordinate lies between the fingertip and the previous cursor |
| Cursor.SmoothCoordFixedPoint | flappyDedo.py:375-378 | a cursor on the fingertip stays there |
| Cursor.SmoothCoordStallsBelow | flappyDedo.py:375-378 | a cursor 1 to 3 px below the fingertip does not move |
| Cursor.SmoothCoordApproachesFromAbove | flappyDedo.py:375-378 | from above, every frame moves the cursor strictly closer without overshooting |
| Cursor.SmoothIterateReachesFromAbove | flappyDedo.py:375-378 | holding the finger still, the cursor reaches it from above within the initial gap in frames |
| Cursor.SmoothIterateStallsBelow | flappyDedo.py:375-378 | from 1 to 3 px below, the cursor never reaches the finger |
| Cursor.PixelCursor.constructor | flappyDedo.py:117-119 | the cursor starts at the given centre |
| Cursor.PixelCursor.Update | flappyDedo.py:358-378 | with a hand both coordinates are smoothed against the last position; with none the cursor stays |
| Cursor.EmaGap | contador_dedos_pc4.py:184 | the new gap to the fingertip is (1−α) times the old one |
| Cursor.EmaBetween | contador_dedos_pc4.py:184 | for 0 ≤ α ≤ 1 the new value lies between the previous value and the fingertip |
| Cursor.EmaIterateGap | aplicativo_principal.py:263 | after n frames on a still finger the gap is (1−α)ⁿ times the first |
| Cursor.PowBernoulli | aplicativo_principal.py:263 | (1−α)ⁿ·(1+nα) ≤ 1 |
| Cursor.EmaConverges | aplicativo_principal.py:262-264 | the gap after n frames is at most the first gap divided by 1+nα |
| Cursor.FloatCursor.constructor | contador_dedos_pc4.py:30-33 | the cursor starts at the given centre with the given α |
| Cursor.FloatCursor.Update | contador_dedos_pc4.py:171-185 | the EMA of the tip, or of the cursor itself with no hand (so it holds), and `prev` tracks the result |
| Click.Step | flappyDedo.py:383-397 | a click needs a pinching hand; no hand or a release resets to 0; a paused frame changes nothing; the reset policy keeps the counter ≤ T |
| Click.Run | flappyDedo.py:383-397 | one click flag per frame, and a frame clicks only when a hand is seen and pinches (or the policy fires at zero) |
| Click.RunIsCausal | flappyDedo.py:383-397 | the clicks of the first k frames do not depend on later frames |
| Click.Held | flappyDedo.py:387-388 | a held pinch is a run of pinching frames |
| Click.HeldSplit | flappyDedo.py:387-388 | a held pinch is a shorter held pinch plus one frame |
| Click.HeldAtCount | flappyDedo.py:386-393 | under `== T` a held pinch counts up by one per frame and clicks exactly when the counter reaches T |
| Click.OnePinchOneClick | testeFinalJogov2.py:240-254 | from a reset counter, a held pinch clicks once, on frame T, and never if shorter |
| Click.HeldAboveThenReset | contador_dedos_pc4.py:200-209 | under `> T` with reset, the counter is (f+n) mod (T+1) and clicks fall every T+1 frames |
| Click.ReleaseForgets | aplicativo_principal.py:266-273 | after a release or a lost hand the history no longer matters, and that frame never clicks |
| Click.ClickDetector.constructor | flappyDedo.py:120-122 | the counter starts at 0 |
| Click.ClickDetector.Observe | contador_dedos_pc4.py:188-212 | the counter and click are one debouncer step |
| Hands.FirstRight | contador_dedos_pc4.py:163-167 | the first index labelled "Right", or None when there is none |
| Hands.NavIndex | flappyDedo.py:358-364 | −1 with no hand; else a valid index, the first "Right" one, or 0 when none is right |
| Hands.SelectNavHand | flappyDedo.py:359-364 | the selection loop with its `break` computes the navigation index |
| Hands.AppPrimary | aplicativo_principal.py:254 | the application takes hand 0 whenever a hand is reported |
| Hands.PrimaryChoicesDiffer | aplicativo_principal.py:254 | on ["Left","Right"] the games pick hand 1 and the application hand 0 |
| Hands.ClassifyHands | contador_dedos_pc4.py:148-157 | one vector and one side label per hand, equal lengths, in report order |
| Hands.AppClassifyHands | aplicativo_principal.py:249-252 | one vector per hand, in report order, from `detectar_dedos_vetorial` as written (the 160° thumb test) |
| Hands.ReadingTotal | contador_dedos_pc4.py:349-350 | a hand's finger total lies in 0..5 |
| Hands.CounterCalc | contador_dedos_pc4.py:347-358 | the display is empty exactly when there is no result, which happens exactly without one or two hands |
| Hands.TotalIsOneDigit | contador_dedos_pc4.py:351 | a hand total renders as one digit |
| Hands.TwoHandCalculation | contador_dedos_pc4.py:347-363 | two hands show `a + b = a+b` with one-digit terms, the same in both calculators |
| Hands.OneHandCalculation | contador_dedos_pc4.py:352-363 | one hand shows `a = a` in the counter and `a` in the application |
| Hands.NoHandCalculation | aplicativo_principal.py:181-187 | no hand (or more than two) shows nothing, with no result |
| Game.DifficultyBounds | testeFinal.py:606-608 | speed stays between base and cap, gap between floor and base, and both are at base below score 5 |
| Game.DifficultyIsMonotone | testeFinal.py:606-608 | speed never falls and the gap never grows as the score rises |
| Game.DifficultyLevels | flappyDedo.py:746-748 | every 5 points the speed rises by 2 until the cap and the gap shrinks by 10 until the floor |
| Game.DifficultyCaps | testeFinalJogov2.py:524-528 | the two scripts' caps: speed ≤ 30, gap ≥ 120; speed ≤ 26, gap ≥ 160; and where they are reached |
| Game.BoxHitIsOutsideGap | flappyDedo.py:777-783 | a sprite bird on screen hits a pipe exactly when it overlaps horizontally and leaves the gap |
| Game.RoundBirdSafeInGap | testeFinal.py:634-636 | a round bird wholly inside the gap, or clear of the pipe horizontally, never hits |
| Game.Advance | flappyDedo.py:803-806 | a pipe moves left by the speed and becomes counted once it passes the bird |
| Game.StepPipes | flappyDedo.py:762-811 | the pipe loop keeps the on-screen pipes, counts the new passes and reports any hit |
| Game.SurvivorsAreOnScreen | testeFinal.py:654-656 | exactly the moved pipes with x + width > 0 are kept, no more than there were |
| Game.GainedIsCount | testeFinal.py:648-650 | the score gain is the number of pipes that pass the bird this frame |
| Game.CountedPipeNeverScores | testes/testeseguir.py:151-154 | a pipe that scored stays counted and never scores again |
| Game.SuiteGame.constructor | flappyDedo.py:146-154 | the game starts at START, score 0, no pipes, the bird in the middle |
| Game.SuiteGame.Begin | testeFinalJogov2.py:511-518 | PLAYING with score 0, no pipes and the bird at HEIGHT div 2 |
| Game.SuiteGame.OnClick | flappyDedo.py:850-858 | a click starts from START, restarts from GAME_OVER only inside the restart button, and is ignored otherwise |
| Game.SuiteGame.PlayFrame | flappyDedo.py:751-820 | one play frame: bird follow or hold, spawn, pipe step at the current difficulty, score gain, game over on a hit or off screen |
| Game.FollowGame.constructor | testes/testeseguir.py:32-56 | START, score 0, one fresh pipe, bird in the middle |
| Game.FollowGame.Frame | testes/testeseguir.py:117-181 | a pinch outside play resets with one pipe; playing, the bird follows the tip or falls by 7, pipes spawn only when the last is far enough, and hits or the edges end the game |
| Photo.CountdownRunning | testes/testefoto.py:124-131 | the whole-second countdown is positive exactly while less than T seconds have passed |
| Photo.CountdownShown | testes/testefoto.py:126-128 | a shown countdown digit lies between 1 and T |
| Photo.HandOpenMeansAllFingersPass | testes/testefoto.py:88-103 | the hand is open exactly when a full hand is reported with all five fingers extended |
| Photo.OnlyCycleSteps | testes/testefoto.py:111-164 | each frame either stays or moves one step along IDLE→ARMING→POSING→CAPTURED→IDLE |
| Photo.IdleArmsOnOpenHand | testes/testefoto.py:111-116 | IDLE arms exactly on an open hand, and records the timer start |
| Photo.ArmingLastsTwoSeconds | testes/testefoto.py:120-131 | ARMING moves to POSING and restarts the timer once 2 whole seconds pass, with or without a hand |
| Photo.PosingLastsFiveSeconds | testes/testefoto.py:135-152 | POSING captures once 5 seconds pass and starts the flash |
| Photo.FlashLastsHalfSecond | testes/testefoto.py:157-164 | CAPTURED returns to IDLE once 0.5 s have passed since the flash |
| Photo.CountdownDigits | testes/testefoto.py:124-148 | every countdown shown is between 1 and the stage's length |
| Photo.PhotoBooth.constructor | testes/testefoto.py:61-63 | the booth starts IDLE |
| Photo.PhotoBooth.Step | testes/testefoto.py:108-164 | one frame of the booth, as the machine's transition function |
| Frames.Sides | contador_dedos_pc4.py:150-157 | the handedness labels in report order |
| Frames.NavHand | testeFinal.py:212-218 | the navigation landmarks exist exactly when a hand is reported |
| Frames.NavHandIsFirstRight | testeFinalJogov2.py:209-218 | the first "Right" hand drives navigation |
| Frames.NavHandFallsBackToFirst | flappyDedo.py:363-364 | with no "Right" hand, hand 0 drives navigation |
| Frames.NavHandIgnoresOtherHands | contador_dedos_pc4.py:192-197 | once a right hand is reported, non-right hands before it and any hands after it change nothing |
| Frames.SuiteReading | flappyDedo.py:350-397 | no hand gives no cursor target, a reset and the label "Punho Fechado"; a hand gives a target and a pinch signal, paused while the booth is busy |
| Frames.SuiteReadingFollowsRightHand | flappyDedo.py:358-385 | cursor, pinch (`dx²+dy² < 2500`) and gesture all come from the first right hand |
| Frames.SuiteNoHandResetsClick | flappyDedo.py:396-397 | a frame with no hand resets the counter without a click |
| Frames.SuiteBusyBoothPausesClick | testeFinal.py:244-259 | while the booth is busy the counter is untouched and no click fires |
| Frames.HandsTotalBounds | flappyDedo.py:448-456 | the total over all hands lies between 0 and 5 per hand |
| Frames.EveryHandIsCounted | flappyDedo.py:448-456 | each hand's own count is part of the total |
| Frames.TotalFingers | flappyDedo.py:448-456 | the loop sums every hand's raised fingers, within 0..5 per hand |
| Frames.CounterReading | contador_dedos_pc4.py:148-212 | labels are pushed only with a hand; a navigation hand too short to index gives no target and a reset |
| Frames.CounterLabelComesFromFirstHand | contador_dedos_pc4.py:241-242 | the cursor follows the right hand while the label describes hand 0 |
| Frames.CounterShortHandResetsClick | contador_dedos_pc4.py:171-180 | the `except` path keeps the cursor and resets the counter |
| Frames.AppReading | aplicativo_principal.py:244-273 | everything from hand 0, classified by `detectar_dedos_vetorial` as written; the pushed label is `""` exactly for a hand without 21 landmarks |
| Frames.AppOpenLabelMeansAllPass | aplicativo_principal.py:254-255 | the frame pushes "Mão Aberta" only for a 21-landmark hand 0 whose thumb passes the "> 160°" test and whose other four fingers pass the 40° test |
| Frames.AppStraightHandPushesFour | aplicativo_principal.py:254-255 | a fully straight hand 0 pushes "4 Dedo(s)", never "Mão Aberta", so the photo screen's open-hand trigger (line 288) cannot fire on it |
| Frames.AppAndGamesFollowDifferentHands | aplicativo_principal.py:254 | with left before right the application follows the left hand and the games the right one |
| Frames.FirstHand | testes/contador_dedos_pc3.py:105 | the first hand's landmarks, when a hand is reported |
| Frames.CounterNamesAreNonEmpty | testes/contador_dedos_pc3.py:132-151 | every label of the counters' chain is non-empty |
| Frames.ListCounterLabelEmptyIffNoHand | testes/contador_dedos_pc3.py:99-106 | the frame label is `""` exactly on frames without a hand |
| Frames.ListCounterBlanksAfterHandLeaves | testes/contador_dedos_pc3.py:181-201 | five handless frames make `""` the stable label |
| Frames.PhotoHandOpen | testes/testefoto.py:91-103 | only a reported first hand with 21 landmarks can be open |
| Frames.BasicCounterFingers | contador_dedos_pc.py:92-103 | zeros with no hand, else hand 0's five flags |
| Frames.BasicCounterLabelsShowStraightFingers | contador_dedos_pc.py:115-120 | a fingertip number is drawn exactly for each finger passing the 30° test |
| Frames.FollowReading | testes/testeseguir.py:53-61 | no hand gives no pinch, no tip and 0 fingers; a hand pinches exactly when `dx²+dy² < 3600` |

## Left out

- Camera capture, the landmark detector, drawing, text rendering, sprites and alpha blending, windows and keys are foreign-library I/O. The detector's output is a parameter: a sequence of hands with landmarks and side labels.
- MySQL score insertion, pygame audio and the PHP/JavaScript gallery hold no logic of the pipeline.
- Floating-point trigonometry (`acos`, `hypot`, `degrees`) and the 1e-6 offset are replaced by the exact cos² comparison.
- Fingers.Within40: "< 40°" uses cos² 40° ≈ 0.586824, a six-digit rational, so a finger within a millionth of the threshold may be read otherwise.
- Fingers.AppFingersAsWritten: "> 160°" uses cos² 160° ≈ 0.883022. Fingers.Within20 uses the same constant.
- Cursor.FloatCursor.Update: float rounding of the numpy EMA is not modelled; the update is over exact reals.
- Cursor.PixelCursor.Update: the new position is the exact `TruncTenth(3·raw + 7·last)` (`Cursor.SmoothCoord`), not `int(0.3*raw + 0.7*last)` in IEEE doubles. Neither 0.3 nor 0.7 is a double, and the rounded sum can fall just below an integer: `0.3*3 + 0.7*3` is `2.9999999999999996` in doubles, so the scripts compute `int(...)` = 2 where the model gives 3. Double rounding is not modelled.
- Cursor.SmoothCoord: an exact-tenth model of the double expression, with the gap described for `Cursor.PixelCursor.Update`.
- Cursor.SmoothCoordBetween: holds for the exact tenth. In doubles, raw = last = 3 gives 2, which is outside [3, 3].
- Cursor.SmoothCoordFixedPoint: holds for the exact tenth. In doubles, a cursor resting on the fingertip at column 3 moves to 2.
- Cursor.SmoothIterateReachesFromAbove: holds for the exact tenth. In doubles, with the tip at 3 and the cursor at 4, the cursor goes 4 → 3 → 2 and then stalls at 2, 1 px below the tip, the case of `Cursor.SmoothCoordStallsBelow`.
- The menu and screen machine of `flappyDedo.py`, `testeFinal.py`, `testeFinalJogov2.py` and `contador_dedos_pc4.py` is not modelled. In those scripts the label push and the vote run only while `current_screen == "GESTOS"` (flappyDedo.py:445-474, contador_dedos_pc4.py:239-269). `Frames.SuiteReading` and `Frames.CounterReading` compute a label on every frame, and which frames feed the stabilizer is left to the caller.
- The gravity and velocity physics of `testeFinalJogov2.py` (float gravity 0.8, lines 534-544) and the velocity reset at START are not modelled. Its bird position is an input of `Game.SuiteGame.PlayFrame`.
- The time-based difficulty of `testes/testeseguir.py` (lines 125-128) and every random pipe height are inputs (`speed`, `freshHeight`, `spawn`).
- Spawn timers and the photo/flash timers of the three large scripts read the wall clock around image writes and database calls. The booth machine is modelled once, from `testes/testefoto.py`, with the clock as a parameter `now`.
- The application's own game and photo screens (`run_flappy_screen`, `run_foto_screen`) and canvas painting are rendering around the modelled components.
- The application's `except` branch in its classifier follows only from detector failures the model's integer points cannot produce; the branch is not reachable in the model.
- Frame timing and the FPS sleep are not modelled; each frame is one call.

## Findings

| source | as written | input that shows it | evidently intended | confidence | as-written member | corrected member |
|---|---|---|---|---|---|---|
| aplicativo_principal.py:87 | the thumb counts as extended when the angle between segments (1,2) and (2,4) is > 160°, but that angle is the deviation from straight, so a straight thumb reads as flexed | a flat hand with landmarks 1, 2, 4 on a line (`Gestures.FlatHand`): the thumb flag is 0, and an open hand is named "4 Dedo(s)" | a straight thumb counts as extended (deviation within 20°), so the open hand is named "Mão Aberta" | not executed | Gestures.StraightThumbAsWritten | Gestures.StraightHandNames |
