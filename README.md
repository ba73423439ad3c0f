# Sperm courtroom: a verified model of the game session

The courtroom game in `src/components/SpermCourtroom.tsx` puts five sperm
"defendants" on trial. In each case the player reads a motility percentage
and a morphology and then gives a verdict: guilty or innocent. The player
may also press an objection button at any time during the trial. Points are
awarded for:

- each objection (10);
- each verdict that agrees with the health data (50);
- each achievement unlocked (100).

The game lists five achievements: first objection, objection master (10
objections), harsh judge (all guilty), merciful judge (all innocent) and
perfect judge (every verdict agrees with the health data). As the code is
written, perfect judge can never be earned (see Findings); the other four
can. After the last
case the verdict screen shows several readouts: a sentence picked by the
guilty tally, a health grade, and two buttons that reset the session.

This project models the session state machine in Dafny.

- `Defendants` holds the docket, the guilt rule and the motility label.
- `Achievements` holds the achievement list. It covers the find / mark /
  lock-all operations the game performs on the list, and the achievement
  ids with their texts (`IdText`, `IdTextInjective`).
- `Verdicts` holds the record of verdicts and the counts and checks read
  from it. The component keeps only a guilty tally. The model adds the
  record (`verdicts`) so that the perfect-judge check can be stated as
  intended.
- `PerfectJudgeAsWritten` holds the end-of-session perfect-judge loop as the
  game writes it (see Findings).
- `Readouts` holds the sentence and health grade of the verdict screen.
- `SessionState` is the session as a value, with one function per event.
  The event functions are `Start`, `Unlock`, `Objection`, `Judge`, `Fire`,
  the four timer clears, `RetryTrial` and `LearnMore`. It also defines the
  session invariant `Inv`:
  - the case index stays on the docket;
  - one verdict is recorded per case passed;
  - the guilty tally counts the record;
  - each achievement is unlocked exactly when its condition holds;
  - the score is exactly 10 per objection + 50 per agreeing verdict + 100
    per unlocked achievement.
- `SessionProperties` proves, for every event, its effect and that it keeps
  `Inv`.
- `Courtroom.Session` is a class whose fields are the component's state
  variables. It has one method per button handler and one per timer body.
  Each method is proved to take the fields to exactly what the matching
  `SessionState` function says. The handlers and timer bodies are also
  proved to keep `Inv`; the helper methods they call are not.
- `Sessions` strings events into runs. It proves that every reachable state
  keeps `Inv`, what the verdict screen shows after any session, how
  objections unlock their two achievements, and the outcome of a whole
  session from any list of verdicts.

Timing is modelled as follows:

- Each button handler reads the state as it was when the button was
  pressed.
- Each timer body is a separate event.
- The verdict buttons schedule a delayed advance. The values that closure
  captures become the field `advance`: the case index, the guilty tally
  before the verdict, and the verdict.
- A time parameter is not needed. A run (`Sessions.Run`) is any order of
  events that the screens allow, with one restriction: a verdict is
  accepted only while no advance is pending (see Left out).

Three behaviours of the code, stated as facts of the code:

- **Opening exchange score.** Start, one objection and a correct guilty
  verdict on case 1 score 160: 10 for the objection, 100 for
  "first_objection" and 50 for the verdict (`Sessions.OpeningExchange`).
- **Objections during the reaction.** The objection button stays active
  while the judge's reaction shows and a delayed advance is pending, and
  objections are counted and scored there (`Sessions.Enabled`).
- **Case 3's label.** Case 3 (motility 45) carries, in the game's own
  docket, the health note "Motility 32-40% is borderline" (line 119). The
  label under its bar reads healthy range, and the guilt rule calls it
  innocent (`Defendants.TableLabels`).

## Model

| member | source | states |
|---|---|---|
| Defendants.TableShape | src/components/SpermCourtroom.tsx:91-142 | the docket has N = 5 cases numbered 1..5 in order |
| Defendants.Table | src/components/SpermCourtroom.tsx:91-142 | definition: the five cases with the ids, motilities and morphologies of the docket, in trial order; TableShape, TableGuilt and TableLabels state its properties |
| Defendants.ShouldBeGuilty | src/components/SpermCourtroom.tsx:298 | definition of the guilt rule: motility below 40 or a morphology other than normal; the same rule is used again at line 332 for the perfect-judge check; CorrectVerdicts, TableGuilt and GuiltMatchesLabel state its meaning |
| Defendants.MorphologyText | src/components/SpermCourtroom.tsx:91-142 | each morphology is spelled as a non-empty text ("Normal", "Abnormal Head") |
| Defendants.MorphologyTextNormal | src/components/SpermCourtroom.tsx:298 | comparing the morphology text with "Normal" is the same as comparing the value with Normal, so the guilt rule may test the enum |
| Defendants.CorrectVerdicts | src/components/SpermCourtroom.tsx:298 | the record of a judge who follows the health data has N verdicts, and verdict i is the guilt rule applied to case i |
| Defendants.TableGuilt | src/components/SpermCourtroom.tsx:298 | on the shipped docket the health data asks for guilty, innocent, innocent, guilty, innocent |
| Defendants.MotilityLabel | src/components/SpermCourtroom.tsx:688 | the bar label: healthy range iff motility >= 40, below standard iff < 32, borderline iff 32 <= motility < 40 |
| Defendants.GuiltMatchesLabel | src/components/SpermCourtroom.tsx:298 | a defendant is guilty iff the motility label is not the healthy range or the morphology is not normal |
| Defendants.TableLabels | src/components/SpermCourtroom.tsx:688 | no shipped case shows the borderline label; cases 1 and 4 show below standard, and case 3 shows the healthy range |
| Achievements.IdText | src/components/SpermCourtroom.tsx:247-253 | each achievement id has its non-empty text |
| Achievements.IdTextInjective | src/components/SpermCourtroom.tsx:247-253 | different ids have different texts, so comparing texts is comparing ids |
| Achievements.Ids | src/components/SpermCourtroom.tsx:247-253 | the ids of a list, position by position |
| Achievements.ShippedIds | src/components/SpermCourtroom.tsx:247-253 | a list has the shipped shape exactly when its ids are the five ids of the initial list, in order |
| Achievements.InitialShape | src/components/SpermCourtroom.tsx:247-253 | the initial list has the five shipped ids in order, and none is unlocked |
| Achievements.FindLocked | src/components/SpermCourtroom.tsx:259 | the result is the first position holding a locked entry with the id; there is none exactly when no entry with the id is locked |
| Achievements.FindLockedFrom | src/components/SpermCourtroom.tsx:259 | the first position from i on holding a locked entry with the id; there is none exactly when no entry from i on is locked with the id |
| Achievements.MarkUnlocked | src/components/SpermCourtroom.tsx:261-263 | every entry with the id becomes unlocked, and every other entry is unchanged; the length is kept |
| Achievements.LockAll | src/components/SpermCourtroom.tsx:505 | every entry becomes locked, with everything else about it kept |
| Achievements.LockAllShape | src/components/SpermCourtroom.tsx:505 | locking all keeps the ids and the shipped shape, and leaves no entry unlocked |
| Achievements.NumUnlocked | src/components/SpermCourtroom.tsx:247-253 | the count of unlocked entries is at most the length of the list |
| Achievements.NumUnlockedZero | src/components/SpermCourtroom.tsx:247-253 | the count is zero iff no entry is unlocked |
| Achievements.WithFlag | src/components/SpermCourtroom.tsx:262 | exactly one entry's flag is set, and the others are kept |
| Achievements.WithSameFlag | src/components/SpermCourtroom.tsx:262 | setting a flag to its current value changes nothing |
| Achievements.NumUnlockedWithFlag | src/components/SpermCourtroom.tsx:262 | setting one flag changes the unlocked count by that flag's change alone |
| Achievements.UnlockUnique | src/components/SpermCourtroom.tsx:258-263 | with one entry per id, find returns that entry iff it is locked, and marking the id sets that entry alone |
| Achievements.UnlockAt | src/components/SpermCourtroom.tsx:258-263 | on a list with the shipped ids, unlocking an id finds its entry iff that entry is locked, and sets that entry's flag and no other |
| Achievements.UnknownIdFindsNothing | src/components/SpermCourtroom.tsx:258-263 | an id that names no entry finds nothing and marks nothing |
| Verdicts.CountTrue | src/components/SpermCourtroom.tsx:303-305 | the guilty tally of a record is at most its length |
| Verdicts.CountTrueAppend | src/components/SpermCourtroom.tsx:303-305 | a verdict adds one to the tally exactly when it is guilty |
| Verdicts.CountTrueAll | src/components/SpermCourtroom.tsx:322 | the tally equals the record length iff every verdict is guilty (the harsh-judge condition) |
| Verdicts.CountTrueNone | src/components/SpermCourtroom.tsx:319 | the tally is zero iff no verdict is guilty (the merciful-judge condition) |
| Verdicts.CorrectCount | src/components/SpermCourtroom.tsx:298-301 | the number of verdicts that earned the 50-point bonus is at most the record length |
| Verdicts.CorrectCountAppend | src/components/SpermCourtroom.tsx:298-301 | a verdict adds one to that count exactly when it agrees with the guilt rule for its case |
| Verdicts.CorrectCountAll | src/components/SpermCourtroom.tsx:298-301 | every verdict earned the bonus iff the count equals the record length |
| Verdicts.CheckRecord | src/components/SpermCourtroom.tsx:326-334 | the perfect-judge loop over the docket, run on the recorded verdicts, returns true iff every case was judged according to the guilt rule |
| Verdicts.PerfectRecord | src/components/SpermCourtroom.tsx:249 | definition of the intended perfect-judge condition, "all verdicts match health data": every case judged and each verdict equal to the guilt rule; PerfectIffCorrectPlay and PerfectIffAllCorrect state its meaning |
| Verdicts.PerfectIffAllCorrect | src/components/SpermCourtroom.tsx:326-334 | a full record is perfect iff every verdict earned the 50-point bonus |
| Verdicts.PerfectIffCorrectPlay | src/components/SpermCourtroom.tsx:326-334 | a record is perfect iff it is exactly the verdicts the health data asks for |
| PerfectJudgeAsWritten.WasGuilty | src/components/SpermCourtroom.tsx:329-331 | definition of the verdict the check as written reconstructs for case idx; what follows from it is stated by NeverHolds |
| PerfectJudgeAsWritten.Holds | src/components/SpermCourtroom.tsx:326-334 | definition of the condition the check as written computes; Check is proved to compute it, and NeverHolds proves it false on the last case |
| PerfectJudgeAsWritten.Check | src/components/SpermCourtroom.tsx:326-334 | the loop as written returns true iff its reconstructed verdicts agree with the guilt rule on every case |
| PerfectJudgeAsWritten.NeverHolds | src/components/SpermCourtroom.tsx:326-334 | on the last case the check as written fails for every tally and every last verdict |
| PerfectJudgeAsWritten.MissesCorrectPlay | src/components/SpermCourtroom.tsx:326-334 | for a judge who follows the health data (tally 2 before the innocent last verdict), the record is perfect but the check as written fails |
| Readouts.Sentence | src/components/SpermCourtroom.tsx:344-353 | the sentence is one of the five, picked by tally modulo 5, and it is the tally-th one for tallies below 5 |
| Readouts.SentencePeriodic | src/components/SpermCourtroom.tsx:352 | sentences repeat with period 5, so all-guilty (tally 5) gets the same sentence as all-innocent (tally 0) |
| Readouts.SentencesDistinct | src/components/SpermCourtroom.tsx:345-351 | tallies 0..4 get pairwise different sentences |
| Readouts.HealthVerdict | src/components/SpermCourtroom.tsx:355-377 | on the five-case docket: excellent iff at most 1 guilty, good iff 2, fair iff 3, needs improvement iff at least 4 |
| Readouts.HealthVerdictMonotone | src/components/SpermCourtroom.tsx:355-377 | more guilty verdicts never earn a better grade |
| SessionState.Init | src/components/SpermCourtroom.tsx:237-254 | a session starts on the intro screen with no verdict screen, score 0, and the initial locked list |
| SessionState.Inv | src/components/SpermCourtroom.tsx:237-254 | definition of the session invariant (progress, achievement conditions, balanced score); InitInv, StepInv and the class methods show it is kept |
| SessionState.Start | src/components/SpermCourtroom.tsx:385 | definition of the start button: the intro is hidden; StartInv states what it keeps |
| SessionState.Unlock | src/components/SpermCourtroom.tsx:258-266 | definition of unlockAchievement on the state; UnlockLocked, UnlockUnlocked, UnlockIdempotent and UnlockFrame state its meaning |
| SessionState.UnlockWhen | src/components/SpermCourtroom.tsx:279-285 | definition of an unlock under a condition; UnlockIf states its effect |
| SessionState.CountObjection | src/components/SpermCourtroom.tsx:274-277 | definition of the shake, the banner, one more objection and 10 points; ObjectionFrame states its effect |
| SessionState.Objection | src/components/SpermCourtroom.tsx:273-285 | definition of the objection button; FirstObjectionEffects, TenthObjectionEffects, OtherObjectionEffects and ObjectionInv state its meaning |
| SessionState.Judge | src/components/SpermCourtroom.tsx:296-313 | definition of the verdict buttons, with the advance they schedule; JudgeInv and VerdictThenAdvance state its meaning |
| SessionState.Fire | src/components/SpermCourtroom.tsx:313-341 | definition of the delayed advance; FireAdvances, FireInv and LastVerdict state its meaning |
| SessionState.NextCase | src/components/SpermCourtroom.tsx:314-316 | definition of the advance before the last case; FireAdvances states its effect |
| SessionState.Close | src/components/SpermCourtroom.tsx:317-340 | definition of the advance on the last case, with the final tally from the captured values; FireInv states what it keeps |
| SessionState.Finish | src/components/SpermCourtroom.tsx:317-340 | definition of the end-of-session checks, with the corrected perfect-judge check; FinishFlags, FinishScore and FinishFrame state its meaning |
| SessionState.ClearShake | src/components/SpermCourtroom.tsx:287-289 | definition of the timer that ends the shake; ClearInv states what it keeps |
| SessionState.ClearObjection | src/components/SpermCourtroom.tsx:291-293 | definition of the timer that hides the banner; ClearInv states what it keeps |
| SessionState.ClearJudgeReaction | src/components/SpermCourtroom.tsx:309-311 | definition of the timer that hides the reaction; ClearInv states what it keeps |
| SessionState.ClearNotification | src/components/SpermCourtroom.tsx:267-269 | definition of the timer that hides the notification; ClearInv states what it keeps |
| SessionState.Reset | src/components/SpermCourtroom.tsx:499-505 | definition of what both reset buttons set; ResetClears states its meaning |
| SessionState.RetryTrial | src/components/SpermCourtroom.tsx:497-506 | definition of "Retry Trial"; ResetClears and ResetInv state its meaning |
| SessionState.LearnMore | src/components/SpermCourtroom.tsx:512-521 | definition of "Learn More"; ResetClears and ResetInv state its meaning |
| SessionProperties.InitInv | src/components/SpermCourtroom.tsx:237-254 | the initial state satisfies the session invariant |
| SessionProperties.StartInv | src/components/SpermCourtroom.tsx:385 | the start button keeps the invariant and leads to the trial screen |
| SessionProperties.UnlockLocked | src/components/SpermCourtroom.tsx:258-266 | unlocking a locked entry sets that entry's flag and no other, shows that entry, and adds exactly 100 points; nothing else changes |
| SessionProperties.UnlockUnlocked | src/components/SpermCourtroom.tsx:259-260 | unlocking an entry that is already unlocked changes nothing: no points and no notification |
| SessionProperties.UnlockIdempotent | src/components/SpermCourtroom.tsx:258-271 | unlocking the same id twice is the same as unlocking it once |
| SessionProperties.UnlockIf | src/components/SpermCourtroom.tsx:258-266 | a conditional unlock of a locked entry sets its flag to the condition, with the 100 points and the notification exactly when the condition holds |
| SessionProperties.UnlockFrame | src/components/SpermCourtroom.tsx:258-266 | unlocking touches only the list, the notification and the score |
| SessionProperties.ObjectionFrame | src/components/SpermCourtroom.tsx:273-285 | an objection sets shake and banner, adds one to the count, and touches otherwise only the list, the notification and the score |
| SessionProperties.FirstObjectionEffects | src/components/SpermCourtroom.tsx:273-281 | the first objection: count 1, score +110, "first_objection" unlocked and shown, nothing else changed |
| SessionProperties.TenthObjectionEffects | src/components/SpermCourtroom.tsx:283-285 | the 10th objection: count 10, score +110, "objection_master" unlocked and shown, nothing else changed |
| SessionProperties.OtherObjectionEffects | src/components/SpermCourtroom.tsx:273-285 | every other objection: one more on the count and +10, with no achievement and no notification |
| SessionProperties.ObjectionInv | src/components/SpermCourtroom.tsx:273-285 | the objection button keeps the invariant wherever it is pressed |
| SessionProperties.FirstObjectionInv | src/components/SpermCourtroom.tsx:279-281 | the first objection keeps the invariant |
| SessionProperties.TenthObjectionInv | src/components/SpermCourtroom.tsx:283-285 | the 10th objection keeps the invariant |
| SessionProperties.JudgeInv | src/components/SpermCourtroom.tsx:296-313 | a verdict on the trial screen keeps the invariant: the tally, the record and the bonus count grow together |
| SessionProperties.FireAdvances | src/components/SpermCourtroom.tsx:313-316 | the delayed advance before the last case moves to the next case with the health note hidden, and changes nothing else |
| SessionProperties.FinishFlags | src/components/SpermCourtroom.tsx:317-335 | the end-of-session checks set merciful iff the final tally is 0, harsh iff it is 5, and, with the corrected check, perfect iff the record agrees with the health data, leaving the objection entries alone |
| SessionProperties.FinishScore | src/components/SpermCourtroom.tsx:317-335 | each achievement the end-of-session checks unlock brings exactly 100 points, and nothing else changes the score |
| SessionProperties.FinishFrame | src/components/SpermCourtroom.tsx:317-340 | apart from the list, the score and the notification, the end-of-session checks only show the verdict screen |
| SessionProperties.FireInv | src/components/SpermCourtroom.tsx:313-341 | the delayed advance keeps the invariant on every case, including the last |
| SessionProperties.DisplayOnlyInv | src/components/SpermCourtroom.tsx:287-293 | the transient displays (shake, banner, reaction, notification) play no part in the invariant |
| SessionProperties.ClearInv | src/components/SpermCourtroom.tsx:287-293 | the four timers that hide displays keep the invariant |
| SessionProperties.ResetClears | src/components/SpermCourtroom.tsx:497-521 | both reset buttons zero case, tally, objections and score, hide the verdict screen and the note, lock every achievement and clear the record; "Learn More" also returns to the intro |
| SessionProperties.ResetInv | src/components/SpermCourtroom.tsx:497-521 | both reset buttons keep the invariant; "Retry Trial" leads to the trial screen and "Learn More" to the intro |
| Courtroom.Session.constructor | src/components/SpermCourtroom.tsx:237-254 | a fresh component has the initial state, which satisfies the invariant |
| Courtroom.Session.StartTrial | src/components/SpermCourtroom.tsx:385 | the start button hides the intro, giving exactly Start of the old state on the trial screen with the invariant kept |
| Courtroom.Session.UnlockAchievement | src/components/SpermCourtroom.tsx:258-266 | the fields become exactly Unlock of the old state |
| Courtroom.Session.HandleObjection | src/components/SpermCourtroom.tsx:273-285 | the fields become exactly Objection of the old state, and the invariant is kept |
| Courtroom.Session.HandleNextDefendant | src/components/SpermCourtroom.tsx:296-313 | the fields become exactly Judge of the old state, and the invariant is kept |
| Courtroom.Session.RecordVerdict | src/components/SpermCourtroom.tsx:298-313 | scoring, tallying and recording a verdict and scheduling its advance give exactly Judge of the old state |
| Courtroom.Session.FireAdvance | src/components/SpermCourtroom.tsx:313-341 | the delayed advance gives exactly Fire of the old state and keeps the invariant |
| Courtroom.Session.NextDefendant | src/components/SpermCourtroom.tsx:313-316 | before the last case, the advance gives exactly NextCase of the old state |
| Courtroom.Session.CloseSession | src/components/SpermCourtroom.tsx:317-340 | on the last case, the advance gives exactly Close of the old state |
| Courtroom.Session.CheckAchievements | src/components/SpermCourtroom.tsx:317-340 | with the corrected perfect-judge check, the three end-of-session unlocks and the verdict screen give exactly Finish of the old state for the final tally |
| Courtroom.Session.EndShake | src/components/SpermCourtroom.tsx:287-289 | the shake ends, with exactly ClearShake of the old state and the invariant kept |
| Courtroom.Session.HideObjection | src/components/SpermCourtroom.tsx:291-293 | the banner hides, with exactly ClearObjection of the old state and the invariant kept |
| Courtroom.Session.HideJudgeReaction | src/components/SpermCourtroom.tsx:309-311 | the reaction hides, with exactly ClearJudgeReaction of the old state and the invariant kept |
| Courtroom.Session.HideNotification | src/components/SpermCourtroom.tsx:267-269 | the notification hides, with exactly ClearNotification of the old state and the invariant kept |
| Courtroom.Session.PressRetryTrial | src/components/SpermCourtroom.tsx:497-506 | "Retry Trial" gives exactly RetryTrial of the old state on the trial screen, with the invariant kept |
| Courtroom.Session.PressLearnMore | src/components/SpermCourtroom.tsx:512-521 | "Learn More" gives exactly LearnMore of the old state on the intro screen, with the invariant kept |
| Courtroom.Session.ResetSession | src/components/SpermCourtroom.tsx:499-505 | the assignments shared by both reset buttons give exactly Reset of the old state |
| Sessions.StepInv | src/components/SpermCourtroom.tsx:273-521 | every event keeps the invariant (an event whose button is not on screen does nothing) |
| Sessions.Enabled | src/components/SpermCourtroom.tsx:384-710 | definition of which events each screen allows: start on the intro, objection and verdict on the trial screen (verdicts only with no advance pending), resets on the verdict screen |
| Sessions.Step | src/components/SpermCourtroom.tsx:273-521 | definition of one event on the state, where an event whose button is not on screen does nothing; StepInv and MonotoneStep state its meaning |
| Sessions.Run | src/components/SpermCourtroom.tsx:273-521 | definition of a run of events in order; RunInv, RunAppend and MonotoneRun state its meaning |
| Sessions.KeepsUnlocked | src/components/SpermCourtroom.tsx:261-263 | definition: every entry unlocked before is unlocked after |
| Sessions.KeepsUnlockedTrans | src/components/SpermCourtroom.tsx:261-263 | keeping unlocked entries is transitive |
| Sessions.WithFlagKeeps | src/components/SpermCourtroom.tsx:262 | setting a flag locks no unlocked entry unless that entry is set to false |
| Sessions.NumUnlockedMonotone | src/components/SpermCourtroom.tsx:261-263 | keeping every unlocked entry never lowers the unlocked count |
| Sessions.ObjectionMonotone | src/components/SpermCourtroom.tsx:273-285 | an objection locks no achievement and adds at least 10 points |
| Sessions.FinishMonotone | src/components/SpermCourtroom.tsx:317-340 | the end-of-session checks lock no achievement and never lower the score |
| Sessions.MonotoneStep | src/components/SpermCourtroom.tsx:258-341 | unlocking is monotone and the score only grows: every event except the two reset buttons keeps every unlocked achievement unlocked and never lowers the score |
| Sessions.NoReset | src/components/SpermCourtroom.tsx:497-521 | definition: no event of the list is a reset button |
| Sessions.MonotoneRun | src/components/SpermCourtroom.tsx:258-341 | between resets, every unlocked achievement stays unlocked and the score never goes down |
| Sessions.RunInv | src/components/SpermCourtroom.tsx:273-521 | every run of events keeps the invariant |
| Sessions.RunAppend | src/components/SpermCourtroom.tsx:273-521 | running two lists of events is running one after the other |
| Sessions.Reachable | src/components/SpermCourtroom.tsx:237-254 | every state reachable from a fresh component satisfies the invariant |
| Sessions.NumUnlockedShipped | src/components/SpermCourtroom.tsx:247-253 | the unlocked count of the five-entry list is the sum of its five flags |
| Sessions.VerdictScreen | src/components/SpermCourtroom.tsx:317-340 | on the verdict screen, with the corrected perfect-judge check: 5 verdicts; harsh iff all guilty; merciful iff none guilty; perfect iff the verdicts are the ones the health data asks for; never harsh and merciful together; score = 10·objections + 50·agreeing verdicts + 100·achievements |
| Sessions.ObjectionsKeep | src/components/SpermCourtroom.tsx:273-285 | k objections keep the invariant, add k to the count, and keep the record, case, screens and pending advance |
| Sessions.Objections | src/components/SpermCourtroom.tsx:273-285 | definition of k objection presses in a row; ObjectionsKeep and OpeningObjections state its meaning |
| Sessions.OpeningObjections | src/components/SpermCourtroom.tsx:279-285 | after k objections at the start of a trial, "first_objection" is unlocked iff k >= 1, "objection_master" iff k >= 10 (first on the 10th), and the score is 10k plus 100 for each |
| Sessions.OpeningExchange | src/components/SpermCourtroom.tsx:273-316 | start, one objection, guilty on case 1 and its advance give score 160, tally 1, case 2 up and "first_objection" unlocked |
| Sessions.Plays | src/components/SpermCourtroom.tsx:296-341 | a list of verdicts becomes one verdict press and one advance per verdict |
| Sessions.Playing | src/components/SpermCourtroom.tsx:296-341 | definition of what the verdict path reads: the shipped list with the verdict achievements locked, the trial screen, no advance pending and a case on the docket |
| Sessions.VerdictThenAdvance | src/components/SpermCourtroom.tsx:296-316 | a verdict and its advance before the last case record the verdict and bring up the next case |
| Sessions.LastVerdict | src/components/SpermCourtroom.tsx:296-341 | a verdict and its advance on the last case record the verdict and show the verdict screen |
| Sessions.PlaysFinish | src/components/SpermCourtroom.tsx:296-341 | judging the remaining cases ends on the verdict screen with exactly those verdicts appended to the record |
| Sessions.WholeSession | src/components/SpermCourtroom.tsx:296-341 | with the corrected perfect-judge check, for any five verdicts, the whole session ends on the verdict screen with that record; perfect iff it is the health data's pattern; harsh iff all guilty; merciful iff none; score = 50·agreeing verdicts + 100·achievements |
| Sessions.PerfectSession | src/components/SpermCourtroom.tsx:317-337 | with the corrected perfect-judge check, following the health data without objecting ends with 350 points, with "perfect_judge" the only achievement unlocked (the game as written gives 250 and unlocks nothing) |

## Left out

- `src/components/SpermBackground.tsx` (the animated background) and the
  sperm character's animation in `SpermCourtroom.tsx`: these are rendering
  and per-frame floating-point motion with no session state.
- The JSX layout, the intro screen's content and the verdict screen's
  layout. Only which buttons each screen shows is modelled
  (`Sessions.Enabled`).
- getShareText and its `toFixed` formatting: display text only.
- Display strings of the cases: charge, alibi, velocity, health note and
  judge reaction. The achievement names, descriptions and icons, and the
  grade captions, colours and messages, are left out too. Only the data
  the logic reads is kept.
- The health-info toggle button: it flips a display flag that no other
  logic reads. The model carries `showHealthInfo` only as far as the
  advance and the resets set it.
- Timer durations and real time: every timer body is an event, so all
  orders of events are covered, but not how long apart they are.
- Courtroom.Session.HandleNextDefendant: requires that no advance is
  pending. The game leaves the verdict buttons active during the 2.5-second
  reaction, so a second press could schedule a second advance. That
  overlapping-timer race is not modelled.
- Achievement ids are an enumeration, not free strings. `unlockAchievement`
  is only ever called with the five literal ids, and
  `Achievements.UnknownIdFindsNothing` states what an unknown id would do.
- Morphology is a two-value enumeration holding the two texts the docket
  uses. `Defendants.MorphologyTextNormal` ties the enum test to the text
  comparison the code performs.
- The lookup `achievements.find` reads the list as it was when the handler
  ran, while the model's `Unlock` reads the current list. The two agree:
  the ids unlocked within one event are distinct, and an objection pressed
  during the advance delay unlocks only objection ids, which the delayed
  checks never look up.
- Readouts.HealthVerdict: computes the percentage comparisons in exact
  integers. The code uses floating point, and for the tallies 0..5 that a
  session can reach, the floating-point percentages fall on the same side
  of 80, 60 and 40 as the exact ones.
- Courtroom.Session.CheckAchievements: runs the perfect-judge loop before
  the unlocks, whereas the code runs it after the merciful and harsh
  checks. The loop reads only the verdict record, which the unlocks do not
  touch, so the result is the same.
- Courtroom.Session.CheckAchievements: uses the corrected perfect-judge
  check over the verdict record (see Findings), not the guilty-tally
  reconstruction the code performs. SessionState.Finish, and everything
  proved about the end of a session, uses the same corrected check:
  SessionProperties.FinishFlags, Sessions.VerdictScreen,
  Sessions.WholeSession and Sessions.PerfectSession. In the game as
  written, perfect_judge is never unlocked, so correct play scores 250.

## Findings

| source | as written | input that shows it | evidently intended | confidence | as-written member | corrected member |
|---|---|---|---|---|---|---|
| src/components/SpermCourtroom.tsx:326-334 | The perfect-judge loop has no record of past verdicts. It takes a past case idx to have been judged guilty iff idx < guiltyCount. On the shipped docket, case 1 needs a tally above 0, case 2 a tally of at most 1, and case 4 a tally above 3, so the check never passes and "perfect_judge" can never be earned. | Judge every case according to the health data (guilty, innocent, innocent, guilty, innocent). The check runs on the last case with tally 2 and an innocent last verdict. It takes case 2 (position 1 < 2) to have been judged guilty, but the health data says innocent, so the check fails. | "perfect_judge" is unlocked iff every recorded verdict equals the guilt rule for its case, as its description "All verdicts match health data" says. | not executed | PerfectJudgeAsWritten.NeverHolds | Verdicts.PerfectIffCorrectPlay |
