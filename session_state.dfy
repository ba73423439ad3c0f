/** The session of the courtroom game as a value, and one function per
    event giving the state after it. The class Courtroom.Session performs
    these events in place; its methods are proved to take its state to
    exactly what these functions say.

    Every button handler reads the state as it was when it was pressed, and
    every timer body is an event of its own. The delayed advance that a
    verdict schedules carries the values it captured (an Advance). Events
    are taken one at a time. */
module SessionState {
  import opened Options
  import opened Defendants
  import opened Verdicts
  import opened Achievements

  /** The values the delayed advance captured when a verdict scheduled it:
      the case being judged, the guilty tally before the verdict, and the
      verdict. */
  datatype Advance = Advance(index: nat, priorGuilty: nat, guilty: bool)

  /** Everything the session holds. `unlockedAchievement` is the entry shown
      in the unlock notification; `verdicts` is the record of verdicts given,
      read by the end-of-session perfect-judge check; `advance` is the
      delayed advance waiting to fire. */
  datatype State = State(
    showIntro: bool,
    currentDefendant: nat,
    shake: bool,
    showObjection: bool,
    guiltyCount: nat,
    showVerdict: bool,
    showHealthInfo: bool,
    objectionCount: nat,
    score: nat,
    showJudgeReaction: bool,
    achievements: seq<Achievement>,
    unlockedAchievement: Option<Achievement>,
    verdicts: seq<bool>,
    advance: Option<Advance>)

  /** Points for an objection, a verdict that agrees with the health data,
      and an unlocked achievement. */
  const ObjectionPoints: nat := 10
  const CorrectVerdictPoints: nat := 50
  const AchievementPoints: nat := 100

  /** The objection count at which "objection_master" unlocks. */
  const ObjectionMasterCount: nat := 10

  /** The state a session starts in: the intro screen, everything zero or
      hidden, every achievement locked. */
  function Init(): (s: State)
    ensures s.showIntro && !s.showVerdict && s.score == 0 && s.achievements == Initial
  {
    State(true, 0, false, false, 0, false, false, 0, 0, false, Initial, None, [], None)
  }

  /** The trial screen, the only one showing the objection and verdict
      buttons. */
  predicate OnTrialScreen(s: State) {
    !s.showIntro && !s.showVerdict
  }

  // ---------------------------------------------------------------------
  // The invariant
  // ---------------------------------------------------------------------

  /** Where the session is: the case index stays on the docket, one verdict
      is recorded per case passed plus the one awaiting its advance or
      closing the session, and the tally counts the guilty ones. */
  predicate Progress(s: State) {
    s.currentDefendant < N
    && |s.verdicts| == s.currentDefendant + (if s.advance.Some? || s.showVerdict then 1 else 0)
    && s.guiltyCount == CountTrue(s.verdicts)
    && (s.advance.Some? ==>
          !s.showVerdict
          && s.advance.value.index == s.currentDefendant
          && s.advance.value.guilty == s.verdicts[s.currentDefendant]
          && s.advance.value.priorGuilty + (if s.advance.value.guilty then 1 else 0) == s.guiltyCount)
    && (s.showVerdict ==> s.currentDefendant == N - 1)
    && (s.showIntro ==> s.currentDefendant == 0 && s.verdicts == [] && s.advance.None? && !s.showVerdict)
  }

  /** Which achievements are unlocked follows from the counters: the two
      objection achievements from the objection count, the three verdict
      achievements from the finished record. */
  predicate AchievementsAgree(s: State)
    requires Shipped(s.achievements) && |s.verdicts| <= N
  {
    (s.achievements[FirstObjectionAt].unlocked <==> s.objectionCount >= 1)
    && (s.achievements[ObjectionMasterAt].unlocked <==> s.objectionCount >= ObjectionMasterCount)
    && (s.achievements[HarshJudgeAt].unlocked <==> s.showVerdict && s.guiltyCount == N)
    && (s.achievements[MercifulJudgeAt].unlocked <==> s.showVerdict && s.guiltyCount == 0)
    && (s.achievements[PerfectJudgeAt].unlocked <==> s.showVerdict && PerfectRecord(s.verdicts))
  }

  /** The score is exactly what the session earned: 10 per objection, 50 per
      verdict agreeing with the health data, 100 per unlocked achievement. */
  predicate ScoreBalanced(s: State)
    requires |s.verdicts| <= N
  {
    s.score == ObjectionPoints * s.objectionCount + CorrectVerdictPoints * CorrectCount(s.verdicts)
               + AchievementPoints * NumUnlocked(s.achievements)
  }

  predicate Inv(s: State) {
    Shipped(s.achievements) && Progress(s) && AchievementsAgree(s) && ScoreBalanced(s)
  }

  // ---------------------------------------------------------------------
  // The events
  // ---------------------------------------------------------------------

  /** The intro screen's start button. */
  function Start(s: State): State {
    s.(showIntro := false)
  }

  /** Unlocks the first locked achievement with the given id, if there is
      one: every entry with that id is marked unlocked, the entry found is
      shown in the notification, and 100 points are added. */
  function Unlock(s: State, id: AchievementId): State {
    match FindLocked(s.achievements, id)
    case None => s
    case Some(k) =>
      s.(achievements := MarkUnlocked(s.achievements, id),
         unlockedAchievement := Some(s.achievements[k]),
         score := s.score + AchievementPoints)
  }

  /** Unlocks the id when the condition holds. */
  function UnlockWhen(s: State, c: bool, id: AchievementId): State {
    if c then Unlock(s, id) else s
  }

  /** What the objection button does before its unlock checks: shake,
      banner, and one more objection for 10 points. */
  function CountObjection(s: State): State {
    s.(shake := true, showObjection := true,
       objectionCount := s.objectionCount + 1,
       score := s.score + ObjectionPoints)
  }

  /** The objection button: the count and the points, then "first_objection"
      if none had been raised before, then "objection_master" once the new
      count is at least 10. */
  function Objection(s: State): State {
    UnlockWhen(UnlockWhen(CountObjection(s), s.objectionCount == 0, FirstObjection),
               s.objectionCount + 1 >= ObjectionMasterCount, ObjectionMaster)
  }

  /** The guilty (true) or innocent (false) button on the current case: 50
      points when the verdict agrees with the health data, one more on the
      tally when it is guilty, the judge's reaction shown, and the advance
      scheduled with the values it will need. */
  function Judge(s: State, guilty: bool): State
    requires s.currentDefendant < N
  {
    s.(score := if guilty == ShouldBeGuilty(Table[s.currentDefendant]) then s.score + CorrectVerdictPoints else s.score,
       guiltyCount := if guilty then s.guiltyCount + 1 else s.guiltyCount,
       verdicts := s.verdicts + [guilty],
       showJudgeReaction := true,
       advance := Some(Advance(s.currentDefendant, s.guiltyCount, guilty)))
  }

  /** The end-of-session checks, given the final guilty tally: "merciful_judge"
      when it is 0, "harsh_judge" when it is N, "perfect_judge" when the
      record agrees with the health data; then the verdict screen. */
  function Finish(s: State, total: nat): State {
    UnlockWhen(UnlockWhen(UnlockWhen(s, total == 0, MercifulJudge), total == |Table|, HarshJudge),
               PerfectRecord(s.verdicts), PerfectJudge).(showVerdict := true)
  }

  /** The delayed advance: before the last case, on to the next case with
      the health note hidden; on the last case, the end-of-session checks. */
  function Fire(s: State): State
    requires s.advance.Some?
  {
    if s.advance.value.index < |Table| - 1 then NextCase(s) else Close(s)
  }

  /** The delayed advance before the last case. */
  function NextCase(s: State): State
    requires s.advance.Some?
  {
    s.(advance := None, currentDefendant := s.advance.value.index + 1, showHealthInfo := false)
  }

  /** The delayed advance on the last case, with the final tally it
      computes from the values it captured. */
  function Close(s: State): State
    requires s.advance.Some?
  {
    Finish(s.(advance := None), s.advance.value.priorGuilty + (if s.advance.value.guilty then 1 else 0))
  }

  /** Timer bodies: each hides one transient display. */
  function ClearShake(s: State): State { s.(shake := false) }
  function ClearObjection(s: State): State { s.(showObjection := false) }
  function ClearJudgeReaction(s: State): State { s.(showJudgeReaction := false) }
  function ClearNotification(s: State): State { s.(unlockedAchievement := None) }

  /** What both verdict-screen buttons do: first case, counters and score
      zero, verdict screen and health note hidden, everything locked, no
      verdicts recorded. */
  function Reset(s: State): State {
    s.(currentDefendant := 0, guiltyCount := 0, showVerdict := false, showHealthInfo := false,
       objectionCount := 0, score := 0, achievements := LockAll(s.achievements), verdicts := [])
  }

  /** "Retry Trial": the reset. */
  function RetryTrial(s: State): State { Reset(s) }

  /** "Learn More": the reset, and back to the intro screen. */
  function LearnMore(s: State): State { Reset(s).(showIntro := true) }
}
