/** What the events of a session promise: the invariant they keep, and the
    effect of each on the counters, the score and the achievements. */
module SessionProperties {
  import opened Options
  import opened Defendants
  import opened Verdicts
  import opened Achievements
  import opened SessionState

  // ---------------------------------------------------------------------
  // Unlocking
  // ---------------------------------------------------------------------

  /** Unlocking the id of a locked entry of a list with the shipped ids:
      that entry's flag is set and no other, it is shown in the
      notification, and it brings exactly 100 points. */
  lemma UnlockLocked(s: State, k: nat, id: AchievementId)
    requires Shipped(s.achievements) && k < |s.achievements| && s.achievements[k].id == id
    requires !s.achievements[k].unlocked
    ensures Unlock(s, id) ==
      s.(achievements := WithFlag(s.achievements, k, true),
         unlockedAchievement := Some(s.achievements[k]),
         score := s.score + AchievementPoints)
  {
    UnlockAt(s.achievements, k, id);
  }

  /** Unlocking the id of an entry that is already unlocked changes
      nothing at all: no points, no notification. */
  lemma UnlockUnlocked(s: State, k: nat, id: AchievementId)
    requires Shipped(s.achievements) && k < |s.achievements| && s.achievements[k].id == id
    requires s.achievements[k].unlocked
    ensures Unlock(s, id) == s
  {
    UnlockAt(s.achievements, k, id);
  }

  /** Unlocking twice is unlocking once. */
  lemma UnlockIdempotent(s: State, id: AchievementId)
    ensures Unlock(Unlock(s, id), id) == Unlock(s, id)
  {
    var r := Unlock(s, id);
    assert FindLocked(r.achievements, id).None? by {
      if FindLocked(s.achievements, id).Some? {
        var m := MarkUnlocked(s.achievements, id);
        assert forall j :: 0 <= j < |m| ==> m[j].id != id || m[j].unlocked;
      }
    }
  }


  /** Unlocking by a condition, on a locked entry: the flag becomes the
      condition, and the points and the notification follow it. */
  lemma UnlockIf(s: State, c: bool, k: nat, id: AchievementId)
    requires Shipped(s.achievements) && k < |s.achievements| && s.achievements[k].id == id
    requires !s.achievements[k].unlocked
    ensures UnlockWhen(s, c, id) ==
      s.(achievements := WithFlag(s.achievements, k, c),
         unlockedAchievement := if c then Some(s.achievements[k]) else s.unlockedAchievement,
         score := s.score + (if c then AchievementPoints else 0))
    ensures NumUnlocked(WithFlag(s.achievements, k, c)) == NumUnlocked(s.achievements) + (if c then 1 else 0)
  {
    NumUnlockedWithFlag(s.achievements, k, c);
    if c {
      UnlockLocked(s, k, id);
    } else {
      WithSameFlag(s.achievements, k);
    }
  }

  // ---------------------------------------------------------------------
  // The objection button
  // ---------------------------------------------------------------------

  /** The two objection achievements agree with the objection count. */
  predicate ObjectionFlagsAgree(s: State)
    requires Shipped(s.achievements)
  {
    (s.achievements[FirstObjectionAt].unlocked <==> s.objectionCount >= 1)
    && (s.achievements[ObjectionMasterAt].unlocked <==> s.objectionCount >= ObjectionMasterCount)
  }

  /** The first objection: shake, banner, a count of 1, and 10 points plus
      100 for "first_objection", which is unlocked and shown. Nothing else
      changes. */
  lemma FirstObjectionEffects(s: State)
    requires Shipped(s.achievements) && ObjectionFlagsAgree(s) && s.objectionCount == 0
    ensures Objection(s) == s.(
      shake := true, showObjection := true, objectionCount := 1,
      score := s.score + ObjectionPoints + AchievementPoints,
      achievements := WithFlag(s.achievements, FirstObjectionAt, true),
      unlockedAchievement := Some(s.achievements[FirstObjectionAt]))
  {
    UnlockLocked(s.(shake := true, showObjection := true, objectionCount := 1,
                    score := s.score + ObjectionPoints), FirstObjectionAt, FirstObjection);
  }

  /** The 10th objection: shake, banner, a count of 10, and 10 points plus
      100 for "objection_master", which is unlocked and shown. Nothing else
      changes. */
  lemma TenthObjectionEffects(s: State)
    requires Shipped(s.achievements) && ObjectionFlagsAgree(s)
    requires s.objectionCount + 1 == ObjectionMasterCount
    ensures Objection(s) == s.(
      shake := true, showObjection := true, objectionCount := ObjectionMasterCount,
      score := s.score + ObjectionPoints + AchievementPoints,
      achievements := WithFlag(s.achievements, ObjectionMasterAt, true),
      unlockedAchievement := Some(s.achievements[ObjectionMasterAt]))
  {
    UnlockLocked(s.(shake := true, showObjection := true, objectionCount := ObjectionMasterCount,
                    score := s.score + ObjectionPoints), ObjectionMasterAt, ObjectionMaster);
  }

  /** Every other objection: shake, banner, one more on the count and 10
      points; no achievement, no notification. */
  lemma OtherObjectionEffects(s: State)
    requires Shipped(s.achievements) && ObjectionFlagsAgree(s)
    requires s.objectionCount != 0 && s.objectionCount + 1 != ObjectionMasterCount
    ensures Objection(s) == s.(
      shake := true, showObjection := true, objectionCount := s.objectionCount + 1,
      score := s.score + ObjectionPoints)
  {
    if s.objectionCount >= ObjectionMasterCount {
      UnlockUnlocked(s.(shake := true, showObjection := true, objectionCount := s.objectionCount + 1,
                        score := s.score + ObjectionPoints), ObjectionMasterAt, ObjectionMaster);
    }
  }

  /** Unlocking touches the list, the notification and the score only. */
  lemma UnlockFrame(s: State, id: AchievementId)
    ensures var r := Unlock(s, id);
      r == s.(achievements := r.achievements, unlockedAchievement := r.unlockedAchievement, score := r.score)
  {
  }

  /** Besides one more on the count, the objection button touches only the
      displays, the list and the score. */
  lemma ObjectionFrame(s: State)
    ensures var r := Objection(s);
      r == s.(shake := true, showObjection := true, objectionCount := s.objectionCount + 1,
              achievements := r.achievements, unlockedAchievement := r.unlockedAchievement, score := r.score)
  {
    var s1 := CountObjection(s);
    UnlockFrame(s1, FirstObjection);
    UnlockFrame(UnlockWhen(s1, s.objectionCount == 0, FirstObjection), ObjectionMaster);
  }

  /** The objection button keeps the invariant wherever it is pressed. */
  lemma ObjectionInv(s: State)
    requires Inv(s)
    ensures Inv(Objection(s))
  {
    if s.objectionCount == 0 {
      FirstObjectionInv(s);
    } else if s.objectionCount + 1 == ObjectionMasterCount {
      TenthObjectionInv(s);
    } else {
      OtherObjectionEffects(s);
    }
  }

  lemma FirstObjectionInv(s: State)
    requires Inv(s) && s.objectionCount == 0
    ensures Inv(Objection(s))
  {
    FirstObjectionEffects(s);
    NumUnlockedWithFlag(s.achievements, FirstObjectionAt, true);
  }

  lemma TenthObjectionInv(s: State)
    requires Inv(s) && s.objectionCount + 1 == ObjectionMasterCount
    ensures Inv(Objection(s))
  {
    TenthObjectionEffects(s);
    NumUnlockedWithFlag(s.achievements, ObjectionMasterAt, true);
  }

  // ---------------------------------------------------------------------
  // The verdict buttons and the delayed advance
  // ---------------------------------------------------------------------

  /** A verdict keeps the invariant: the tally, the record and the
      correct-verdict count grow together. */
  lemma JudgeInv(s: State, guilty: bool)
    requires Inv(s) && OnTrialScreen(s) && s.advance.None?
    ensures Inv(Judge(s, guilty))
  {
    CorrectCountAppend(s.verdicts, guilty);
    CountTrueAppend(s.verdicts, guilty);
  }

  /** The delayed advance before the last case: on to the next case with
      the health note hidden; nothing else changes. */
  lemma FireAdvances(s: State)
    requires s.advance.Some? && s.advance.value.index < N - 1
    ensures Fire(s) == s.(currentDefendant := s.advance.value.index + 1, showHealthInfo := false, advance := None)
  {
  }

  /** The three verdict achievements are still locked. */
  predicate VerdictFlagsLocked(s: State)
    requires Shipped(s.achievements)
  {
    !s.achievements[MercifulJudgeAt].unlocked && !s.achievements[HarshJudgeAt].unlocked
    && !s.achievements[PerfectJudgeAt].unlocked
  }

  /** The end-of-session checks set "merciful_judge" exactly when the final
      tally is 0, "harsh_judge" exactly when it is N and "perfect_judge"
      exactly when the record agrees with the health data, and leave the
      other two entries alone. */
  lemma FinishFlags(s: State, total: nat)
    requires Shipped(s.achievements) && VerdictFlagsLocked(s)
    ensures Finish(s, total).achievements ==
      WithFlag(WithFlag(WithFlag(s.achievements, MercifulJudgeAt, total == 0), HarshJudgeAt, total == N),
               PerfectJudgeAt, PerfectRecord(s.verdicts))
  {
    var s1 := UnlockWhen(s, total == 0, MercifulJudge);
    var s2 := UnlockWhen(s1, total == N, HarshJudge);
    UnlockIf(s, total == 0, MercifulJudgeAt, MercifulJudge);
    UnlockIf(s1, total == N, HarshJudgeAt, HarshJudge);
    UnlockIf(s2, PerfectRecord(s.verdicts), PerfectJudgeAt, PerfectJudge);
  }

  /** Each achievement the end-of-session checks unlock brings exactly 100
      points, and nothing else does. */
  lemma FinishScore(s: State, total: nat)
    requires Shipped(s.achievements) && VerdictFlagsLocked(s)
    ensures Finish(s, total).score + AchievementPoints * NumUnlocked(s.achievements)
         == s.score + AchievementPoints * NumUnlocked(Finish(s, total).achievements)
  {
    var s1 := UnlockWhen(s, total == 0, MercifulJudge);
    var s2 := UnlockWhen(s1, total == N, HarshJudge);
    UnlockIf(s, total == 0, MercifulJudgeAt, MercifulJudge);
    UnlockIf(s1, total == N, HarshJudgeAt, HarshJudge);
    UnlockIf(s2, PerfectRecord(s.verdicts), PerfectJudgeAt, PerfectJudge);
  }

  /** Besides the achievements, the score and the notification, the
      end-of-session checks only show the verdict screen. */
  lemma FinishFrame(s: State, total: nat)
    requires Shipped(s.achievements) && VerdictFlagsLocked(s)
    ensures var r := Finish(s, total);
      r == s.(showVerdict := true, achievements := r.achievements, score := r.score,
              unlockedAchievement := r.unlockedAchievement)
  {
    var s1 := UnlockWhen(s, total == 0, MercifulJudge);
    var s2 := UnlockWhen(s1, total == N, HarshJudge);
    UnlockIf(s, total == 0, MercifulJudgeAt, MercifulJudge);
    UnlockIf(s1, total == N, HarshJudgeAt, HarshJudge);
    UnlockIf(s2, PerfectRecord(s.verdicts), PerfectJudgeAt, PerfectJudge);
  }

  lemma FireInv(s: State)
    requires Inv(s) && s.advance.Some?
    ensures Inv(Fire(s))
  {
    if s.advance.value.index < N - 1 {
      FireAdvances(s);
    } else {
      var s1 := s.(advance := None);
      var total := s.guiltyCount;
      FinishFlags(s1, total);
      FinishScore(s1, total);
      FinishFrame(s1, total);
    }
  }

  // ---------------------------------------------------------------------
  // The rest
  // ---------------------------------------------------------------------

  lemma InitInv()
    ensures Inv(Init())
  {
    InitialShape();
  }

  lemma StartInv(s: State)
    requires Inv(s) && s.showIntro
    ensures Inv(Start(s)) && OnTrialScreen(Start(s))
  {
  }

  /** The transient displays play no part in the invariant. */
  lemma DisplayOnlyInv(s: State, r: State)
    requires Inv(s)
    requires r == s.(shake := r.shake, showObjection := r.showObjection,
                     showJudgeReaction := r.showJudgeReaction, unlockedAchievement := r.unlockedAchievement)
    ensures Inv(r)
  {
  }

  lemma ClearInv(s: State)
    requires Inv(s)
    ensures Inv(ClearShake(s)) && Inv(ClearObjection(s))
    ensures Inv(ClearJudgeReaction(s)) && Inv(ClearNotification(s))
  {
    DisplayOnlyInv(s, ClearShake(s));
    DisplayOnlyInv(s, ClearObjection(s));
    DisplayOnlyInv(s, ClearJudgeReaction(s));
    DisplayOnlyInv(s, ClearNotification(s));
  }

  /** Both verdict-screen buttons zero the case index, the tally, the
      objection count and the score, hide the verdict screen and the health
      note, lock every achievement and clear the record; "Learn More" also
      returns to the intro screen, and "Retry Trial" does not. */
  lemma ResetClears(s: State)
    ensures var r := RetryTrial(s);
      r.currentDefendant == 0 && r.guiltyCount == 0 && r.objectionCount == 0 && r.score == 0
      && !r.showVerdict && !r.showHealthInfo && r.verdicts == [] && r.showIntro == s.showIntro
      && (Shipped(s.achievements) ==> Shipped(r.achievements))
      && (forall i :: 0 <= i < |r.achievements| ==> !r.achievements[i].unlocked)
      && NumUnlocked(r.achievements) == 0
    ensures LearnMore(s) == RetryTrial(s).(showIntro := true)
  {
    LockAllShape(s.achievements);
  }

  lemma ResetInv(s: State)
    requires Inv(s) && s.showVerdict
    ensures Inv(RetryTrial(s)) && OnTrialScreen(RetryTrial(s))
    ensures Inv(LearnMore(s)) && LearnMore(s).showIntro
  {
    ResetClears(s);
  }
}
