/** The courtroom game's session as the component holds it: one object
    whose fields are the component's state, one method per button handler
    and one per timer body. Each method is proved to take the state to
    exactly what the matching SessionState event says; the handlers and
    timer bodies are also proved to keep the session invariant. */
module Courtroom {
  import opened Options
  import opened Defendants
  import opened Verdicts
  import opened Achievements
  import opened SessionState
  import opened SessionProperties

  class Session {
    var showIntro: bool
    var currentDefendant: nat
    var shake: bool
    var showObjection: bool
    var guiltyCount: nat
    var showVerdict: bool
    var showHealthInfo: bool
    var objectionCount: nat
    var score: nat
    var showJudgeReaction: bool
    var achievements: seq<Achievement>
    var unlockedAchievement: Option<Achievement>
    /** The verdicts given so far, read by the perfect-judge check. */
    var verdicts: seq<bool>
    /** The delayed advance scheduled by the last verdict, with the values
        it captured. */
    var advance: Option<Advance>

    /** The fields as one value. */
    ghost function Snap(): State
      reads this
    {
      State(showIntro, currentDefendant, shake, showObjection, guiltyCount, showVerdict,
            showHealthInfo, objectionCount, score, showJudgeReaction, achievements,
            unlockedAchievement, verdicts, advance)
    }

    ghost predicate Valid()
      reads this
    {
      Inv(Snap())
    }

    /** A fresh session: the intro screen, everything zero, every
        achievement locked. */
    constructor ()
      ensures Snap() == Init() && Valid()
    {
      showIntro := true;
      currentDefendant := 0;
      shake := false;
      showObjection := false;
      guiltyCount := 0;
      showVerdict := false;
      showHealthInfo := false;
      objectionCount := 0;
      score := 0;
      showJudgeReaction := false;
      achievements := Initial;
      unlockedAchievement := None;
      verdicts := [];
      advance := None;
      new;
      InitInv();
    }

    /** The intro screen's start button. */
    method StartTrial()
      requires Valid() && showIntro
      modifies this
      ensures Snap() == Start(old(Snap())) && Valid() && OnTrialScreen(Snap())
    {
      StartInv(Snap());
      showIntro := false;
    }

    /** Unlocks the first locked entry with the id, if there is one: marks
        every entry with the id, shows the entry found and adds 100. */
    method UnlockAchievement(id: AchievementId)
      modifies this
      ensures Snap() == Unlock(old(Snap()), id)
    {
      var found := FindLocked(achievements, id);
      if found.Some? {
        var achievement := achievements[found.value];
        achievements := MarkUnlocked(achievements, id);
        unlockedAchievement := Some(achievement);
        score := score + AchievementPoints;
      }
    }

    /** The objection button. */
    method HandleObjection()
      requires Valid()
      modifies this
      ensures Snap() == Objection(old(Snap())) && Valid()
    {
      ghost var s0 := Snap();
      var prior := objectionCount;
      shake, showObjection := true, true;
      objectionCount, score := objectionCount + 1, score + ObjectionPoints;
      ghost var s1 := Snap();
      assert s1 == CountObjection(s0);
      if prior == 0 {
        UnlockAchievement(FirstObjection);
      }
      ghost var s2 := Snap();
      assert s2 == UnlockWhen(s1, prior == 0, FirstObjection);
      if prior + 1 >= ObjectionMasterCount {
        UnlockAchievement(ObjectionMaster);
      }
      assert Snap() == UnlockWhen(s2, prior + 1 >= ObjectionMasterCount, ObjectionMaster);
      ObjectionInv(s0);
    }

    /** The guilty (true) and innocent (false) buttons. */
    method HandleNextDefendant(guilty: bool)
      requires Valid() && OnTrialScreen(Snap()) && advance.None?
      modifies this
      ensures Snap() == Judge(old(Snap()), guilty) && Valid()
    {
      JudgeInv(Snap(), guilty);
      RecordVerdict(guilty);
    }

    /** What the verdict buttons change: the score when the verdict agrees
        with the health data, the tally when it is guilty, the record, the
        reaction, and the scheduled advance with the values it captures. */
    method RecordVerdict(guilty: bool)
      requires currentDefendant < N
      modifies this
      ensures Snap() == Judge(old(Snap()), guilty)
    {
      var defendant := Table[currentDefendant];
      var shouldBeGuilty := defendant.motility < 40 || defendant.morphology != Normal;
      if guilty == shouldBeGuilty {
        score := score + CorrectVerdictPoints;
      }
      var priorGuilty := guiltyCount;
      if guilty {
        guiltyCount := guiltyCount + 1;
      }
      verdicts := verdicts + [guilty];
      showJudgeReaction := true;
      advance := Some(Advance(currentDefendant, priorGuilty, guilty));
    }

    /** The delayed advance a verdict schedules. */
    method FireAdvance()
      requires Valid() && advance.Some?
      modifies this
      ensures Snap() == Fire(old(Snap())) && Valid()
    {
      FireInv(Snap());
      if advance.value.index < |Table| - 1 {
        NextDefendant(this);
      } else {
        CloseSession(this);
      }
    }

    /** The delayed advance before the last case, on the given session:
        on to the next case with the health note hidden. */
    static method NextDefendant(x: Session)
      requires x.advance.Some?
      modifies x
      ensures x.Snap() == NextCase(old(x.Snap()))
    {
      x.advance, x.currentDefendant, x.showHealthInfo := None, x.advance.value.index + 1, false;
    }

    /** The delayed advance on the last case, on the given session: the
        final tally from the captured values, then the end-of-session
        checks. */
    static method CloseSession(x: Session)
      requires x.advance.Some?
      modifies x
      ensures x.Snap() == Close(old(x.Snap()))
    {
      var t := x.advance.value;
      x.advance := None;
      x.CheckAchievements(t.priorGuilty + (if t.guilty then 1 else 0));
    }

    /** The end-of-session checks of the delayed advance, given the final
        guilty tally, and then the verdict screen. The perfect-judge loop
        reads only the record, which the unlocks leave alone, so it is run
        first. */
    method CheckAchievements(total: nat)
      modifies this
      ensures Snap() == Finish(old(Snap()), total)
    {
      ghost var s0 := Snap();
      var perfect := CheckRecord(verdicts);
      if total == 0 {
        UnlockAchievement(MercifulJudge);
      }
      ghost var s1 := Snap();
      assert s1 == UnlockWhen(s0, total == 0, MercifulJudge);
      if total == |Table| {
        UnlockAchievement(HarshJudge);
      }
      ghost var s2 := Snap();
      assert s2 == UnlockWhen(s1, total == |Table|, HarshJudge);
      if perfect {
        UnlockAchievement(PerfectJudge);
      }
      assert Snap() == UnlockWhen(s2, PerfectRecord(s0.verdicts), PerfectJudge);
      showVerdict := true;
    }

    /** The timer that ends the shake. */
    method EndShake()
      requires Valid()
      modifies this
      ensures Snap() == ClearShake(old(Snap())) && Valid()
    {
      ClearInv(Snap());
      shake := false;
    }

    /** The timer that hides the objection banner. */
    method HideObjection()
      requires Valid()
      modifies this
      ensures Snap() == ClearObjection(old(Snap())) && Valid()
    {
      ClearInv(Snap());
      showObjection := false;
    }

    /** The timer that hides the judge's reaction. */
    method HideJudgeReaction()
      requires Valid()
      modifies this
      ensures Snap() == ClearJudgeReaction(old(Snap())) && Valid()
    {
      ClearInv(Snap());
      showJudgeReaction := false;
    }

    /** The timer that hides the unlock notification. */
    method HideNotification()
      requires Valid()
      modifies this
      ensures Snap() == ClearNotification(old(Snap())) && Valid()
    {
      ClearInv(Snap());
      unlockedAchievement := None;
    }

    /** The verdict screen's "Retry Trial" button. */
    method PressRetryTrial()
      requires Valid() && showVerdict
      modifies this
      ensures Snap() == RetryTrial(old(Snap())) && Valid() && OnTrialScreen(Snap())
    {
      ResetInv(Snap());
      ResetSession(this);
    }

    /** The verdict screen's "Learn More" button. */
    method PressLearnMore()
      requires Valid() && showVerdict
      modifies this
      ensures Snap() == LearnMore(old(Snap())) && Valid() && showIntro
    {
      ResetInv(Snap());
      showIntro := true;
      ResetSession(this);
    }

    /** What both verdict-screen buttons reset, on the given session. */
    static method ResetSession(x: Session)
      modifies x
      ensures x.Snap() == Reset(old(x.Snap()))
    {
      x.currentDefendant, x.guiltyCount, x.showVerdict, x.showHealthInfo := 0, 0, false, false;
      x.objectionCount, x.score, x.achievements, x.verdicts := 0, 0, LockAll(x.achievements), [];
    }
  }
}
