/** Whole sessions: the events a player and the timers can cause, a run of
    them from a state, and what every run promises. */
module Sessions {
  import opened Options
  import opened Defendants
  import opened Verdicts
  import opened Achievements
  import opened SessionState
  import opened SessionProperties

  /** The button presses and timer bodies of a session. */
  datatype Event =
    | StartPressed
    | ObjectionPressed
    | VerdictPressed(guilty: bool)
    | AdvanceFired
    | ShakeEnded
    | ObjectionHidden
    | ReactionHidden
    | NotificationHidden
    | RetryPressed
    | LearnMorePressed

  /** Whether the event can happen in the state: the start button is on the
      intro screen only; the objection and verdict buttons on the trial
      screen only, and the verdict buttons (in this model, which leaves out
      overlapping advances) only while no advance is pending; the
      advance fires only when one is pending; the two reset buttons are on
      the verdict screen only; the timers that hide displays can fire at
      any time. */
  predicate Enabled(s: State, e: Event) {
    match e
    case StartPressed => s.showIntro
    case ObjectionPressed => OnTrialScreen(s)
    case VerdictPressed(_) => OnTrialScreen(s) && s.advance.None? && s.currentDefendant < N
    case AdvanceFired => s.advance.Some?
    case RetryPressed => s.showVerdict
    case LearnMorePressed => s.showVerdict
    case _ => true
  }

  /** The state after the event; an event that cannot happen (a button that
      is not on screen) leaves the state alone. */
  function Step(s: State, e: Event): State {
    if !Enabled(s, e) then s
    else match e
      case StartPressed => Start(s)
      case ObjectionPressed => Objection(s)
      case VerdictPressed(g) => Judge(s, g)
      case AdvanceFired => Fire(s)
      case ShakeEnded => ClearShake(s)
      case ObjectionHidden => ClearObjection(s)
      case ReactionHidden => ClearJudgeReaction(s)
      case NotificationHidden => ClearNotification(s)
      case RetryPressed => RetryTrial(s)
      case LearnMorePressed => LearnMore(s)
  }

  /** The state after the events, in order. */
  function Run(s: State, es: seq<Event>): State
    decreases |es|
  {
    if es == [] then s else Run(Step(s, es[0]), es[1..])
  }

  /** Every event keeps the invariant. */
  lemma StepInv(s: State, e: Event)
    requires Inv(s)
    ensures Inv(Step(s, e))
  {
    if Enabled(s, e) {
      match e
      case StartPressed => StartInv(s);
      case ObjectionPressed => ObjectionInv(s);
      case VerdictPressed(g) => JudgeInv(s, g);
      case AdvanceFired => FireInv(s);
      case ShakeEnded => ClearInv(s);
      case ObjectionHidden => ClearInv(s);
      case ReactionHidden => ClearInv(s);
      case NotificationHidden => ClearInv(s);
      case RetryPressed => ResetInv(s);
      case LearnMorePressed => ResetInv(s);
    }
  }

  /** Every entry unlocked in a is unlocked in b, which has the same
      length. */
  predicate KeepsUnlocked(a: seq<Achievement>, b: seq<Achievement>) {
    |a| == |b| && forall i :: 0 <= i < |a| && a[i].unlocked ==> b[i].unlocked
  }

  lemma KeepsUnlockedTrans(a: seq<Achievement>, b: seq<Achievement>, c: seq<Achievement>)
    requires KeepsUnlocked(a, b) && KeepsUnlocked(b, c)
    ensures KeepsUnlocked(a, c)
  {
  }

  /** Setting a flag never locks an entry that was unlocked, unless it is
      the entry set to false. */
  lemma WithFlagKeeps(a: seq<Achievement>, k: nat, b: bool)
    requires k < |a| && (b || !a[k].unlocked)
    ensures KeepsUnlocked(a, WithFlag(a, k, b))
  {
  }

  /** An objection locks nothing and adds at least 10 points. */
  lemma ObjectionMonotone(s: State)
    requires Inv(s)
    ensures KeepsUnlocked(s.achievements, Objection(s).achievements)
    ensures Objection(s).score >= s.score + ObjectionPoints
  {
    if s.objectionCount == 0 {
      FirstObjectionEffects(s);
      WithFlagKeeps(s.achievements, FirstObjectionAt, true);
    } else if s.objectionCount + 1 == ObjectionMasterCount {
      TenthObjectionEffects(s);
      WithFlagKeeps(s.achievements, ObjectionMasterAt, true);
    } else {
      OtherObjectionEffects(s);
    }
  }

  /** The end-of-session checks lock nothing and lower no score. */
  lemma FinishMonotone(s: State, total: nat)
    requires Shipped(s.achievements) && VerdictFlagsLocked(s)
    ensures KeepsUnlocked(s.achievements, Finish(s, total).achievements)
    ensures Finish(s, total).score >= s.score
  {
    var a := s.achievements;
    var a1 := WithFlag(a, MercifulJudgeAt, total == 0);
    var a2 := WithFlag(a1, HarshJudgeAt, total == N);
    var a3 := WithFlag(a2, PerfectJudgeAt, PerfectRecord(s.verdicts));
    FinishFlags(s, total);
    FinishScore(s, total);
    WithFlagKeeps(a, MercifulJudgeAt, total == 0);
    WithFlagKeeps(a1, HarshJudgeAt, total == N);
    WithFlagKeeps(a2, PerfectJudgeAt, PerfectRecord(s.verdicts));
    KeepsUnlockedTrans(a, a1, a2);
    KeepsUnlockedTrans(a, a2, a3);
    NumUnlockedMonotone(a, a3);
  }

  /** Keeping every unlocked entry never lowers the unlocked count. */
  lemma {:induction false} NumUnlockedMonotone(a: seq<Achievement>, b: seq<Achievement>)
    requires KeepsUnlocked(a, b)
    ensures NumUnlocked(a) <= NumUnlocked(b)
    decreases |a|
  {
    if a != [] {
      assert KeepsUnlocked(a[1..], b[1..]) by {
        forall i | 0 <= i < |a[1..]| && a[1..][i].unlocked
          ensures b[1..][i].unlocked
        {
          assert a[1..][i] == a[i + 1] && b[1..][i] == b[i + 1];
        }
      }
      NumUnlockedMonotone(a[1..], b[1..]);
    }
  }

  /** Unlocking is monotone and the score only grows: every event except
      the two reset buttons keeps every unlocked achievement unlocked and
      never lowers the score. */
  lemma MonotoneStep(s: State, e: Event)
    requires Inv(s) && !e.RetryPressed? && !e.LearnMorePressed?
    ensures KeepsUnlocked(s.achievements, Step(s, e).achievements)
    ensures Step(s, e).score >= s.score
  {
    if Enabled(s, e) {
      match e
      case ObjectionPressed => ObjectionMonotone(s);
      case AdvanceFired =>
        if s.advance.value.index < N - 1 {
          FireAdvances(s);
        } else {
          FinishMonotone(s.(advance := None), s.guiltyCount);
        }
      case _ =>
    }
  }

  /** Every run keeps the invariant. */
  lemma {:induction false} RunInv(s: State, es: seq<Event>)
    requires Inv(s)
    ensures Inv(Run(s, es))
    decreases |es|
  {
    if es != [] {
      StepInv(s, es[0]);
      RunInv(Step(s, es[0]), es[1..]);
    }
  }

  /** Running two lists of events is running the first, then the second. */
  lemma {:induction false} RunAppend(s: State, es: seq<Event>, fs: seq<Event>)
    ensures Run(s, es + fs) == Run(Run(s, es), fs)
    decreases |es|
  {
    if es != [] {
      assert (es + fs)[0] == es[0];
      assert (es + fs)[1..] == es[1..] + fs;
      RunAppend(Step(s, es[0]), es[1..], fs);
      assert Run(s, es + fs) == Run(Step(s, es[0]), es[1..] + fs);
      assert Run(s, es) == Run(Step(s, es[0]), es[1..]);
    } else {
      assert es + fs == fs;
    }
  }

  /** No event in the list is a reset button. */
  predicate NoReset(es: seq<Event>) {
    forall i :: 0 <= i < |es| ==> !es[i].RetryPressed? && !es[i].LearnMorePressed?
  }

  /** Between resets, unlocked achievements stay unlocked and the score
      never goes down. */
  lemma {:induction false} MonotoneRun(s: State, es: seq<Event>)
    requires Inv(s) && NoReset(es)
    ensures KeepsUnlocked(s.achievements, Run(s, es).achievements)
    ensures Run(s, es).score >= s.score
    decreases |es|
  {
    if es != [] {
      var t := Step(s, es[0]);
      MonotoneStep(s, es[0]);
      StepInv(s, es[0]);
      assert NoReset(es[1..]) by {
        forall i | 0 <= i < |es[1..]| ensures !es[1..][i].RetryPressed? && !es[1..][i].LearnMorePressed? {
          assert es[1..][i] == es[i + 1];
        }
      }
      MonotoneRun(t, es[1..]);
      KeepsUnlockedTrans(s.achievements, t.achievements, Run(t, es[1..]).achievements);
    }
  }

  /** Every state a session reaches keeps the invariant. */
  lemma Reachable(es: seq<Event>)
    ensures Inv(Run(Init(), es))
  {
    InitInv();
    RunInv(Init(), es);
  }

  /** The count of unlocked entries of a list with the shipped ids, entry
      by entry. */
  lemma NumUnlockedShipped(a: seq<Achievement>)
    requires Shipped(a)
    ensures NumUnlocked(a) ==
      (if a[0].unlocked then 1 else 0) + (if a[1].unlocked then 1 else 0) + (if a[2].unlocked then 1 else 0)
      + (if a[3].unlocked then 1 else 0) + (if a[4].unlocked then 1 else 0)
  {
    var a1 := a[1..];
    var a2 := a1[1..];
    var a3 := a2[1..];
    var a4 := a3[1..];
    assert a1[0] == a[1] && a2[0] == a[2] && a3[0] == a[3] && a4[0] == a[4];
    assert NumUnlocked(a4[1..]) == 0 by { assert a4[1..] == []; }
    assert NumUnlocked(a3) == (if a[3].unlocked then 1 else 0) + NumUnlocked(a4);
    assert NumUnlocked(a2) == (if a[2].unlocked then 1 else 0) + NumUnlocked(a3);
    assert NumUnlocked(a1) == (if a[1].unlocked then 1 else 0) + NumUnlocked(a2);
  }

  /** On the verdict screen of any session: "harsh_judge" is unlocked
      exactly when every verdict was guilty, "merciful_judge" exactly when
      none was, "perfect_judge" exactly when the verdicts are the ones the
      health data asks for; the first two are never both unlocked; and the
      score is 10 per objection, 50 per verdict agreeing with the health
      data and 100 per unlocked achievement. */
  lemma VerdictScreen(s: State)
    requires Inv(s) && s.showVerdict
    ensures |s.verdicts| == N
    ensures s.achievements[HarshJudgeAt].unlocked <==> forall i :: 0 <= i < N ==> s.verdicts[i]
    ensures s.achievements[MercifulJudgeAt].unlocked <==> forall i :: 0 <= i < N ==> !s.verdicts[i]
    ensures s.achievements[PerfectJudgeAt].unlocked <==> s.verdicts == CorrectVerdicts()
    ensures !(s.achievements[HarshJudgeAt].unlocked && s.achievements[MercifulJudgeAt].unlocked)
    ensures s.score == ObjectionPoints * s.objectionCount + CorrectVerdictPoints * CorrectCount(s.verdicts)
                       + AchievementPoints * NumUnlocked(s.achievements)
  {
    assert |s.verdicts| == N;
    CountTrueAll(s.verdicts);
    CountTrueNone(s.verdicts);
    PerfectIffCorrectPlay(s.verdicts);
  }

  /** k presses of the objection button in a row. */
  function Objections(s: State, k: nat): State
    decreases k
  {
    if k == 0 then s else Objection(Objections(s, k - 1))
  }

  /** Objections change only the objection count, the score, the two
      objection achievements and the displays, and keep the invariant. */
  lemma {:induction false} ObjectionsKeep(s: State, k: nat)
    requires Inv(s)
    ensures var r := Objections(s, k);
      Inv(r) && r.objectionCount == s.objectionCount + k && r.verdicts == s.verdicts
      && r.currentDefendant == s.currentDefendant && r.showVerdict == s.showVerdict
      && r.showIntro == s.showIntro && r.advance == s.advance
    decreases k
  {
    if k > 0 {
      ObjectionsKeep(s, k - 1);
      ObjectionInv(Objections(s, k - 1));
      ObjectionFrame(Objections(s, k - 1));
    }
  }

  /** k objections at the opening of a trial: "first_objection" is unlocked
      from the first one on, "objection_master" from the 10th one on, and
      the score is 10 per objection plus 100 for each of the two. */
  lemma OpeningObjections(k: nat)
    ensures var r := Objections(Start(Init()), k);
      Inv(r) && r.objectionCount == k
      && (r.achievements[FirstObjectionAt].unlocked <==> k >= 1)
      && (r.achievements[ObjectionMasterAt].unlocked <==> k >= ObjectionMasterCount)
      && r.score == ObjectionPoints * k + (if k >= 1 then AchievementPoints else 0)
                    + (if k >= ObjectionMasterCount then AchievementPoints else 0)
  {
    var s := Start(Init());
    InitInv();
    StartInv(Init());
    ObjectionsKeep(s, k);
    var r := Objections(s, k);
    NumUnlockedShipped(r.achievements);
  }

  /** The opening exchange: start, one objection, a guilty verdict on the
      first case, and its advance. The objection brings 10 points and
      "first_objection" 100 more, the verdict agrees with the health data
      for 50, and the second case is up: 160 points, one guilty verdict. */
  lemma OpeningExchange()
    ensures var r := Run(Init(), [StartPressed, ObjectionPressed, VerdictPressed(true), AdvanceFired]);
      r.score == 160 && r.guiltyCount == 1 && r.currentDefendant == 1 && r.objectionCount == 1
      && r.achievements[FirstObjectionAt].unlocked && r.verdicts == [true] && !r.showVerdict
  {
    var s0 := Init();
    InitInv();
    var s1 := Start(s0);
    StartInv(s0);
    FirstObjectionEffects(s1);
    var s2 := Objection(s1);
    var s3 := Judge(s2, true);
    var s4 := Fire(s3);
    FireAdvances(s3);
    var es := [StartPressed, ObjectionPressed, VerdictPressed(true), AdvanceFired];
    assert Run(s0, es) == Run(s1, es[1..]);
    assert Run(s1, es[1..]) == Run(s2, es[2..]);
    assert Run(s2, es[2..]) == Run(s3, es[3..]);
    assert Run(s3, es[3..]) == s4;
  }

  /** One verdict per entry of vs, each followed by its delayed advance. */
  function Plays(vs: seq<bool>): (es: seq<Event>)
    ensures |es| == 2 * |vs|
    decreases |vs|
  {
    if vs == [] then [] else [VerdictPressed(vs[0]), AdvanceFired] + Plays(vs[1..])
  }

  /** A case is up with no advance pending, and none of the three verdict
      achievements is unlocked yet: all the verdict path reads. */
  predicate Playing(s: State) {
    Shipped(s.achievements) && VerdictFlagsLocked(s) && OnTrialScreen(s)
    && s.advance.None? && s.currentDefendant < N
  }

  /** One verdict and its advance on a case before the last: the verdict is
      recorded and the next case is up. */
  lemma VerdictThenAdvance(s: State, v: bool)
    requires Playing(s) && s.currentDefendant < N - 1
    ensures var r := Run(s, [VerdictPressed(v), AdvanceFired]);
      Playing(r) && r.currentDefendant == s.currentDefendant + 1
      && r.verdicts == s.verdicts + [v] && r.objectionCount == s.objectionCount
  {
    var s1 := Judge(s, v);
    FireAdvances(s1);
    assert Run(s, [VerdictPressed(v), AdvanceFired]) == Run(s1, [AdvanceFired]);
    assert Run(s1, [AdvanceFired]) == Run(Fire(s1), []);
  }

  /** One verdict and its advance on the last case: the verdict is recorded
      and the verdict screen is up. */
  lemma LastVerdict(s: State, v: bool)
    requires Playing(s) && s.currentDefendant == N - 1
    ensures var r := Run(s, [VerdictPressed(v), AdvanceFired]);
      r.showVerdict && r.verdicts == s.verdicts + [v] && r.objectionCount == s.objectionCount
  {
    var s1 := Judge(s, v);
    FinishFrame(s1.(advance := None), s.guiltyCount + (if v then 1 else 0));
    assert Run(s, [VerdictPressed(v), AdvanceFired]) == Run(s1, [AdvanceFired]);
    assert Run(s1, [AdvanceFired]) == Run(Fire(s1), []);
  }

  /** Playing out the rest of the docket ends on the verdict screen with
      those verdicts recorded. */
  lemma {:induction false} PlaysFinish(s: State, vs: seq<bool>)
    requires Playing(s) && vs != [] && s.currentDefendant + |vs| == N
    ensures var r := Run(s, Plays(vs));
      r.showVerdict && r.verdicts == s.verdicts + vs && r.objectionCount == s.objectionCount
    decreases |vs|
  {
    var ab := [VerdictPressed(vs[0]), AdvanceFired];
    var rest := vs[1..];
    var s2 := Run(s, ab);
    assert Plays(vs) == ab + Plays(rest);
    RunAppend(s, ab, Plays(rest));
    assert Run(s, Plays(vs)) == Run(s2, Plays(rest));
    assert vs == [vs[0]] + rest;
    if rest == [] {
      LastVerdict(s, vs[0]);
      assert Run(s, Plays(vs)) == s2;
    } else {
      VerdictThenAdvance(s, vs[0]);
      PlaysFinish(s2, rest);
      assert s2.verdicts + rest == s.verdicts + vs by {
        assert s2.verdicts == s.verdicts + [vs[0]];
      }
    }
  }

  /** A whole session: start, then a verdict and its advance on every case.
      It ends on the verdict screen with exactly those verdicts; "perfect_judge"
      is unlocked exactly when they are the ones the health data asks for,
      "harsh_judge" exactly when all are guilty, "merciful_judge" exactly
      when none is; the score is 50 per verdict agreeing with the health
      data and 100 per unlocked achievement. */
  lemma WholeSession(vs: seq<bool>)
    requires |vs| == N
    ensures var r := Run(Init(), [StartPressed] + Plays(vs));
      Inv(r) && r.showVerdict && r.verdicts == vs
      && (r.achievements[PerfectJudgeAt].unlocked <==> vs == CorrectVerdicts())
      && (r.achievements[HarshJudgeAt].unlocked <==> forall i :: 0 <= i < N ==> vs[i])
      && (r.achievements[MercifulJudgeAt].unlocked <==> forall i :: 0 <= i < N ==> !vs[i])
      && r.score == CorrectVerdictPoints * CorrectCount(vs) + AchievementPoints * NumUnlocked(r.achievements)
  {
    var s0 := Init();
    var s1 := Start(s0);
    InitInv();
    StartInv(s0);
    InitialShape();
    RunAppend(s0, [StartPressed], Plays(vs));
    assert Run(s0, [StartPressed]) == s1 by {
      assert Run(s0, [StartPressed]) == Run(s1, []);
    }
    PlaysFinish(s1, vs);
    RunInv(s1, Plays(vs));
    VerdictScreen(Run(s1, Plays(vs)));
  }

  /** The judge who follows the health data on every case, without
      objecting, ends with 350 points: 50 for each of the five verdicts and
      100 for "perfect_judge", the only achievement unlocked. */
  lemma PerfectSession()
    ensures var r := Run(Init(), [StartPressed] + Plays(CorrectVerdicts()));
      Inv(r) && r.score == 350 && r.achievements[PerfectJudgeAt].unlocked && NumUnlocked(r.achievements) == 1
  {
    var vs := CorrectVerdicts();
    var r := Run(Init(), [StartPressed] + Plays(vs));
    WholeSession(vs);
    TableGuilt();
    CorrectCountAll(vs);
    Reachable([StartPressed] + Plays(vs));
    assert !vs[1] && vs[0];
    NumUnlockedShipped(r.achievements);
  }
}
