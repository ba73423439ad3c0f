/** The end-of-session perfect-judge check exactly as the game writes it.
    It has no record of past verdicts: for every case before the current
    one it takes "guilty" to mean that the case's position is below the
    guilty tally, and for the current case it uses the verdict just given.
    Only prefix patterns (some guilty verdicts, then innocent ones) can pass
    it, and the shipped docket's health data is not such a pattern, so the
    achievement can never be earned. The model of the session uses
    Verdicts.PerfectRecord instead. */
module PerfectJudgeAsWritten {
  import opened Defendants
  import opened Verdicts

  /** What the check takes to have been the verdict on case idx, given the
      current case, the guilty tally before the last verdict, and the last
      verdict. */
  function WasGuilty(idx: int, current: int, guiltyCount: int, guilty: bool): bool {
    if idx < current then idx < guiltyCount else idx == current && guilty
  }

  /** The condition the check computes. */
  predicate Holds(current: int, guiltyCount: int, guilty: bool) {
    forall idx :: 0 <= idx < N ==> WasGuilty(idx, current, guiltyCount, guilty) == ShouldBeGuilty(Table[idx])
  }

  /** The check's loop over the docket: the flag starts true and is cleared
      at every case whose reconstructed verdict disagrees with the health
      data. */
  method Check(current: int, guiltyCount: int, guilty: bool) returns (perfect: bool)
    ensures perfect <==> Holds(current, guiltyCount, guilty)
  {
    perfect := true;
    var idx := 0;
    while idx < |Table|
      invariant 0 <= idx <= N
      invariant perfect <==> forall j :: 0 <= j < idx ==> WasGuilty(j, current, guiltyCount, guilty) == ShouldBeGuilty(Table[j])
    {
      var wasGuilty := if idx < current then idx < guiltyCount else idx == current && guilty;
      var shouldBeGuilty := Table[idx].motility < 40 || Table[idx].morphology != Normal;
      if wasGuilty != shouldBeGuilty {
        perfect := false;
      }
      idx := idx + 1;
    }
  }

  /** The check runs only on the last case (current >= N - 1). There it
      fails whatever the tally and the last verdict: case 1 calls for a
      tally above 0 but case 2 for one of at most 1, while case 4 calls for
      one above 3. */
  lemma {:induction false} NeverHolds(current: int, guiltyCount: int, guilty: bool)
    requires current >= N - 1
    ensures !Holds(current, guiltyCount, guilty)
  {
    assert ShouldBeGuilty(Table[0]) && !ShouldBeGuilty(Table[1]) && ShouldBeGuilty(Table[3]) by {
      TableGuilt();
    }
  }

  /** The discrepancy on a concrete input: a judge who follows the health
      data on every case reaches the check with the last case current, a
      tally of 2 before the last verdict, and an innocent last verdict. The
      intended condition holds of that record; the check as written does
      not. */
  lemma MissesCorrectPlay()
    ensures PerfectRecord(CorrectVerdicts())
    ensures CountTrue(CorrectVerdicts()[..N - 1]) == 2 && !CorrectVerdicts()[N - 1]
    ensures !Holds(N - 1, 2, false)
  {
    TableGuilt();
    assert CorrectVerdicts()[..N - 1] == [] + [true] + [false] + [false] + [true];
    CountTrueAppend([], true);
    CountTrueAppend([true], false);
    CountTrueAppend([true, false], false);
    CountTrueAppend([true, false, false], true);
    NeverHolds(N - 1, 2, false);
  }
}
