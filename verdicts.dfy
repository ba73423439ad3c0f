/** The record of verdicts given so far in a session, case by case, and
    what is counted from it: the guilty tally, the verdicts that earned the
    correct-verdict bonus, and whether the judge was perfect. */
module Verdicts {
  import opened Defendants

  /** Number of guilty verdicts in a record. */
  function CountTrue(v: seq<bool>): (c: nat)
    ensures c <= |v|
  {
    if v == [] then 0
    else CountTrue(v[..|v| - 1]) + (if v[|v| - 1] then 1 else 0)
  }

  /** Whether the verdict on case i agrees with the health data. */
  predicate Matches(v: seq<bool>, i: nat)
    requires i < |v| <= N
  {
    v[i] == ShouldBeGuilty(Table[i])
  }

  /** Number of verdicts in a record that agree with the health data. */
  function CorrectCount(v: seq<bool>): (c: nat)
    requires |v| <= N
    ensures c <= |v|
  {
    if v == [] then 0
    else CorrectCount(v[..|v| - 1]) + (if Matches(v, |v| - 1) then 1 else 0)
  }

  /** The perfect-judge condition as the achievement describes it: every
      case judged, and every verdict agrees with the health data. */
  predicate PerfectRecord(v: seq<bool>) {
    |v| == N && forall i :: 0 <= i < N ==> v[i] == ShouldBeGuilty(Table[i])
  }

  /** The end-of-session check over the record: the flag starts out as
      "every case judged" and is cleared at every case whose recorded
      verdict disagrees with the health data. */
  method CheckRecord(v: seq<bool>) returns (perfect: bool)
    ensures perfect == PerfectRecord(v)
  {
    perfect := |v| == N;
    var idx := 0;
    while idx < |Table|
      invariant 0 <= idx <= N
      invariant perfect <==> |v| == N && forall j :: 0 <= j < idx ==> v[j] == ShouldBeGuilty(Table[j])
    {
      var wasGuilty := idx < |v| && v[idx];
      var shouldBeGuilty := Table[idx].motility < 40 || Table[idx].morphology != Normal;
      if wasGuilty != shouldBeGuilty {
        perfect := false;
      }
      idx := idx + 1;
    }
  }

  /** Appending a verdict adds one to the tally exactly when it is guilty. */
  lemma CountTrueAppend(v: seq<bool>, b: bool)
    ensures CountTrue(v + [b]) == CountTrue(v) + (if b then 1 else 0)
  {
    assert (v + [b])[..|v|] == v;
  }

  /** Appending a verdict for the next case adds one to the correct count
      exactly when it agrees with that case's health data. */
  lemma CorrectCountAppend(v: seq<bool>, b: bool)
    requires |v| < N
    ensures CorrectCount(v + [b]) == CorrectCount(v) + (if b == ShouldBeGuilty(Table[|v|]) then 1 else 0)
  {
    assert (v + [b])[..|v|] == v;
  }

  /** The tally reaches the length of the record exactly when every
      verdict is guilty. */
  lemma {:induction false} CountTrueAll(v: seq<bool>)
    ensures CountTrue(v) == |v| <==> forall i :: 0 <= i < |v| ==> v[i]
  {
    if v != [] {
      var w := v[..|v| - 1];
      CountTrueAll(w);
      assert forall i :: 0 <= i < |w| ==> w[i] == v[i];
    }
  }

  /** The tally is zero exactly when every verdict is innocent. */
  lemma {:induction false} CountTrueNone(v: seq<bool>)
    ensures CountTrue(v) == 0 <==> forall i :: 0 <= i < |v| ==> !v[i]
  {
    if v != [] {
      var w := v[..|v| - 1];
      CountTrueNone(w);
      assert forall i :: 0 <= i < |w| ==> w[i] == v[i];
    }
  }

  /** Every verdict of a record earned the bonus exactly when the record
      agrees with the health data throughout. */
  lemma {:induction false} CorrectCountAll(v: seq<bool>)
    requires |v| <= N
    ensures CorrectCount(v) == |v| <==> forall i :: 0 <= i < |v| ==> Matches(v, i)
  {
    if v != [] {
      var w := v[..|v| - 1];
      CorrectCountAll(w);
      assert forall i :: 0 <= i < |w| ==> (Matches(w, i) <==> Matches(v, i));
    }
  }

  /** The end-of-session check and the per-case bonus use the same rule: a
      full record is perfect exactly when every one of its verdicts scored
      the bonus. */
  lemma PerfectIffAllCorrect(v: seq<bool>)
    requires |v| == N
    ensures PerfectRecord(v) <==> CorrectCount(v) == N
  {
    CorrectCountAll(v);
    assert forall i :: 0 <= i < |v| ==> (Matches(v, i) <==> v[i] == ShouldBeGuilty(Table[i]));
  }

  /** Following the health data is the one perfect record. */
  lemma PerfectIffCorrectPlay(v: seq<bool>)
    ensures PerfectRecord(v) <==> v == CorrectVerdicts()
  {
    if PerfectRecord(v) {
      assert forall i :: 0 <= i < N ==> v[i] == CorrectVerdicts()[i];
    }
  }
}
