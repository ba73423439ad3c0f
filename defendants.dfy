/** The fixed docket of the courtroom game: five defendants, the rule that
    decides which of them the health data calls guilty, and the label shown
    under the motility bar. */
module Defendants {

  /** The morphologies the docket uses: the game compares the text with
      "Normal", and every other text is a defect. */
  datatype Morphology = Normal | AbnormalHead

  /** The morphology as the game spells it. */
  function MorphologyText(m: Morphology): (t: string)
    ensures |t| > 0
  {
    match m
    case Normal => "Normal"
    case AbnormalHead => "Abnormal Head"
  }

  /** Comparing the texts with "Normal" is comparing the values with Normal. */
  lemma MorphologyTextNormal(m: Morphology)
    ensures MorphologyText(m) == "Normal" <==> m == Normal
  {
    if m == AbnormalHead {
      assert |MorphologyText(m)| == 13;
    }
  }

  /** One case on the docket. Motility is a percentage. The charge, alibi,
      velocity, health note and judge's reaction of each case are
      display-only texts and are not carried here. */
  datatype Defendant = Defendant(id: nat, motility: nat, morphology: Morphology)

  /** The docket, in trial order. */
  const Table: seq<Defendant> := [
    Defendant(1, 15, Normal),
    Defendant(2, 85, Normal),
    Defendant(3, 45, Normal),
    Defendant(4, 30, AbnormalHead),
    Defendant(5, 92, Normal)
  ]

  /** Number of cases in a session. */
  const N: nat := 5

  /** The motility below which the health data calls a defendant guilty. */
  const GuiltyMotility: nat := 40

  /** The motility below which the label reads "below WHO standard". */
  const BelowStandardMotility: nat := 32

  /** The verdict the health data asks for. */
  predicate ShouldBeGuilty(d: Defendant) {
    d.motility < GuiltyMotility || d.morphology != Normal
  }

  /** The verdicts of a judge who always follows the health data. */
  function CorrectVerdicts(): (v: seq<bool>)
    ensures |v| == N
    ensures forall i :: 0 <= i < N ==> v[i] == ShouldBeGuilty(Table[i])
  {
    [ShouldBeGuilty(Table[0]), ShouldBeGuilty(Table[1]), ShouldBeGuilty(Table[2]),
     ShouldBeGuilty(Table[3]), ShouldBeGuilty(Table[4])]
  }

  /** The table has N entries, numbered 1..N in order. */
  lemma TableShape()
    ensures |Table| == N
    ensures forall i :: 0 <= i < N ==> Table[i].id == i + 1
  {
  }

  /** On the shipped docket, following the health data means the pattern
      guilty, innocent, innocent, guilty, innocent. */
  lemma TableGuilt()
    ensures CorrectVerdicts() == [true, false, false, true, false]
  {
  }

  /** The three readings of the motility bar. */
  datatype MotilityBand = BelowStandard | Borderline | HealthyRange

  /** The label under the motility bar. */
  function MotilityLabel(motility: int): (b: MotilityBand)
    ensures b == HealthyRange <==> motility >= GuiltyMotility
    ensures b == BelowStandard <==> motility < BelowStandardMotility
    ensures b == Borderline <==> BelowStandardMotility <= motility < GuiltyMotility
  {
    if motility < BelowStandardMotility then BelowStandard
    else if motility < GuiltyMotility then Borderline
    else HealthyRange
  }

  /** The label and the guilt rule draw the same line: a defendant with a
      normal morphology is guilty exactly when the bar is not in the
      healthy range, and an abnormal one is guilty whatever the bar says. */
  lemma GuiltMatchesLabel(d: Defendant)
    ensures ShouldBeGuilty(d) <==> (MotilityLabel(d.motility) != HealthyRange || d.morphology != Normal)
  {
  }

  /** The labels shown for the shipped docket: no defendant is borderline,
      although the third one's health note speaks of a borderline range. */
  lemma TableLabels()
    ensures forall i :: 0 <= i < N ==> MotilityLabel(Table[i].motility) != Borderline
    ensures MotilityLabel(Table[0].motility) == BelowStandard
    ensures MotilityLabel(Table[3].motility) == BelowStandard
    ensures MotilityLabel(Table[2].motility) == HealthyRange
  {
  }
}
