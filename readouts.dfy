/** What the verdict screen reads off the final guilty tally: the sentence
    and the health grade. */
module Readouts {
  import opened Defendants

  /** The five sentences, in order. */
  const Sentences: seq<string> := [
    "Life in the left testicle without parole.",
    "Sentenced to eternal swimming in circles.",
    "Banished to the vas deferens for 1000 laps.",
    "Community service: 500 hours of tail-wagging therapy.",
    "Frozen in cryogenic storage indefinitely."
  ]

  /** The sentence handed down for a guilty tally: the tally picks a
      sentence cyclically. */
  function Sentence(guiltyCount: nat): (s: string)
    ensures s in Sentences
    ensures guiltyCount < |Sentences| ==> s == Sentences[guiltyCount]
  {
    Sentences[guiltyCount % |Sentences|]
  }

  /** The sentence repeats with period five; in particular a session with
      every defendant found guilty gets the same sentence as one with none. */
  lemma SentencePeriodic(guiltyCount: nat)
    ensures Sentence(guiltyCount + |Sentences|) == Sentence(guiltyCount)
    ensures Sentence(N) == Sentence(0)
  {
  }

  /** Below five the tallies get pairwise different sentences. */
  lemma SentencesDistinct(g1: nat, g2: nat)
    requires g1 < g2 < |Sentences|
    ensures Sentence(g1) != Sentence(g2)
  {
    assert |Sentences[0]| == 41 && |Sentences[1]| == 41 && |Sentences[2]| == 43;
    assert |Sentences[3]| == 53 && |Sentences[4]| == 41;
    assert Sentences[0][0] == 'L' && Sentences[1][0] == 'S' && Sentences[4][0] == 'F';
  }

  /** The four health grades, best first. */
  datatype Grade = Excellent | Good | Fair | NeedsImprovement

  /** Position of a grade from best (0) to worst (3). */
  function Rank(g: Grade): (r: nat)
    ensures r < 4
  {
    match g
    case Excellent => 0
    case Good => 1
    case Fair => 2
    case NeedsImprovement => 3
  }

  /** The health grade for a guilty tally. The innocent share
      (N - guiltyCount) / N, as a percentage, is compared against 80, 60 and
      40; each comparison percentage >= t is written exactly in integers as
      (N - guiltyCount) * 100 >= t * N. */
  function HealthVerdict(guiltyCount: int): (g: Grade)
    ensures g == Excellent <==> guiltyCount <= 1
    ensures g == Good <==> guiltyCount == 2
    ensures g == Fair <==> guiltyCount == 3
    ensures g == NeedsImprovement <==> guiltyCount >= 4
  {
    var innocent := N - guiltyCount;
    if innocent * 100 >= 80 * N then Excellent
    else if innocent * 100 >= 60 * N then Good
    else if innocent * 100 >= 40 * N then Fair
    else NeedsImprovement
  }

  /** More guilty verdicts never earn a better grade. */
  lemma HealthVerdictMonotone(g1: int, g2: int)
    requires g1 <= g2
    ensures Rank(HealthVerdict(g1)) <= Rank(HealthVerdict(g2))
  {
  }
}
