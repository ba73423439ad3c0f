/** The five achievements of a session and the list operations the game
    performs on them: finding a locked entry by id, marking every entry
    with an id as unlocked, and locking them all again. */
module Achievements {
  import opened Options

  /** The five achievement ids. */
  datatype AchievementId = FirstObjection | PerfectJudge | HarshJudge | MercifulJudge | ObjectionMaster

  /** The id as the game spells it. */
  function IdText(id: AchievementId): (t: string)
    ensures |t| > 0
  {
    match id
    case FirstObjection => "first_objection"
    case PerfectJudge => "perfect_judge"
    case HarshJudge => "harsh_judge"
    case MercifulJudge => "merciful_judge"
    case ObjectionMaster => "objection_master"
  }

  /** One entry of the list. Its name, description and icon are fixed by
      its id and are display-only. */
  datatype Achievement = Achievement(id: AchievementId, unlocked: bool)

  /** The ids of the list, in display order. */
  const AchievementIds: seq<AchievementId> := [FirstObjection, PerfectJudge, HarshJudge, MercifulJudge, ObjectionMaster]

  /** Positions of the entries in the list. */
  const FirstObjectionAt: nat := 0
  const PerfectJudgeAt: nat := 1
  const HarshJudgeAt: nat := 2
  const MercifulJudgeAt: nat := 3
  const ObjectionMasterAt: nat := 4

  /** The list a session starts with: everything locked. */
  const Initial: seq<Achievement> := [
    Achievement(FirstObjection, false),
    Achievement(PerfectJudge, false),
    Achievement(HarshJudge, false),
    Achievement(MercifulJudge, false),
    Achievement(ObjectionMaster, false)
  ]

  /** The ids are spelled differently, so an id is identified by its text. */
  lemma IdTextInjective(x: AchievementId, y: AchievementId)
    requires x != y
    ensures IdText(x) != IdText(y)
  {
    assert |IdText(FirstObjection)| == 15 && |IdText(PerfectJudge)| == 13 && |IdText(HarshJudge)| == 11;
    assert |IdText(MercifulJudge)| == 14 && |IdText(ObjectionMaster)| == 16;
  }

  /** The ids of a list, position by position. */
  function Ids(a: seq<Achievement>): (r: seq<AchievementId>)
    ensures |r| == |a|
    ensures forall i :: 0 <= i < |a| ==> r[i] == a[i].id
  {
    if a == [] then [] else [a[0].id] + Ids(a[1..])
  }

  /** The list has the shipped ids, in the shipped order. */
  predicate Shipped(a: seq<Achievement>) {
    |a| == 5 && a[0].id == FirstObjection && a[1].id == PerfectJudge && a[2].id == HarshJudge
    && a[3].id == MercifulJudge && a[4].id == ObjectionMaster
  }

  /** A list is shipped exactly when its ids are the five ids in display
      order. */
  lemma ShippedIds(a: seq<Achievement>)
    ensures Shipped(a) <==> Ids(a) == AchievementIds
  {
  }

  /** The first position holding a locked entry with the given id, if any. */
  function FindLocked(a: seq<Achievement>, id: AchievementId): (r: Option<nat>)
    ensures r.Some? ==> r.value < |a| && a[r.value].id == id && !a[r.value].unlocked
    ensures r.Some? ==> forall j :: 0 <= j < r.value ==> a[j].id != id || a[j].unlocked
    ensures r.None? <==> forall j :: 0 <= j < |a| ==> a[j].id != id || a[j].unlocked
  {
    FindLockedFrom(a, id, 0)
  }

  /** The first position from i on holding a locked entry with the id. */
  function FindLockedFrom(a: seq<Achievement>, id: AchievementId, i: nat): (r: Option<nat>)
    requires i <= |a|
    ensures r.Some? ==> i <= r.value < |a| && a[r.value].id == id && !a[r.value].unlocked
    ensures r.Some? ==> forall j :: i <= j < r.value ==> a[j].id != id || a[j].unlocked
    ensures r.None? <==> forall j :: i <= j < |a| ==> a[j].id != id || a[j].unlocked
    decreases |a| - i
  {
    if i == |a| then None
    else if a[i].id == id && !a[i].unlocked then Some(i)
    else FindLockedFrom(a, id, i + 1)
  }

  /** The list with every entry carrying the id marked unlocked. */
  function MarkUnlocked(a: seq<Achievement>, id: AchievementId): (r: seq<Achievement>)
    ensures |r| == |a|
    ensures forall i :: 0 <= i < |a| && a[i].id == id ==> r[i] == a[i].(unlocked := true)
    ensures forall i :: 0 <= i < |a| && a[i].id != id ==> r[i] == a[i]
  {
    seq(|a|, i requires 0 <= i < |a| => if a[i].id == id then a[i].(unlocked := true) else a[i])
  }

  /** The list with every entry locked, everything else kept. */
  function LockAll(a: seq<Achievement>): (r: seq<Achievement>)
    ensures |r| == |a|
    ensures forall i :: 0 <= i < |a| ==> r[i] == a[i].(unlocked := false)
  {
    if a == [] then [] else [a[0].(unlocked := false)] + LockAll(a[1..])
  }

  /** Number of unlocked entries. */
  function NumUnlocked(a: seq<Achievement>): (n: nat)
    ensures n <= |a|
  {
    if a == [] then 0 else (if a[0].unlocked then 1 else 0) + NumUnlocked(a[1..])
  }

  /** The list with the flag of the entry at position k set to b. */
  function WithFlag(a: seq<Achievement>, k: nat, b: bool): (r: seq<Achievement>)
    requires k < |a|
    ensures |r| == |a| && r[k].unlocked == b && r[k].id == a[k].id
    ensures forall i :: 0 <= i < |a| && i != k ==> r[i] == a[i]
  {
    a[k := a[k].(unlocked := b)]
  }

  /** Setting a flag to the value it already has changes nothing. */
  lemma WithSameFlag(a: seq<Achievement>, k: nat)
    requires k < |a|
    ensures WithFlag(a, k, a[k].unlocked) == a
  {
  }

  /** Setting one flag changes the unlocked count by the change of that
      flag alone. */
  lemma {:induction false} NumUnlockedWithFlag(a: seq<Achievement>, k: nat, b: bool)
    requires k < |a|
    ensures NumUnlocked(WithFlag(a, k, b)) ==
      NumUnlocked(a) - (if a[k].unlocked then 1 else 0) + (if b then 1 else 0)
  {
    if k > 0 {
      NumUnlockedWithFlag(a[1..], k - 1, b);
      assert WithFlag(a, k, b)[1..] == WithFlag(a[1..], k - 1, b);
    } else {
      assert WithFlag(a, k, b)[1..] == a[1..];
    }
  }

  /** No entry is unlocked exactly when the count is zero. */
  lemma {:induction false} NumUnlockedZero(a: seq<Achievement>)
    ensures NumUnlocked(a) == 0 <==> forall i :: 0 <= i < |a| ==> !a[i].unlocked
  {
    if a != [] {
      NumUnlockedZero(a[1..]);
      assert forall i :: 1 <= i < |a| ==> a[1..][i - 1] == a[i];
    }
  }

  /** The shipped list has the shipped ids and nothing unlocked. */
  lemma InitialShape()
    ensures Shipped(Initial)
    ensures NumUnlocked(Initial) == 0
  {
    NumUnlockedZero(Initial);
  }

  /** Locking everything leaves no entry unlocked and keeps the ids. */
  lemma LockAllShape(a: seq<Achievement>)
    ensures Ids(LockAll(a)) == Ids(a)
    ensures Shipped(a) ==> Shipped(LockAll(a))
    ensures NumUnlocked(LockAll(a)) == 0
  {
    NumUnlockedZero(LockAll(a));
  }

  /** When exactly one entry carries an id, unlocking by that id finds that
      entry if it is locked, and sets that entry's flag and no other. */
  lemma {:induction false} UnlockUnique(a: seq<Achievement>, k: nat, id: AchievementId)
    requires k < |a| && a[k].id == id
    requires forall j :: 0 <= j < |a| && j != k ==> a[j].id != id
    ensures FindLocked(a, id) == if a[k].unlocked then None else Some(k)
    ensures MarkUnlocked(a, id) == WithFlag(a, k, true)
  {
    if k > 0 {
      UnlockUnique(a[1..], k - 1, id);
    }
    assert MarkUnlocked(a, id) == WithFlag(a, k, true);
  }

  /** Unlocking by id on a list with the shipped ids, seen from the
      position k holding that id: the entry there is found exactly when it
      is locked, and marking the id unlocked sets that entry's flag and no
      other. */
  lemma UnlockAt(a: seq<Achievement>, k: nat, id: AchievementId)
    requires Shipped(a) && k < |a| && a[k].id == id
    ensures FindLocked(a, id) == if a[k].unlocked then None else Some(k)
    ensures MarkUnlocked(a, id) == WithFlag(a, k, true)
  {
    UnlockUnique(a, k, id);
  }

  /** An id that names no entry unlocks nothing. */
  lemma UnknownIdFindsNothing(a: seq<Achievement>, id: AchievementId)
    requires id !in Ids(a)
    ensures FindLocked(a, id) == None
    ensures MarkUnlocked(a, id) == a
  {
    assert forall j :: 0 <= j < |a| ==> a[j].id == Ids(a)[j];
  }
}
