/**
 * The row of eight round icons (`RoundIconsRow`): each round is completed, active or
 * locked, from the current round and the list of completed rounds.
 */
module RoundIcons {

  datatype IconState = Locked | Active | Completed

  /** One icon of the row: its round number, its image and its state. */
  datatype Icon = Icon(round: int, image: string, state: IconState)

  /** The image of each round, rounds 1..8 in order. */
  const ROUND_IMAGES: seq<string> :=
    ["stone.png", "food.png", "cow.png", "alphabet.png", "continents.png", "germs.png", "guns.png", "social.png"]

  /**
   * `getIconState(roundIndex)` for round `roundIndex + 1`: listed as completed, else the
   * current round, else an earlier round, else a later one.
   */
  function GetIconState(roundIndex: int, currentRound: int, completedRounds: seq<int>): (s: IconState)
    ensures s == Completed <==> roundIndex + 1 in completedRounds || roundIndex + 1 < currentRound
    ensures s == Active <==> roundIndex + 1 !in completedRounds && roundIndex + 1 == currentRound
    ensures s == Locked <==> roundIndex + 1 !in completedRounds && roundIndex + 1 > currentRound
  {
    var roundNumber := roundIndex + 1;
    if roundNumber in completedRounds then Completed
    else if roundNumber == currentRound then Active
    else if roundNumber < currentRound then Completed
    else Locked
  }

  /** `ROUND_IMAGES.map(...)`: one icon per image, for rounds 1..8 in order. */
  function Icons(currentRound: int, completedRounds: seq<int>): (icons: seq<Icon>)
    ensures |icons| == |ROUND_IMAGES| == 8
    ensures forall i :: 0 <= i < 8 ==>
              icons[i].round == i + 1 && icons[i].image == ROUND_IMAGES[i] &&
              icons[i].state == GetIconState(i, currentRound, completedRounds)
  {
    seq(|ROUND_IMAGES|, i requires 0 <= i < |ROUND_IMAGES| =>
      Icon(i + 1, ROUND_IMAGES[i], GetIconState(i, currentRound, completedRounds)))
  }

  /**
   * At most one icon is active, and it is the current round's: two active icons would be
   * two different rounds both equal to the current one.
   */
  lemma AtMostOneActive(currentRound: int, completedRounds: seq<int>, i: nat, j: nat)
    requires i < 8 && j < 8
    requires Icons(currentRound, completedRounds)[i].state == Active
    requires Icons(currentRound, completedRounds)[j].state == Active
    ensures i == j && Icons(currentRound, completedRounds)[i].round == currentRound
  {
    var icons := Icons(currentRound, completedRounds);
    assert icons[i].state == GetIconState(i, currentRound, completedRounds);
    assert icons[j].state == GetIconState(j, currentRound, completedRounds);
  }

  /**
   * Once the current round is itself listed as completed, no icon is active; otherwise a
   * current round in 1..8 has exactly its own icon active.
   */
  lemma ActiveIconOfCurrentRound(currentRound: int, completedRounds: seq<int>)
    ensures var icons := Icons(currentRound, completedRounds);
            (currentRound in completedRounds ==> forall i :: 0 <= i < 8 ==> icons[i].state != Active) &&
            (currentRound !in completedRounds && 1 <= currentRound <= 8 ==> icons[currentRound - 1].state == Active)
  {
  }

  /** Rounds before the current one are never locked; rounds after it are locked unless listed. */
  lemma IconStatesAroundCurrent(currentRound: int, completedRounds: seq<int>, i: nat)
    requires i < 8
    ensures var s := Icons(currentRound, completedRounds)[i].state;
            (i + 1 < currentRound ==> s == Completed) &&
            (i + 1 > currentRound ==> (s == Locked <==> i + 1 !in completedRounds))
  {
  }
}
