/**
 * The screens of one round (`RoundNarrative`): the round's introduction, the five zone
 * introductions, the choice screen and the screen after the choice. The component's
 * state (`currentScreen`, `highlightedZone`, `hasMadeChoice`) becomes the fields of a
 * class, its click handlers and effects become methods, and the two callbacks it is
 * given (`onZoneSelect`, `onComplete`) are recorded as the list of chosen areas and the
 * number of completions.
 */
module RoundNarrative {
  import opened Common
  import FinalTimeline

  /** `'intro' | 'zone-1' .. 'zone-5' | 'pre-choice' | 'post-choice'`. */
  datatype Screen = Intro | Zone(k: int) | PreChoice | PostChoice

  /** The last zone introduced before the choice. */
  const LAST_ZONE := 5

  /** The screen the single button of a screen leads to; the choice screen has no such button. */
  function NextScreen(s: Screen): (t: Screen)
    ensures s == Intro ==> t == Zone(1)
    ensures s.Zone? && s.k < LAST_ZONE ==> t == Zone(s.k + 1)
    ensures s.Zone? && s.k == LAST_ZONE ==> t == PreChoice
    ensures s.Zone? && s.k > LAST_ZONE ==> t == Zone(s.k + 1)
    ensures s == PreChoice || s == PostChoice ==> t == s
  {
    match s
    case Intro => Zone(1)
    case Zone(k) => if k == LAST_ZONE then PreChoice else Zone(k + 1)
    case _ => s
  }

  /** The screen after n presses of the button, starting from s. */
  function Clicks(s: Screen, n: nat): Screen
  {
    if n == 0 then s else NextScreen(Clicks(s, n - 1))
  }

  /**
   * From the introduction the button walks through the zones 1..5 in order and then
   * stays on the choice screen: the choice is reached after exactly six presses.
   */
  lemma {:induction false} ClicksFromIntro(n: nat)
    ensures n == 0 ==> Clicks(Intro, n) == Intro
    ensures 1 <= n <= LAST_ZONE ==> Clicks(Intro, n) == Zone(n)
    ensures n > LAST_ZONE ==> Clicks(Intro, n) == PreChoice
  {
    if n > 0 {
      ClicksFromIntro(n - 1);
    }
  }

  /**
   * The highlight effect: a zone screen highlights its area, the choice screen clears the
   * highlight, and any other screen leaves it as it was.
   */
  function HighlightFor(s: Screen, current: Option<string>): (h: Option<string>)
    ensures s.Zone? ==> h == Some(FinalTimeline.AreaId(s.k))
    ensures s == PreChoice ==> h == None
    ensures s == Intro || s == PostChoice ==> h == current
  {
    match s
    case Zone(k) => Some(FinalTimeline.AreaId(k))
    case PreChoice => None
    case _ => current
  }

  /** The round whose map image the screen after the choice shows: rounds without an image use round 1's. */
  function MapImageRound(round: int): (r: int)
    ensures 1 <= r <= 8
    ensures r == round <==> 1 <= round <= 8
  {
    if 1 <= round <= 8 then round else 1
  }

  class Narrative {
    /** The `round` prop. */
    var round: int
    /** The rounds the story texts hold data for (`texts.rounds`). */
    const storyRounds: set<int>
    var currentScreen: Screen
    var highlightedZone: Option<string>
    var hasMadeChoice: bool
    /** Every area passed to `onZoneSelect`, in order. */
    var selections: seq<string>
    /** How often `onComplete` was called. */
    var completions: nat
    /** Calls to `onZoneSelect` since the last reset. */
    ghost var choicesThisRound: nat

    /**
     * A zone screen is one of the five zones and highlights its area; the introduction
     * highlights nothing; a choice was made exactly on the screen after the choice, and
     * at most one was made since the round began.
     */
    ghost predicate Valid()
      reads this
    {
      && (currentScreen.Zone? ==> 1 <= currentScreen.k <= LAST_ZONE && highlightedZone == Some(FinalTimeline.AreaId(currentScreen.k)))
      && (currentScreen == Intro ==> highlightedZone == None)
      && (hasMadeChoice <==> currentScreen == PostChoice)
      && choicesThisRound == (if hasMadeChoice then 1 else 0)
    }

    /** Whether the error screen is shown instead: the texts have no data for the round. */
    predicate ShowsError()
      reads this
    {
      round !in storyRounds
    }

    /** The component mounts on its introduction, with nothing highlighted and no choice made. */
    constructor (round: int, storyRounds: set<int>)
      ensures Valid()
      ensures this.round == round && this.storyRounds == storyRounds
      ensures currentScreen == Intro && highlightedZone == None && !hasMadeChoice
      ensures selections == [] && completions == 0
    {
      this.round := round;
      this.storyRounds := storyRounds;
      currentScreen := Intro;
      highlightedZone := None;
      hasMadeChoice := false;
      selections := [];
      completions := 0;
      choicesThisRound := 0;
    }

    /**
     * A new `round` prop. A different round resets the screen to the introduction and
     * clears the choice and the highlight; the same round changes nothing.
     */
    method SetRound(newRound: int)
      requires Valid()
      modifies this
      ensures Valid()
      ensures round == newRound && selections == old(selections) && completions == old(completions)
      ensures newRound != old(round) ==> currentScreen == Intro && !hasMadeChoice && highlightedZone == None
      ensures newRound == old(round) ==>
                currentScreen == old(currentScreen) && hasMadeChoice == old(hasMadeChoice) &&
                highlightedZone == old(highlightedZone)
    {
      if newRound != round {
        currentScreen := Intro;
        hasMadeChoice := false;
        highlightedZone := None;
        choicesThisRound := 0;
      }
      round := newRound;
    }

    /**
     * The single button of the shown screen. On the error screen and after the choice it
     * completes the round; on the introduction and the zone screens it moves to the next
     * screen, whose highlight the effect then sets; the choice screen has no such button.
     */
    method ClickButton()
      requires Valid()
      modifies this
      ensures Valid()
      ensures round == old(round) && selections == old(selections) && hasMadeChoice == old(hasMadeChoice)
      ensures old(ShowsError()) || old(currentScreen) == PostChoice ==>
                completions == old(completions) + 1 && currentScreen == old(currentScreen) &&
                highlightedZone == old(highlightedZone)
      ensures !old(ShowsError()) && old(currentScreen) == PreChoice ==>
                completions == old(completions) && currentScreen == PreChoice && highlightedZone == old(highlightedZone)
      ensures !old(ShowsError()) && (old(currentScreen).Intro? || old(currentScreen).Zone?) ==>
                completions == old(completions) &&
                currentScreen == NextScreen(old(currentScreen)) &&
                highlightedZone == HighlightFor(currentScreen, old(highlightedZone))
    {
      if round !in storyRounds {
        completions := completions + 1;
        return;
      }
      match currentScreen
      case Intro =>
        currentScreen := Zone(1);
        highlightedZone := Some(FinalTimeline.AreaId(1));
      case Zone(k) =>
        if k == LAST_ZONE {
          currentScreen := PreChoice;
          highlightedZone := None;
        } else {
          currentScreen := Zone(k + 1);
          highlightedZone := Some(FinalTimeline.AreaId(k + 1));
        }
      case PreChoice =>
      case PostChoice =>
        completions := completions + 1;
    }

    /**
     * `handleZoneSelect`, reachable only from the choice screen: the first choice of the
     * round is passed on and moves to the screen after the choice; any later one is ignored.
     */
    method SelectZone(areaId: string)
      requires Valid()
      modifies this
      ensures Valid()
      ensures round == old(round) && completions == old(completions) && highlightedZone == old(highlightedZone)
      ensures !old(ShowsError()) && old(currentScreen) == PreChoice && !old(hasMadeChoice) ==>
                selections == old(selections) + [areaId] && hasMadeChoice && currentScreen == PostChoice
      ensures old(ShowsError()) || old(currentScreen) != PreChoice || old(hasMadeChoice) ==>
                selections == old(selections) && hasMadeChoice == old(hasMadeChoice) &&
                currentScreen == old(currentScreen)
      ensures |selections| <= |old(selections)| + 1 && choicesThisRound <= 1
    {
      if round in storyRounds && currentScreen == PreChoice {
        if hasMadeChoice {
          return;
        }
        selections := selections + [areaId];
        choicesThisRound := choicesThisRound + 1;
        hasMadeChoice := true;
        currentScreen := PostChoice;
      }
    }

    /** Hovering a zone or a choice button on the choice screen highlights it (None when the pointer leaves). */
    method Hover(zone: Option<string>)
      requires Valid()
      modifies this
      ensures Valid()
      ensures round == old(round) && currentScreen == old(currentScreen) && hasMadeChoice == old(hasMadeChoice)
      ensures selections == old(selections) && completions == old(completions)
      ensures !old(ShowsError()) && old(currentScreen) == PreChoice ==> highlightedZone == zone
      ensures old(ShowsError()) || old(currentScreen) != PreChoice ==> highlightedZone == old(highlightedZone)
    {
      if round in storyRounds && currentScreen == PreChoice {
        highlightedZone := zone;
      }
    }

    /** On the choice screen no choice has been made yet, so the guard in `handleZoneSelect` never turns a choice away there. */
    lemma ChoiceScreenHasNoChoice()
      requires Valid() && currentScreen == PreChoice
      ensures !hasMadeChoice && choicesThisRound == 0
    {
    }
  }

  /**
   * An example scenario, not an operation of the component: one particular sequence of
   * events (six presses, a choice, a second choice, a final press) driven through the
   * narrative's own methods, showing that on this path the round reaches the choice
   * screen, passes on exactly the first area chosen, turns the second choice away and
   * completes once.
   */
  method PlayRound(n: Narrative, first: string, second: string)
    requires n.Valid() && n.currentScreen == Intro && !n.ShowsError()
    modifies n
    ensures n.Valid() && n.currentScreen == PostChoice
    ensures n.selections == old(n.selections) + [first]
    ensures n.completions == old(n.completions) + 1
  {
    var i := 0;
    while i < 6
      invariant 0 <= i <= 6
      invariant n.Valid() && n.currentScreen == Clicks(Intro, i) && !n.ShowsError()
      invariant n.round == old(n.round) && n.selections == old(n.selections) && n.completions == old(n.completions)
    {
      ClicksFromIntro(i);
      n.ClickButton();
      i := i + 1;
    }
    ClicksFromIntro(6);
    n.SelectZone(first);
    n.SelectZone(second);
    n.ClickButton();
  }
}
