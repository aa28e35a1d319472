/**
 * The toss screen (TossScreen.js): the guarded coin flip, whose outcome is
 * one of the two team names, and the assignment of the batting and
 * bowling sides from the toss winner's choice.
 */
module Toss {
  import opened Wrappers

  /** 'Bat', or anything else, which the screen treats as bowling first. */
  datatype Choice = Bat | Bowl

  /** The sides under `handleChoice(choice)`: the winner when it bats,
      otherwise the team that is not the winner; the bowling side is the
      team that is not batting. `winner` is `null` until a flip ends. */
  function BattingTeam(winner: Option<string>, choice: Choice, a: string, b: string): Option<string>
  {
    if choice == Bat then winner
    else if winner == Some(a) then Some(b) else Some(a)
  }

  function BowlingTeam(batting: Option<string>, a: string, b: string): string
  {
    if batting == Some(a) then b else a
  }

  /** Batting first keeps the toss winner at the crease. */
  lemma BatMakesWinnerBat(winner: Option<string>, a: string, b: string)
    ensures BattingTeam(winner, Bat, a, b) == winner
  {
  }

  /** Bowling first sends the other team in: with two different teams and
      a winner among them, the team that bats is the one that lost the
      toss. */
  lemma BowlMakesOtherBat(w: string, a: string, b: string)
    requires a != b && (w == a || w == b)
    ensures BattingTeam(Some(w), Bowl, a, b) == Some(if w == a then b else a)
    ensures BattingTeam(Some(w), Bowl, a, b) != Some(w)
  {
  }

  /** With two differently named teams and a winner among them, batting
      and bowling are the two teams, one each, whatever the choice. */
  lemma SidesAreTheTwoTeams(w: string, choice: Choice, a: string, b: string)
    requires a != b && (w == a || w == b)
    ensures var bat := BattingTeam(Some(w), choice, a, b);
            bat.Some? && {bat.value, BowlingTeam(bat, a, b)} == {a, b} && bat.value != BowlingTeam(bat, a, b)
  {
  }

  /** The route parameters handed to the scoring screen. */
  datatype ChoiceParams = ChoiceParams(teamAName: string, teamBName: string, tossWinner: Option<string>,
                                       tossChoice: Choice, battingTeam: Option<string>, bowlingTeam: string)

  class TossState {
    const teamAName: string
    const teamBName: string
    var tossWinner: Option<string>
    var isFlipping: bool
    var isReady: bool

    /** The toss winner, once there is one, is one of the two teams. */
    ghost predicate Valid()
      reads this
    {
      tossWinner == None || tossWinner == Some(teamAName) || tossWinner == Some(teamBName)
    }

    /** A missing team name defaults to 'Team A' / 'Team B'. */
    constructor(aName: Option<string>, bName: Option<string>)
      ensures Valid()
      ensures teamAName == (if aName.Some? then aName.value else "Team A")
      ensures teamBName == (if bName.Some? then bName.value else "Team B")
      ensures tossWinner == None && !isFlipping && !isReady
    {
      teamAName := if aName.Some? then aName.value else "Team A";
      teamBName := if bName.Some? then bName.value else "Team B";
      tossWinner := None;
      isFlipping := false;
      isReady := false;
    }

    /** The mount effect marking the animation library ready. */
    method MarkReady()
      requires Valid()
      modifies this
      ensures Valid()
      ensures isReady && tossWinner == old(tossWinner) && isFlipping == old(isFlipping)
    {
      isReady := true;
    }

    /** `handleToss`: ignored while a flip is in progress or before the
        screen is ready; otherwise a flip starts and any previous winner is
        cleared. */
    method HandleToss() returns (started: bool)
      requires Valid()
      modifies this
      ensures Valid()
      ensures started <==> !old(isFlipping) && old(isReady)
      ensures !started ==> tossWinner == old(tossWinner) && isFlipping == old(isFlipping) && isReady == old(isReady)
      ensures started ==> isFlipping && tossWinner == None && isReady
    {
      if isFlipping || !isReady {
        return false;
      }
      isFlipping := true;
      tossWinner := None;
      started := true;
    }

    /** The timer that ends a flip: the coin picks one of the two teams
        (`Math.random() < 0.5`, as a free choice) and the flip is over. */
    method FinishFlip()
      requires Valid()
      modifies this
      ensures Valid()
      ensures tossWinner == Some(teamAName) || tossWinner == Some(teamBName)
      ensures !isFlipping && isReady == old(isReady)
    {
      var w :| w == teamAName || w == teamBName;
      tossWinner := Some(w);
      isFlipping := false;
    }

    /** `handleChoice(choice)`: the parameters for the scoring screen. */
    method HandleChoice(choice: Choice) returns (p: ChoiceParams)
      ensures p.battingTeam == BattingTeam(tossWinner, choice, teamAName, teamBName)
      ensures p.bowlingTeam == BowlingTeam(p.battingTeam, teamAName, teamBName)
      ensures p.tossWinner == tossWinner && p.tossChoice == choice
      ensures p.teamAName == teamAName && p.teamBName == teamBName
    {
      var battingTeam := if choice == Bat then tossWinner
                         else if tossWinner == Some(teamAName) then Some(teamBName) else Some(teamAName);
      var bowlingTeam := if battingTeam == Some(teamAName) then teamBName else teamAName;
      p := ChoiceParams(teamAName, teamBName, tossWinner, choice, battingTeam, bowlingTeam);
    }
  }
}
