/**
 * The scoring screen as a whole: the current match state, the undo
 * history, which player list the selection modal serves, and the
 * end-of-innings check with the result text (ScoringScreen.js:119-208,
 * 446-507).
 */
module ScoringSession {
  import opened Wrappers
  import opened Text
  import opened MatchModel
  import opened ScoringEngine
  import ScoringProofs

  // ---------------------------------------------------------------------
  // End of innings and result
  // ---------------------------------------------------------------------

  /** `isOverLimit || allOut || targetChased` */
  predicate InningsEnded(s: MatchState, totalOvers: int)
  {
    || s.overs >= totalOvers
    || s.wickets >= AllOutThreshold(s)
    || (s.inning == 2 && s.score >= s.target)
  }

  /** How a finished second innings went. */
  datatype Outcome =
    | Tied
    | ChaseWon(team: string, wicketsLeft: int)
    | DefenceWon(team: string, runs: int)

  /** The result rules of the second innings (ScoringScreen.js:190-199). */
  function MatchOutcome(s: MatchState): Outcome
  {
    if s.score == s.target - 1 then Tied
    else if s.score >= s.target then ChaseWon(s.battingTeamName, AllOutThreshold(s) - s.wickets)
    else DefenceWon(s.bowlingTeamName, s.target - s.score - 1)
  }

  /** The result line shown on the summary screen. */
  function ResultText(o: Outcome): string
  {
    match o
    case Tied => "Match Tied!"
    case ChaseWon(t, w) => t + " won by " + IntToString(w) + " wickets"
    case DefenceWon(t, r) => t + " won by " + IntToString(r) + " runs"
  }

  /** What the screen hands to the summary screen when the match ends. */
  datatype Summary = Summary(finalState: MatchState, result: string, totalOvers: int)

  /** The outcome of one run of the end-of-innings check. */
  datatype Verdict = Continue | InningsBreak | MatchOver(summary: Summary)

  /** The check run after a change of score, wickets or overs: nothing
      while the innings-over dialog is up or the innings goes on; the
      dialog after the first innings; the summary after the second. */
  function Lifecycle(s: MatchState, totalOvers: int, inningsOver: bool): Verdict
  {
    if inningsOver || !InningsEnded(s, totalOvers) then Continue
    else if s.inning == 1 then InningsBreak
    else MatchOver(Summary(s, if s.inning == 2 then ResultText(MatchOutcome(s)) else "", totalOvers))
  }

  /** The check acts exactly when the innings has ended and the dialog is
      not already up; it asks for the second innings after the first and
      ends the match after the second. */
  lemma LifecycleActs(s: MatchState, totalOvers: int, inningsOver: bool)
    requires Inv(s)
    ensures Lifecycle(s, totalOvers, inningsOver) != Continue <==> !inningsOver && InningsEnded(s, totalOvers)
    ensures Lifecycle(s, totalOvers, inningsOver) == InningsBreak <==>
              !inningsOver && InningsEnded(s, totalOvers) && s.inning == 1
    ensures Lifecycle(s, totalOvers, inningsOver).MatchOver? ==>
              && s.inning == 2
              && Lifecycle(s, totalOvers, inningsOver).summary == Summary(s, ResultText(MatchOutcome(s)), totalOvers)
  {
  }

  /** In the second innings the match is tied exactly when the score is one
      short of the target; otherwise the chasing side wins exactly when it
      has reached the target, by the wickets it has left, and the defending
      side wins by the runs it had to spare. */
  lemma OutcomeRules(s: MatchState)
    ensures MatchOutcome(s) == Tied <==> s.score == s.target - 1
    ensures MatchOutcome(s).ChaseWon? <==> s.score >= s.target
    ensures MatchOutcome(s).ChaseWon? ==>
              MatchOutcome(s) == ChaseWon(s.battingTeamName, AllOutThreshold(s) - s.wickets)
    ensures MatchOutcome(s).DefenceWon? <==> s.score < s.target - 1
    ensures MatchOutcome(s).DefenceWon? ==>
              MatchOutcome(s) == DefenceWon(s.bowlingTeamName, s.target - s.score - 1) && MatchOutcome(s).runs >= 1
  {
  }

  /** In a reachable state of a side with at least one player, a chase is
      never won with a negative number of wickets left. */
  lemma ChaseMarginNonNegative(s: MatchState)
    requires Inv(s) && |s.teamAPlayers| >= 1
    requires MatchOutcome(s).ChaseWon?
    ensures 0 <= MatchOutcome(s).wicketsLeft <= AllOutThreshold(s)
  {
  }

  /** The result line names the winning side and its margin, and a tie reads
      differently from any win (a win line contains " won by "; "Match
      Tied!" is too short to). */
  lemma ResultTextShape(o: Outcome)
    ensures o == Tied <==> ResultText(o) == "Match Tied!"
    ensures o.ChaseWon? ==> ResultText(o)[..|o.team|] == o.team
    ensures o.DefenceWon? ==> ResultText(o)[..|o.team|] == o.team
    ensures o.ChaseWon? ==> ResultText(o)[|o.team| + 8 + |IntToString(o.wicketsLeft)|..] == " wickets"
    ensures o.DefenceWon? ==> ResultText(o)[|o.team| + 8 + |IntToString(o.runs)|..] == " runs"
  {
    if !o.Tied? {
      assert |ResultText(o)| > |"Match Tied!"|;
    }
  }

  /** A chase reaching a target of 50 with three wickets down ends the match
      at once, won by the wickets left. */
  lemma ChaseScenario(s: MatchState, totalOvers: int)
    requires s.inning == 2 && s.target == 50 && s.score == 50 && s.wickets == 3
    requires |s.teamAPlayers| == 11
    ensures Lifecycle(s, totalOvers, false) ==
      MatchOver(Summary(s, s.battingTeamName + " won by 7 wickets", totalOvers))
  {
    assert IntToString(7) == "7";
  }

  /** Overs exhausted one run short of the target: a tie. */
  lemma TieScenario(s: MatchState, totalOvers: int)
    requires s.inning == 2 && s.overs == totalOvers && s.score == s.target - 1
    ensures Lifecycle(s, totalOvers, false) == MatchOver(Summary(s, "Match Tied!", totalOvers))
  {
  }

  /** A first innings that ends brings up the dialog; starting the second
      innings then sets the target one above the first-innings score, swaps
      the sides, and seats the first two of the second squad against the
      first player of the first squad. */
  lemma SecondInningsStart(s: MatchState)
    ensures var r := NextInnings(s);
      && Inv(r)
      && r.inning == 2 && r.target == s.score + 1
      && r.battingTeamName == s.bowlingTeamName && r.bowlingTeamName == s.battingTeamName
      && r.score == 0 && r.wickets == 0 && r.overs == 0 && r.balls == 0 && r.allOvers == []
      && |r.batsmen| == Min(2, |s.teamBPlayers|)
      && (forall i :: 0 <= i < |r.batsmen| ==>
            r.batsmen[i].name == s.teamBPlayers[i].name && r.batsmen[i].id == i + 1 && !r.batsmen[i].isOut
            && r.batsmen[i].onStrike == (i == 0))
      && r.bowler.name == (if |s.teamAPlayers| > 0 then s.teamAPlayers[0].name else "")
      && r.teamAPlayers == s.teamAPlayers && r.teamBPlayers == s.teamBPlayers
  {
    ScoringProofs.NextInningsInv(s);
  }

  // ---------------------------------------------------------------------
  // The player list of the selection modal
  // ---------------------------------------------------------------------

  /** `b.id === p.id && !b.isOut` for some batter. */
  predicate BattingNow(bs: seq<Batter>, id: nat)
  {
    exists j :: 0 <= j < |bs| && bs[j].id == id && !bs[j].isOut
  }

  /** The players the modal offers: the second squad for a bowler change,
      the first squad otherwise, less anyone whose id matches a not-out
      batter (ScoringScreen.js:814-815). */
  function Candidates(s: MatchState, modal: PlayerModal): (r: seq<Player>)
  {
    Unbatted(if modal == BowlerModal then s.teamBPlayers else s.teamAPlayers, s.batsmen)
  }

  function Unbatted(squad: seq<Player>, bs: seq<Batter>): (r: seq<Player>)
    ensures |r| <= |squad|
    ensures forall i :: 0 <= i < |r| ==> r[i] in squad && !BattingNow(bs, r[i].id)
    ensures forall p :: p in squad && !BattingNow(bs, p.id) ==> p in r
  {
    if squad == [] then []
    else
      var rest := Unbatted(squad[1..], bs);
      assert forall p :: p in squad[1..] ==> p in squad;
      if BattingNow(bs, squad[0].id) then rest else [squad[0]] + rest
  }

  // ---------------------------------------------------------------------
  // The screen
  // ---------------------------------------------------------------------

  /** The screen's state: the match record, the snapshots for undo, the
      modal kind, the innings-over flag and, once the match is over, the
      summary handed on. */
  class Scorer {
    var state: MatchState
    var history: seq<MatchState>
    var modal: PlayerModal
    var inningsOver: bool
    var summary: Option<Summary>
    const totalOvers: int

    /** Every state the screen holds or can go back to keeps the invariant. */
    ghost predicate Valid()
      reads this
    {
      Inv(state) && forall i :: 0 <= i < |history| ==> Inv(history[i])
    }

    constructor (battingTeam: string, bowlingTeam: string, overs: int, teamA: seq<Player>, teamB: seq<Player>)
      ensures Valid()
      ensures state == Initial(battingTeam, bowlingTeam, teamA, teamB)
      ensures history == [] && modal == BatsmanModal && !inningsOver && summary == None
      ensures totalOvers == overs
    {
      state := Initial(battingTeam, bowlingTeam, teamA, teamB);
      history := [];
      modal := BatsmanModal;
      inningsOver := false;
      summary := None;
      totalOvers := overs;
    }

    /** `saveToHistory` */
    method SaveToHistory()
      modifies this
      requires Valid()
      ensures Valid()
      ensures history == old(history) + [old(state)]
      ensures state == old(state) && modal == old(modal) && inningsOver == old(inningsOver) && summary == old(summary)
    {
      history := history + [state];
    }

    /** `handleRuns(n)` */
    method HandleRuns(n: nat)
      modifies this
      requires Valid()
      ensures Valid()
      ensures state == AfterRuns(old(state), n) && history == old(history) + [old(state)]
      ensures modal == old(modal) && inningsOver == old(inningsOver) && summary == old(summary)
    {
      SaveToHistory();
      ScoringProofs.InvAfterRuns(state, n);
      state := ApplyRuns(state, n);
    }

    /** `handleExtra(type, n)` */
    method HandleExtra(k: ExtraKind, n: nat)
      modifies this
      requires Valid()
      ensures Valid()
      ensures state == AfterExtra(old(state), k, n) && history == old(history) + [old(state)]
      ensures modal == old(modal) && inningsOver == old(inningsOver) && summary == old(summary)
    {
      SaveToHistory();
      ScoringProofs.InvAfterExtra(state, k, n);
      state := ApplyExtra(state, k, n);
    }

    /** `handleWicket(dismissal)`: when the innings can go on, the modal is
        switched to the batter list for the replacement. */
    method HandleWicket(d: string)
      modifies this
      requires Valid()
      ensures Valid()
      ensures state == AfterWicket(old(state), d) && history == old(history) + [old(state)]
      ensures modal == (if WicketAllowed(old(state)) && state.wickets < AllOutThreshold(state)
                        then BatsmanModal else old(modal))
      ensures inningsOver == old(inningsOver) && summary == old(summary)
    {
      SaveToHistory();
      ScoringProofs.InvAfterWicket(state, d);
      var prompt;
      state, prompt := ApplyWicket(state, d);
      if prompt {
        modal := BatsmanModal;
      }
    }

    /** The bowler row and the Retire button choose the list the selection
        modal serves. */
    method OpenPlayerModal(m: PlayerModal)
      modifies this
      requires Valid()
      ensures Valid()
      ensures modal == m
      ensures state == old(state) && history == old(history)
      ensures inningsOver == old(inningsOver) && summary == old(summary)
    {
      modal := m;
    }

    /** `handleNewPlayerSelection(player)` for the list the modal serves. */
    method HandleNewPlayerSelection(p: Player)
      modifies this
      requires Valid()
      ensures Valid()
      ensures state == AfterSelection(old(state), old(modal), p) && history == old(history) + [old(state)]
      ensures modal == old(modal) && inningsOver == old(inningsOver) && summary == old(summary)
    {
      SaveToHistory();
      ScoringProofs.InvAfterSelection(state, modal, p);
      state := ApplySelection(state, modal, p);
    }

    /** `handleUndo`: back to the last snapshot, dropping it; with no
        snapshot nothing changes and `undone` is false (the alert). */
    method HandleUndo() returns (undone: bool)
      modifies this
      requires Valid()
      ensures Valid()
      ensures undone <==> |old(history)| > 0
      ensures undone ==> state == old(history)[|old(history)| - 1] && history == old(history)[..|old(history)| - 1]
      ensures !undone ==> state == old(state) && history == old(history)
      ensures modal == old(modal) && inningsOver == old(inningsOver) && summary == old(summary)
    {
      if |history| > 0 {
        state := history[|history| - 1];
        history := history[..|history| - 1];
        undone := true;
      } else {
        undone := false;
      }
    }

    /** `handleStartNextInnings`: the dialog closes, the first-innings state
        is kept for undo, and the fresh record takes over. */
    method HandleStartNextInnings()
      modifies this
      requires Valid()
      ensures Valid()
      ensures state == NextInnings(old(state)) && history == old(history) + [old(state)]
      ensures !inningsOver && modal == old(modal) && summary == old(summary)
    {
      inningsOver := false;
      SaveToHistory();
      ScoringProofs.NextInningsInv(state);
      state := NextInnings(state);
    }

    /** The end-of-innings check: raise the dialog after the first innings,
        record the summary after the second. */
    method CheckInnings()
      modifies this
      requires Valid()
      ensures Valid()
      ensures var v := Lifecycle(old(state), totalOvers, old(inningsOver));
        && inningsOver == (old(inningsOver) || v == InningsBreak)
        && summary == (if v.MatchOver? then Some(v.summary) else old(summary))
      ensures state == old(state) && history == old(history) && modal == old(modal)
    {
      var v := Lifecycle(state, totalOvers, inningsOver);
      match v {
        case Continue =>
        case InningsBreak => inningsOver := true;
        case MatchOver(sum) => summary := Some(sum);
      }
    }
  }

  /** Undo right after a scoring shot, from a screen with no earlier
      snapshot, puts the screen back exactly as it was; a second undo then
      has nothing to restore and reports it. */
  method UndoAfterRuns(sc: Scorer, n: nat)
    modifies sc
    requires sc.Valid() && sc.history == []
    ensures sc.Valid()
    ensures sc.state == old(sc.state) && sc.history == []
  {
    sc.HandleRuns(n);
    var undone := sc.HandleUndo();
    assert undone;
    var again := sc.HandleUndo();
    assert !again;
  }
}
