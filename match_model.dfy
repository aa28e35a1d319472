/**
 * The match-state record the live scoring screen keeps for the innings in
 * progress (ScoringScreen.js:119-143), its parts, and the invariant every
 * scoring event keeps.
 *
 * Bowler overs and maidens are counted in half-units: the screen adds 0.5
 * for each completed over and each maiden, so `overHalves == 2 * overs`.
 */
module MatchModel {
  import opened Wrappers

  /** The five extras categories; `type.toLowerCase()` picks the table key. */
  datatype ExtraKind = Wides | NoBalls | Byes | LegByes | Penalty

  /** One entry of the over in progress. The screen pushes a bare number for
      runs, an object `{type, runs}` for an extra and the string
      `W-<dismissal>` for a wicket. */
  datatype Ball = RunsBall(runs: nat) | ExtraBall(kind: ExtraKind, runs: nat) | WicketBall(dismissal: string)

  /** The extras table; every category is always present. */
  datatype Extras = Extras(wides: nat, noballs: nat, byes: nat, legbyes: nat, penalty: nat)

  /** A squad entry `{id, name}`. */
  datatype Player = Player(id: nat, name: string)

  datatype Batter = Batter(id: nat, name: string, score: nat, balls: nat, fours: nat, sixes: nat,
                           onStrike: bool, isOut: bool)

  /** `batsman1`/`batsman2` hold batter ids or `null`. */
  datatype Partnership = Partnership(runs: nat, balls: nat, batsman1: Option<nat>, batsman2: Option<nat>)

  /** The bowler record; `overHalves` and `maidenHalves` count half-units. */
  datatype Bowler = Bowler(id: nat, name: string, overHalves: nat, maidenHalves: nat, runs: nat, wickets: nat)

  /** An archived over `{overNumber, balls, bowler}`. */
  datatype OverSummary = OverSummary(overNumber: nat, balls: seq<Ball>, bowler: string)

  datatype MatchState = MatchState(
    inning: nat,
    target: nat,
    battingTeamName: string,
    bowlingTeamName: string,
    score: nat,
    wickets: nat,
    overs: nat,
    balls: nat,
    currentOver: seq<Ball>,
    extras: Extras,
    batsmen: seq<Batter>,
    partnership: Partnership,
    bowler: Bowler,
    nextBatsmanId: nat,
    nextBowlerId: nat,
    allOvers: seq<OverSummary>,
    teamAPlayers: seq<Player>,
    teamBPlayers: seq<Player>,
    isPowerplay: bool,
    powerplayOvers: nat)

  /** The scoring screen completes an over at exactly six legal deliveries;
      the balls-per-over chosen at match setup is never consulted. */
  const OverLength: nat := 6

  /** Wickets that end an innings: one less than the size of the first
      squad, in both innings. */
  function AllOutThreshold(s: MatchState): int
  {
    |s.teamAPlayers| - 1
  }

  function ExtrasTotal(e: Extras): nat
  {
    e.wides + e.noballs + e.byes + e.legbyes + e.penalty
  }

  /** `extras[type.toLowerCase()]` */
  function ExtraOf(e: Extras, k: ExtraKind): nat
  {
    match k
    case Wides => e.wides
    case NoBalls => e.noballs
    case Byes => e.byes
    case LegByes => e.legbyes
    case Penalty => e.penalty
  }

  /** `extras[type.toLowerCase()] += runs` */
  function AddExtra(e: Extras, k: ExtraKind, n: nat): (r: Extras)
    ensures ExtraOf(r, k) == ExtraOf(e, k) + n
    ensures forall k' :: k' != k ==> ExtraOf(r, k') == ExtraOf(e, k')
    ensures ExtrasTotal(r) == ExtrasTotal(e) + n
  {
    match k
    case Wides => e.(wides := e.wides + n)
    case NoBalls => e.(noballs := e.noballs + n)
    case Byes => e.(byes := e.byes + n)
    case LegByes => e.(legbyes := e.legbyes + n)
    case Penalty => e.(penalty := e.penalty + n)
  }

  /** Runs credited to the batters of the innings. */
  function BattingRuns(bs: seq<Batter>): nat
  {
    if bs == [] then 0 else BattingRuns(bs[..|bs| - 1]) + bs[|bs| - 1].score
  }

  /** Batter ids strictly increase along the list and stay below `next`,
      so no id is ever handed out twice. Stated from the last batter back
      to the first; `IdsBelowMeans` gives the pointwise reading. */
  predicate IdsBelow(bs: seq<Batter>, next: nat)
    decreases |bs|
  {
    bs == [] || (bs[|bs| - 1].id < next && IdsBelow(bs[..|bs| - 1], bs[|bs| - 1].id))
  }

  /** `IdsBelow` holds exactly when every id is below `next` and ids
      increase along the list. */
  lemma {:induction false} IdsBelowMeans(bs: seq<Batter>, next: nat)
    ensures IdsBelow(bs, next) <==>
      && (forall i :: 0 <= i < |bs| ==> bs[i].id < next)
      && (forall i, j :: 0 <= i < j < |bs| ==> bs[i].id < bs[j].id)
    decreases |bs|
  {
    if bs != [] {
      var init := bs[..|bs| - 1];
      var last := bs[|bs| - 1];
      IdsBelowMeans(init, last.id);
      assert forall i :: 0 <= i < |init| ==> init[i] == bs[i];
    }
  }

  /** The bookkeeping that holds at every point, even at the instant a
      sixth legal delivery has been counted and the over not yet closed. */
  predicate Ledger(s: MatchState)
  {
    && (s.inning == 1 || s.inning == 2)
    && (s.inning == 1 ==> s.target == 0)
    && (s.inning == 2 ==> s.target >= 1)
    && |s.allOvers| == s.overs
    && (forall k :: 0 <= k < |s.allOvers| ==> s.allOvers[k].overNumber == k + 1)
    && s.score == BattingRuns(s.batsmen) + ExtrasTotal(s.extras)
    && (s.wickets == 0 || s.wickets <= AllOutThreshold(s))
    && s.bowler.maidenHalves <= s.bowler.overHalves
    && s.bowler.id < s.nextBowlerId
    && IdsBelow(s.batsmen, s.nextBatsmanId)
  }

  /** What every scoring event keeps true of the match state between
      events: the ledger, and fewer than six legal deliveries in the over in
      progress. Deliberately absent: "exactly one not-out batter is on
      strike", which the screen does not maintain (see ScoringProofs). */
  predicate Inv(s: MatchState)
  {
    Ledger(s) && s.balls < OverLength && s.balls <= |s.currentOver|
  }

  /** The record the screen starts with. The two openers and the opening
      bowler are the literal names written into the initial state, not
      players taken from the squads. */
  function Initial(battingTeam: string, bowlingTeam: string, teamA: seq<Player>, teamB: seq<Player>): (s: MatchState)
    ensures Inv(s)
    ensures s.score == 0 && s.wickets == 0 && s.overs == 0 && s.balls == 0
  {
    var s := MatchState(
      1, 0, battingTeam, bowlingTeam, 0, 0, 0, 0, [],
      Extras(0, 0, 0, 0, 0),
      [Batter(1, "Banuka", 0, 0, 0, 0, true, false), Batter(2, "Pasindu", 0, 0, 0, 0, false, false)],
      Partnership(0, 0, Some(1), Some(2)),
      Bowler(1, "Charitha", 0, 0, 0, 0),
      3, 2, [], teamA, teamB, true, 0);
    assert s.batsmen[..1] == [s.batsmen[0]];
    assert [s.batsmen[0]][..0] == [];
    s
  }
}
