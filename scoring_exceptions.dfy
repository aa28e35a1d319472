/**
 * Facts about sequences of scoring events: out batters are never touched
 * again, a dot-ball over counts half a maiden, the opening over of a short
 * match, and the situations in which the screen seats two not-out batters
 * on strike or takes back a maiden earned in an earlier over.
 */
module ScoringExceptions {
  import opened Wrappers
  import opened MatchModel
  import opened ScoringEngine
  import opened ScoringProofs
  import opened ScoringEffects

  /** `r` has every batter of `s`, and the out ones exactly as they were. */
  predicate KeepsOutBatters(s: MatchState, r: MatchState)
  {
    && |r.batsmen| >= |s.batsmen|
    && forall j :: 0 <= j < |s.batsmen| && s.batsmen[j].isOut ==> r.batsmen[j] == s.batsmen[j]
  }

  lemma RunsKeepOutBatters(s: MatchState, n: nat)
    requires s.balls < OverLength
    ensures KeepsOutBatters(s, AfterRuns(s, n))
  {
    RunsStrike(s, n);
    if StrikerIndex(s.batsmen).Some? {
      RunsWithStriker(s, n, StrikerIndex(s.batsmen).value);
    } else {
      RunsWithoutStriker(s, n);
    }
  }

  lemma ExtraKeepsOutBatters(s: MatchState, k: ExtraKind, n: nat)
    requires s.balls < OverLength
    ensures KeepsOutBatters(s, AfterExtra(s, k, n))
  {
    ExtraEffect(s, k, n);
    ExtraDelivery(s, k, n);
    CompletedOverKeepsRecords(ExtraRecorded(s, k, n));
  }

  lemma WicketKeepsOutBatters(s: MatchState, d: string)
    requires s.balls < OverLength
    ensures KeepsOutBatters(s, AfterWicket(s, d))
  {
    if WicketAllowed(s) {
      WicketEffect(s, d, StrikerIndex(s.batsmen).value);
    }
  }

  lemma SelectionKeepsOutBatters(s: MatchState, m: PlayerModal, p: Player)
    requires IdsBelow(s.batsmen, s.nextBatsmanId)
    ensures KeepsOutBatters(s, AfterSelection(s, m, p))
  {
    if m != BowlerModal {
      var found := FirstIndex(s.batsmen, b => IsOutgoing(m, b));
      if found.Some? {
        BatterSeated(s, m, p, found.value);
      }
    }
  }

  /** Once a batter is out, no event changes their record, and the batting
      list only ever grows. */
  lemma OutBattersNeverChange(s: MatchState, e: Event)
    requires Inv(s)
    ensures |Apply(s, e).batsmen| >= |s.batsmen|
    ensures forall j :: 0 <= j < |s.batsmen| && s.batsmen[j].isOut ==> Apply(s, e).batsmen[j] == s.batsmen[j]
  {
    match e
    case RunsEvent(n) => RunsKeepOutBatters(s, n);
    case ExtraEvent(k, n) => ExtraKeepsOutBatters(s, k, n);
    case WicketEvent(d) => WicketKeepsOutBatters(s, d);
    case SelectEvent(m, p) => SelectionKeepsOutBatters(s, m, p);
  }

  // ---------------------------------------------------------------------
  // A dot-ball over
  // ---------------------------------------------------------------------

  /** An over so far made of `k` dot balls. */
  function DotBalls(k: nat): seq<Ball>
  {
    if k == 0 then [] else DotBalls(k - 1) + [RunsBall(0)]
  }

  /** `k` dot balls in a row. */
  function Dots(s: MatchState, k: nat): MatchState
    decreases k
  {
    if k == 0 then s else AfterRuns(Dots(s, k - 1), 0)
  }

  /** The same strike and out flags give the same striker. */
  lemma {:induction false} SameFlagsSameStriker(a: seq<Batter>, b: seq<Batter>)
    requires |a| == |b|
    requires forall j :: 0 <= j < |a| ==> a[j].onStrike == b[j].onStrike && a[j].isOut == b[j].isOut
    ensures StrikerIndex(a) == StrikerIndex(b)
    decreases |a|
  {
    if a != [] && !IsStriker(a[0]) {
      SameFlagsSameStriker(a[1..], b[1..]);
    }
  }

  /** `t` is `s` after `k` dot balls of a fresh over, none of them the
      last: a ball faced each, the striker, the bowler's figures and the score
      unchanged, and the dots piled up in the over. */
  predicate DotsSoFar(s: MatchState, t: MatchState, k: nat)
  {
    && t.balls == k && t.currentOver == DotBalls(k)
    && t.bowler == s.bowler && t.overs == s.overs && t.allOvers == s.allOvers && t.score == s.score
    && StrikerIndex(t.batsmen) == StrikerIndex(s.batsmen)
  }

  /** One more dot ball before the last of the over. */
  lemma DotStep(s: MatchState, u: MatchState, k: nat)
    requires DotsSoFar(s, u, k) && k < OverLength - 1 && StrikerIndex(s.batsmen).Some?
    ensures DotsSoFar(s, AfterRuns(u, 0), k + 1)
  {
    var i := StrikerIndex(u.batsmen).value;
    RunsWithStriker(u, 0, i);
    RunsCountsDelivery(u, 0);
    RunsStrike(u, 0);
    SameFlagsSameStriker(u.batsmen, AfterRuns(u, 0).batsmen);
    var s2 := Credited(u, i, 0).(currentOver := u.currentOver + [RunsBall(0)]);
    assert AfterRuns(u, 0) == s2;
  }

  lemma DotsStep(s: MatchState, k: nat)
    requires 0 < k < OverLength && DotsSoFar(s, Dots(s, k - 1), k - 1) && StrikerIndex(s.batsmen).Some?
    ensures DotsSoFar(s, Dots(s, k), k)
  {
    var u := Dots(s, k - 1);
    DotStep(s, u, k - 1);
    assert Dots(s, k) == AfterRuns(u, 0);
  }

  lemma {:induction false} DotsPending(s: MatchState, k: nat)
    requires s.balls == 0 && s.currentOver == [] && StrikerIndex(s.batsmen).Some?
    requires k < OverLength
    ensures DotsSoFar(s, Dots(s, k), k)
  {
    if k == 0 {
      assert Dots(s, 0) == s;
    } else {
      DotsPending(s, k - 1);
      DotsStep(s, k);
    }
  }

  /** The sixth dot ball of a fresh over. */
  lemma LastDot(s: MatchState, u: MatchState)
    requires DotsSoFar(s, u, OverLength - 1) && StrikerIndex(s.batsmen).Some?
    ensures var t := AfterRuns(u, 0);
      && t.bowler.maidenHalves == s.bowler.maidenHalves + 1
      && t.bowler.overHalves == s.bowler.overHalves + 1
      && t.overs == s.overs + 1 && t.balls == 0 && t.score == s.score
      && t.allOvers == s.allOvers + [OverSummary(s.overs + 1, DotBalls(OverLength), s.bowler.name)]
  {
    RunsCountsDelivery(u, 0);
    var i := StrikerIndex(u.batsmen).value;
    var s2 := Credited(u, i, 0).(currentOver := u.currentOver + [RunsBall(0)]);
    assert AfterRuns(u, 0) == CompletedOver(s2);
    assert s2.currentOver == DotBalls(OverLength);
    forall j | 0 <= j < |s2.currentOver| ensures MaidenBall(s2.currentOver[j]) {
      DotBallsAreDots(OverLength, j);
    }
  }

  lemma {:induction false} DotBallsAreDots(k: nat, j: nat)
    requires j < k
    ensures |DotBalls(k)| == k && DotBalls(k)[j] == RunsBall(0)
  {
    if j < k - 1 {
      DotBallsAreDots(k - 1, j);
    }
    DotBallsLength(k - 1);
  }

  lemma {:induction false} DotBallsLength(k: nat)
    ensures |DotBalls(k)| == k
  {
    if k > 0 {
      DotBallsLength(k - 1);
    }
  }

  /** Six dot balls (`k` is the over length) from the start of an over
      close it with a single half-unit of maiden: two such overs make one
      maiden. */
  lemma DotOverIsHalfMaiden(s: MatchState, k: nat)
    requires s.balls == 0 && s.currentOver == [] && StrikerIndex(s.batsmen).Some?
    requires k == OverLength
    ensures var t := Dots(s, k);
      && t.bowler.maidenHalves == s.bowler.maidenHalves + 1
      && t.bowler.overHalves == s.bowler.overHalves + 1
      && t.overs == s.overs + 1 && t.balls == 0 && t.score == s.score
      && t.allOvers == s.allOvers + [OverSummary(s.overs + 1, DotBalls(k), s.bowler.name)]
  {
    DotsPending(s, k - 1);
    LastDot(s, Dots(s, k - 1));
  }

  // ---------------------------------------------------------------------
  // Where the screen breaks the usual rules
  // ---------------------------------------------------------------------

  /** A wicket on the sixth ball: the over ends and the surviving batter
      moves on strike, then the replacement is seated on strike as well. */
  lemma SixthBallWicketLeavesTwoStrikers(s: MatchState, d: string, p: Player)
    requires s.balls == OverLength - 1
    requires |s.batsmen| == 2 && IsStriker(s.batsmen[0]) && IsNonStriker(s.batsmen[1])
    requires s.wickets + 1 < AllOutThreshold(s)
    ensures var w := AfterWicket(s, d);
      var t := AfterSelection(w, BatsmanModal, p);
      && w.wickets < AllOutThreshold(w)
      && |t.batsmen| == 3 && IsStriker(t.batsmen[1]) && IsStriker(t.batsmen[2])
  {
    var w := AfterWicket(s, d);
    WicketEffect(s, d, 0);
    assert w.batsmen[0].isOut && w.batsmen[0].onStrike;
    assert FirstIndex(w.batsmen, b => IsOutgoing(BatsmanModal, b)) == Some(0);
  }

  /** Retiring right after a sixth-ball wicket picks the dismissed batter
      (first in the list with the strike flag set), so the batter actually on
      strike stays in and is joined by a second striker. */
  lemma RetireAfterSixthBallWicketPicksOutBatter(s: MatchState, d: string, p: Player)
    requires s.balls == OverLength - 1
    requires |s.batsmen| == 2 && IsStriker(s.batsmen[0]) && IsNonStriker(s.batsmen[1])
    requires s.wickets + 1 < AllOutThreshold(s)
    ensures var w := AfterWicket(s, d);
      var t := AfterSelection(w, RetireModal, p);
      && |t.batsmen| == 3 && t.batsmen[0] == w.batsmen[0]
      && IsStriker(t.batsmen[1]) && IsStriker(t.batsmen[2])
  {
    var w := AfterWicket(s, d);
    WicketEffect(s, d, 0);
    assert w.batsmen[0].isOut && w.batsmen[0].onStrike;
    assert FirstIndex(w.batsmen, b => IsOutgoing(RetireModal, b)) == Some(0);
  }

  /** A half maiden earned in the previous over is taken back by the first
      scoring shot of the next one. */
  lemma LaterRunErasesEarlierMaiden(s: MatchState, n: nat)
    requires s.balls < OverLength && StrikerIndex(s.batsmen).Some? && n > 0
    requires s.currentOver == [] && s.bowler.maidenHalves == 1
    ensures AfterRuns(s, n).bowler.maidenHalves == 0
  {
    RunsSpoilsMaiden(s, n);
  }

  /** The striker is the batter at `i` when `i` is the first not-out
      batter on strike. */
  lemma StrikerAt(bs: seq<Batter>, i: nat)
    requires i < |bs| && IsStriker(bs[i])
    requires forall j :: 0 <= j < i ==> !IsStriker(bs[j])
    ensures StrikerIndex(bs) == Some(i)
  {
  }

  // ---------------------------------------------------------------------
  // An opening over
  // ---------------------------------------------------------------------

  /** The first two balls of the match, 1 then 4: the openers swap, and
      the second opener has hit a four. */
  lemma OpeningBalls(battingTeam: string, bowlingTeam: string, teamA: seq<Player>, teamB: seq<Player>)
    ensures var s2 := AfterRuns(AfterRuns(Initial(battingTeam, bowlingTeam, teamA, teamB), 1), 4);
      && s2.batsmen == [Batter(1, "Banuka", 1, 1, 0, 0, false, false), Batter(2, "Pasindu", 4, 1, 1, 0, true, false)]
      && s2.score == 5 && s2.balls == 2 && s2.wickets == 0 && s2.overs == 0
      && s2.teamAPlayers == teamA && s2.nextBatsmanId == 3 && s2.allOvers == []
  {
    var s0 := Initial(battingTeam, bowlingTeam, teamA, teamB);
    StrikerAt(s0.batsmen, 0);
    var s1 := AfterRuns(s0, 1);
    assert s1.batsmen == [Batter(1, "Banuka", 1, 1, 0, 0, false, false), Batter(2, "Pasindu", 0, 0, 0, 0, true, false)];
    StrikerAt(s1.batsmen, 1);
  }

  /** The second opener is out third ball and `c` comes in, on strike, with
      the next id. */
  lemma WicketAndReplacement(s2: MatchState, d: string, c: Player)
    requires s2.batsmen == [Batter(1, "Banuka", 1, 1, 0, 0, false, false), Batter(2, "Pasindu", 4, 1, 1, 0, true, false)]
    requires s2.score == 5 && s2.balls == 2 && s2.wickets == 0 && s2.overs == 0
    requires |s2.teamAPlayers| == 3 && s2.nextBatsmanId == 3 && s2.allOvers == []
    ensures var s3 := AfterWicket(s2, d);
      var s4 := AfterSelection(s3, BatsmanModal, c);
      && s3.wickets < AllOutThreshold(s3)
      && s4.batsmen == [Batter(1, "Banuka", 1, 1, 0, 0, false, false), Batter(2, "Pasindu", 4, 1, 1, 0, true, true),
                        Batter(3, c.name, 0, 0, 0, 0, true, false)]
      && s4.score == 5 && s4.balls == 3 && s4.wickets == 1 && s4.overs == 0 && s4.allOvers == []
  {
    StrikerAt(s2.batsmen, 1);
    var s3 := AfterWicket(s2, d);
    assert s3.batsmen == [Batter(1, "Banuka", 1, 1, 0, 0, false, false), Batter(2, "Pasindu", 4, 1, 1, 0, true, true)];
    assert FirstIndex(s3.batsmen, b => IsOutgoing(BatsmanModal, b)) == Some(1);
  }

  /** 0, 0, 2 for the new batter: the over ends on 7 for 1 and the opener
      is back on strike. */
  lemma OverEnds(s4: MatchState, name: string)
    requires s4.batsmen == [Batter(1, "Banuka", 1, 1, 0, 0, false, false), Batter(2, "Pasindu", 4, 1, 1, 0, true, true),
                            Batter(3, name, 0, 0, 0, 0, true, false)]
    requires s4.score == 5 && s4.balls == 3 && s4.wickets == 1 && s4.overs == 0 && s4.allOvers == []
    ensures var s5 := AfterRuns(AfterRuns(AfterRuns(s4, 0), 0), 2);
      && s5.score == 7 && s5.wickets == 1 && s5.overs == 1 && s5.balls == 0 && |s5.allOvers| == 1
      && s5.batsmen == [Batter(1, "Banuka", 1, 1, 0, 0, true, false), Batter(2, "Pasindu", 4, 1, 1, 0, true, true),
                        Batter(3, name, 2, 3, 0, 0, false, false)]
  {
    StrikerAt(s4.batsmen, 2);
    var a := AfterRuns(s4, 0);
    assert a.batsmen == s4.batsmen[2 := Batter(3, name, 0, 1, 0, 0, true, false)];
    StrikerAt(a.batsmen, 2);
    var b := AfterRuns(a, 0);
    assert b.batsmen == s4.batsmen[2 := Batter(3, name, 0, 2, 0, 0, true, false)];
    StrikerAt(b.batsmen, 2);
    assert b.balls == 5;
  }

  /** Squads of three; 1, 4, a wicket, the replacement, 0, 0, 2: the over
      is complete with 7 runs for 1 wicket and the opener back on strike. */
  lemma OpeningOverScenario(teamA: seq<Player>, teamB: seq<Player>, c: Player, d: string)
    requires |teamA| == 3
    ensures
      var s0 := Initial("A", "B", teamA, teamB);
      var s1 := AfterRuns(s0, 1);
      var s2 := AfterRuns(s1, 4);
      var s3 := AfterWicket(s2, d);
      var s4 := AfterSelection(s3, BatsmanModal, c);
      var s5 := AfterRuns(AfterRuns(AfterRuns(s4, 0), 0), 2);
      && s3.wickets < AllOutThreshold(s3)
      && s5.score == 7 && s5.wickets == 1 && s5.overs == 1 && s5.balls == 0
      && |s5.allOvers| == 1 && |s5.batsmen| == 3
      && IsStriker(s5.batsmen[0]) && s5.batsmen[1].isOut && IsNonStriker(s5.batsmen[2])
      && s5.batsmen[2].score == 2
  {
    var s0 := Initial("A", "B", teamA, teamB);
    OpeningBalls("A", "B", teamA, teamB);
    var s2 := AfterRuns(AfterRuns(s0, 1), 4);
    WicketAndReplacement(s2, d, c);
    OverEnds(AfterSelection(AfterWicket(s2, d), BatsmanModal, c), c.name);
  }
}
