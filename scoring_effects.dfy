/**
 * The effect of each scoring event on the fields it touches, and what it
 * leaves alone, stated against the state before the event.
 */
module ScoringEffects {
  import opened Wrappers
  import opened MatchModel
  import opened ScoringEngine

  /** Two records of the same batter that may differ only in the strike flag. */
  predicate SameRecord(a: Batter, b: Batter)
  {
    a.(onStrike := b.onStrike) == b
  }

  /** A completed over leaves every batter's record as it was, apart from
      strike. */
  lemma CompletedOverKeepsRecords(s: MatchState)
    ensures |CompletedOver(s).batsmen| == |s.batsmen|
    ensures forall j :: 0 <= j < |s.batsmen| ==> SameRecord(s.batsmen[j], CompletedOver(s).batsmen[j])
  {
  }

  // ---------------------------------------------------------------------
  // Runs
  // ---------------------------------------------------------------------

  /** `handleRuns(n)` with a not-out striker at index `i`: the runs go to
      the team, the striker, the bowler and the partnership; the striker
      faces one more ball; fours and sixes are counted only for 4 and 6;
      no other batter's record changes. */
  lemma RunsWithStriker(s: MatchState, n: nat, i: nat)
    requires s.balls < OverLength && StrikerIndex(s.batsmen) == Some(i)
    ensures var r := AfterRuns(s, n);
      && r.score == s.score + n
      && r.wickets == s.wickets && r.extras == s.extras
      && |r.batsmen| == |s.batsmen|
      && r.batsmen[i].score == s.batsmen[i].score + n
      && r.batsmen[i].balls == s.batsmen[i].balls + 1
      && r.batsmen[i].fours == s.batsmen[i].fours + (if n == 4 then 1 else 0)
      && r.batsmen[i].sixes == s.batsmen[i].sixes + (if n == 6 then 1 else 0)
      && r.batsmen[i].isOut == s.batsmen[i].isOut
      && (forall j :: 0 <= j < |s.batsmen| && j != i ==> SameRecord(s.batsmen[j], r.batsmen[j]))
      && r.bowler.runs == s.bowler.runs + n
      && r.partnership.runs == s.partnership.runs + n
      && r.partnership.balls == s.partnership.balls + 1
  {
    var s2 := Credited(s, i, n).(currentOver := s.currentOver + [RunsBall(n)]);
    assert AfterRuns(s, n) == if s2.balls == OverLength then CompletedOver(s2)
                              else if n % 2 != 0 then s2.(batsmen := Rotated(s2.batsmen)) else s2;
  }

  /** With a striker, `handleRuns` counts one legal delivery: the sixth one
      archives the over (numbered `overs + 1`, with its balls and the
      bowler's name) and starts an empty one; any other stays in the over. */
  lemma RunsCountsDelivery(s: MatchState, n: nat)
    requires s.balls < OverLength && StrikerIndex(s.batsmen).Some?
    ensures var r := AfterRuns(s, n);
      if s.balls == OverLength - 1 then
        && r.allOvers == s.allOvers + [OverSummary(s.overs + 1, s.currentOver + [RunsBall(n)], s.bowler.name)]
        && r.overs == s.overs + 1 && r.balls == 0 && r.currentOver == []
      else
        && r.allOvers == s.allOvers && r.overs == s.overs
        && r.balls == s.balls + 1 && r.currentOver == s.currentOver + [RunsBall(n)]
  {
    var s2 := Credited(s, StrikerIndex(s.batsmen).value, n).(currentOver := s.currentOver + [RunsBall(n)]);
    assert AfterRuns(s, n) == if s2.balls == OverLength then CompletedOver(s2)
                              else if n % 2 != 0 then s2.(batsmen := Rotated(s2.batsmen)) else s2;
  }

  /** With no not-out striker, `handleRuns` still records the ball and
      still swaps strike on odd runs, but credits nobody and counts no
      delivery. */
  lemma RunsWithoutStriker(s: MatchState, n: nat)
    requires s.balls < OverLength && StrikerIndex(s.batsmen).None?
    ensures var r := AfterRuns(s, n);
      && r.score == s.score && r.balls == s.balls && r.overs == s.overs
      && r.bowler == s.bowler && r.partnership == s.partnership
      && r.currentOver == s.currentOver + [RunsBall(n)]
      && r.batsmen == (if n % 2 != 0 then Rotated(s.batsmen) else s.batsmen)
  {
  }

  /** Strike after `handleRuns(n)`: every not-out batter's flag toggles
      once when the ball ends the over (whatever `n` is) and otherwise when
      `n` is odd; out batters' flags and every batter's out flag stay. */
  lemma RunsStrike(s: MatchState, n: nat)
    requires s.balls < OverLength
    ensures var r := AfterRuns(s, n);
      var flip := if StrikerIndex(s.batsmen).Some? && s.balls == OverLength - 1 then true else n % 2 != 0;
      && |r.batsmen| == |s.batsmen|
      && forall j :: 0 <= j < |s.batsmen| ==>
           && r.batsmen[j].isOut == s.batsmen[j].isOut
           && r.batsmen[j].onStrike == (if s.batsmen[j].isOut || !flip then s.batsmen[j].onStrike
                                        else !s.batsmen[j].onStrike)
  {
    var s1 := if StrikerIndex(s.batsmen).Some? then Credited(s, StrikerIndex(s.batsmen).value, n) else s;
    var s2 := s1.(currentOver := s1.currentOver + [RunsBall(n)]);
    assert AfterRuns(s, n) == if s2.balls == OverLength then CompletedOver(s2)
                              else if n % 2 != 0 then s2.(batsmen := Rotated(s2.batsmen)) else s2;
    assert |s2.batsmen| == |s.batsmen|;
    assert forall j :: 0 <= j < |s.batsmen| ==>
      s2.batsmen[j].isOut == s.batsmen[j].isOut && s2.batsmen[j].onStrike == s.batsmen[j].onStrike;
  }

  // ---------------------------------------------------------------------
  // Maidens
  // ---------------------------------------------------------------------

  /** A ball that stops its over from being a maiden: a wicket, runs off
      the bat, or any extra that is not a bye or a leg bye. */
  predicate SpoilsMaiden(b: Ball)
  {
    || b.WicketBall?
    || (b.RunsBall? && b.runs > 0)
    || (b.ExtraBall? && !IsByeKind(b.kind))
  }

  /** Completing an over adds half an over to the bowler, and half a maiden
      exactly when no ball of the over spoils it. */
  lemma {:induction false} CompletedOverBowling(s: MatchState)
    ensures CompletedOver(s).bowler.overHalves == s.bowler.overHalves + 1
    ensures CompletedOver(s).bowler.maidenHalves == s.bowler.maidenHalves + 1
            <==> forall k :: 0 <= k < |s.currentOver| ==> !SpoilsMaiden(s.currentOver[k])
    ensures CompletedOver(s).bowler.maidenHalves == s.bowler.maidenHalves
            <==> exists k :: 0 <= k < |s.currentOver| && SpoilsMaiden(s.currentOver[k])
  {
    if forall k :: 0 <= k < |s.currentOver| ==> !SpoilsMaiden(s.currentOver[k]) {
      forall k | 0 <= k < |s.currentOver| ensures MaidenBall(s.currentOver[k]) {
        assert !SpoilsMaiden(s.currentOver[k]);
      }
    } else {
      var k :| 0 <= k < |s.currentOver| && SpoilsMaiden(s.currentOver[k]);
      assert !MaidenBall(s.currentOver[k]);
    }
  }

  /** An over in which a wicket fell never counts towards a maiden. */
  lemma OverWithWicketIsNoMaiden(s: MatchState, k: nat)
    requires k < |s.currentOver| && s.currentOver[k].WicketBall?
    ensures CompletedOver(s).bowler.maidenHalves == s.bowler.maidenHalves
  {
    CompletedOverBowling(s);
  }

  /** Runs off the bat on an over that has been clean so far take one whole
      maiden (two half-units, floored at zero) off the bowler, whether or not
      the ball ends the over. */
  lemma RunsSpoilsMaiden(s: MatchState, n: nat)
    requires s.balls < OverLength && StrikerIndex(s.batsmen).Some? && n > 0
    requires MaidenCandidate(s.currentOver)
    ensures AfterRuns(s, n).bowler.maidenHalves == LessOneMaiden(s.bowler.maidenHalves)
  {
    var s1 := Credited(s, StrikerIndex(s.batsmen).value, n);
    var s2 := s1.(currentOver := s1.currentOver + [RunsBall(n)]);
    assert AfterRuns(s, n) == if s2.balls == OverLength then CompletedOver(s2)
                              else if n % 2 != 0 then s2.(batsmen := Rotated(s2.batsmen)) else s2;
    assert !MaidenBall(s2.currentOver[|s2.currentOver| - 1]);
  }

  /** Runs off the bat on an over already spoilt leave the maiden count. */
  lemma RunsOnSpoiltOver(s: MatchState, n: nat)
    requires s.balls < OverLength && !MaidenCandidate(s.currentOver)
    ensures AfterRuns(s, n).bowler.maidenHalves == s.bowler.maidenHalves
  {
    var s1 := if StrikerIndex(s.batsmen).Some? then Credited(s, StrikerIndex(s.batsmen).value, n) else s;
    var s2 := s1.(currentOver := s1.currentOver + [RunsBall(n)]);
    assert AfterRuns(s, n) == if s2.balls == OverLength then CompletedOver(s2)
                              else if n % 2 != 0 then s2.(batsmen := Rotated(s2.batsmen)) else s2;
    var k :| 0 <= k < |s.currentOver| && !MaidenBall(s.currentOver[k]);
    assert s2.currentOver[k] == s.currentOver[k];
  }

  // ---------------------------------------------------------------------
  // Extras
  // ---------------------------------------------------------------------

  /** `handleExtra(k, n)`: the runs go to that extras category and the team
      score only; the bowler is charged unless they are byes or leg byes;
      partnership runs and every batter's record are untouched; byes and
      leg byes add a ball to the partnership. */
  lemma ExtraEffect(s: MatchState, k: ExtraKind, n: nat)
    requires s.balls < OverLength
    ensures var r := AfterExtra(s, k, n);
      && ExtraOf(r.extras, k) == ExtraOf(s.extras, k) + n
      && (forall k' :: k' != k ==> ExtraOf(r.extras, k') == ExtraOf(s.extras, k'))
      && r.score == s.score + n
      && r.wickets == s.wickets
      && r.bowler.runs == s.bowler.runs + (if IsByeKind(k) then 0 else n)
      && r.partnership.runs == s.partnership.runs
      && r.partnership.balls == s.partnership.balls + (if IsByeKind(k) then 1 else 0)
      && |r.batsmen| == |s.batsmen|
      && (forall j :: 0 <= j < |s.batsmen| ==> SameRecord(s.batsmen[j], r.batsmen[j]))
  {
  }

  /** Wides, no-balls and penalty runs are not deliveries: balls, overs and
      strike stay; the entry joins the over in progress. Byes and leg byes
      are: the sixth one closes the over, any other adds one to `balls`. */
  lemma ExtraDelivery(s: MatchState, k: ExtraKind, n: nat)
    requires s.balls < OverLength
    ensures var r := AfterExtra(s, k, n);
      if !IsByeKind(k) then
        && r.balls == s.balls && r.overs == s.overs && r.allOvers == s.allOvers
        && r.currentOver == s.currentOver + [ExtraBall(k, n)] && r.batsmen == s.batsmen
      else if s.balls == OverLength - 1 then
        && r.allOvers == s.allOvers + [OverSummary(s.overs + 1, s.currentOver + [ExtraBall(k, n)], s.bowler.name)]
        && r.overs == s.overs + 1 && r.balls == 0 && r.currentOver == []
        && r.batsmen == Rotated(s.batsmen)
      else
        && r.balls == s.balls + 1 && r.overs == s.overs && r.allOvers == s.allOvers
        && r.currentOver == s.currentOver + [ExtraBall(k, n)] && r.batsmen == s.batsmen
  {
  }

  /** Strike after `handleExtra(k, n)`: unlike runs off the bat, extras
      never swap strike on odd runs; only a bye or leg bye that is the
      sixth legal delivery toggles every not-out batter once, by closing
      the over. Out flags stay. */
  lemma ExtraStrike(s: MatchState, k: ExtraKind, n: nat)
    requires s.balls < OverLength
    ensures var r := AfterExtra(s, k, n);
      var closes := IsByeKind(k) && s.balls == OverLength - 1;
      && |r.batsmen| == |s.batsmen|
      && forall j :: 0 <= j < |s.batsmen| ==>
           && r.batsmen[j].isOut == s.batsmen[j].isOut
           && r.batsmen[j].onStrike == (s.batsmen[j].onStrike != (closes && !s.batsmen[j].isOut))
  {
    var t := ExtraRecorded(s, k, n);
    assert t.batsmen == s.batsmen;
  }

  // ---------------------------------------------------------------------
  // Wickets
  // ---------------------------------------------------------------------

  /** A wicket is counted exactly when there is a not-out striker and fewer
      than `|teamAPlayers| - 1` wickets have fallen; otherwise nothing at
      all changes. */
  lemma WicketCounted(s: MatchState, d: string)
    ensures AfterWicket(s, d).wickets == s.wickets + 1 <==> WicketAllowed(s)
    ensures !WicketAllowed(s) ==> AfterWicket(s, d) == s
  {
  }

  /** An accepted wicket: the striker is out with the rest of the record
      kept, other batters keep theirs, the bowler is credited, the score
      stands, the partnership is reset with both slots cleared, and the
      dismissal is one legal delivery. */
  lemma WicketEffect(s: MatchState, d: string, i: nat)
    requires s.balls < OverLength && WicketAllowed(s) && StrikerIndex(s.batsmen) == Some(i)
    ensures var r := AfterWicket(s, d);
      && r.wickets == s.wickets + 1
      && r.bowler.wickets == s.bowler.wickets + 1
      && r.bowler.runs == s.bowler.runs
      && r.score == s.score
      && |r.batsmen| == |s.batsmen|
      && r.batsmen[i] == s.batsmen[i].(isOut := true)
      && (forall j :: 0 <= j < |s.batsmen| && j != i ==> SameRecord(s.batsmen[j], r.batsmen[j]))
      && r.partnership == Partnership(0, 0, None, None)
      && if s.balls == OverLength - 1 then
           && r.allOvers == s.allOvers + [OverSummary(s.overs + 1, s.currentOver + [WicketBall(d)], s.bowler.name)]
           && r.overs == s.overs + 1 && r.balls == 0 && r.currentOver == []
         else
           && r.balls == s.balls + 1 && r.overs == s.overs
           && r.currentOver == s.currentOver + [WicketBall(d)]
           && (forall j :: 0 <= j < |s.batsmen| && j != i ==> r.batsmen[j] == s.batsmen[j])
  {
  }

  /** Strike and out flags after `handleWicket(d)`: the striker (when the
      wicket stands) is out and keeps its flag; a wicket that is the sixth
      legal delivery toggles every other not-out batter once, by closing
      the over; otherwise no strike flag moves. */
  lemma WicketStrike(s: MatchState, d: string)
    requires s.balls < OverLength
    ensures var r := AfterWicket(s, d);
      var closes := WicketAllowed(s) && s.balls == OverLength - 1;
      && |r.batsmen| == |s.batsmen|
      && forall j :: 0 <= j < |s.batsmen| ==>
           && r.batsmen[j].isOut == (s.batsmen[j].isOut || (WicketAllowed(s) && j == StrikerIndex(s.batsmen).value))
           && r.batsmen[j].onStrike == (s.batsmen[j].onStrike != (closes && !r.batsmen[j].isOut))
  {
    if WicketAllowed(s) {
      var i := StrikerIndex(s.batsmen).value;
      var s1 := Dismissed(s, i, d);
      assert forall j :: 0 <= j < |s.batsmen| ==>
        s1.batsmen[j].onStrike == s.batsmen[j].onStrike
        && s1.batsmen[j].isOut == (s.batsmen[j].isOut || j == i);
    }
  }

  // ---------------------------------------------------------------------
  // Player selection
  // ---------------------------------------------------------------------

  /** A new bowler gets the next bowler id, the player's name and empty
      figures; nothing else but the id counter changes. */
  lemma BowlerSelected(s: MatchState, p: Player)
    requires s.bowler.id < s.nextBowlerId
    ensures var r := AfterSelection(s, BowlerModal, p);
      && r.bowler.id == s.nextBowlerId && r.bowler.name == p.name
      && r.bowler.overHalves == 0 && r.bowler.maidenHalves == 0
      && r.bowler.runs == 0 && r.bowler.wickets == 0
      && r.bowler.id != s.bowler.id
      && r.nextBowlerId == s.nextBowlerId + 1
      && r.(bowler := s.bowler, nextBowlerId := s.nextBowlerId) == s
  {
  }

  /** Seating a batter (after a wicket, or retiring the striker): the new
      batter joins at the end, on strike, not out, with no runs and an id no
      batter of the innings has; for a retirement the outgoing batter is
      marked out; no other record changes and no wicket is counted; the new
      partnership starts from zero with the new batter first. */
  lemma BatterSeated(s: MatchState, modal: PlayerModal, p: Player, i: nat)
    requires IdsBelow(s.batsmen, s.nextBatsmanId) && modal != BowlerModal
    requires FirstIndex(s.batsmen, b => IsOutgoing(modal, b)) == Some(i)
    ensures var r := AfterSelection(s, modal, p);
      && |r.batsmen| == |s.batsmen| + 1
      && r.batsmen[|s.batsmen|] == NewBatter(s.nextBatsmanId, p)
      && IsStriker(r.batsmen[|s.batsmen|])
      && (forall j :: 0 <= j < |s.batsmen| ==> r.batsmen[j].id != s.nextBatsmanId)
      && r.batsmen[i] == (if modal == RetireModal then s.batsmen[i].(isOut := true) else s.batsmen[i])
      && r.batsmen[i].isOut
      && (forall j :: 0 <= j < |s.batsmen| && j != i ==> r.batsmen[j] == s.batsmen[j])
      && r.nextBatsmanId == s.nextBatsmanId + 1
      && r.partnership.runs == 0 && r.partnership.balls == 0
      && r.partnership.batsman1 == Some(s.nextBatsmanId)
      && r.score == s.score && r.wickets == s.wickets && r.balls == s.balls
  {
    IdsBelowMeans(s.batsmen, s.nextBatsmanId);
  }

  /** With nobody to replace, a batter selection changes nothing. */
  lemma NoOutgoingBatter(s: MatchState, modal: PlayerModal, p: Player)
    requires modal != BowlerModal
    requires forall j :: 0 <= j < |s.batsmen| ==> !IsOutgoing(modal, s.batsmen[j])
    ensures AfterSelection(s, modal, p) == s
  {
  }
}
