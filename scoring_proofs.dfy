/**
 * What the scoring events promise, stated about the reference functions of
 * ScoringEngine: the invariant every event keeps (the team score is the sum
 * of the batters' runs and the extras, at most five legal deliveries are
 * pending, one archive entry per completed over, ...), the effect of each
 * event, and the places where the screen does NOT keep the rule a reader
 * would expect (two batters on strike at once, a later run erasing an
 * earlier maiden).
 */
module ScoringProofs {
  import opened Wrappers
  import opened MatchModel
  import opened ScoringEngine

  /** The four kinds of event the scoring screen accepts during an innings. */
  datatype Event =
    | RunsEvent(n: nat)
    | ExtraEvent(kind: ExtraKind, n: nat)
    | WicketEvent(dismissal: string)
    | SelectEvent(modal: PlayerModal, player: Player)

  function Apply(s: MatchState, e: Event): MatchState
  {
    match e
    case RunsEvent(n) => AfterRuns(s, n)
    case ExtraEvent(k, n) => AfterExtra(s, k, n)
    case WicketEvent(d) => AfterWicket(s, d)
    case SelectEvent(m, p) => AfterSelection(s, m, p)
  }

  // ---------------------------------------------------------------------
  // Helpers about the batting total and the id discipline
  // ---------------------------------------------------------------------

  lemma {:induction false} BattingRunsUpdate(bs: seq<Batter>, i: nat, b: Batter)
    requires i < |bs|
    ensures BattingRuns(bs[i := b]) + bs[i].score == BattingRuns(bs) + b.score
    decreases |bs|
  {
    var last := |bs| - 1;
    if i < last {
      assert bs[i := b][..last] == bs[..last][i := b];
      BattingRunsUpdate(bs[..last], i, b);
    } else {
      assert bs[i := b][..last] == bs[..last];
    }
  }

  lemma BattingRunsAppend(bs: seq<Batter>, b: Batter)
    ensures BattingRuns(bs + [b]) == BattingRuns(bs) + b.score
  {
    assert (bs + [b])[..|bs|] == bs;
  }

  lemma {:induction false} BattingRunsSameScores(a: seq<Batter>, b: seq<Batter>)
    requires |a| == |b|
    requires forall i :: 0 <= i < |a| ==> a[i].score == b[i].score
    ensures BattingRuns(a) == BattingRuns(b)
    decreases |a|
  {
    if a != [] {
      BattingRunsSameScores(a[..|a| - 1], b[..|b| - 1]);
    }
  }

  lemma BattingRunsOfZeros(bs: seq<Batter>)
    requires forall i :: 0 <= i < |bs| ==> bs[i].score == 0
    ensures BattingRuns(bs) == 0
  {
    if bs != [] {
      BattingRunsOfZeros(bs[..|bs| - 1]);
    }
  }

  lemma {:induction false} SameIdsKeepIdsBelow(a: seq<Batter>, b: seq<Batter>, next: nat)
    requires IdsBelow(a, next)
    requires |a| == |b| && forall i :: 0 <= i < |a| ==> a[i].id == b[i].id
    ensures IdsBelow(b, next)
    decreases |a|
  {
    if a != [] {
      SameIdsKeepIdsBelow(a[..|a| - 1], b[..|b| - 1], a[|a| - 1].id);
    }
  }

  lemma RotatedKeepsTotals(bs: seq<Batter>, next: nat)
    requires IdsBelow(bs, next)
    ensures BattingRuns(Rotated(bs)) == BattingRuns(bs)
    ensures IdsBelow(Rotated(bs), next)
  {
    BattingRunsSameScores(bs, Rotated(bs));
    SameIdsKeepIdsBelow(bs, Rotated(bs), next);
  }

  // ---------------------------------------------------------------------
  // The invariant
  // ---------------------------------------------------------------------

  /** Closing an over keeps the ledger and leaves no legal delivery pending. */
  lemma LedgerCompletedOver(s: MatchState)
    requires Ledger(s)
    ensures Inv(CompletedOver(s))
  {
    RotatedKeepsTotals(s.batsmen, s.nextBatsmanId);
    var r := CompletedOver(s);
    forall k | 0 <= k < |r.allOvers|
      ensures r.allOvers[k].overNumber == k + 1
    {
      if k < |s.allOvers| {
        assert r.allOvers[k] == s.allOvers[k];
      }
    }
  }

  /** Crediting the striker keeps the ledger: the batter's runs and the
      team score rise together. */
  lemma LedgerCredited(s: MatchState, i: nat, n: nat)
    requires Ledger(s) && i < |s.batsmen|
    ensures Ledger(Credited(s, i, n))
  {
    var r := Credited(s, i, n);
    BattingRunsUpdate(s.batsmen, i, r.batsmen[i]);
    SameIdsKeepIdsBelow(s.batsmen, r.batsmen, s.nextBatsmanId);
  }

  lemma {:induction false} InvAfterRuns(s: MatchState, n: nat)
    requires Inv(s)
    ensures Inv(AfterRuns(s, n))
  {
    var s1 := if StrikerIndex(s.batsmen).Some? then Credited(s, StrikerIndex(s.batsmen).value, n) else s;
    if StrikerIndex(s.batsmen).Some? {
      LedgerCredited(s, StrikerIndex(s.batsmen).value, n);
    }
    assert s1.balls <= s.balls + 1 && s1.currentOver == s.currentOver;
    var s2 := s1.(currentOver := s1.currentOver + [RunsBall(n)]);
    assert Ledger(s2);
    assert AfterRuns(s, n) == if s2.balls == OverLength then CompletedOver(s2)
                              else if n % 2 != 0 then s2.(batsmen := Rotated(s2.batsmen)) else s2;
    if s2.balls == OverLength {
      LedgerCompletedOver(s2);
    } else if n % 2 != 0 {
      RotatedKeepsTotals(s2.batsmen, s2.nextBatsmanId);
    }
  }

  /** Recording an extra keeps the ledger: the extras table and the team
      score rise together. */
  lemma LedgerExtraRecorded(s: MatchState, k: ExtraKind, n: nat)
    requires Inv(s)
    ensures Ledger(ExtraRecorded(s, k, n))
    ensures ExtraRecorded(s, k, n).balls <= s.balls + 1
    ensures ExtraRecorded(s, k, n).balls <= |ExtraRecorded(s, k, n).currentOver|
  {
  }

  lemma {:induction false} InvAfterExtra(s: MatchState, k: ExtraKind, n: nat)
    requires Inv(s)
    ensures Inv(AfterExtra(s, k, n))
  {
    var t := ExtraRecorded(s, k, n);
    LedgerExtraRecorded(s, k, n);
    if t.balls == OverLength {
      LedgerCompletedOver(t);
    }
  }

  lemma {:induction false} InvAfterWicket(s: MatchState, d: string)
    requires Inv(s)
    ensures Inv(AfterWicket(s, d))
  {
    if WicketAllowed(s) {
      var i := StrikerIndex(s.batsmen).value;
      var s1 := Dismissed(s, i, d);
      BattingRunsUpdate(s.batsmen, i, s1.batsmen[i]);
      SameIdsKeepIdsBelow(s.batsmen, s1.batsmen, s.nextBatsmanId);
      assert Ledger(s1);
      if s1.balls == OverLength {
        LedgerCompletedOver(s1);
      }
    }
  }

  lemma IdsBelowAppend(bs: seq<Batter>, next: nat, b: Batter)
    requires IdsBelow(bs, next) && b.id == next
    ensures IdsBelow(bs + [b], next + 1)
  {
    assert (bs + [b])[..|bs|] == bs;
  }

  /** Seating an incoming batter with no runs and the next id keeps the
      ledger, whatever the new partnership. */
  lemma LedgerSeated(s: MatchState, bs1: seq<Batter>, nb: Batter, pt: Partnership)
    requires Ledger(s)
    requires BattingRuns(bs1) == BattingRuns(s.batsmen) && IdsBelow(bs1, s.nextBatsmanId)
    requires nb.id == s.nextBatsmanId && nb.score == 0
    ensures Ledger(s.(batsmen := bs1 + [nb], nextBatsmanId := s.nextBatsmanId + 1, partnership := pt))
  {
    var t := s.(batsmen := bs1 + [nb], nextBatsmanId := s.nextBatsmanId + 1, partnership := pt);
    assert t.score == BattingRuns(t.batsmen) + ExtrasTotal(t.extras) by {
      BattingRunsAppend(bs1, nb);
    }
    assert IdsBelow(t.batsmen, t.nextBatsmanId) by {
      IdsBelowAppend(bs1, s.nextBatsmanId, nb);
    }
  }

  lemma {:induction false} InvAfterSelection(s: MatchState, modal: PlayerModal, p: Player)
    requires Inv(s)
    ensures Inv(AfterSelection(s, modal, p))
  {
    if modal != BowlerModal {
      var found := FirstIndex(s.batsmen, b => IsOutgoing(modal, b));
      if found.Some? {
        var i := found.value;
        var bs1 := if modal == RetireModal then s.batsmen[i := s.batsmen[i].(isOut := true)] else s.batsmen;
        BattingRunsUpdate(s.batsmen, i, s.batsmen[i].(isOut := true));
        SameIdsKeepIdsBelow(s.batsmen, bs1, s.nextBatsmanId);
        var nb := NewBatter(s.nextBatsmanId, p);
        LedgerSeated(s, bs1, nb, Partnership(0, 0, Some(s.nextBatsmanId), PartnerId(bs1 + [nb])));
      }
    }
  }

  /** Starting the second innings yields a state satisfying the invariant,
      whatever state it starts from. */
  lemma NextInningsInv(s: MatchState)
    ensures Inv(NextInnings(s))
  {
    var r := NextInnings(s);
    BattingRunsOfZeros(r.batsmen);
  }

  lemma InvPreserved(s: MatchState, e: Event)
    requires Inv(s)
    ensures Inv(Apply(s, e))
  {
    match e
    case RunsEvent(n) => InvAfterRuns(s, n);
    case ExtraEvent(k, n) => InvAfterExtra(s, k, n);
    case WicketEvent(d) => InvAfterWicket(s, d);
    case SelectEvent(m, p) => InvAfterSelection(s, m, p);
  }
}
