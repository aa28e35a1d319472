/**
 * The scoring events of the live scoring screen (ScoringScreen.js:214-444).
 *
 * Each handler of the screen deep-copies the match state and then mutates the
 * copy field by field. Here every handler is a method that does the same on a
 * local copy (`r := s; r := r.(score := ...); ...`), and each method is proved
 * equal to a reference function (`AfterRuns`, `AfterExtra`, ...) that says in
 * one expression what the new state is. ScoringProofs states what those
 * functions promise.
 */
module ScoringEngine {
  import opened Wrappers
  import opened MatchModel

  /** Which player list the selection modal serves (`modalType`). */
  datatype PlayerModal = BatsmanModal | RetireModal | BowlerModal

  // ---------------------------------------------------------------------
  // Searches used by the handlers (`find` / `findIndex`)
  // ---------------------------------------------------------------------

  /** `b.onStrike && !b.isOut`: the batter a delivery is credited to. */
  predicate IsStriker(b: Batter) { b.onStrike && !b.isOut }

  /** `!b.onStrike && !b.isOut` */
  predicate IsNonStriker(b: Batter) { !b.onStrike && !b.isOut }

  /** The batter a selection replaces:
      `(b.onStrike && b.isOut) || (modalType === 'retire' && b.onStrike)`. */
  predicate IsOutgoing(modal: PlayerModal, b: Batter)
  {
    (b.onStrike && b.isOut) || (modal == RetireModal && b.onStrike)
  }

  /** `findIndex`: the first index whose batter satisfies `p`. */
  function FirstIndex(bs: seq<Batter>, p: Batter -> bool): (r: Option<nat>)
    ensures r.Some? ==> r.value < |bs| && p(bs[r.value])
    ensures r.Some? ==> forall j :: 0 <= j < r.value ==> !p(bs[j])
    ensures r.None? <==> forall j :: 0 <= j < |bs| ==> !p(bs[j])
  {
    if bs == [] then None
    else if p(bs[0]) then Some(0)
    else match FirstIndex(bs[1..], p)
      case None => None
      case Some(i) => Some(i + 1)
  }

  function StrikerIndex(bs: seq<Batter>): Option<nat>
  {
    FirstIndex(bs, IsStriker)
  }

  // ---------------------------------------------------------------------
  // Strike rotation and over completion
  // ---------------------------------------------------------------------

  /** The `forEach` body `if (!b.isOut) b.onStrike = !b.onStrike`. */
  function Flip(b: Batter): Batter
  {
    if b.isOut then b else b.(onStrike := !b.onStrike)
  }

  /** Every not-out batter's strike flag toggled; out batters untouched. */
  function Rotated(bs: seq<Batter>): seq<Batter>
  {
    seq(|bs|, i requires 0 <= i < |bs| => Flip(bs[i]))
  }

  /** `ball === 0 || (typeof ball === 'object' && (ball.type === 'Byes' ||
      ball.type === 'LegByes'))` */
  predicate MaidenBall(b: Ball)
  {
    b == RunsBall(0) || (b.ExtraBall? && (b.kind == Byes || b.kind == LegByes))
  }

  /** `currentOver.every(...)`: nothing so far spoils a maiden. */
  predicate MaidenCandidate(over: seq<Ball>)
  {
    forall k :: 0 <= k < |over| ==> MaidenBall(over[k])
  }

  /** `completeOver`: archive the over, count it (half a unit) for the
      bowler, add half a maiden if it qualifies, start a fresh over, swap
      strike, and end the powerplay after the sixth over of innings one. */
  function CompletedOver(s: MatchState): MatchState
  {
    s.(allOvers := s.allOvers + [OverSummary(s.overs + 1, s.currentOver, s.bowler.name)],
       overs := s.overs + 1,
       bowler := s.bowler.(overHalves := s.bowler.overHalves + 1,
                           maidenHalves := if MaidenCandidate(s.currentOver) then s.bowler.maidenHalves + 1
                                           else s.bowler.maidenHalves),
       balls := 0,
       currentOver := [],
       batsmen := Rotated(s.batsmen),
       isPowerplay := if s.overs + 1 == 6 && s.inning == 1 then false else s.isPowerplay)
  }

  /** `Math.max(0, maidens - 1)` in half-units. */
  function LessOneMaiden(halves: nat): nat
  {
    if halves >= 2 then halves - 2 else 0
  }

  // ---------------------------------------------------------------------
  // Reference functions, one per handler
  // ---------------------------------------------------------------------

  /** The striker's part of `handleRuns` (ScoringScreen.js:222-243). */
  function Credited(s: MatchState, i: nat, n: nat): MatchState
    requires i < |s.batsmen|
  {
    var b := s.batsmen[i];
    s.(score := s.score + n,
       batsmen := s.batsmen[i := b.(score := b.score + n, balls := b.balls + 1,
                                    fours := if n == 4 then b.fours + 1 else b.fours,
                                    sixes := if n == 6 then b.sixes + 1 else b.sixes)],
       bowler := s.bowler.(runs := s.bowler.runs + n,
                           maidenHalves := if MaidenCandidate(s.currentOver) && n > 0
                                           then LessOneMaiden(s.bowler.maidenHalves)
                                           else s.bowler.maidenHalves),
       balls := s.balls + 1,
       partnership := s.partnership.(runs := s.partnership.runs + n, balls := s.partnership.balls + 1))
  }

  /** `handleRuns(n)`: credit the striker if there is one, then record the
      ball, then complete the over or rotate strike on odd runs. */
  function AfterRuns(s: MatchState, n: nat): MatchState
  {
    var s1 := match StrikerIndex(s.batsmen)
              case Some(i) => Credited(s, i, n)
              case None => s;
    var s2 := s1.(currentOver := s1.currentOver + [RunsBall(n)]);
    if s2.balls == OverLength then CompletedOver(s2)
    else if n % 2 != 0 then s2.(batsmen := Rotated(s2.batsmen))
    else s2
  }

  /** Byes and leg byes count as deliveries and are not charged to the bowler. */
  predicate IsByeKind(k: ExtraKind)
  {
    k == Byes || k == LegByes
  }

  /** `handleExtra(type, runs)` up to the over-completion check
      (ScoringScreen.js:301-333). */
  function ExtraRecorded(s: MatchState, k: ExtraKind, n: nat): MatchState
  {
    var s1 := s.(extras := AddExtra(s.extras, k, n), score := s.score + n);
    var s2 := if !IsByeKind(k) then s1.(bowler := s1.bowler.(runs := s1.bowler.runs + n)) else s1;
    var s3 := s2.(currentOver := s2.currentOver + [ExtraBall(k, n)]);
    if IsByeKind(k)
    then s3.(balls := s3.balls + 1, partnership := s3.partnership.(balls := s3.partnership.balls + 1))
    else s3
  }

  /** `handleExtra(type, runs)` (ScoringScreen.js:294-342). */
  function AfterExtra(s: MatchState, k: ExtraKind, n: nat): MatchState
  {
    var t := ExtraRecorded(s, k, n);
    if t.balls == OverLength then CompletedOver(t) else t
  }

  /** The dismissal part of `handleWicket` once it has been accepted. */
  function Dismissed(s: MatchState, i: nat, d: string): MatchState
    requires i < |s.batsmen|
  {
    s.(wickets := s.wickets + 1,
       balls := s.balls + 1,
       bowler := s.bowler.(wickets := s.bowler.wickets + 1),
       currentOver := s.currentOver + [WicketBall(d)],
       batsmen := s.batsmen[i := s.batsmen[i].(isOut := true)],
       partnership := Partnership(0, 0, None, None))
  }

  /** Whether `handleWicket` accepts a wicket in state `s`. */
  predicate WicketAllowed(s: MatchState)
  {
    StrikerIndex(s.batsmen).Some? && s.wickets < AllOutThreshold(s)
  }

  /** `handleWicket(dismissal)` (ScoringScreen.js:345-382). */
  function AfterWicket(s: MatchState, d: string): MatchState
  {
    if WicketAllowed(s) then
      var s1 := Dismissed(s, StrikerIndex(s.batsmen).value, d);
      if s1.balls == OverLength then CompletedOver(s1) else s1
    else s
  }

  /** `nonStriker?.id || null` */
  function PartnerId(bs: seq<Batter>): Option<nat>
  {
    match FirstIndex(bs, IsNonStriker)
    case None => None
    case Some(j) => if bs[j].id != 0 then Some(bs[j].id) else None
  }

  /** A fresh batter seated on strike with the next id. */
  function NewBatter(id: nat, p: Player): Batter
  {
    Batter(id, p.name, 0, 0, 0, 0, true, false)
  }

  /** `handleNewPlayerSelection(player)` (ScoringScreen.js:385-444). */
  function AfterSelection(s: MatchState, modal: PlayerModal, p: Player): MatchState
  {
    if modal == BowlerModal then
      s.(bowler := Bowler(s.nextBowlerId, p.name, 0, 0, 0, 0), nextBowlerId := s.nextBowlerId + 1)
    else
      match FirstIndex(s.batsmen, b => IsOutgoing(modal, b))
      case None => s
      case Some(i) =>
        var bs1 := if modal == RetireModal then s.batsmen[i := s.batsmen[i].(isOut := true)] else s.batsmen;
        var bs2 := bs1 + [NewBatter(s.nextBatsmanId, p)];
        s.(batsmen := bs2,
           nextBatsmanId := s.nextBatsmanId + 1,
           partnership := Partnership(0, 0, Some(s.nextBatsmanId), PartnerId(bs2)))
  }

  function Min(a: int, b: int): int { if a <= b then a else b }

  /** `handleStartNextInnings` (ScoringScreen.js:457-507): a fresh record
      built from the previous one. The openers are always the first two of
      `teamBPlayers` and the opening bowler `teamAPlayers[0]` (its name, or
      the empty string when that squad is empty). */
  function NextInnings(s: MatchState): MatchState
  {
    var openers := seq(Min(2, |s.teamBPlayers|), i requires 0 <= i < Min(2, |s.teamBPlayers|) =>
                         Batter(i + 1, s.teamBPlayers[i].name, 0, 0, 0, 0, i == 0, false));
    var bowlerName := if |s.teamAPlayers| > 0 then s.teamAPlayers[0].name else "";
    s.(inning := 2,
       target := s.score + 1,
       score := 0, wickets := 0, overs := 0, balls := 0,
       currentOver := [],
       extras := Extras(0, 0, 0, 0, 0),
       batsmen := openers,
       bowler := Bowler(1, bowlerName, 0, 0, 0, 0),
       nextBatsmanId := 3,
       nextBowlerId := 2,
       allOvers := [],
       battingTeamName := s.bowlingTeamName,
       bowlingTeamName := s.battingTeamName,
       isPowerplay := true,
       powerplayOvers := 0,
       partnership := Partnership(0, 0, Some(1), Some(2)))
  }

  // ---------------------------------------------------------------------
  // The handlers, step by step on a copy of the state
  // ---------------------------------------------------------------------

  /** `batsmen.forEach(b => { if (!b.isOut) b.onStrike = !b.onStrike })` */
  method RotateStrike(bs: seq<Batter>) returns (r: seq<Batter>)
    ensures r == Rotated(bs)
  {
    r := bs;
    var i := 0;
    while i < |r|
      invariant 0 <= i <= |r| == |bs|
      invariant forall k :: 0 <= k < i ==> r[k] == Flip(bs[k])
      invariant forall k :: i <= k < |r| ==> r[k] == bs[k]
    {
      if !r[i].isOut {
        r := r[i := r[i].(onStrike := !r[i].onStrike)];
      }
      i := i + 1;
    }
  }

  /** `completeOver(state)`, which mutates the state it is given. */
  method CompleteOver(s: MatchState) returns (r: MatchState)
    ensures r == CompletedOver(s)
  {
    r := s;
    r := r.(allOvers := r.allOvers + [OverSummary(r.overs + 1, r.currentOver, r.bowler.name)]);
    r := r.(overs := r.overs + 1);
    r := r.(bowler := r.bowler.(overHalves := r.bowler.overHalves + 1));
    var isMaiden := MaidenCandidate(r.currentOver);
    if isMaiden {
      r := r.(bowler := r.bowler.(maidenHalves := r.bowler.maidenHalves + 1));
    }
    r := r.(balls := 0);
    r := r.(currentOver := []);
    var rotated := RotateStrike(r.batsmen);
    r := r.(batsmen := rotated);
    if r.overs == 6 && r.inning == 1 {
      r := r.(isPowerplay := false);
    }
  }

  /** The striker's part of `handleRuns(n)`, on the copy. */
  method CreditStriker(s: MatchState, i: nat, n: nat) returns (r: MatchState)
    requires i < |s.batsmen|
    ensures r == Credited(s, i, n)
  {
    r := s;
    var striker := r.batsmen[i];
    r := r.(score := r.score + n);
    striker := striker.(score := striker.score + n);
    r := r.(bowler := r.bowler.(runs := r.bowler.runs + n));
    striker := striker.(balls := striker.balls + 1);
    r := r.(balls := r.balls + 1);
    r := r.(partnership := r.partnership.(runs := r.partnership.runs + n));
    r := r.(partnership := r.partnership.(balls := r.partnership.balls + 1));
    if n == 4 { striker := striker.(fours := striker.fours + 1); }
    if n == 6 { striker := striker.(sixes := striker.sixes + 1); }
    r := r.(batsmen := r.batsmen[i := striker]);
    var isMaidenCandidate := MaidenCandidate(r.currentOver);
    if isMaidenCandidate && n > 0 {
      r := r.(bowler := r.bowler.(maidenHalves := LessOneMaiden(r.bowler.maidenHalves)));
    }
  }

  /** The state update of `handleRuns(n)`. */
  method ApplyRuns(s: MatchState, n: nat) returns (r: MatchState)
    ensures r == AfterRuns(s, n)
  {
    r := s;
    var found := StrikerIndex(r.batsmen);
    if found.Some? {
      r := CreditStriker(r, found.value, n);
    }
    r := r.(currentOver := r.currentOver + [RunsBall(n)]);
    if r.balls == OverLength {
      r := CompleteOver(r);
    } else if n % 2 != 0 {
      var rotated := RotateStrike(r.batsmen);
      r := r.(batsmen := rotated);
    }
  }

  /** `handleExtra(type, runs)` on the copy, before the over check. */
  method RecordExtra(s: MatchState, k: ExtraKind, n: nat) returns (r: MatchState)
    ensures r == ExtraRecorded(s, k, n)
  {
    r := s;
    r := r.(extras := AddExtra(r.extras, k, n));
    r := r.(score := r.score + n);
    if k != Byes && k != LegByes {
      r := r.(bowler := r.bowler.(runs := r.bowler.runs + n));
    }
    r := r.(currentOver := r.currentOver + [ExtraBall(k, n)]);
    match k {
      case Wides =>
      case NoBalls =>
      case Byes =>
        r := r.(balls := r.balls + 1);
        r := r.(partnership := r.partnership.(balls := r.partnership.balls + 1));
      case LegByes =>
        r := r.(balls := r.balls + 1);
        r := r.(partnership := r.partnership.(balls := r.partnership.balls + 1));
      case Penalty =>
    }
  }

  /** The state update of `handleExtra(type, runs)`. */
  method ApplyExtra(s: MatchState, k: ExtraKind, n: nat) returns (r: MatchState)
    ensures r == AfterExtra(s, k, n)
  {
    r := RecordExtra(s, k, n);
    if r.balls == OverLength {
      r := CompleteOver(r);
    }
  }

  /** The state update of `handleWicket(dismissal)`; `prompt` tells whether
      the screen then asks for the incoming batter. */
  method ApplyWicket(s: MatchState, d: string) returns (r: MatchState, prompt: bool)
    ensures r == AfterWicket(s, d)
    ensures prompt <==> WicketAllowed(s) && r.wickets < AllOutThreshold(s)
  {
    r := s;
    prompt := false;
    var found := StrikerIndex(r.batsmen);
    if found.Some? && r.wickets < |r.teamAPlayers| - 1 {
      var i := found.value;
      r := r.(wickets := r.wickets + 1);
      r := r.(balls := r.balls + 1);
      r := r.(bowler := r.bowler.(wickets := r.bowler.wickets + 1));
      r := r.(currentOver := r.currentOver + [WicketBall(d)]);
      r := r.(batsmen := r.batsmen[i := r.batsmen[i].(isOut := true)]);
      r := r.(partnership := Partnership(0, 0, None, None));
      if r.balls == OverLength {
        r := CompleteOver(r);
      }
      if r.wickets < |r.teamAPlayers| - 1 {
        prompt := true;
      }
    }
  }

  /** The state update of `handleNewPlayerSelection(player)` for the modal
      kind the screen has open. */
  method ApplySelection(s: MatchState, modal: PlayerModal, p: Player) returns (r: MatchState)
    ensures r == AfterSelection(s, modal, p)
  {
    r := s;
    if modal == BatsmanModal || modal == RetireModal {
      var outgoing := FirstIndex(r.batsmen, b => IsOutgoing(modal, b));
      if outgoing.Some? {
        var i := outgoing.value;
        if modal == RetireModal {
          r := r.(batsmen := r.batsmen[i := r.batsmen[i].(isOut := true)]);
        }
        r := r.(batsmen := r.batsmen + [NewBatter(r.nextBatsmanId, p)]);
        r := r.(nextBatsmanId := r.nextBatsmanId + 1);
        var partner := PartnerId(r.batsmen);
        r := r.(partnership := Partnership(0, 0, Some(r.nextBatsmanId - 1), partner));
      }
    } else if modal == BowlerModal {
      r := r.(bowler := Bowler(r.nextBowlerId, p.name, 0, 0, 0, 0));
      r := r.(nextBowlerId := r.nextBowlerId + 1);
    }
  }
}
