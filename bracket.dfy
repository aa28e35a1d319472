/**
 * The fixtures screen of a tournament (FixturesScreen.js): recording the
 * winner of a fixture and, in a knockout, sending the winner on to a slot
 * of the next round's fixture; and the bracket view's grouping of fixtures
 * by round with its detection of the final round.
 *
 * The fixtures collection of the tournament is a map from document id to
 * fixture document.
 */
module Bracket {
  import opened Wrappers
  import opened Text
  import opened Tournament
  import AddTeams

  // ---------------------------------------------------------------------
  // Where a winner goes
  // ---------------------------------------------------------------------

  /** `Math.ceil(m / 2)`: the number of the next-round fixture. */
  function NextNumber(m: nat): (k: nat)
    ensures m <= 2 * k <= m + 1
  {
    (m + 1) / 2
  }

  /** `match_${r + 1}_${ceil(m / 2)}`: the id of the fixture the winner of
      fixture `m` of round `r` moves on to. */
  function NextMatchId(r: nat, m: nat): string
  {
    "match_" + NatToString(r + 1) + "_" + NatToString(NextNumber(m))
  }

  /** `matchNumber % 2 !== 0`: odd-numbered fixtures fill slot teamA,
      even-numbered ones slot teamB. */
  predicate FillsTeamA(m: nat)
  {
    m % 2 != 0
  }

  /** Fixtures 2k-1 and 2k of a round feed the two different slots of the
      same next fixture, number k. */
  lemma SiblingsMeet(k: nat)
    requires k >= 1
    ensures NextNumber(2 * k - 1) == k && NextNumber(2 * k) == k
    ensures FillsTeamA(2 * k - 1) && !FillsTeamA(2 * k)
  {
  }

  /** No two fixtures of a round compete for one slot: the same next
      fixture and the same slot mean the same fixture number. */
  lemma OneFixturePerSlot(m: nat, m': nat)
    requires NextNumber(m) == NextNumber(m') && (FillsTeamA(m) <==> FillsTeamA(m'))
    ensures m == m'
  {
  }

  lemma Separated(x: string, u: string, y: string, v: string)
    ensures |x| < |y| ==> (x + "_" + u)[|x|] == '_' && (y + "_" + v)[|x|] == y[|x|]
  {
  }

  /** A separator that cannot occur in a rendered number marks where the
      number ends. */
  lemma SeparatorAfterDigits(x: string, u: string, y: string, v: string)
    requires forall i :: 0 <= i < |x| ==> IsDigit(x[i])
    requires forall i :: 0 <= i < |y| ==> IsDigit(y[i])
    requires x + "_" + u == y + "_" + v
    ensures x == y && u == v
  {
    var s := x + "_" + u;
    if |x| < |y| {
      Separated(x, u, y, v);
      assert false;
    } else if |y| < |x| {
      Separated(y, v, x, u);
      assert false;
    }
    assert s[..|x|] == x && s[..|y|] == y;
    assert s[|x| + 1..] == u && s[|y| + 1..] == v;
  }

  lemma DigitsThenSeparator(a: nat, b: nat, c: nat, d: nat)
    requires NatToString(a) + "_" + NatToString(b) == NatToString(c) + "_" + NatToString(d)
    ensures a == c && b == d
  {
    SeparatorAfterDigits(NatToString(a), NatToString(b), NatToString(c), NatToString(d));
    NatToStringInjective(a, c);
    NatToStringInjective(b, d);
  }

  /** Next-round ids are equal exactly when they name the same round and
      the same next fixture number. */
  lemma NextMatchIdInjective(r: nat, m: nat, r': nat, m': nat)
    ensures NextMatchId(r, m) == NextMatchId(r', m') <==> r == r' && NextNumber(m) == NextNumber(m')
  {
    if NextMatchId(r, m) == NextMatchId(r', m') {
      var p := "match_";
      var tail := NatToString(r + 1) + "_" + NatToString(NextNumber(m));
      var tail' := NatToString(r' + 1) + "_" + NatToString(NextNumber(m'));
      assert NextMatchId(r, m) == p + tail;
      assert NextMatchId(r', m') == p + tail';
      assert tail == (p + tail)[|p|..] && tail' == (p + tail')[|p|..];
      DigitsThenSeparator(r + 1, NextNumber(m), r' + 1, NextNumber(m'));
    }
  }

  lemma DigitsHaveNoSeparator(x: string, u: string, y: string)
    requires forall i :: 0 <= i < |y| ==> IsDigit(y[i])
    ensures x + "_" + u != y
  {
    SeparatorAt(x, u, y);
  }

  lemma SeparatorAt(x: string, u: string, y: string)
    ensures x + "_" + u == y ==> y[|x|] == '_'
  {
  }

  /** A winner is never written over a first-round fixture: the first
      round is stored as `match_k`, and a next-round id has a second
      separator that a first-round id lacks. */
  lemma AdvanceNeverOverwritesFirstRound(r: nat, m: nat, k: nat)
    ensures NextMatchId(r, m) != AddTeams.FirstRoundId(k)
  {
    var p := "match_";
    var tail := NatToString(r + 1) + "_" + NatToString(NextNumber(m));
    assert NextMatchId(r, m) == p + tail;
    assert AddTeams.FirstRoundId(k) == p + NatToString(k);
    if NextMatchId(r, m) == AddTeams.FirstRoundId(k) {
      assert tail == (p + tail)[|p|..];
      assert NatToString(k) == (p + NatToString(k))[|p|..];
      DigitsHaveNoSeparator(NatToString(r + 1), NatToString(NextNumber(m)), NatToString(k));
      assert false;
    }
  }

  // ---------------------------------------------------------------------
  // Recording a winner
  // ---------------------------------------------------------------------

  /** The fields `updateDoc` writes on the decided fixture. */
  function Decided(f: Fixture, w: string): Fixture
  {
    f.(winner := Some(w), played := true, result := Some(w + " won."))
  }

  /** The next-round fixture after the winner of fixture `m` arrives: the
      existing document with one slot replaced, or a new document. */
  function Advanced(next: Option<Fixture>, r: nat, m: nat, w: string): Fixture
  {
    match next
    case Some(f) => if FillsTeamA(m) then f.(teamA := w) else f.(teamB := w)
    case None =>
      Fixture(if FillsTeamA(m) then w else "TBD", if FillsTeamA(m) then "TBD" else w,
              r + 1, NextNumber(m), false, None, None)
  }

  function Lookup(store: map<string, Fixture>, id: string): Option<Fixture>
  {
    if id in store then Some(store[id]) else None
  }

  /** The collection after `handleSelectWinner(w)` for the selected fixture
      `id`, whose round and number the screen read as `r` and `m`. A fixture
      id that is not in the collection makes the first write fail, and
      nothing is written. */
  function AfterWinner(store: map<string, Fixture>, format: Format, id: string, r: nat, m: nat, w: string)
    : map<string, Fixture>
  {
    if id !in store then store
    else
      var s1 := store[id := Decided(store[id], w)];
      if format == Knockout then
        s1[NextMatchId(r, m) := Advanced(Lookup(s1, NextMatchId(r, m)), r, m, w)]
      else s1
  }

  /** The collection when only the first write of `handleSelectWinner`
      lands: the decided fixture is stored, and reading or writing the
      next-round fixture then fails. */
  function WinnerOnly(store: map<string, Fixture>, id: string, w: string): map<string, Fixture>
  {
    if id !in store then store else store[id := Decided(store[id], w)]
  }

  /** A league only ever makes the first write. */
  lemma LeagueWritesWinnerOnly(store: map<string, Fixture>, id: string, r: nat, m: nat, w: string)
    ensures AfterWinner(store, League, id, r, m, w) == WinnerOnly(store, id, w)
  {
  }

  /** When advancing fails in a knockout, the fixture is decided but its
      winner reaches no next-round fixture: no document is created and the
      next-round fixture, if any, is as it was. */
  lemma DecidedNotAdvanced(store: map<string, Fixture>, id: string, r: nat, m: nat, w: string)
    requires id in store && id != NextMatchId(r, m)
    ensures var after := WinnerOnly(store, id, w);
            && after.Keys == store.Keys
            && after[id] == Decided(store[id], w)
            && (forall x :: x in store && x != id ==> after[x] == store[x])
            && (NextMatchId(r, m) in store ==> after[NextMatchId(r, m)] == store[NextMatchId(r, m)])
  {
  }

  /** The decided fixture keeps its teams, round and number, and gets
      the winner, `played` and the result text. */
  lemma WinnerRecorded(store: map<string, Fixture>, format: Format, id: string, r: nat, m: nat, w: string)
    requires id in store
    requires format == League || id != NextMatchId(r, m)
    ensures var after := AfterWinner(store, format, id, r, m, w);
            && id in after
            && after[id].winner == Some(w) && after[id].played && after[id].result == Some(w + " won.")
            && after[id].teamA == store[id].teamA && after[id].teamB == store[id].teamB
            && after[id].round == store[id].round && after[id].matchNumber == store[id].matchNumber
  {
  }

  /** In a knockout, an existing next-round fixture changes in the chosen
      slot only. */
  lemma AdvanceIntoExisting(store: map<string, Fixture>, id: string, r: nat, m: nat, w: string)
    requires id in store && NextMatchId(r, m) in store && id != NextMatchId(r, m)
    ensures var after := AfterWinner(store, Knockout, id, r, m, w);
            var old_ := store[NextMatchId(r, m)];
            var new_ := after[NextMatchId(r, m)];
            && new_.teamA == (if FillsTeamA(m) then w else old_.teamA)
            && new_.teamB == (if FillsTeamA(m) then old_.teamB else w)
            && new_.(teamA := old_.teamA, teamB := old_.teamB) == old_
  {
  }

  /** In a knockout, a missing next-round fixture is created with the
      winner in the chosen slot, 'TBD' in the other, the next round and
      number, not played and without a winner. */
  lemma AdvanceIntoNew(store: map<string, Fixture>, id: string, r: nat, m: nat, w: string)
    requires id in store && NextMatchId(r, m) !in store
    ensures var f := AfterWinner(store, Knockout, id, r, m, w)[NextMatchId(r, m)];
            && f.teamA == (if FillsTeamA(m) then w else "TBD")
            && f.teamB == (if FillsTeamA(m) then "TBD" else w)
            && f.round == r + 1 && f.matchNumber == NextNumber(m)
            && !f.played && f.winner == None && f.result == None
  {
  }

  /** Nothing but the decided fixture and, in a knockout, the next-round
      fixture is written; a league never creates fixtures, and a knockout
      creates at most the next-round one. */
  lemma OnlyTwoDocumentsChange(store: map<string, Fixture>, format: Format, id: string, r: nat, m: nat, w: string)
    ensures var after := AfterWinner(store, format, id, r, m, w);
            && (forall x :: x in store && x != id && (format == League || x != NextMatchId(r, m)) ==>
                  x in after && after[x] == store[x])
            && after.Keys == (if id in store && format == Knockout then store.Keys + {NextMatchId(r, m)} else store.Keys)
  {
  }

  // ---------------------------------------------------------------------
  // The screen
  // ---------------------------------------------------------------------

  /** A fixture picked from the list, as the screen holds it: its id and
      the document as it was read. */
  datatype Selection = Selection(id: string, fixture: Fixture)

  class FixturesBoard {
    const format: Format
    var store: map<string, Fixture>
    var selected: Option<Selection>

    constructor(format: Format, store: map<string, Fixture>)
      ensures this.format == format && this.store == store && selected == None
    {
      this.format := format;
      this.store := store;
      selected := None;
    }

    /** "Set Winner" on a listed fixture (`onSelectWinner={setSelectedMatch}`). */
    method SelectMatch(id: string)
      requires id in store
      modifies this
      ensures store == old(store) && selected == Some(Selection(id, store[id]))
    {
      selected := Some(Selection(id, store[id]));
    }

    /** `handleSelectWinner(w)`: with no fixture selected nothing happens;
        otherwise the writes described by `AfterWinner`, and the selection
        is cleared whatever happened. `decideOk` says whether the write of
        the decided fixture succeeds and `advanceOk` whether reading and
        writing the next-round fixture does; a failure ends the handler
        with the writes made so far. */
    method HandleSelectWinner(w: string, decideOk: bool, advanceOk: bool)
      modifies this
      ensures old(selected) == None ==> store == old(store) && selected == None
      ensures old(selected).Some? ==>
                var sel := old(selected).value;
                store == if !decideOk then old(store)
                         else if advanceOk
                         then AfterWinner(old(store), format, sel.id, sel.fixture.round, sel.fixture.matchNumber, w)
                         else WinnerOnly(old(store), sel.id, w)
      ensures selected == None
    {
      if selected == None {
        return;
      }
      var sel := selected.value;
      var nextRound := sel.fixture.round + 1;
      var nextMatchNumber := NextNumber(sel.fixture.matchNumber);
      var nextMatchId := "match_" + NatToString(nextRound) + "_" + NatToString(nextMatchNumber);
      if sel.id in store && decideOk {
        store := store[sel.id := Decided(store[sel.id], w)];
        if format == Knockout && advanceOk {
          var isTeamA := sel.fixture.matchNumber % 2 != 0;
          if nextMatchId in store {
            var f := store[nextMatchId];
            if isTeamA {
              store := store[nextMatchId := f.(teamA := w)];
            } else {
              store := store[nextMatchId := f.(teamB := w)];
            }
          } else {
            var created := Fixture(if isTeamA then w else "TBD", if isTeamA then "TBD" else w,
                                   nextRound, nextMatchNumber, false, None, None);
            store := store[nextMatchId := created];
          }
        }
      }
      selected := None;
    }
  }

  // ---------------------------------------------------------------------
  // The bracket view
  // ---------------------------------------------------------------------

  /** The fixtures of round `r`, in the order of the list. */
  function RoundOf(fs: seq<Fixture>, r: nat): seq<Fixture>
    decreases |fs|
  {
    if fs == [] then []
    else RoundOf(fs[..|fs| - 1], r) + (if fs[|fs| - 1].round == r then [fs[|fs| - 1]] else [])
  }

  function RoundsIn(fs: seq<Fixture>): set<nat>
  {
    set f | f in fs :: f.round
  }

  /** The object the `reduce` builds: one group per round present. */
  function Groups(fs: seq<Fixture>): map<nat, seq<Fixture>>
  {
    map r | r in RoundsIn(fs) :: RoundOf(fs, r)
  }

  /** `!rounds[round + 1]`: the round is drawn as the final. */
  predicate IsFinal(groups: map<nat, seq<Fixture>>, r: nat)
  {
    r + 1 !in groups
  }

  lemma {:induction false} RoundOfMembers(fs: seq<Fixture>, r: nat)
    ensures forall g :: g in RoundOf(fs, r) <==> g in fs && g.round == r
    decreases |fs|
  {
    if fs != [] {
      RoundOfMembers(fs[..|fs| - 1], r);
      assert fs == fs[..|fs| - 1] + [fs[|fs| - 1]];
    }
  }

  /** Splitting the list splits every group the same way: each group keeps
      the list's order. */
  lemma {:induction false} RoundOfConcat(a: seq<Fixture>, b: seq<Fixture>, r: nat)
    ensures RoundOf(a + b, r) == RoundOf(a, r) + RoundOf(b, r)
    decreases |b|
  {
    if b != [] {
      var b' := b[..|b| - 1];
      assert (a + b)[..|a + b| - 1] == a + b';
      RoundOfConcat(a, b', r);
    } else {
      assert a + b == a;
    }
  }

  /** Every fixture is in its own round's group, and a group holds only
      fixtures of its round. */
  lemma GroupsPartition(fs: seq<Fixture>)
    ensures forall f :: f in fs ==> f.round in Groups(fs) && f in Groups(fs)[f.round]
    ensures forall r :: r in Groups(fs) ==> forall g :: g in Groups(fs)[r] <==> g in fs && g.round == r
  {
    forall r: nat
      ensures forall g :: g in RoundOf(fs, r) <==> g in fs && g.round == r
    {
      RoundOfMembers(fs, r);
    }
  }

  /** A round is drawn as the final exactly when no fixture belongs to the
      round after it. */
  lemma FinalRound(fs: seq<Fixture>, r: nat)
    ensures IsFinal(Groups(fs), r) <==> forall f :: f in fs ==> f.round != r + 1
  {
  }

  lemma RoundOfAbsent(fs: seq<Fixture>, r: nat)
    requires r !in RoundsIn(fs)
    ensures RoundOf(fs, r) == []
  {
    RoundOfMembers(fs, r);
    if RoundOf(fs, r) != [] {
      assert RoundOf(fs, r)[0] in RoundOf(fs, r);
    }
  }

  lemma GroupsStep(fs: seq<Fixture>, f: Fixture)
    ensures Groups(fs + [f]) ==
            Groups(fs)[f.round := (if f.round in Groups(fs) then Groups(fs)[f.round] else []) + [f]]
  {
    var fs' := fs + [f];
    assert fs'[..|fs'| - 1] == fs;
    assert RoundsIn(fs') == RoundsIn(fs) + {f.round};
    assert forall r :: RoundOf(fs', r) == RoundOf(fs, r) + (if f.round == r then [f] else []);
    if f.round !in RoundsIn(fs) {
      RoundOfAbsent(fs, f.round);
    }
    var g, g' := Groups(fs), Groups(fs');
    var rhs := g[f.round := (if f.round in g then g[f.round] else []) + [f]];
    assert g'.Keys == rhs.Keys;
    forall r | r in g'
      ensures g'[r] == rhs[r]
    {
    }
  }

  /** The `reduce` of `KnockoutBracket`: each fixture is pushed onto the
      group of its round, which is created when first needed. */
  method GroupByRound(fs: seq<Fixture>) returns (groups: map<nat, seq<Fixture>>)
    ensures groups == Groups(fs)
  {
    groups := map[];
    var i := 0;
    while i < |fs|
      invariant i <= |fs|
      invariant groups == Groups(fs[..i])
    {
      var f := fs[i];
      var group := if f.round in groups then groups[f.round] else [];
      GroupsStep(fs[..i], f);
      assert fs[..i + 1] == fs[..i] + [f];
      groups := groups[f.round := group + [f]];
      i := i + 1;
    }
    assert fs[..i] == fs;
  }
}
