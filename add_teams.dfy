/**
 * The team-entry screen of a tournament (AddTeamsScreen.js): the initial
 * list of name slots, editing one slot, the completeness check made before
 * saving, and the generation of the first round of fixtures, knockout
 * pairs or a full round robin, stored under the ids `match_1`, `match_2`, ...
 */
module AddTeams {
  import opened Wrappers
  import opened Text
  import opened Tournament

  /** A team already saved for the tournament `{name, teamNumber}`. */
  datatype ExistingTeam = ExistingTeam(teamNumber: int, name: string)

  /** One slot of the form `{id, name}`. */
  datatype Team = Team(id: nat, name: string)

  /** A fixture between the teams at two positions of the list. */
  type Pairing = (nat, nat)

  // ---------------------------------------------------------------------
  // The initial list
  // ---------------------------------------------------------------------

  /** `existing[k]` is the first saved team carrying `number`. */
  predicate FirstWithNumber(existing: seq<ExistingTeam>, number: int, k: int)
  {
    && 0 <= k < |existing|
    && existing[k].teamNumber == number
    && forall j :: 0 <= j < k ==> existing[j].teamNumber != number
  }

  /** `existing.find(t => t.teamNumber === number)?.name || ''` */
  function ExistingName(existing: seq<ExistingTeam>, number: int): (r: string)
    ensures (forall k :: 0 <= k < |existing| ==> existing[k].teamNumber != number) ==> r == ""
    ensures forall k :: FirstWithNumber(existing, number, k) ==> r == existing[k].name
  {
    if existing == [] then ""
    else if existing[0].teamNumber == number then existing[0].name
    else
      var r := ExistingName(existing[1..], number);
      assert forall k :: FirstWithNumber(existing, number, k) ==> FirstWithNumber(existing[1..], number, k - 1) by {
        forall k | FirstWithNumber(existing, number, k)
          ensures FirstWithNumber(existing[1..], number, k - 1)
        {
          assert k != 0;
          forall j | 0 <= j < k - 1
            ensures existing[1..][j].teamNumber != number
          {
            assert existing[1..][j] == existing[j + 1];
          }
        }
      }
      r
  }

  /** The slots the form starts with: one per team of the tournament, slot
      `i` having id `i` and the name of the first saved team whose number is
      `i + 1`, or the empty name. */
  function InitialTeams(count: nat, existing: seq<ExistingTeam>): (r: seq<Team>)
    ensures |r| == count
    ensures forall i :: 0 <= i < count ==> r[i].id == i
    ensures forall i :: 0 <= i < count && (forall k :: 0 <= k < |existing| ==> existing[k].teamNumber != i + 1) ==>
              r[i].name == ""
    ensures forall i, k :: 0 <= i < count && FirstWithNumber(existing, i + 1, k) ==> r[i].name == existing[k].name
  {
    seq(count, i requires 0 <= i < count => Team(i, ExistingName(existing, i + 1)))
  }

  // ---------------------------------------------------------------------
  // Completeness
  // ---------------------------------------------------------------------

  /** `teams.filter(t => t.name.trim() !== '').length` */
  function FilledCount(teams: seq<Team>): (r: nat)
    ensures r <= |teams|
  {
    if teams == [] then 0 else FilledCount(teams[1..]) + (if Trim(teams[0].name) != "" then 1 else 0)
  }

  /** Every slot holds a name that is not blank. */
  predicate AllFilled(teams: seq<Team>)
  {
    forall i :: 0 <= i < |teams| ==> !IsBlank(teams[i].name)
  }

  lemma TrimEmpty(name: string)
    ensures Trim(name) == "" <==> IsBlank(name)
  {
  }

  lemma AllFilledSplit(teams: seq<Team>)
    requires teams != []
    ensures AllFilled(teams) <==> !IsBlank(teams[0].name) && AllFilled(teams[1..])
  {
    assert forall i :: 1 <= i < |teams| ==> teams[1..][i - 1] == teams[i];
  }

  /** The filter keeps every slot exactly when no slot is blank. */
  lemma {:induction false} FilledCountFull(teams: seq<Team>)
    ensures FilledCount(teams) == |teams| <==> AllFilled(teams)
  {
    if teams != [] {
      var rest := teams[1..];
      FilledCountFull(rest);
      assert (Trim(teams[0].name) != "") == !IsBlank(teams[0].name) by {
        TrimEmpty(teams[0].name);
      }
      assert FilledCount(teams) == FilledCount(rest) + (if IsBlank(teams[0].name) then 0 else 1);
      AllFilledSplit(teams);
    }
  }

  /** With one slot per team, saving is allowed exactly when no slot is
      blank. */
  lemma SaveNeedsEverySlot(teams: seq<Team>, count: nat)
    requires |teams| == count
    ensures FilledCount(teams) == count <==> AllFilled(teams)
  {
    FilledCountFull(teams);
  }

  // ---------------------------------------------------------------------
  // The pairings, as positions in the list
  // ---------------------------------------------------------------------

  /** Knockout: positions (0, 1), (2, 3), ... of a list of `n` teams. */
  function KnockoutPairs(n: nat): seq<Pairing>
  {
    seq(n / 2, k requires 0 <= k < n / 2 => (2 * k, 2 * k + 1))
  }

  /** The round-robin row of position `i`: (i, i+1), ..., (i, j-1). */
  function Row(i: nat, j: nat): seq<Pairing>
  {
    seq(if j > i + 1 then j - i - 1 else 0, d requires 0 <= d => (i, i + 1 + d))
  }

  /** The rows of positions `0 .. i-1` of a list of `n` teams, in the order
      the nested loops visit them. */
  function LeaguePrefix(i: nat, n: nat): seq<Pairing>
  {
    if i == 0 then [] else LeaguePrefix(i - 1, n) + Row(i - 1, n)
  }

  function LeaguePairs(n: nat): seq<Pairing>
  {
    LeaguePrefix(n, n)
  }

  function Pairings(format: Format, n: nat): seq<Pairing>
  {
    if format == Knockout then KnockoutPairs(n) else LeaguePairs(n)
  }

  predicate Within(ps: seq<Pairing>, n: nat)
  {
    forall k :: 0 <= k < |ps| ==> ps[k].0 < n && ps[k].1 < n
  }

  /** The document pushed for a pairing: round one, not played, no winner,
      numbered by its place in the generated list. */
  function PairFixture(teams: seq<Team>, p: Pairing, number: nat): Fixture
    requires p.0 < |teams| && p.1 < |teams|
  {
    Fixture(teams[p.0].name, teams[p.1].name, 1, number, false, None, None)
  }

  function FixturesOf(teams: seq<Team>, ps: seq<Pairing>): seq<Fixture>
    requires Within(ps, |teams|)
  {
    seq(|ps|, k requires 0 <= k < |ps| => PairFixture(teams, ps[k], k + 1))
  }

  // ---------------------------------------------------------------------
  // What the pairings are
  // ---------------------------------------------------------------------

  /** Position `t` plays in some pairing of `ps`. */
  predicate Paired(ps: seq<Pairing>, t: nat)
  {
    exists k :: 0 <= k < |ps| && (ps[k].0 == t || ps[k].1 == t)
  }

  /** Knockout pairs consecutive positions in order, and a position takes
      part in some pair exactly when it is not the unpaired last team of an
      odd-sized list. */
  lemma KnockoutPairing(n: nat)
    ensures |KnockoutPairs(n)| == n / 2
    ensures forall k :: 0 <= k < n / 2 ==> KnockoutPairs(n)[k] == (2 * k, 2 * k + 1)
    ensures Within(KnockoutPairs(n), n)
    ensures forall t: nat :: t < n ==> (Paired(KnockoutPairs(n), t) <==> (n % 2 == 0 || t < n - 1))
  {
    var ps := KnockoutPairs(n);
    forall t: nat | t < n
      ensures Paired(ps, t) <==> (n % 2 == 0 || t < n - 1)
    {
      if n % 2 == 0 || t < n - 1 {
        assert ps[t / 2].0 == t || ps[t / 2].1 == t;
      }
    }
  }

  /** No position plays two knockout fixtures. */
  lemma KnockoutDisjoint(n: nat, k1: nat, k2: nat)
    requires k1 < k2 < n / 2
    ensures var ps := KnockoutPairs(n);
            ps[k1].0 != ps[k2].0 && ps[k1].0 != ps[k2].1 && ps[k1].1 != ps[k2].0 && ps[k1].1 != ps[k2].1
  {
  }

  lemma {:induction false} RowMembers(i: nat, j: nat, p: Pairing)
    ensures p in Row(i, j) <==> p.0 == i && i < p.1 < j
  {
    if p.0 == i && i < p.1 < j {
      assert Row(i, j)[p.1 - i - 1] == p;
    }
  }

  /** A round-robin prefix holds exactly the pairs i < j < n whose first
      position is below `i`. */
  lemma {:induction false} LeaguePrefixMembers(i: nat, n: nat, p: Pairing)
    ensures p in LeaguePrefix(i, n) <==> p.0 < i && p.0 < p.1 < n
  {
    if i > 0 {
      LeaguePrefixMembers(i - 1, n, p);
      RowMembers(i - 1, n, p);
    }
  }

  /** Lexicographic order of pairings. */
  predicate Before(p: Pairing, q: Pairing)
  {
    p.0 < q.0 || (p.0 == q.0 && p.1 < q.1)
  }

  predicate StrictlyOrdered(ps: seq<Pairing>)
  {
    forall a, b :: 0 <= a < b < |ps| ==> Before(ps[a], ps[b])
  }

  lemma {:induction false} LeaguePrefixOrdered(i: nat, n: nat)
    ensures StrictlyOrdered(LeaguePrefix(i, n))
  {
    if i > 0 {
      var pre := LeaguePrefix(i - 1, n);
      var row := Row(i - 1, n);
      LeaguePrefixOrdered(i - 1, n);
      forall a | 0 <= a < |pre|
        ensures pre[a].0 < i - 1
      {
        LeaguePrefixMembers(i - 1, n, pre[a]);
      }
      var s := pre + row;
      forall a, b | 0 <= a < b < |s|
        ensures Before(s[a], s[b])
      {
        if b < |pre| {
          assert s[a] == pre[a] && s[b] == pre[b];
        } else if a >= |pre| {
          assert s[a] == row[a - |pre|] && s[b] == row[b - |pre|];
        } else {
          assert s[a] == pre[a] && s[b] == row[b - |pre|];
        }
      }
    }
  }

  lemma {:induction false} LeaguePrefixLength(i: nat, n: nat)
    requires i <= n
    ensures 2 * |LeaguePrefix(i, n)| == i * (2 * n - i - 1)
  {
    if i > 0 {
      LeaguePrefixLength(i - 1, n);
      assert |LeaguePrefix(i, n)| == |LeaguePrefix(i - 1, n)| + (n - i);
      var w := 2 * n - i;
      assert (i - 1) * w == i * w - w;
      assert i * (w - 1) == i * w - i;
    }
  }

  /** The round robin holds one pairing for every unordered pair of
      positions, first position smaller, each exactly once:
      n(n-1)/2 pairings in all. */
  lemma LeaguePairing(n: nat)
    ensures forall p :: p in LeaguePairs(n) <==> p.0 < p.1 < n
    ensures StrictlyOrdered(LeaguePairs(n))
    ensures forall a, b :: 0 <= a < b < |LeaguePairs(n)| ==> LeaguePairs(n)[a] != LeaguePairs(n)[b]
    ensures 2 * |LeaguePairs(n)| == n * (n - 1)
    ensures Within(LeaguePairs(n), n)
  {
    forall p
      ensures p in LeaguePairs(n) <==> p.0 < p.1 < n
    {
      LeaguePrefixMembers(n, n, p);
    }
    LeaguePrefixOrdered(n, n);
    LeaguePrefixLength(n, n);
    var ps := LeaguePairs(n);
    forall k | 0 <= k < |ps|
      ensures ps[k].0 < n && ps[k].1 < n
    {
      assert ps[k] in ps;
    }
  }

  lemma PairingsWithin(format: Format, n: nat)
    ensures Within(Pairings(format, n), n)
  {
    if format == Knockout { KnockoutPairing(n); } else { LeaguePairing(n); }
  }

  /** The fixtures `generateFixtures` returns for the list `teams`. */
  function Generated(format: Format, teams: seq<Team>): seq<Fixture>
  {
    PairingsWithin(format, |teams|);
    FixturesOf(teams, Pairings(format, |teams|))
  }

  /** Every generated fixture is a round-one fixture, not played and without
      a winner, numbered 1, 2, ... in generation order, between the teams
      of two different positions, the first one earlier in the list; there
      are floor(n/2) knockout fixtures and n(n-1)/2 league fixtures. */
  lemma GeneratedFixtures(format: Format, teams: seq<Team>)
    ensures var fs := Generated(format, teams);
            && (format == Knockout ==> |fs| == |teams| / 2)
            && (format == League ==> 2 * |fs| == |teams| * (|teams| - 1))
            && forall k :: 0 <= k < |fs| ==>
                 && fs[k].round == 1 && fs[k].matchNumber == k + 1
                 && !fs[k].played && fs[k].winner == None
                 && var p := Pairings(format, |teams|)[k];
                    p.0 < p.1 < |teams| && fs[k].teamA == teams[p.0].name && fs[k].teamB == teams[p.1].name
  {
    var ps := Pairings(format, |teams|);
    if format == Knockout {
      KnockoutPairing(|teams|);
    } else {
      LeaguePairing(|teams|);
      forall k | 0 <= k < |ps|
        ensures ps[k].0 < ps[k].1
      {
        assert ps[k] in ps;
      }
    }
  }

  // ---------------------------------------------------------------------
  // Generation
  // ---------------------------------------------------------------------

  lemma FixturesOfAppend(teams: seq<Team>, ps: seq<Pairing>, p: Pairing)
    requires Within(ps, |teams|) && p.0 < |teams| && p.1 < |teams|
    ensures Within(ps + [p], |teams|)
    ensures FixturesOf(teams, ps + [p]) == FixturesOf(teams, ps) + [PairFixture(teams, p, |ps| + 1)]
  {
    assert forall k :: 0 <= k < |ps| ==> (ps + [p])[k] == ps[k];
  }

  lemma KnockoutPairsStep(m: nat)
    requires m % 2 == 0
    ensures KnockoutPairs(m + 2) == KnockoutPairs(m) + [(m, m + 1)]
  {
  }

  lemma RowStep(i: nat, j: nat)
    requires i < j
    ensures Row(i, j + 1) == Row(i, j) + [(i, j)]
  {
  }

  lemma LeaguePrefixWithin(i: nat, n: nat)
    requires i <= n
    ensures Within(LeaguePrefix(i, n), n)
  {
    var ps := LeaguePrefix(i, n);
    forall k | 0 <= k < |ps|
      ensures ps[k].0 < n && ps[k].1 < n
    {
      assert ps[k] in ps;
      LeaguePrefixMembers(i, n, ps[k]);
    }
  }

  /** `generateFixtures(teamsList)`: the stepping loop for a knockout, the
      nested loops for a league, each pushing one document per pairing. */
  method GenerateFixtures(format: Format, teams: seq<Team>) returns (fixtures: seq<Fixture>)
    ensures fixtures == Generated(format, teams)
  {
    var n := |teams|;
    fixtures := [];
    if format == Knockout {
      var i := 0;
      while i < n
        invariant i % 2 == 0 && i <= n + 1
        invariant Within(KnockoutPairs(if i <= n then i else n), n)
        invariant fixtures == FixturesOf(teams, KnockoutPairs(if i <= n then i else n))
      {
        if i + 1 < n {
          KnockoutPairsStep(i);
          FixturesOfAppend(teams, KnockoutPairs(i), (i, i + 1));
          fixtures := fixtures + [PairFixture(teams, (i, i + 1), |fixtures| + 1)];
        } else {
          assert KnockoutPairs(i) == KnockoutPairs(n);
        }
        i := i + 2;
      }
    } else {
      var i := 0;
      while i < n
        invariant i <= n
        invariant Within(LeaguePrefix(i, n), n) && fixtures == FixturesOf(teams, LeaguePrefix(i, n))
      {
        var j := i + 1;
        while j < n
          invariant i + 1 <= j <= n
          invariant Within(LeaguePrefix(i, n) + Row(i, j), n)
          invariant fixtures == FixturesOf(teams, LeaguePrefix(i, n) + Row(i, j))
        {
          RowStep(i, j);
          assert LeaguePrefix(i, n) + Row(i, j + 1) == (LeaguePrefix(i, n) + Row(i, j)) + [(i, j)];
          FixturesOfAppend(teams, LeaguePrefix(i, n) + Row(i, j), (i, j));
          fixtures := fixtures + [PairFixture(teams, (i, j), |fixtures| + 1)];
          j := j + 1;
        }
        i := i + 1;
        LeaguePrefixWithin(i, n);
      }
    }
  }

  // ---------------------------------------------------------------------
  // The store of generated fixtures
  // ---------------------------------------------------------------------

  /** The id of the k-th generated fixture (from 1). */
  function FirstRoundId(k: nat): string
  {
    "match_" + NatToString(k)
  }

  /** The batch write of the generated fixtures, as a map from document id
      to document. */
  function StoredFixtures(fs: seq<Fixture>): map<string, Fixture>
  {
    FirstRoundIdsDistinct();
    map k | 0 <= k < |fs| :: FirstRoundId(k + 1) := fs[k]
  }

  lemma FirstRoundIdInjective(a: nat, b: nat)
    requires FirstRoundId(a) == FirstRoundId(b)
    ensures a == b
  {
    assert FirstRoundId(a)[6..] == NatToString(a);
    assert FirstRoundId(b)[6..] == NatToString(b);
    NatToStringInjective(a, b);
  }

  lemma FirstRoundIdsDistinct()
    ensures forall a: nat, b: nat :: FirstRoundId(a) == FirstRoundId(b) ==> a == b
  {
    forall a: nat, b: nat | FirstRoundId(a) == FirstRoundId(b)
      ensures a == b
    {
      FirstRoundIdInjective(a, b);
    }
  }

  /** Every generated fixture is stored under its own id: no document
      overwrites another, and nothing else is stored. */
  lemma StoredFixturesKeepAll(fs: seq<Fixture>)
    ensures forall k :: 0 <= k < |fs| ==> FirstRoundId(k + 1) in StoredFixtures(fs) &&
                                          StoredFixtures(fs)[FirstRoundId(k + 1)] == fs[k]
    ensures forall id :: id in StoredFixtures(fs) ==> exists k :: 1 <= k <= |fs| && id == FirstRoundId(k)
  {
    FirstRoundIdsDistinct();
  }

  // ---------------------------------------------------------------------
  // The form
  // ---------------------------------------------------------------------

  /** The message shown when some slot is still blank. */
  function IncompleteMessage(count: nat): string
  {
    "Please enter names for all " + NatToString(count) + " teams."
  }

  class AddTeamsForm {
    const teamsCount: nat
    const format: Format
    var teams: seq<Team>

    /** The form always holds one slot per team. */
    ghost predicate Valid()
      reads this
    {
      |teams| == teamsCount
    }

    constructor(count: nat, format: Format, existing: seq<ExistingTeam>)
      ensures Valid()
      ensures teamsCount == count && this.format == format
      ensures teams == InitialTeams(count, existing)
    {
      teamsCount := count;
      this.format := format;
      teams := InitialTeams(count, existing);
    }

    /** `handleTeamNameChange(index, name)`: only the slot at `index`
        changes, and only its name. */
    method HandleTeamNameChange(index: nat, name: string)
      requires Valid() && index < |teams|
      modifies this
      ensures Valid()
      ensures |teams| == |old(teams)|
      ensures teams[index] == Team(old(teams)[index].id, name)
      ensures forall j :: 0 <= j < |teams| && j != index ==> teams[j] == old(teams)[j]
    {
      var newTeams := teams;
      newTeams := newTeams[index := newTeams[index].(name := name)];
      teams := newTeams;
    }

    /** `handleSaveTeams`: rejected with the "Incomplete" alert unless the
        number of non-blank names is the number of teams; otherwise the
        fixtures generated from the list as it stands, by id. Since the form
        holds one slot per team, it is rejected exactly when some slot is
        blank. */
    method HandleSaveTeams() returns (r: Result<map<string, Fixture>, string>)
      requires Valid()
      ensures r.Err? <==> FilledCount(teams) != teamsCount
      ensures r.Err? <==> !AllFilled(teams)
      ensures r.Err? ==> r.error == IncompleteMessage(teamsCount)
      ensures r.Ok? ==> r.value == StoredFixtures(Generated(format, teams))
    {
      SaveNeedsEverySlot(teams, teamsCount);
      if FilledCount(teams) != teamsCount {
        return Err(IncompleteMessage(teamsCount));
      }
      var fixtures := GenerateFixtures(format, teams);
      r := Ok(StoredFixtures(fixtures));
    }
  }
}
