/**
 * The team editor (CreateTeamScreen.js): eleven name slots, filled from
 * the saved team when editing; editing one slot; and the shape of the
 * document saved: a trimmed team name and the non-blank player names, or
 * default names when every slot is blank.
 */
module CreateTeam {
  import opened Wrappers
  import opened Text

  /** The editor always shows this many player slots. */
  const RosterSize: nat := 11

  /** The team handed to the editor in edit mode `{id, name, players}`. */
  datatype TeamData = TeamData(id: string, name: string, players: seq<string>)

  /** The fields the editor writes: the team name and its players. */
  datatype SavedTeam = SavedTeam(name: string, players: seq<string>)

  datatype SaveError = TeamNameRequired

  /** `Array(11).fill('').map((_, i) => existing[i] || '')` */
  function PadRoster(existing: seq<string>): (r: seq<string>)
    ensures |r| == RosterSize
    ensures forall i :: 0 <= i < RosterSize ==> r[i] == if i < |existing| then existing[i] else ""
  {
    seq(RosterSize, i requires 0 <= i < RosterSize => if i < |existing| then existing[i] else "")
  }

  /** A roster of at most eleven keeps every player, in order, followed by
      empty slots; a longer one keeps only its first eleven. */
  lemma PadRosterKeeps(existing: seq<string>)
    ensures |existing| <= RosterSize ==>
              PadRoster(existing)[..|existing|] == existing &&
              forall i :: |existing| <= i < RosterSize ==> PadRoster(existing)[i] == ""
    ensures |existing| >= RosterSize ==> PadRoster(existing) == existing[..RosterSize]
  {
  }

  /** `players.filter(p => p.trim() !== '')` */
  function NonBlank(s: seq<string>): (r: seq<string>)
    ensures |r| <= |s|
    decreases |s|
  {
    if s == [] then []
    else NonBlank(s[..|s| - 1]) + (if Trim(s[|s| - 1]) != "" then [s[|s| - 1]] else [])
  }

  /** The filter keeps exactly the non-blank names... */
  lemma {:induction false} NonBlankMembers(s: seq<string>)
    ensures forall x :: x in NonBlank(s) <==> x in s && !IsBlank(x)
    decreases |s|
  {
    if s != [] {
      NonBlankMembers(s[..|s| - 1]);
      assert s == s[..|s| - 1] + [s[|s| - 1]];
      assert Trim(s[|s| - 1]) != "" <==> !IsBlank(s[|s| - 1]);
    }
  }

  /** ... in their original order: splitting the slots splits the saved
      list the same way. */
  lemma {:induction false} NonBlankConcat(a: seq<string>, b: seq<string>)
    ensures NonBlank(a + b) == NonBlank(a) + NonBlank(b)
    decreases |b|
  {
    if b != [] {
      var b' := b[..|b| - 1];
      assert (a + b)[..|a + b| - 1] == a + b';
      NonBlankConcat(a, b');
    } else {
      assert a + b == a;
    }
  }

  /** The name saved for slot `i` when every slot is blank: an empty slot
      becomes "Player i+1"; a slot holding only white space is kept. */
  function DefaultName(p: string, i: nat): string
  {
    if p == "" then "Player " + NatToString(i + 1) else p
  }

  function DefaultNames(players: seq<string>): (r: seq<string>)
    ensures |r| == |players|
    ensures forall i :: 0 <= i < |players| ==> r[i] == DefaultName(players[i], i)
  {
    seq(|players|, i requires 0 <= i < |players| => DefaultName(players[i], i))
  }

  /** The document `handleSave` writes, or the "Team Name Required"
      refusal. */
  function SaveData(teamName: string, players: seq<string>): Result<SavedTeam, SaveError>
  {
    if Trim(teamName) == "" then Err(TeamNameRequired)
    else
      var finalPlayers := NonBlank(players);
      Ok(SavedTeam(Trim(teamName), if |finalPlayers| > 0 then finalPlayers else DefaultNames(players)))
  }

  /** Saving is refused exactly when the team name is blank; a saved name
      is the trimmed one. When some slot holds a name, the non-blank slots
      are saved and nothing else; when every slot is blank, every slot is
      saved, empty ones under their default name. */
  lemma SaveRules(teamName: string, players: seq<string>)
    ensures SaveData(teamName, players).Err? <==> IsBlank(teamName)
    ensures SaveData(teamName, players).Ok? ==> SaveData(teamName, players).value.name == Trim(teamName)
    ensures var r := SaveData(teamName, players);
            (r.Ok? && exists i :: 0 <= i < |players| && !IsBlank(players[i])) ==>
              r.value.players == NonBlank(players) &&
              forall x :: x in r.value.players <==> x in players && !IsBlank(x)
    ensures var r := SaveData(teamName, players);
            (r.Ok? && forall i :: 0 <= i < |players| ==> IsBlank(players[i])) ==>
              |r.value.players| == |players| &&
              forall i :: 0 <= i < |players| ==> r.value.players[i] == DefaultName(players[i], i)
  {
    NonBlankMembers(players);
    var f := NonBlank(players);
    if f != [] {
      assert f[0] in f;
    }
    if exists i :: 0 <= i < |players| && !IsBlank(players[i]) {
      var i :| 0 <= i < |players| && !IsBlank(players[i]);
      assert players[i] in players;
    }
  }

  /** Every default name differs from every other: "Player 1" ...
      "Player 11" are pairwise distinct. */
  lemma DefaultNamesDistinct(i: nat, j: nat)
    requires i != j
    ensures DefaultName("", i) != DefaultName("", j)
  {
    var p := "Player ";
    if DefaultName("", i) == DefaultName("", j) {
      assert DefaultName("", i)[|p|..] == NatToString(i + 1);
      assert DefaultName("", j)[|p|..] == NatToString(j + 1);
      NatToStringInjective(i + 1, j + 1);
    }
  }

  class CreateTeamForm {
    const isEdit: bool
    var teamName: string
    var players: seq<string>

    /** The editor as opened: eleven empty slots, or in edit mode the saved
        team's name and its roster padded to eleven slots. */
    constructor(isEdit: bool, teamData: Option<TeamData>)
      ensures this.isEdit == isEdit
      ensures isEdit && teamData.Some? ==> teamName == teamData.value.name && players == PadRoster(teamData.value.players)
      ensures !(isEdit && teamData.Some?) ==> teamName == "" && players == PadRoster([])
      ensures |players| == RosterSize
    {
      this.isEdit := isEdit;
      if isEdit && teamData.Some? {
        teamName := teamData.value.name;
        players := PadRoster(teamData.value.players);
      } else {
        teamName := "";
        players := PadRoster([]);
      }
    }

    method SetTeamName(name: string)
      modifies this
      ensures teamName == name && players == old(players)
    {
      teamName := name;
    }

    /** `handlePlayerNameChange(index, name)`: slot `index` takes the new
        name and no other slot changes. */
    method HandlePlayerNameChange(index: nat, name: string)
      requires index < |players|
      modifies this
      ensures |players| == |old(players)| && players[index] == name
      ensures forall j :: 0 <= j < |players| && j != index ==> players[j] == old(players)[j]
      ensures teamName == old(teamName)
    {
      var newPlayers := players;
      newPlayers := newPlayers[index := name];
      players := newPlayers;
    }

    /** `handleSave`: the document to write, or the refusal. */
    method HandleSave() returns (r: Result<SavedTeam, SaveError>)
      ensures r == SaveData(teamName, players)
    {
      if Trim(teamName) == "" {
        return Err(TeamNameRequired);
      }
      var finalPlayers := NonBlank(players);
      r := Ok(SavedTeam(Trim(teamName), if |finalPlayers| > 0 then finalPlayers else DefaultNames(players)));
    }
  }
}
