/**
 * The match set-up screen (MatchSetupScreen.js): choosing the two teams,
 * picking each side's playing squad under a capacity limit, adding a player
 * to a team on the way, the three settings steppers, and the checks made
 * before moving on to the toss.
 */
module MatchSetup {
  import opened Wrappers
  import opened Text

  /** A saved team `{id, name, players}`. */
  datatype TeamDoc = TeamDoc(id: string, name: string, players: seq<string>)

  datatype Side = SideA | SideB

  // ---------------------------------------------------------------------
  // Squad selection
  // ---------------------------------------------------------------------

  predicate NoDup(s: seq<string>)
  {
    forall i, j :: 0 <= i < j < |s| ==> s[i] != s[j]
  }

  /** `prev.filter(p => p !== x)` */
  function RemoveAll(s: seq<string>, x: string): (r: seq<string>)
    ensures x !in r
    ensures forall y :: y != x ==> (y in r <==> y in s)
    ensures x in s ==> |r| < |s|
    ensures |r| <= |s|
  {
    if s == [] then []
    else if s[0] == x then RemoveAll(s[1..], x)
    else [s[0]] + RemoveAll(s[1..], x)
  }

  /** Filtering keeps the remaining elements in their order, so no
      duplicate appears. */
  lemma {:induction false} RemoveAllKeepsNoDup(s: seq<string>, x: string)
    requires NoDup(s)
    ensures NoDup(RemoveAll(s, x))
  {
    if s != [] {
      assert NoDup(s[1..]) by {
        forall i, j | 0 <= i < j < |s[1..]|
          ensures s[1..][i] != s[1..][j]
        {
          assert s[1..][i] == s[i + 1] && s[1..][j] == s[j + 1];
        }
      }
      RemoveAllKeepsNoDup(s[1..], x);
      if s[0] != x {
        var t := RemoveAll(s[1..], x);
        assert s[0] !in s[1..] by {
          forall j | 0 <= j < |s[1..]|
            ensures s[1..][j] != s[0]
          {
            assert s[1..][j] == s[j + 1];
          }
        }
        assert s[0] !in t;
        var r := [s[0]] + t;
        forall i, j | 0 <= i < j < |r|
          ensures r[i] != r[j]
        {
          if i == 0 {
            assert r[j] == t[j - 1] && r[j] in t;
          } else {
            assert r[i] == t[i - 1] && r[j] == t[j - 1];
          }
        }
      }
    }
  }

  /** Removing a name that was just appended gives the list back. */
  lemma {:induction false} RemoveAllAppended(s: seq<string>, x: string)
    requires x !in s
    ensures RemoveAll(s + [x], x) == s
  {
    if s == [] {
      assert [x][1..] == [];
    } else {
      assert (s + [x])[1..] == s[1..] + [x];
      RemoveAllAppended(s[1..], x);
    }
  }

  /** `handlePlayerToggle(name)`: a selected player is removed; an
      unselected one is added at the end while the selection is below
      `capacity`, and otherwise the selection stays as it is (the "squad
      full" alert). */
  function Toggle(prev: seq<string>, name: string, capacity: int): (r: seq<string>)
    ensures name in prev ==> name !in r && |r| < |prev| && forall y :: y != name ==> (y in r <==> y in prev)
    ensures name !in prev && |prev| < capacity ==> r == prev + [name]
    ensures name !in prev && |prev| >= capacity ==> r == prev
  {
    if name in prev then RemoveAll(prev, name)
    else if |prev| < capacity then prev + [name]
    else prev
  }

  /** The toggle never makes a selection exceed the capacity it is
      already within, and never introduces a duplicate. */
  lemma ToggleKeepsSquadSound(prev: seq<string>, name: string, capacity: int)
    requires NoDup(prev)
    ensures NoDup(Toggle(prev, name, capacity))
    ensures |prev| <= capacity ==> |Toggle(prev, name, capacity)| <= capacity
  {
    if name in prev {
      RemoveAllKeepsNoDup(prev, name);
    } else if |prev| < capacity {
      var r := prev + [name];
      forall i, j | 0 <= i < j < |r|
        ensures r[i] != r[j]
      {
        if j == |prev| {
          assert r[i] == prev[i] && r[i] in prev;
        } else {
          assert r[i] == prev[i] && r[j] == prev[j];
        }
      }
    }
  }

  /** Toggling an unselected player twice with room to spare leaves the
      selection as it was. */
  lemma ToggleTwice(prev: seq<string>, name: string, capacity: int)
    requires name !in prev && |prev| < capacity
    ensures Toggle(Toggle(prev, name, capacity), name, capacity) == prev
  {
    RemoveAllAppended(prev, name);
  }

  // ---------------------------------------------------------------------
  // Settings steppers
  // ---------------------------------------------------------------------

  datatype Settings = Settings(totalOvers: int, playersPerSide: int, ballsPerOver: int)

  datatype Stepper = OversUp | OversDown | PlayersUp | PlayersDown | BallsUp | BallsDown

  /** The screen's initial settings: 5 overs, 7 players a side, 6 balls an
      over. */
  const InitialSettings := Settings(5, 7, 6)

  /** The ranges the steppers keep. */
  predicate InRange(s: Settings)
  {
    s.totalOvers >= 1 && 2 <= s.playersPerSide <= 15 && 3 <= s.ballsPerOver <= 8
  }

  /** One press of a stepper button. Overs only step down to 1 and have no
      upper bound; players a side step within 2..15; balls an over within
      3..8. */
  function Press(s: Settings, b: Stepper): Settings
  {
    match b
    case OversUp => s.(totalOvers := s.totalOvers + 1)
    case OversDown => s.(totalOvers := if s.totalOvers > 1 then s.totalOvers - 1 else 1)
    case PlayersUp => s.(playersPerSide := if s.playersPerSide < 15 then s.playersPerSide + 1 else 15)
    case PlayersDown => s.(playersPerSide := if s.playersPerSide > 2 then s.playersPerSide - 1 else 2)
    case BallsUp => s.(ballsPerOver := if s.ballsPerOver < 8 then s.ballsPerOver + 1 else 8)
    case BallsDown => s.(ballsPerOver := if s.ballsPerOver > 3 then s.ballsPerOver - 1 else 3)
  }

  /** Presses keep the settings in range, and each press changes only its
      own setting, by at most one. */
  lemma PressKeepsRange(s: Settings, b: Stepper)
    requires InRange(s)
    ensures InRange(Press(s, b))
    ensures var t := Press(s, b);
            && (b == OversUp || b == OversDown || t.totalOvers == s.totalOvers)
            && (b == PlayersUp || b == PlayersDown || t.playersPerSide == s.playersPerSide)
            && (b == BallsUp || b == BallsDown || t.ballsPerOver == s.ballsPerOver)
            && -1 <= t.totalOvers - s.totalOvers <= 1
            && -1 <= t.playersPerSide - s.playersPerSide <= 1
            && -1 <= t.ballsPerOver - s.ballsPerOver <= 1
  {
  }

  /** Any sequence of presses from the initial settings stays in range. */
  lemma {:induction false} PressesKeepRange(s: Settings, bs: seq<Stepper>)
    requires InRange(s)
    ensures InRange(PressAll(s, bs))
    decreases |bs|
  {
    if bs != [] {
      PressKeepsRange(s, bs[0]);
      PressesKeepRange(Press(s, bs[0]), bs[1..]);
    }
  }

  function PressAll(s: Settings, bs: seq<Stepper>): Settings
    decreases |bs|
  {
    if bs == [] then s else PressAll(Press(s, bs[0]), bs[1..])
  }

  /** Inside the range, one step up and one step down cancel out. */
  lemma StepsCancel(s: Settings)
    requires s.totalOvers >= 1 && 2 <= s.playersPerSide < 15 && 3 <= s.ballsPerOver < 8
    ensures Press(Press(s, OversUp), OversDown) == s
    ensures Press(Press(s, PlayersUp), PlayersDown) == s
    ensures Press(Press(s, BallsUp), BallsDown) == s
  {
  }

  // ---------------------------------------------------------------------
  // Team picker and readiness
  // ---------------------------------------------------------------------

  /** The picker for one side: every team but the one chosen for the other
      side, in the order of the list. */
  function PickerTeams(all: seq<TeamDoc>, other: Option<TeamDoc>): (r: seq<TeamDoc>)
    ensures |r| <= |all|
    ensures forall t :: t in r <==> t in all && (other.Some? ==> t.id != other.value.id)
  {
    if all == [] then []
    else
      var rest := PickerTeams(all[1..], other);
      assert forall t :: t in all <==> t == all[0] || t in all[1..];
      if other.None? || all[0].id != other.value.id then [all[0]] + rest else rest
  }

  datatype ProceedError = SelectBothTeams | SameTeam | SelectSquads

  /** The route parameters handed to the toss screen. */
  datatype TossParams = TossParams(teamAName: string, teamBName: string,
                                   teamAPlayers: seq<string>, teamBPlayers: seq<string>,
                                   totalOvers: int, playersPerTeam: int, ballsPerOver: int)

  /** `isButtonDisabled` */
  predicate ButtonDisabled(teamA: Option<TeamDoc>, teamB: Option<TeamDoc>, xiA: seq<string>, xiB: seq<string>,
                           playersPerSide: int)
  {
    teamA.None? || teamB.None? || |xiA| != playersPerSide || |xiB| != playersPerSide
  }

  /** `handleProceed`: both teams, two different teams, and both squads of
      exactly `playersPerSide`, checked in that order. */
  function Proceed(teamA: Option<TeamDoc>, teamB: Option<TeamDoc>, xiA: seq<string>, xiB: seq<string>,
                   s: Settings): (r: Result<TossParams, ProceedError>)
  {
    if teamA.None? || teamB.None? then Err(SelectBothTeams)
    else if teamA.value.id == teamB.value.id then Err(SameTeam)
    else if |xiA| != s.playersPerSide || |xiB| != s.playersPerSide then Err(SelectSquads)
    else Ok(TossParams(teamA.value.name, teamB.value.name, xiA, xiB, s.totalOvers, s.playersPerSide, s.ballsPerOver))
  }

  /** Proceeding succeeds exactly when the button is enabled and the two
      teams differ; the toss then receives the chosen names, squads and
      settings. */
  lemma ProceedRule(teamA: Option<TeamDoc>, teamB: Option<TeamDoc>, xiA: seq<string>, xiB: seq<string>, s: Settings)
    ensures var r := Proceed(teamA, teamB, xiA, xiB, s);
            && (r.Ok? <==> !ButtonDisabled(teamA, teamB, xiA, xiB, s.playersPerSide) && teamA.value.id != teamB.value.id)
            && (r.Ok? ==> |r.value.teamAPlayers| == s.playersPerSide == |r.value.teamBPlayers|
                          && r.value.teamAPlayers == xiA && r.value.teamBPlayers == xiB
                          && r.value.teamAName == teamA.value.name && r.value.teamBName == teamB.value.name)
            && (r == Err(SelectBothTeams) <==> teamA.None? || teamB.None?)
  {
  }

  // ---------------------------------------------------------------------
  // Adding a player
  // ---------------------------------------------------------------------

  datatype AddError = EmptyName | NoTeamSelected | DuplicatePlayer(name: string) | WriteFailed

  /** Some existing player has `name`, ignoring case. */
  predicate HasPlayerLike(players: seq<string>, name: string)
  {
    exists i :: 0 <= i < |players| && SameIgnoringCase(players[i], name)
  }

  /** The checks of `handleAddNewPlayer` before the write: the trimmed name
      must not be empty, a team must be selected, and no player of it may
      have the same name ignoring case. The accepted name is the trimmed
      one. */
  function NewPlayerCheck(typed: string, team: Option<TeamDoc>): (r: Result<string, AddError>)
    ensures r == Err(EmptyName) <==> IsBlank(typed)
    ensures r.Ok? <==> !IsBlank(typed) && team.Some? && !HasPlayerLike(team.value.players, Trim(typed))
    ensures r.Ok? ==> r.value == Trim(typed) && r.value != ""
  {
    var trimmed := Trim(typed);
    if trimmed == "" then Err(EmptyName)
    else if team.None? then Err(NoTeamSelected)
    else if HasPlayerLike(team.value.players, trimmed) then Err(DuplicatePlayer(trimmed))
    else Ok(trimmed)
  }

  /** `allTeams.map(t => t.id === updated.id ? updated : t)` */
  function ReplaceById(all: seq<TeamDoc>, updated: TeamDoc): (r: seq<TeamDoc>)
    ensures |r| == |all|
    ensures forall i :: 0 <= i < |all| ==> r[i] == if all[i].id == updated.id then updated else all[i]
  {
    seq(|all|, i requires 0 <= i < |all| => if all[i].id == updated.id then updated else all[i])
  }

  // ---------------------------------------------------------------------
  // The screen
  // ---------------------------------------------------------------------

  class MatchSetupForm {
    var teamA: Option<TeamDoc>
    var teamB: Option<TeamDoc>
    var xiA: seq<string>
    var xiB: seq<string>
    var settings: Settings
    var selectingFor: Option<Side>
    var allTeams: seq<TeamDoc>
    var tempSelected: seq<string>
    var newPlayerName: string
    var playerModalOpen: bool

    /** No squad and no working selection holds a name twice, and the
        settings are in range. */
    ghost predicate Valid()
      reads this
    {
      NoDup(xiA) && NoDup(xiB) && NoDup(tempSelected) && InRange(settings)
    }

    /** The screen as first shown; `allTeams` is the list the team query
        returned. */
    constructor(allTeams: seq<TeamDoc>)
      ensures Valid()
      ensures teamA == None && teamB == None && xiA == [] && xiB == [] && tempSelected == []
      ensures settings == InitialSettings && selectingFor == None && this.allTeams == allTeams
      ensures newPlayerName == "" && !playerModalOpen
    {
      teamA, teamB := None, None;
      xiA, xiB := [], [];
      settings := InitialSettings;
      selectingFor := None;
      this.allTeams := allTeams;
      tempSelected := [];
      newPlayerName := "";
      playerModalOpen := false;
    }

    /** The team currently being edited: side A when A was chosen, side B
        otherwise (also before any side was chosen). */
    function EditedTeam(): Option<TeamDoc>
      reads this
    {
      if selectingFor == Some(SideA) then teamA else teamB
    }

    method OpenTeamSelection(side: Side)
      modifies this
      ensures selectingFor == Some(side)
      ensures teamA == old(teamA) && teamB == old(teamB) && xiA == old(xiA) && xiB == old(xiB)
      ensures settings == old(settings) && tempSelected == old(tempSelected) && allTeams == old(allTeams)
      ensures newPlayerName == old(newPlayerName) && playerModalOpen == old(playerModalOpen)
    {
      selectingFor := Some(side);
    }

    /** `handleTeamSelect(team)`: the chosen side gets the team and an empty
        squad; the other side is untouched. */
    method HandleTeamSelect(team: TeamDoc)
      requires Valid()
      modifies this
      ensures Valid()
      ensures old(selectingFor) == Some(SideA) ==> teamA == Some(team) && xiA == [] && teamB == old(teamB) && xiB == old(xiB)
      ensures old(selectingFor) != Some(SideA) ==> teamB == Some(team) && xiB == [] && teamA == old(teamA) && xiA == old(xiA)
      ensures settings == old(settings) && selectingFor == old(selectingFor) && tempSelected == old(tempSelected)
      ensures allTeams == old(allTeams) && newPlayerName == old(newPlayerName) && playerModalOpen == old(playerModalOpen)
    {
      if selectingFor == Some(SideA) {
        teamA := Some(team);
        xiA := [];
      } else {
        teamB := Some(team);
        xiB := [];
      }
    }

    /** `openPlayerSelection(side)`: refused while that side has no team;
        otherwise the working selection starts from the side's squad. */
    method OpenPlayerSelection(side: Side) returns (shown: bool)
      requires Valid()
      modifies this
      ensures Valid()
      ensures shown <==> (if side == SideA then old(teamA) else old(teamB)).Some?
      ensures !shown ==> tempSelected == old(tempSelected) && selectingFor == old(selectingFor)
                          && playerModalOpen == old(playerModalOpen)
      ensures shown ==> selectingFor == Some(side) && playerModalOpen
                         && tempSelected == (if side == SideA then old(xiA) else old(xiB))
      ensures teamA == old(teamA) && teamB == old(teamB) && xiA == old(xiA) && xiB == old(xiB)
      ensures settings == old(settings) && allTeams == old(allTeams) && newPlayerName == old(newPlayerName)
    {
      var team := if side == SideA then teamA else teamB;
      var squad := if side == SideA then xiA else xiB;
      if team.None? {
        return false;
      }
      selectingFor := Some(side);
      tempSelected := squad;
      playerModalOpen := true;
      shown := true;
    }

    method HandlePlayerToggle(name: string)
      requires Valid()
      modifies this
      ensures Valid()
      ensures tempSelected == Toggle(old(tempSelected), name, settings.playersPerSide)
      ensures teamA == old(teamA) && teamB == old(teamB) && xiA == old(xiA) && xiB == old(xiB)
      ensures settings == old(settings) && selectingFor == old(selectingFor) && allTeams == old(allTeams)
      ensures newPlayerName == old(newPlayerName) && playerModalOpen == old(playerModalOpen)
    {
      ToggleKeepsSquadSound(tempSelected, name, settings.playersPerSide);
      tempSelected := Toggle(tempSelected, name, settings.playersPerSide);
    }

    /** `confirmPlayingSquad`: accepted only with exactly `playersPerSide`
        selections, which become the edited side's squad. */
    method ConfirmPlayingSquad() returns (confirmed: bool)
      requires Valid()
      modifies this
      ensures Valid()
      ensures confirmed <==> |old(tempSelected)| == settings.playersPerSide
      ensures !confirmed ==> xiA == old(xiA) && xiB == old(xiB) && tempSelected == old(tempSelected)
                             && playerModalOpen == old(playerModalOpen)
      ensures confirmed ==> tempSelected == [] && !playerModalOpen
                            && (old(selectingFor) == Some(SideA) ==> xiA == old(tempSelected) && xiB == old(xiB))
                            && (old(selectingFor) != Some(SideA) ==> xiB == old(tempSelected) && xiA == old(xiA))
      ensures teamA == old(teamA) && teamB == old(teamB) && settings == old(settings)
      ensures selectingFor == old(selectingFor) && allTeams == old(allTeams) && newPlayerName == old(newPlayerName)
    {
      if |tempSelected| != settings.playersPerSide {
        return false;
      }
      if selectingFor == Some(SideA) {
        xiA := tempSelected;
      } else {
        xiB := tempSelected;
      }
      playerModalOpen := false;
      tempSelected := [];
      confirmed := true;
    }

    method PressStepper(b: Stepper)
      requires Valid()
      modifies this
      ensures Valid()
      ensures settings == Press(old(settings), b)
      ensures teamA == old(teamA) && teamB == old(teamB) && xiA == old(xiA) && xiB == old(xiB)
      ensures selectingFor == old(selectingFor) && tempSelected == old(tempSelected) && allTeams == old(allTeams)
      ensures newPlayerName == old(newPlayerName) && playerModalOpen == old(playerModalOpen)
    {
      PressKeepsRange(settings, b);
      settings := Press(settings, b);
    }

    method SetNewPlayerName(typed: string)
      requires Valid()
      modifies this
      ensures Valid()
      ensures newPlayerName == typed
      ensures teamA == old(teamA) && teamB == old(teamB) && xiA == old(xiA) && xiB == old(xiB)
      ensures settings == old(settings) && selectingFor == old(selectingFor) && tempSelected == old(tempSelected)
      ensures allTeams == old(allTeams) && playerModalOpen == old(playerModalOpen)
    {
      newPlayerName := typed;
    }

    /** `handleAddNewPlayer`: after the checks, the trimmed name is appended
        to the edited team's players, in that side and in the team list,
        and the input is cleared. `writeOk` is the outcome of the write to
        the stored team; when it fails nothing changes. */
    method HandleAddNewPlayer(writeOk: bool) returns (r: Result<string, AddError>)
      requires Valid()
      modifies this
      ensures Valid()
      ensures var check := NewPlayerCheck(old(newPlayerName), old(EditedTeam()));
              r == if check.Ok? && !writeOk then Err(WriteFailed) else check
      ensures r.Ok? ==>
                var updated := old(EditedTeam()).value.(players := old(EditedTeam()).value.players + [r.value]);
                && (old(selectingFor) == Some(SideA) ==> teamA == Some(updated) && teamB == old(teamB))
                && (old(selectingFor) != Some(SideA) ==> teamB == Some(updated) && teamA == old(teamA))
                && allTeams == ReplaceById(old(allTeams), updated)
                && newPlayerName == ""
      ensures r.Err? ==> teamA == old(teamA) && teamB == old(teamB) && allTeams == old(allTeams)
                         && newPlayerName == old(newPlayerName)
      ensures xiA == old(xiA) && xiB == old(xiB) && settings == old(settings) && selectingFor == old(selectingFor)
      ensures tempSelected == old(tempSelected) && playerModalOpen == old(playerModalOpen)
    {
      var check := NewPlayerCheck(newPlayerName, EditedTeam());
      if check.Err? {
        return check;
      }
      if !writeOk {
        return Err(WriteFailed);
      }
      var team := EditedTeam().value;
      var updated := team.(players := team.players + [check.value]);
      if selectingFor == Some(SideA) {
        teamA := Some(updated);
      } else {
        teamB := Some(updated);
      }
      allTeams := ReplaceById(allTeams, updated);
      newPlayerName := "";
      r := check;
    }

    /** `handleProceed`: the parameters for the toss, or the first check
        that failed; nothing on the screen changes. */
    method HandleProceed() returns (r: Result<TossParams, ProceedError>)
      ensures r == Proceed(teamA, teamB, xiA, xiB, settings)
    {
      if teamA.None? || teamB.None? {
        return Err(SelectBothTeams);
      }
      if teamA.value.id == teamB.value.id {
        return Err(SameTeam);
      }
      if |xiA| != settings.playersPerSide || |xiB| != settings.playersPerSide {
        return Err(SelectSquads);
      }
      r := Ok(TossParams(teamA.value.name, teamB.value.name, xiA, xiB,
                         settings.totalOvers, settings.playersPerSide, settings.ballsPerOver));
    }

    /** The teams the picker lists for the side being chosen. */
    function PickerList(): seq<TeamDoc>
      reads this
    {
      PickerTeams(allTeams, if selectingFor == Some(SideA) then teamB else teamA)
    }
  }
}
