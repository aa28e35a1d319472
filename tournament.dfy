/**
 * The tournament records shared by the team-entry screen, which generates
 * the first round of fixtures, and the fixtures screen, which records
 * results and advances knockout winners.
 */
module Tournament {
  import opened Wrappers

  /** `tournamentData.type`: the value 'Knockout', or anything else, which
      the screens treat as a league (round robin). */
  datatype Format = Knockout | League

  /** A fixture document `{teamA, teamB, round, matchNumber, played,
      winner, result}`; a generated fixture has no `result` field. */
  datatype Fixture = Fixture(teamA: string, teamB: string, round: nat, matchNumber: nat,
                             played: bool, winner: Option<string>, result: Option<string>)
}
