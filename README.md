# Cricket scoring and tournaments, modelled in Dafny

The application organises cricket matches and tournaments. It has five parts:

- A live scoring screen that records a match ball by ball. It tracks runs, extras, wickets and strike rotation, closes each over and keeps bowler figures including maidens. It supports undo, detects the end of an innings and of the match, and writes the result line.
- A tournament team-entry screen. It checks that every team has a name and generates the first round of fixtures: knockout pairs or a full round robin.
- A fixtures screen. It records winners and moves knockout winners on to a slot of the next round's fixture, and its bracket view groups fixtures by round.
- A match set-up screen. It chooses two teams and picks each side's squad under a capacity limit. It also sets overs, players per side and balls per over with clamped steppers, and checks readiness before the toss.
- A team editor and a toss screen.

This project models the logic of those screens and proves what they promise. Most of the work is in the scoring screen.

- **Value records and reference functions.**
  - The match state, batters, bowler, partnership, extras, fixtures and teams are Dafny datatypes.
  - Each scoring event has a reference function on the state: `AfterRuns`, `AfterExtra`, `AfterWicket`, `AfterSelection` and `NextInnings`.
- **Step-by-step methods.**
  - Each state change is also written as a method that updates a copy step by step, as the screen does. Examples are `ApplyRuns` and `GenerateFixtures`.
  - Each such method is proved equal to its reference function.
  - Lemmas then state what the reference functions mean: the invariant they keep, their effect on each part of the record, and the rules of the result.
- **Classes for screen state.**
  - A screen's mutable state is a class whose methods carry `modifies this`: the `Scorer` with its undo history, `AddTeamsForm`, `FixturesBoard`, `MatchSetupForm`, `CreateTeamForm` and `TossState`.
  - Remote documents are maps from document id to document.

Modules:

- `Wrappers`: option and result values.
- `Text`: JavaScript `trim`, the blank test, ASCII lower-casing and decimal rendering.
- `MatchModel`: the match record and its invariant.
- `ScoringEngine`: the events.
- `ScoringProofs`: the invariant is kept.
- `ScoringEffects`: per-event effects.
- `ScoringExceptions`: rules the screen keeps across events, and places where it breaks a reader's expectation.
- `ScoringSession`: the end-of-innings check, the result and the `Scorer` class.
- `Tournament`: the fixture record.
- `AddTeams`, `Bracket`, `MatchSetup`, `CreateTeam` and `Toss`: one module per screen.

Where the code and the written description of the system disagree, the model follows the code:

- **Maidens.** A six-dot over adds half a maiden: the screen adds 0.5, not 1. Bowler overs and maidens are therefore counted in half-units (`overHalves`, `maidenHalves`).
- **Over length.** An over is always six legal deliveries. The balls-per-over chosen at match set-up is never consulted by the scoring screen.
- **Wickets.** A wicket does not add a ball to the striker's balls faced or to the partnership's balls.
- **All out.** The all-out threshold is one less than the size of the first squad (`teamAPlayers`) in both innings.
- **Openers.** The opening batters and bowler are the literal names in the initial state, not players from the squads.
- **Strike.** Exactly one not-out batter on strike is not an invariant of the screen. `ScoringExceptions` exhibits states with two strikers.

## Model

| member | source | states |
|---|---|---|
| MatchModel.AddExtra | ScoringScreen.js:301-318 | the chosen extras category rises by the runs, every other category is unchanged, and the extras total rises by the runs |
| MatchModel.IdsBelowMeans | ScoringScreen.js:407-416 | the id discipline: every batter id is below the next id to hand out and ids strictly increase along the batting list |
| MatchModel.Initial | ScoringScreen.js:119-143 | the initial record satisfies the invariant, with score, wickets, overs and balls at zero |
| Text.TrimDropsOnlySpace | CreateTeamScreen.js:41 | `trim` drops white space from both ends and nothing else: the result is a contiguous piece of the input with only white space outside it |
| ScoringEngine.FirstIndex | ScoringScreen.js:350 | `findIndex`: the result is the first position satisfying the predicate, and None exactly when no position does |
| ScoringEngine.RotateStrike | ScoringScreen.js:250-255 | loop over the batters toggling strike for every not-out batter, equal to `Rotated` |
| ScoringEngine.CompleteOver | ScoringScreen.js:262-291 | closing the over step by step equals `CompletedOver` (archive, over count, half over and half maiden, reset, rotation, powerplay) |
| ScoringEngine.CreditStriker | ScoringScreen.js:222-243 | the striker's part of a scoring shot, step by step, equals `Credited` |
| ScoringEngine.ApplyRuns | ScoringScreen.js:214-259 | `handleRuns` on the copied state equals `AfterRuns` |
| ScoringEngine.RecordExtra | ScoringScreen.js:299-333 | the extra handler before the over check equals `ExtraRecorded` |
| ScoringEngine.ApplyExtra | ScoringScreen.js:294-342 | `handleExtra` equals `AfterExtra` |
| ScoringEngine.ApplyWicket | ScoringScreen.js:345-382 | `handleWicket` equals `AfterWicket`; it prompts for a batter exactly when the wicket was accepted and the side is not all out |
| ScoringEngine.ApplySelection | ScoringScreen.js:385-444 | `handleNewPlayerSelection` equals `AfterSelection` |
| ScoringProofs.LedgerCompletedOver | ScoringScreen.js:262-291 | completing an over from any bookkept state yields a state satisfying the invariant |
| ScoringProofs.LedgerCredited | ScoringScreen.js:222-234 | crediting the striker keeps score = batting runs + extras and the id discipline |
| ScoringProofs.InvAfterRuns | ScoringScreen.js:214-259 | `handleRuns` keeps the invariant for any run count |
| ScoringProofs.LedgerExtraRecorded | ScoringScreen.js:299-333 | recording an extra keeps the bookkeeping and adds at most one legal ball |
| ScoringProofs.InvAfterExtra | ScoringScreen.js:294-342 | `handleExtra` keeps the invariant for every extra kind and run count |
| ScoringProofs.InvAfterWicket | ScoringScreen.js:345-382 | `handleWicket` keeps the invariant, including wickets never exceeding the all-out threshold |
| ScoringProofs.LedgerSeated | ScoringScreen.js:405-427 | seating a new batter with no runs and the next id keeps the bookkeeping |
| ScoringProofs.InvAfterSelection | ScoringScreen.js:385-444 | a batter, retirement or bowler selection keeps the invariant |
| ScoringProofs.NextInningsInv | ScoringScreen.js:457-507 | the second-innings record satisfies the invariant whatever the first innings left |
| ScoringProofs.InvPreserved | ScoringScreen.js:214-444 | every scoring event keeps the invariant |
| ScoringEffects.CompletedOverKeepsRecords | ScoringScreen.js:285 | closing an over changes no batter record except the strike flag |
| ScoringEffects.RunsWithStriker | ScoringScreen.js:220-234 | with a striker, runs go to team, striker, bowler and partnership; the striker faces one more ball; fours and sixes count only for 4 and 6; other batters keep their records |
| ScoringEffects.RunsCountsDelivery | ScoringScreen.js:247-282 | with a striker the sixth legal ball archives the over with its number, balls and bowler and empties it; any other ball joins the over |
| ScoringEffects.RunsWithoutStriker | ScoringScreen.js:220-255 | with no not-out striker the ball is still recorded and strike still swaps on odd runs, but nobody is credited and no delivery is counted |
| ScoringEffects.RunsStrike | ScoringScreen.js:250-285 | each not-out batter's strike toggles once when the ball ends the over, otherwise exactly on odd runs; out flags are unchanged |
| ScoringEffects.CompletedOverBowling | ScoringScreen.js:270-279 | closing an over adds half an over, and half a maiden exactly when no ball spoilt it |
| ScoringEffects.OverWithWicketIsNoMaiden | ScoringScreen.js:273-275 | an over containing a wicket never counts towards a maiden |
| ScoringEffects.RunsSpoilsMaiden | ScoringScreen.js:237-243 | runs off the bat in a so-far clean over take one maiden (floored at zero) off the bowler |
| ScoringEffects.RunsOnSpoiltOver | ScoringScreen.js:237-243 | runs in an already spoilt over leave the maiden count |
| ScoringEffects.ExtraEffect | ScoringScreen.js:301-333 | extras go to their category and the score only; the bowler is charged unless byes or leg byes; batters and partnership runs are untouched |
| ScoringEffects.ExtraDelivery | ScoringScreen.js:318-339 | wides, no-balls and penalties are not deliveries and leave the batters as they were; byes and leg byes are: the sixth closes the over and rotates every not-out batter, any other leaves the batters as they were |
| ScoringEffects.ExtraStrike | ScoringScreen.js:294-342 | extras never swap strike on odd runs; only a bye or leg bye that is the sixth legal ball toggles each not-out batter once; out flags stay |
| ScoringEffects.WicketCounted | ScoringScreen.js:351-356 | a wicket counts exactly when there is a not-out striker and fewer than `|teamAPlayers| - 1` wickets; otherwise nothing changes |
| ScoringEffects.WicketEffect | ScoringScreen.js:353-371 | an accepted wicket marks the striker out, credits the bowler, keeps the score, resets the partnership and counts one legal ball; when it does not end the over every other batter's record is exactly as it was |
| ScoringEffects.WicketStrike | ScoringScreen.js:345-382 | a standing wicket marks exactly the striker out, who keeps the strike flag; a sixth-ball wicket toggles every other not-out batter once; otherwise no strike flag moves |
| ScoringEffects.BowlerSelected | ScoringScreen.js:429-440 | a new bowler gets the next bowler id, the player's name and empty figures, and nothing else changes |
| ScoringEffects.BatterSeated | ScoringScreen.js:392-428 | the incoming batter joins on strike with no runs and a fresh id; a retirement marks the outgoing batter out without counting a wicket |
| ScoringEffects.NoOutgoingBatter | ScoringScreen.js:394-398 | with nobody to replace, a batter selection changes nothing |
| ScoringExceptions.RunsKeepOutBatters | ScoringScreen.js:214-259 | runs never change the record of a batter who is out |
| ScoringExceptions.ExtraKeepsOutBatters | ScoringScreen.js:294-342 | extras never change the record of a batter who is out |
| ScoringExceptions.WicketKeepsOutBatters | ScoringScreen.js:345-382 | a wicket never changes the record of a batter already out |
| ScoringExceptions.SelectionKeepsOutBatters | ScoringScreen.js:385-444 | a selection never changes the record of a batter who is out, and only appends to the list |
| ScoringExceptions.OutBattersNeverChange | ScoringScreen.js:214-444 | once out, a batter's record is frozen under every event, and the batting list only grows |
| ScoringExceptions.DotsPending | ScoringScreen.js:237-255 | k < 6 dot balls leave k balls pending, the balls all dots, the bowler, overs and score unchanged |
| ScoringExceptions.DotOverIsHalfMaiden | ScoringScreen.js:262-282 | six dot balls from a fresh over add exactly one half-unit of maiden and one half-unit of over |
| ScoringExceptions.SixthBallWicketLeavesTwoStrikers | ScoringScreen.js:369-415 | a sixth-ball wicket then a replacement leaves two not-out batters on strike |
| ScoringExceptions.RetireAfterSixthBallWicketPicksOutBatter | ScoringScreen.js:394-396 | retiring right after a sixth-ball wicket picks the dismissed batter, so a second striker joins |
| ScoringExceptions.LaterRunErasesEarlierMaiden | ScoringScreen.js:237-243 | the first scoring shot of the next over takes back a half maiden earned in the previous one |
| ScoringExceptions.OpeningOverScenario | ScoringScreen.js:119-428 | 1, 4, a wicket, the replacement, 0, 0, 2: the over closes at 7 for 1 with the opener back on strike |
| ScoringSession.LifecycleActs | ScoringScreen.js:177-208 | the check acts exactly when the innings has ended and no dialog is up: a dialog after the first innings, the summary after the second |
| ScoringSession.OutcomeRules | ScoringScreen.js:190-199 | tie exactly one short of the target; chase won exactly at or past the target by wickets left; defence won otherwise by at least one run |
| ScoringSession.ChaseMarginNonNegative | ScoringScreen.js:193-195 | in a reachable state a winning chase has between 0 and the all-out threshold wickets left |
| ScoringSession.ResultTextShape | ScoringScreen.js:192-198 | the result line names the winner and ends with " wickets" or " runs"; "Match Tied!" only for a tie |
| ScoringSession.ChaseScenario | ScoringScreen.js:180-199 | reaching 50 chasing 50 with 3 down and 11 players ends the match "won by 7 wickets" |
| ScoringSession.TieScenario | ScoringScreen.js:180-192 | overs used up one run short gives "Match Tied!" |
| ScoringSession.SecondInningsStart | ScoringScreen.js:457-507 | target is first score + 1, sides swap, counts reset, openers are the first two of the second squad with the first on strike |
| ScoringSession.Unbatted | ScoringScreen.js:814-815 | the modal lists exactly the squad players not matching a not-out batter, and nobody else |
| ScoringSession.Scorer.constructor | ScoringScreen.js:100-143 | the screen starts with the initial record, an empty history and no dialog |
| ScoringSession.Scorer.SaveToHistory | ScoringScreen.js:211 | the current state is appended to the history and nothing else changes |
| ScoringSession.Scorer.HandleRuns | ScoringScreen.js:214-259 | snapshot, then `AfterRuns`; the invariant holds for the state and the whole history |
| ScoringSession.Scorer.HandleExtra | ScoringScreen.js:294-342 | snapshot, then `AfterExtra` |
| ScoringSession.Scorer.HandleWicket | ScoringScreen.js:345-382 | snapshot, then `AfterWicket`; the batter list is opened exactly when the wicket stood and the side is not all out |
| ScoringSession.Scorer.OpenPlayerModal | ScoringScreen.js:602-722 | the bowler row and the Retire button choose which list the next selection serves |
| ScoringSession.Scorer.HandleNewPlayerSelection | ScoringScreen.js:385-444 | snapshot, then `AfterSelection` for the current list kind |
| ScoringSession.Scorer.HandleUndo | ScoringScreen.js:447-454 | with a snapshot, the state returns to the last one and it is dropped; with none nothing changes |
| ScoringSession.Scorer.HandleStartNextInnings | ScoringScreen.js:457-507 | snapshot, then `NextInnings`, and the dialog closes |
| ScoringSession.Scorer.CheckInnings | ScoringScreen.js:177-208 | the check raises the dialog after the first innings or records the summary after the second, as `Lifecycle` says |
| ScoringSession.UndoAfterRuns | ScoringScreen.js:211-454 | undo right after a scoring shot restores the state exactly and leaves nothing more to undo |
| AddTeams.ExistingName | AddTeamsScreen.js:9 | the name of the first saved team with that number, or "" when there is none |
| AddTeams.InitialTeams | AddTeamsScreen.js:9 | exactly `teamsCount` slots; slot i has id i and the first saved team numbered i+1's name, or "" |
| AddTeams.FilledCountFull | AddTeamsScreen.js:37 | the filter keeps every slot exactly when no name is blank |
| AddTeams.SaveNeedsEverySlot | AddTeamsScreen.js:37-41 | with one slot per team, saving is allowed exactly when no slot is blank |
| AddTeams.KnockoutPairing | AddTeamsScreen.js:20-25 | floor(n/2) knockout pairings (2k, 2k+1) in order; a team is paired exactly unless it is the last of an odd list |
| AddTeams.KnockoutDisjoint | AddTeamsScreen.js:21-24 | no team appears in two knockout fixtures |
| AddTeams.LeaguePrefixMembers | AddTeamsScreen.js:27-31 | after i outer rounds the league holds exactly the pairs a < b < n with a < i |
| AddTeams.LeaguePrefixOrdered | AddTeamsScreen.js:27-31 | the nested loops emit pairings in strictly increasing lexicographic order |
| AddTeams.LeaguePrefixLength | AddTeamsScreen.js:27-31 | after i outer rounds there are i(2n-i-1)/2 pairings |
| AddTeams.LeaguePairing | AddTeamsScreen.js:26-31 | the round robin holds each pair i < j < n exactly once, n(n-1)/2 in all |
| AddTeams.GeneratedFixtures | AddTeamsScreen.js:18-34 | generated fixtures number 1..k in order, are round 1, unplayed, without a winner, between two different positions (first earlier); floor(n/2) knockout and n(n-1)/2 league fixtures |
| AddTeams.GenerateFixtures | AddTeamsScreen.js:18-34 | the stepping loop and the nested loops push exactly the fixtures `Generated` describes |
| AddTeams.StoredFixturesKeepAll | AddTeamsScreen.js:51-56 | every generated fixture is stored under `match_{k}`, none overwrites another, and nothing else is stored |
| AddTeams.AddTeamsForm.constructor | AddTeamsScreen.js:8-9 | the form starts with the initial slots, one per team |
| AddTeams.AddTeamsForm.HandleTeamNameChange | AddTeamsScreen.js:12-16 | only the slot at the index changes, and only its name; the form keeps one slot per team |
| AddTeams.AddTeamsForm.HandleSaveTeams | AddTeamsScreen.js:36-56 | refused with the "Incomplete" message exactly when the non-blank count differs from `teamsCount`, that is exactly when some slot is blank; otherwise the generated fixtures by id |
| Bracket.NextNumber | FixturesScreen.js:128 | `Math.ceil(m / 2)`: m <= 2k <= m + 1 |
| Bracket.SiblingsMeet | FixturesScreen.js:128-140 | fixtures 2k-1 and 2k feed fixture k of the next round, through slots teamA and teamB |
| Bracket.OneFixturePerSlot | FixturesScreen.js:128-140 | the same next fixture and slot come only from the same fixture number |
| Bracket.NextMatchIdInjective | FixturesScreen.js:127-129 | two next-round ids are equal exactly when round and next number are |
| Bracket.AdvanceNeverOverwritesFirstRound | FixturesScreen.js:129 | a next-round id is never the id of a first-round fixture |
| Bracket.WinnerRecorded | FixturesScreen.js:133-137 | the decided fixture gets the winner, played and "<winner> won.", keeping teams, round and number |
| Bracket.AdvanceIntoExisting | FixturesScreen.js:140-148 | an existing next fixture changes in the chosen slot only |
| Bracket.AdvanceIntoNew | FixturesScreen.js:149-158 | a missing next fixture is created: winner in the slot, 'TBD' in the other, round r+1, number ceil(m/2), unplayed, no winner |
| Bracket.OnlyTwoDocumentsChange | FixturesScreen.js:132-160 | no other document changes; a league writes only the decided fixture; a knockout adds at most the next one |
| Bracket.FixturesBoard.constructor | FixturesScreen.js:98-107 | the board holds the fetched fixtures and no selection |
| Bracket.FixturesBoard.SelectMatch | FixturesScreen.js:195 | "Set Winner" selects that fixture as read |
| Bracket.LeagueWritesWinnerOnly | FixturesScreen.js:133-139 | a league fixture's winner is the only write |
| Bracket.DecidedNotAdvanced | FixturesScreen.js:132-165 | when advancing fails after the first write, the fixture is decided but no next-round fixture is created or changed |
| Bracket.FixturesBoard.HandleSelectWinner | FixturesScreen.js:123-167 | with no selection nothing happens; otherwise nothing is written when the first write fails, only the decided fixture when the advance fails, and the writes of `AfterWinner` when both succeed; the selection is cleared in every case |
| Bracket.RoundOfMembers | FixturesScreen.js:21-25 | a round's group holds exactly the fixtures of that round |
| Bracket.RoundOfConcat | FixturesScreen.js:21-25 | grouping keeps input order: splitting the list splits every group the same way |
| Bracket.GroupsPartition | FixturesScreen.js:21-25 | every fixture is in its own round's group, and each group holds only its round |
| Bracket.FinalRound | FixturesScreen.js:38 | a round is drawn as the final exactly when no fixture is in the next round |
| Bracket.GroupByRound | FixturesScreen.js:21-25 | the `reduce` loop builds exactly `Groups` |
| MatchSetup.RemoveAll | MatchSetupScreen.js:79 | the filter removes every copy of the name and keeps every other name |
| MatchSetup.RemoveAllKeepsNoDup | MatchSetupScreen.js:79 | filtering introduces no duplicates |
| MatchSetup.RemoveAllAppended | MatchSetupScreen.js:79 | removing a just-appended new name restores the list |
| MatchSetup.Toggle | MatchSetupScreen.js:79 | a selected name is removed; an unselected one is appended below capacity; otherwise no change |
| MatchSetup.ToggleKeepsSquadSound | MatchSetupScreen.js:79 | the toggle never introduces a duplicate and never pushes a selection past a capacity it is within |
| MatchSetup.ToggleTwice | MatchSetupScreen.js:79 | toggling an unselected player twice with room leaves the selection as it was |
| MatchSetup.PressKeepsRange | MatchSetupScreen.js:93 | a stepper press keeps overs >= 1, players in [2,15] and balls in [3,8], and moves only its own setting by at most one |
| MatchSetup.PressesKeepRange | MatchSetupScreen.js:93 | any sequence of presses from in-range settings stays in range |
| MatchSetup.StepsCancel | MatchSetupScreen.js:93 | inside the range one step up and one step down cancel |
| MatchSetup.PickerTeams | MatchSetupScreen.js:97 | the picker lists exactly the teams whose id differs from the other side's team |
| MatchSetup.ProceedRule | MatchSetupScreen.js:82-84 | proceeding succeeds exactly when the button is enabled and the teams differ, passing the chosen names and squads of exactly `playersPerSide` |
| MatchSetup.NewPlayerCheck | MatchSetupScreen.js:80 | a blank name is refused; otherwise accepted exactly when a team is chosen and no player matches ignoring case; the accepted name is the trimmed one |
| MatchSetup.ReplaceById | MatchSetupScreen.js:80 | the team list keeps its length, with the updated team in place of every entry with its id |
| MatchSetup.MatchSetupForm.constructor | MatchSetupScreen.js:46-59 | no teams, empty squads, settings 5 overs, 7 players, 6 balls |
| MatchSetup.MatchSetupForm.OpenTeamSelection | MatchSetupScreen.js:76 | records which side is being chosen |
| MatchSetup.MatchSetupForm.HandleTeamSelect | MatchSetupScreen.js:77 | the side being chosen gets the team and an empty squad; the other side is untouched |
| MatchSetup.MatchSetupForm.OpenPlayerSelection | MatchSetupScreen.js:78 | refused without a team; otherwise the working selection starts from that side's squad |
| MatchSetup.MatchSetupForm.HandlePlayerToggle | MatchSetupScreen.js:79 | the working selection is toggled under the players-per-side capacity and stays duplicate-free |
| MatchSetup.MatchSetupForm.ConfirmPlayingSquad | MatchSetupScreen.js:81 | accepted exactly with `playersPerSide` selections, which become the side's squad |
| MatchSetup.MatchSetupForm.PressStepper | MatchSetupScreen.js:93 | one stepper press, keeping the settings in range |
| MatchSetup.MatchSetupForm.SetNewPlayerName | MatchSetupScreen.js:98 | the typed name is recorded |
| MatchSetup.MatchSetupForm.HandleAddNewPlayer | MatchSetupScreen.js:80 | after the checks and a successful write, the trimmed name is appended to the edited team, on its side and in the team list, and the input is cleared; otherwise nothing changes |
| MatchSetup.MatchSetupForm.HandleProceed | MatchSetupScreen.js:82 | the toss parameters or the first failed check, as `Proceed` gives them |
| CreateTeam.PadRoster | CreateTeamScreen.js:19-20 | exactly 11 slots; slot i is the saved player i or "" |
| CreateTeam.PadRosterKeeps | CreateTeamScreen.js:19-20 | a saved roster of at most 11 is kept in order followed by empty slots; a longer one keeps its first 11 |
| CreateTeam.NonBlankMembers | CreateTeamScreen.js:38 | the filter keeps exactly the non-blank names |
| CreateTeam.NonBlankConcat | CreateTeamScreen.js:38 | the filter keeps the original order |
| CreateTeam.DefaultNames | CreateTeamScreen.js:42 | every slot kept, an empty slot i becoming "Player i+1" |
| CreateTeam.SaveRules | CreateTeamScreen.js:31-42 | saving is refused exactly for a blank team name; the name is trimmed; non-blank slots only when there are any, else all slots with default names |
| CreateTeam.DefaultNamesDistinct | CreateTeamScreen.js:42 | default names of different slots differ |
| CreateTeam.CreateTeamForm.constructor | CreateTeamScreen.js:11-23 | eleven empty slots, or in edit mode the saved name and padded roster |
| CreateTeam.CreateTeamForm.SetTeamName | CreateTeamScreen.js:75-76 | the typed team name is recorded |
| CreateTeam.CreateTeamForm.HandlePlayerNameChange | CreateTeamScreen.js:25-29 | only the slot at the index changes |
| CreateTeam.CreateTeamForm.HandleSave | CreateTeamScreen.js:31-44 | the document to write or the refusal, as `SaveData` gives them |
| Toss.BatMakesWinnerBat | TossScreen.js:116 | choosing to bat makes the toss winner the batting team |
| Toss.BowlMakesOtherBat | TossScreen.js:116-117 | choosing to bowl sends the team that lost the toss in to bat |
| Toss.SidesAreTheTwoTeams | TossScreen.js:116-118 | with two different names, batting and bowling are the two teams, one each |
| Toss.TossState.constructor | TossScreen.js:18-27 | missing names default to 'Team A' and 'Team B'; no winner, not flipping, not ready |
| Toss.TossState.MarkReady | TossScreen.js:37-38 | the screen becomes ready |
| Toss.TossState.HandleToss | TossScreen.js:77-82 | ignored while flipping or before ready; otherwise a flip starts and the winner is cleared |
| Toss.TossState.FinishFlip | TossScreen.js:99-102 | the winner is one of the two team names and the flip ends |
| Toss.TossState.HandleChoice | TossScreen.js:115-128 | the scoring parameters carry the batting and bowling teams the choice implies |

## Left out

- Rendering, styles, modals, animations and the UI's `disabled` guards (for example ScoringScreen.js:705, 727, 752) are presentation only. Every modelled handler can be called in any state.
- Remote storage:
  - The fixture collection is a map from document id to fixture. `FixturesBoard.HandleSelectWinner` writes into it.
  - Saving teams returns the fixtures to be committed, by id. The team documents `team_{k}`, the `fixturesGenerated` flag and the commit itself are not modelled.
  - Saving a team returns the document to be written. The write itself, timestamps and merge options are not modelled.
  - Two handlers model a failed write. In `MatchSetupForm.HandleAddNewPlayer` it is one boolean, `writeOk`. In `FixturesBoard.HandleSelectWinner` there are two flags, `decideOk` and `advanceOk`, one for the first write and one for the next-round read and write. A failed advance leaves the fixture decided but not advanced.
- AddTeams.AddTeamsForm.HandleSaveTeams: a failed batch commit, with its error alert, is not modelled.
- CreateTeam.CreateTeamForm.HandleSave: a failed team write, with its error alert, is not modelled.
- Floating-point statistics (run rates, strike rate, economy) and the derived extras display are not modelled.
- React scheduling (`setState` batching, effects, timers) is not modelled. The end-of-innings check is the method `Scorer.CheckInnings`, run by the caller after each event. `TossState.FinishFlip` stands for the timer callback and may be called in any state.
- The coin of the toss (`Math.random`) is a free choice between the two team names.
- The JSON deep copies are not modelled: Dafny datatypes are values. The shallow copy in the team-name edit shares its objects with the old list, which no caller can observe.
- Navigation, localisation and alert texts are left out, except the incomplete-teams message. The fixture list's query order and result-card text are left out too.
- CreateTournamentScreen.js is not part of this model. Its logic is a required-field check and `parseInt` around store writes.
- Text: `toLowerCase` is modelled on ASCII letters only, and route parameters are taken as already typed. The toss screen's `totalOvers` string default is not modelled.
- The screens are modelled separately and are not composed. The parameters the toss passes (`battingTeam`, `bowlingTeam`) are not the ones the scoring screen reads (`initialBattingTeam`, `initialBowlingTeam`).
- Toss.TossState.HandleChoice: names the route parameters but leaves out `totalOvers`, which the screen only passes through.
- Bracket.FixturesBoard.HandleSelectWinner: assumes the selected fixture's round and number are whole numbers, as the generated fixtures have them.
