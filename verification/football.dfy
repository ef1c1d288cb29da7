/** The records the page receives from its backend: matches, teams, standing rows and scorers. */
module Football {
  /** Provider-assigned numeric team identity. */
  type TeamId = int

  /**
   * A match status code. The page only ever tests for the three named codes;
   * `Other` carries any other code the provider sends (in play, postponed, ...)
   * and never one of the three named codes: a reply's "FINISHED", "TIMED" and
   * "SCHEDULED" are always decoded as `Finished`, `Timed` and `Scheduled`.
   */
  datatype Status = Scheduled | Timed | Finished | Other(code: string)

  /** Full-time goals of the home and the away side. */
  datatype Score = Score(home: nat, away: nat)

  datatype Match = Match(homeTeam: TeamId, awayTeam: TeamId, status: Status, fullTime: Score)

  /** A team; an empty string stands for a name, short name or crest the provider left out. */
  datatype Team = Team(id: TeamId, name: string, shortName: string, crest: string)

  /** One row of the league table. */
  datatype StandingRow = StandingRow(
    position: nat, teamId: TeamId, playedGames: nat, won: nat, draw: nat, lost: nat,
    points: nat, goalsFor: nat, goalsAgainst: nat, goalDifference: int)

  datatype Scorer = Scorer(player: string, teamId: TeamId, goals: nat)
}
