/**
 * The refresh path of the page: a health probe, then four fetch handlers whose
 * results replace the page's collections. Network replies are inputs: `None`
 * is a request that threw (network failure or a body that is not JSON),
 * `Some(reply)` the decoded body, whose fields may be missing.
 */
module Refresh {
  import opened Wrappers
  import opened Football
  import Seqs
  import Stats

  const ScorerLimit: nat := 20
  const CannotConnect: string := "Cannot connect to backend. Make sure server is running."
  const BackendNotResponding: string := "Backend not responding. Wait 60 seconds for Render to wake up."

  datatype BackendStatus = Checking | Connected | Disconnected

  /** Decoded bodies of the five backend endpoints. */
  datatype HealthReply = HealthReply(status: Option<string>)
  datatype SeasonDates = SeasonDates(startDate: Option<string>, endDate: Option<string>)
  datatype StandingGroup = StandingGroup(table: seq<StandingRow>)
  datatype StandingsReply = StandingsReply(standings: Option<seq<StandingGroup>>, season: Option<SeasonDates>)
  datatype MatchesReply = MatchesReply(matches: Option<seq<Match>>)
  datatype TeamsReply = TeamsReply(teams: Option<seq<Team>>)
  datatype ScorersReply = ScorersReply(scorers: Option<seq<Scorer>>)

  /** The probe succeeds only on a decoded body whose status is exactly "OK". */
  predicate HealthOk(reply: Option<HealthReply>)
  {
    reply.Some? && reply.value.status == Some("OK")
  }

  /** `data.standings && data.standings[0]`: a standings array with a first group. */
  predicate HasTable(reply: Option<StandingsReply>)
  {
    reply.Some? && reply.value.standings.Some? && |reply.value.standings.value| > 0
  }

  /** A season object with a missing date: reading its `slice` throws after the table was stored. */
  predicate SeasonBroken(reply: Option<StandingsReply>)
  {
    reply.Some? && reply.value.season.Some? &&
    (reply.value.season.value.startDate.None? || reply.value.season.value.endDate.None?)
  }

  /** The standings handler reports success. */
  predicate StandingsOk(reply: Option<StandingsReply>)
  {
    HasTable(reply) && !SeasonBroken(reply)
  }

  /** The standings handler stores a connection error. */
  predicate StandingsThrew(reply: Option<StandingsReply>)
  {
    reply.None? || (HasTable(reply) && SeasonBroken(reply))
  }

  predicate HasMatches(reply: Option<MatchesReply>) { reply.Some? && reply.value.matches.Some? }
  predicate HasTeams(reply: Option<TeamsReply>) { reply.Some? && reply.value.teams.Some? }
  predicate HasScorers(reply: Option<ScorersReply>) { reply.Some? && reply.value.scorers.Some? }

  /** The state of the page component that the refresh path writes. */
  class Dashboard {
    var standings: seq<StandingRow>
    var allMatches: seq<Match>
    var teams: seq<Team>
    var scorers: seq<Scorer>
    var currentSeason: string
    var backendStatus: BackendStatus
    var error: Option<string>
    var loading: bool
    var lastUpdate: Option<int>

    /** At most twenty scorers are ever kept. */
    ghost predicate Valid()
      reads this
    {
      |scorers| <= ScorerLimit
    }

    /** The initial component state: empty collections, probing, loading. */
    constructor ()
      ensures Valid()
      ensures standings == [] && allMatches == [] && teams == [] && scorers == []
      ensures currentSeason == "" && backendStatus == Checking
      ensures error == None && loading && lastUpdate == None
    {
      standings, allMatches, teams, scorers := [], [], [], [];
      currentSeason := "";
      backendStatus := Checking;
      error := None;
      loading := true;
      lastUpdate := None;
    }

    /** `checkBackend`: probe the backend and record whether it answered "OK". */
    method CheckBackend(reply: Option<HealthReply>) returns (ok: bool)
      modifies this`backendStatus
      ensures ok == HealthOk(reply)
      ensures backendStatus == if ok then Connected else Disconnected
    {
      backendStatus := Checking;
      if reply.None? {
        backendStatus := Disconnected;
        return false;
      }
      if reply.value.status == Some("OK") {
        backendStatus := Connected;
        return true;
      }
      backendStatus := Disconnected;
      return false;
    }

    /** `fetchStandings`: store the first table and the season label. */
    method FetchStandings(reply: Option<StandingsReply>) returns (ok: bool)
      modifies this`standings, this`currentSeason, this`error
      ensures ok == StandingsOk(reply)
      ensures standings == if HasTable(reply) then reply.value.standings.value[0].table else old(standings)
      ensures currentSeason ==
        if ok && reply.value.season.Some?
        then Stats.SeasonLabel(reply.value.season.value.startDate.value, reply.value.season.value.endDate.value)
        else old(currentSeason)
      ensures error == if ok then None else if StandingsThrew(reply) then Some(CannotConnect) else old(error)
    {
      if reply.None? {
        error := Some(CannotConnect);
        return false;
      }
      var data := reply.value;
      if data.standings.Some? && |data.standings.value| > 0 {
        standings := data.standings.value[0].table;
        if data.season.Some? {
          var season := data.season.value;
          if season.startDate.None? || season.endDate.None? {
            error := Some(CannotConnect);
            return false;
          }
          currentSeason := Stats.SeasonLabel(season.startDate.value, season.endDate.value);
        }
        error := None;
        return true;
      }
      return false;
    }

    /** `fetchMatches`: replace the match list when the reply carries one. */
    method FetchMatches(reply: Option<MatchesReply>) returns (ok: bool)
      modifies this`allMatches
      ensures ok == HasMatches(reply)
      ensures allMatches == if ok then reply.value.matches.value else old(allMatches)
    {
      if reply.Some? && reply.value.matches.Some? {
        allMatches := reply.value.matches.value;
        return true;
      }
      return false;
    }

    /** `fetchTeams`: replace the team list when the reply carries one. */
    method FetchTeams(reply: Option<TeamsReply>) returns (ok: bool)
      modifies this`teams
      ensures ok == HasTeams(reply)
      ensures teams == if ok then reply.value.teams.value else old(teams)
    {
      if reply.Some? && reply.value.teams.Some? {
        teams := reply.value.teams.value;
        return true;
      }
      return false;
    }

    /** `fetchScorers`: keep the first twenty scorers of the reply, when it carries a list. */
    method FetchScorers(reply: Option<ScorersReply>) returns (ok: bool)
      requires Valid()
      modifies this`scorers
      ensures Valid()
      ensures ok == HasScorers(reply)
      ensures scorers == if ok then Seqs.Take(reply.value.scorers.value, ScorerLimit) else old(scorers)
      ensures ok ==> |scorers| == Seqs.Min(ScorerLimit, |reply.value.scorers.value|)
    {
      if reply.Some? && reply.value.scorers.Some? {
        scorers := Seqs.Take(reply.value.scorers.value, ScorerLimit);
        return true;
      }
      return false;
    }

    /**
     * `loadData`: one refresh cycle. A failed probe ends the cycle with a
     * warning and leaves every collection and the timestamp as they were;
     * otherwise each handler runs and the cycle is stamped with `now`.
     */
    method LoadData(
      health: Option<HealthReply>, standingsReply: Option<StandingsReply>,
      matchesReply: Option<MatchesReply>, teamsReply: Option<TeamsReply>,
      scorersReply: Option<ScorersReply>, now: int)
      requires Valid()
      modifies this
      ensures Valid()
      ensures !loading
      ensures backendStatus == if HealthOk(health) then Connected else Disconnected
      ensures !HealthOk(health) ==>
        standings == old(standings) && allMatches == old(allMatches) && teams == old(teams) &&
        scorers == old(scorers) && currentSeason == old(currentSeason) &&
        lastUpdate == old(lastUpdate) && error == Some(BackendNotResponding)
      ensures HealthOk(health) ==>
        lastUpdate == Some(now) &&
        error == (if StandingsThrew(standingsReply) then Some(CannotConnect) else None) &&
        standings == (if HasTable(standingsReply) then standingsReply.value.standings.value[0].table else old(standings)) &&
        allMatches == (if HasMatches(matchesReply) then matchesReply.value.matches.value else old(allMatches)) &&
        teams == (if HasTeams(teamsReply) then teamsReply.value.teams.value else old(teams)) &&
        scorers == (if HasScorers(scorersReply) then Seqs.Take(scorersReply.value.scorers.value, ScorerLimit) else old(scorers))
      ensures HealthOk(health) ==>
        currentSeason ==
          if StandingsOk(standingsReply) && standingsReply.value.season.Some?
          then Stats.SeasonLabel(standingsReply.value.season.value.startDate.value, standingsReply.value.season.value.endDate.value)
          else old(currentSeason)
    {
      loading := true;
      error := None;
      var backendOk := CheckBackend(health);
      if !backendOk {
        error := Some(BackendNotResponding);
        loading := false;
        return;
      }
      var standingsOk := FetchStandings(standingsReply);
      var matchesOk := FetchMatches(matchesReply);
      var teamsOk := FetchTeams(teamsReply);
      var scorersOk := FetchScorers(scorersReply);
      lastUpdate := Some(now);
      loading := false;
    }
  }
}
