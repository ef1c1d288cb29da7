/**
 * Resolving a team id to its display name and crest. Like `Array.prototype.find`,
 * the first team with the id wins, and an unknown id gives the empty string.
 */
module Lookup {
  import opened Wrappers
  import opened Football

  /** `k` is the position of the first team in `teams` whose id is `id`. */
  predicate IsFirstWithId(teams: seq<Team>, id: TeamId, k: int)
  {
    0 <= k < |teams| && teams[k].id == id && forall j :: 0 <= j < k ==> teams[j].id != id
  }

  predicate Unknown(teams: seq<Team>, id: TeamId)
  {
    forall k :: 0 <= k < |teams| ==> teams[k].id != id
  }

  /** `teams.find(t => t.id === id)`, as the position found. */
  function FindTeam(teams: seq<Team>, id: TeamId): (r: Option<nat>)
    ensures r.None? <==> Unknown(teams, id)
    ensures r.Some? ==> IsFirstWithId(teams, id, r.value)
  {
    if |teams| == 0 then None
    else if teams[0].id == id then Some(0)
    else match FindTeam(teams[1..], id)
      case None => None
      case Some(k) => Some(k + 1)
  }

  /** `getTeamLogo`: the crest of the first team with the id, or the empty string. */
  function TeamLogo(teams: seq<Team>, id: TeamId): (r: string)
    ensures Unknown(teams, id) ==> r == ""
    ensures forall k :: IsFirstWithId(teams, id, k) ==> r == teams[k].crest
  {
    match FindTeam(teams, id)
    case None => ""
    case Some(k) => teams[k].crest
  }

  /** `getTeamName`: the first matching team's short name, else its name, else the empty string. */
  function TeamName(teams: seq<Team>, id: TeamId): (r: string)
    ensures Unknown(teams, id) ==> r == ""
    ensures forall k :: IsFirstWithId(teams, id, k) ==>
      r == (if teams[k].shortName != "" then teams[k].shortName else teams[k].name)
    ensures r == "" <==>
      (Unknown(teams, id) ||
       exists k :: IsFirstWithId(teams, id, k) && teams[k].shortName == "" && teams[k].name == "")
  {
    match FindTeam(teams, id)
    case None => ""
    case Some(k) =>
      if teams[k].shortName != "" then teams[k].shortName
      else if teams[k].name != "" then teams[k].name
      else ""
  }

  /** The first team with an id hides every later one: appending teams never changes a known id's name or crest. */
  lemma {:induction false} LookupFirstWins(teams: seq<Team>, more: seq<Team>, id: TeamId)
    requires !Unknown(teams, id)
    ensures TeamName(teams + more, id) == TeamName(teams, id)
    ensures TeamLogo(teams + more, id) == TeamLogo(teams, id)
  {
    var k := FindTeam(teams, id).value;
    assert IsFirstWithId(teams + more, id, k) by {
      forall j | 0 <= j <= k ensures (teams + more)[j] == teams[j] {}
    }
  }

  /** Teams with other ids placed in front change nothing either. */
  lemma {:induction false} LookupSkipsOthers(others: seq<Team>, teams: seq<Team>, id: TeamId)
    requires Unknown(others, id)
    ensures TeamName(others + teams, id) == TeamName(teams, id)
    ensures TeamLogo(others + teams, id) == TeamLogo(teams, id)
  {
    var all := others + teams;
    if Unknown(teams, id) {
      forall k | 0 <= k < |all| ensures all[k].id != id {
        if k >= |others| { assert all[k] == teams[k - |others|]; }
      }
    } else {
      var k := FindTeam(teams, id).value;
      assert all[|others| + k] == teams[k];
      forall j | 0 <= j < |others| + k ensures all[j].id != id {
        if j >= |others| { assert all[j] == teams[j - |others|]; }
      }
      assert IsFirstWithId(all, id, |others| + k);
    }
  }
}
