/**
 * The match lists the page derives from `allMatches`: a team's first five finished
 * matches and its form guide, the first fifteen timed or scheduled matches, the
 * first twenty finished matches, and the first five head-to-head meetings.
 * Every list is "filter, then keep the first n" in the order the provider sent
 * the matches; nothing is sorted by date.
 */
module Derivations {
  import opened Football
  import opened Seqs

  const TeamMatchLimit: nat := 5
  const UpcomingLimit: nat := 15
  const RecentLimit: nat := 20
  const HeadToHeadLimit: nat := 5

  /** The filter conditions the page uses. */
  datatype Criterion =
    | TeamResult(team: TeamId)             // finished, with `team` at home or away
    | Upcoming                             // timed or scheduled
    | Result                               // finished
    | Meeting(team1: TeamId, team2: TeamId) // finished, between the two teams either way round

  predicate Holds(c: Criterion, m: Match)
  {
    match c
    case TeamResult(t) => m.status == Finished && (m.homeTeam == t || m.awayTeam == t)
    case Upcoming => m.status == Timed || m.status == Scheduled
    case Result => m.status == Finished
    case Meeting(a, b) =>
      m.status == Finished &&
      ((m.homeTeam == a && m.awayTeam == b) || (m.homeTeam == b && m.awayTeam == a))
  }

  /** `ms.filter(m => Holds(c, m))`: the matching matches, in input order. */
  function Filter(ms: seq<Match>, c: Criterion): (r: seq<Match>)
    ensures |r| <= |ms|
    ensures forall m :: m in r ==> m in ms && Holds(c, m)
  {
    if |ms| == 0 then []
    else if Holds(c, ms[0]) then [ms[0]] + Filter(ms[1..], c)
    else Filter(ms[1..], c)
  }

  /** How many matches of `ms` satisfy `c`, counted from the back and without building a list. */
  function Count(ms: seq<Match>, c: Criterion): (n: nat)
  {
    if |ms| == 0 then 0
    else Count(ms[..|ms| - 1], c) + (if Holds(c, ms[|ms| - 1]) then 1 else 0)
  }

  /** The filter-then-slice pipeline shared by every derived list. */
  function FirstWhere(ms: seq<Match>, c: Criterion, n: nat): (r: seq<Match>)
  {
    Take(Filter(ms, c), n)
  }

  lemma {:induction false} FilterAppend(a: seq<Match>, b: seq<Match>, c: Criterion)
    ensures Filter(a + b, c) == Filter(a, c) + Filter(b, c)
  {
    if |a| == 0 {
      assert a + b == b;
    } else {
      assert (a + b)[0] == a[0];
      assert (a + b)[1..] == a[1..] + b;
      FilterAppend(a[1..], b, c);
    }
  }

  lemma {:induction false} FilterLength(ms: seq<Match>, c: Criterion)
    ensures |Filter(ms, c)| == Count(ms, c)
    decreases |ms|
  {
    if |ms| > 0 {
      var init, last := ms[..|ms| - 1], ms[|ms| - 1];
      assert ms == init + [last];
      FilterAppend(init, [last], c);
      FilterLength(init, c);
      assert [last][1..] == [];
    }
  }

  /** The match at index `j`, when it satisfies `c`, sits in the filtered list at its rank among the matching matches. */
  lemma FilterAt(ms: seq<Match>, c: Criterion, j: nat)
    requires j < |ms| && Holds(c, ms[j])
    ensures Count(ms[..j], c) < |Filter(ms, c)|
    ensures Filter(ms, c)[Count(ms[..j], c)] == ms[j]
  {
    assert ms == ms[..j] + ms[j..];
    FilterAppend(ms[..j], ms[j..], c);
    FilterLength(ms[..j], c);
    assert ms[j..][0] == ms[j];
    assert ms[j..][1..] == ms[j + 1..];
  }

  /** Two criteria that agree on every match select the same list. */
  lemma {:induction false} FilterAgree(ms: seq<Match>, c: Criterion, d: Criterion)
    requires forall m :: Holds(c, m) == Holds(d, m)
    ensures Filter(ms, c) == Filter(ms, d)
  {
    if |ms| > 0 {
      FilterAgree(ms[1..], c, d);
    }
  }

  /**
   * What "the first n matches satisfying c" means, stated without `Filter`:
   * there are min(n, Count) of them, each satisfies c and comes from the input,
   * and the k-th matching match of the input (for k < n) is the k-th element.
   */
  lemma FirstWhereSpec(ms: seq<Match>, c: Criterion, n: nat)
    ensures |FirstWhere(ms, c, n)| == Min(n, Count(ms, c))
    ensures forall m :: m in FirstWhere(ms, c, n) ==> m in ms && Holds(c, m)
    ensures forall j :: 0 <= j < |ms| && Holds(c, ms[j]) && Count(ms[..j], c) < n ==>
      Count(ms[..j], c) < |FirstWhere(ms, c, n)| && FirstWhere(ms, c, n)[Count(ms[..j], c)] == ms[j]
  {
    var f := Filter(ms, c);
    FilterLength(ms, c);
    forall m | m in FirstWhere(ms, c, n) ensures m in ms && Holds(c, m) {
      var i :| 0 <= i < |FirstWhere(ms, c, n)| && FirstWhere(ms, c, n)[i] == m;
      assert m == f[i] && f[i] in f;
    }
    forall j | 0 <= j < |ms| && Holds(c, ms[j]) && Count(ms[..j], c) < n
      ensures Count(ms[..j], c) < |FirstWhere(ms, c, n)| && FirstWhere(ms, c, n)[Count(ms[..j], c)] == ms[j]
    {
      FilterAt(ms, c, j);
    }
  }

  // ---------------------------------------------------------------- team results

  /** `getTeamMatches`: the first five finished matches in which `t` played. */
  function TeamMatches(ms: seq<Match>, t: TeamId): (r: seq<Match>)
    ensures |r| <= 5
    ensures forall m :: m in r ==> m in ms && m.status == Finished && (m.homeTeam == t || m.awayTeam == t)
  {
    FirstWhere(ms, TeamResult(t), TeamMatchLimit)
  }

  lemma TeamMatchesSpec(ms: seq<Match>, t: TeamId)
    ensures |TeamMatches(ms, t)| <= 5
    ensures |TeamMatches(ms, t)| == Min(5, Count(ms, TeamResult(t)))
    ensures forall m :: m in TeamMatches(ms, t) ==>
      m in ms && m.status == Finished && (m.homeTeam == t || m.awayTeam == t)
    ensures forall j :: 0 <= j < |ms| && Holds(TeamResult(t), ms[j]) && Count(ms[..j], TeamResult(t)) < 5 ==>
      Count(ms[..j], TeamResult(t)) < |TeamMatches(ms, t)| &&
      TeamMatches(ms, t)[Count(ms[..j], TeamResult(t))] == ms[j]
  {
    FirstWhereSpec(ms, TeamResult(t), TeamMatchLimit);
  }

  // ---------------------------------------------------------------- form guide

  /** Goals scored by `t` in `m`, reading the home side when `t` is the home team and the away side otherwise. */
  function GoalsFor(m: Match, t: TeamId): (goals: nat)
  {
    if m.homeTeam == t then m.fullTime.home else m.fullTime.away
  }

  /** Goals conceded by `t` in `m`, with the same choice of side as `GoalsFor`. */
  function GoalsAgainst(m: Match, t: TeamId): (goals: nat)
  {
    if m.homeTeam == t then m.fullTime.away else m.fullTime.home
  }

  /** The form-guide letter of one match from the point of view of `t`. */
  function Outcome(m: Match, t: TeamId): (r: char)
    ensures r == 'W' || r == 'D' || r == 'L'
    ensures r == 'W' <==> GoalsFor(m, t) > GoalsAgainst(m, t)
    ensures r == 'L' <==> GoalsFor(m, t) < GoalsAgainst(m, t)
    ensures r == 'D' <==> GoalsFor(m, t) == GoalsAgainst(m, t)
  {
    var isHome := m.homeTeam == t;
    var teamScore := if isHome then m.fullTime.home else m.fullTime.away;
    var oppScore := if isHome then m.fullTime.away else m.fullTime.home;
    if teamScore > oppScore then 'W'
    else if teamScore < oppScore then 'L'
    else 'D'
  }

  /** The two sides of a match between different teams see mirrored letters. */
  lemma OutcomeMirror(m: Match)
    requires m.homeTeam != m.awayTeam
    ensures Outcome(m, m.homeTeam) == 'W' <==> Outcome(m, m.awayTeam) == 'L'
    ensures Outcome(m, m.homeTeam) == 'L' <==> Outcome(m, m.awayTeam) == 'W'
    ensures Outcome(m, m.homeTeam) == 'D' <==> Outcome(m, m.awayTeam) == 'D'
  {
  }

  /** `getFormGuide`: the team's matches reversed, each mapped to its letter. */
  function FormGuide(ms: seq<Match>, t: TeamId): (r: seq<char>)
    ensures |r| == |TeamMatches(ms, t)| <= 5
    ensures forall i :: 0 <= i < |r| ==> r[i] == 'W' || r[i] == 'D' || r[i] == 'L'
  {
    var reversed := Reverse(TeamMatches(ms, t));
    seq(|reversed|, i requires 0 <= i < |reversed| => Outcome(reversed[i], t))
  }

  lemma FormGuideSpec(ms: seq<Match>, t: TeamId)
    ensures |FormGuide(ms, t)| == |TeamMatches(ms, t)| <= 5
    ensures forall i :: 0 <= i < |FormGuide(ms, t)| ==>
      FormGuide(ms, t)[i] == Outcome(TeamMatches(ms, t)[|TeamMatches(ms, t)| - 1 - i], t)
    ensures forall i :: 0 <= i < |FormGuide(ms, t)| ==>
      FormGuide(ms, t)[i] == 'W' || FormGuide(ms, t)[i] == 'D' || FormGuide(ms, t)[i] == 'L'
  {
  }

  /** The last letter of the form guide comes from the team's first finished match in input order. */
  lemma FormGuideLastIsFirstMatch(ms: seq<Match>, t: TeamId, j: nat)
    requires j < |ms| && Holds(TeamResult(t), ms[j]) && Count(ms[..j], TeamResult(t)) == 0
    ensures |FormGuide(ms, t)| > 0
    ensures FormGuide(ms, t)[|FormGuide(ms, t)| - 1] == Outcome(ms[j], t)
  {
    FirstWhereSpec(ms, TeamResult(t), TeamMatchLimit);
    FormGuideSpec(ms, t);
  }

  /** Three finished matches of team 1, listed by the provider in this order. */
  lemma FormGuideExample()
    ensures FormGuide([
      Match(1, 2, Finished, Score(2, 1)),
      Match(3, 1, Finished, Score(0, 0)),
      Match(1, 4, Finished, Score(1, 3))], 1) == ['L', 'D', 'W']
  {
    var ms := [
      Match(1, 2, Finished, Score(2, 1)),
      Match(3, 1, Finished, Score(0, 0)),
      Match(1, 4, Finished, Score(1, 3))];
    assert Filter(ms, TeamResult(1)) == ms;
    assert TeamMatches(ms, 1) == ms;
  }

  // ---------------------------------------------------------------- fixtures

  /** `getUpcomingMatches`: the first fifteen timed or scheduled matches. */
  function UpcomingMatches(ms: seq<Match>): (r: seq<Match>)
    ensures |r| <= 15
    ensures forall m :: m in r ==> m in ms && (m.status == Timed || m.status == Scheduled)
  {
    FirstWhere(ms, Upcoming, UpcomingLimit)
  }

  /** `getRecentMatches`: the first twenty finished matches. */
  function RecentMatches(ms: seq<Match>): (r: seq<Match>)
    ensures |r| <= 20
    ensures forall m :: m in r ==> m in ms && m.status == Finished
  {
    FirstWhere(ms, Result, RecentLimit)
  }

  lemma UpcomingMatchesSpec(ms: seq<Match>)
    ensures |UpcomingMatches(ms)| == Min(15, Count(ms, Upcoming))
    ensures forall m :: m in UpcomingMatches(ms) ==>
      m in ms && (m.status == Timed || m.status == Scheduled) && m.status != Finished
    ensures forall j :: 0 <= j < |ms| && Holds(Upcoming, ms[j]) && Count(ms[..j], Upcoming) < 15 ==>
      Count(ms[..j], Upcoming) < |UpcomingMatches(ms)| &&
      UpcomingMatches(ms)[Count(ms[..j], Upcoming)] == ms[j]
  {
    FirstWhereSpec(ms, Upcoming, UpcomingLimit);
  }

  lemma RecentMatchesSpec(ms: seq<Match>)
    ensures |RecentMatches(ms)| == Min(20, Count(ms, Result))
    ensures forall m :: m in RecentMatches(ms) ==> m in ms && m.status == Finished
    ensures forall j :: 0 <= j < |ms| && ms[j].status == Finished && Count(ms[..j], Result) < 20 ==>
      Count(ms[..j], Result) < |RecentMatches(ms)| &&
      RecentMatches(ms)[Count(ms[..j], Result)] == ms[j]
  {
    FirstWhereSpec(ms, Result, RecentLimit);
  }

  /** No match is listed both as upcoming and as recent. */
  lemma UpcomingRecentDisjoint(ms: seq<Match>, m: Match)
    requires m in UpcomingMatches(ms)
    ensures m !in RecentMatches(ms)
  {
    UpcomingMatchesSpec(ms);
    RecentMatchesSpec(ms);
  }

  // ---------------------------------------------------------------- head to head

  /** `getHeadToHead`: the first five finished meetings of the two teams, either way round. */
  function HeadToHead(ms: seq<Match>, team1: TeamId, team2: TeamId): (r: seq<Match>)
    ensures |r| <= 5
    ensures forall m :: m in r ==> m in ms && Holds(Meeting(team1, team2), m)
  {
    FirstWhere(ms, Meeting(team1, team2), HeadToHeadLimit)
  }

  lemma HeadToHeadSpec(ms: seq<Match>, a: TeamId, b: TeamId)
    ensures |HeadToHead(ms, a, b)| == Min(5, Count(ms, Meeting(a, b)))
    ensures forall m :: m in HeadToHead(ms, a, b) ==>
      m in ms && m.status == Finished && {m.homeTeam, m.awayTeam} == {a, b}
    ensures forall j ::
      0 <= j < |ms| && ms[j].status == Finished && {ms[j].homeTeam, ms[j].awayTeam} == {a, b} &&
      Count(ms[..j], Meeting(a, b)) < 5 ==>
        Count(ms[..j], Meeting(a, b)) < |HeadToHead(ms, a, b)| &&
        HeadToHead(ms, a, b)[Count(ms[..j], Meeting(a, b))] == ms[j]
  {
    FirstWhereSpec(ms, Meeting(a, b), HeadToHeadLimit);
    forall m ensures Holds(Meeting(a, b), m) <==> m.status == Finished && {m.homeTeam, m.awayTeam} == {a, b} {
      PairSet(m.homeTeam, m.awayTeam, a, b);
    }
  }

  /** Two unordered pairs are equal exactly when they match in one of the two orientations. */
  lemma PairSet(h: TeamId, w: TeamId, a: TeamId, b: TeamId)
    ensures {h, w} == {a, b} <==> (h == a && w == b) || (h == b && w == a)
  {
  }

  /** The head-to-head list does not depend on which team is named first. */
  lemma HeadToHeadSymmetric(ms: seq<Match>, a: TeamId, b: TeamId)
    ensures HeadToHead(ms, a, b) == HeadToHead(ms, b, a)
  {
    FilterAgree(ms, Meeting(a, b), Meeting(b, a));
  }
}
