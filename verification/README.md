# Premier League tracker: match derivations and refresh path

This project models the logic of the Premier League tracker page (`server.js`, an HTML page with an inline React script) and proves properties of that model in Dafny. The page does two things besides rendering:

- It derives match lists from the `allMatches` array the backend returns. These are a team's first five finished matches in provider order and its W/D/L form guide, the first fifteen timed or scheduled matches, the first twenty finished matches, and the first five head-to-head meetings of two teams. It also looks up a team's name and crest by id, shows each team's win rate, and builds the season label.
- It refreshes its state. A health probe must answer `"OK"`. Four fetch handlers then each replace one collection (standings, matches, teams, scorers), but only when the reply carries the expected field.

Modules:

- `Wrappers` (`wrappers.dfy`): the `Option` datatype for missing reply fields and failed lookups.
- `Football` (`football.dfy`): the records (`Match`, `Team`, `StandingRow`, `Scorer`, `Status`).
- `Seqs` (`seqs.dfy`): `Take` (JavaScript `slice(0, n)`) and `Reverse`.
- `Derivations` (`derivations.dfy`): the filter-then-slice pipelines. The filters are a `Criterion` datatype.
- `Lookup` (`lookup.dfy`): team lookup by id.
- `Stats` (`stats.dfy`): the win rate and the season label.
- `Refresh` (`refresh.dfy`): the component state as the class `Dashboard`, with one method per handler.

The match lists are always the first n matches that pass the filter, in the order the provider sent them. The model states "first n" like this: if a match at index `j` passes the filter and `Count(ms[..j], c)` (the number of passing matches before it) is below n, then it is the element at that position of the result. Together with the length, min(n, number of passing matches), this fixes the result completely.

The page never sorts by date. The form guide is the provider's order reversed, so it reads oldest-first only when the provider lists the newest match first. `Derivations.FormGuideExample` shows this: three results sent in the order `2-1`, `0-0`, `1-3` give `['L', 'D', 'W']`.

## Model

| member | source | states |
|---|---|---|
| `Seqs.Take` | server.js:221 | `slice(0, n)` keeps min(n, length) elements, each equal to the input's element at the same index |
| `Seqs.Reverse` | server.js:225 | the reversed list has the same length, and element i is the input's element length-1-i |
| `Derivations.Filter` | server.js:216-220 | the filtered list is no longer than the input, and every element is from the input and passes the criterion |
| `Derivations.FilterAt` | server.js:216-220 | a passing match at index j is the filtered list's element at position "passing matches before j" |
| `Derivations.FilterAgree` | server.js:247-251 | two criteria that agree on every match select the same list |
| `Derivations.FirstWhereSpec` | server.js:216-221 | filter then slice keeps min(n, count) matches, all passing and from the input, and the k-th passing match of the input (k < n) is element k |
| `Derivations.TeamMatches` | server.js:215-222 | `getTeamMatches`: at most 5 matches, each from the input, FINISHED, with the team at home or away |
| `Derivations.TeamMatchesSpec` | server.js:215-222 | at most 5 matches, all FINISHED with the team at home or away, and they are exactly the team's first five finished matches in input order |
| `Derivations.Outcome` | server.js:227-233 | the letter is 'W', 'D' or 'L'; 'W' iff the team's goals exceed the opponent's, 'L' iff fewer, 'D' iff equal; the home side is read when the team is the home team |
| `Derivations.OutcomeMirror` | server.js:227-233 | in a match between two different teams, one side's 'W' is the other's 'L', and a 'D' is a 'D' for both |
| `Derivations.FormGuide` | server.js:224-235 | `getFormGuide`: as many letters as the team's match list (at most 5), each 'W', 'D' or 'L' |
| `Derivations.FormGuideSpec` | server.js:224-235 | the form guide is as long as the team's match list (at most 5); letter i is the outcome of that list's element length-1-i; every letter is W, D or L |
| `Derivations.FormGuideLastIsFirstMatch` | server.js:224-226 | the last letter comes from the team's first finished match in input order |
| `Derivations.FormGuideExample` | server.js:224-235 | results 2-1, 0-0, 1-3 in provider order give the form guide L, D, W |
| `Derivations.UpcomingMatches` | server.js:237-239 | `getUpcomingMatches`: at most 15 matches, each from the input and TIMED or SCHEDULED |
| `Derivations.UpcomingMatchesSpec` | server.js:237-239 | at most 15 matches, all TIMED or SCHEDULED (so none FINISHED), and they are the first such matches in input order |
| `Derivations.RecentMatches` | server.js:241-243 | `getRecentMatches`: at most 20 matches, each from the input and FINISHED |
| `Derivations.RecentMatchesSpec` | server.js:241-243 | at most 20 matches, all FINISHED, and they are the first finished matches in input order |
| `Derivations.UpcomingRecentDisjoint` | server.js:237-243 | no match is listed both as upcoming and as recent |
| `Derivations.HeadToHead` | server.js:245-253 | `getHeadToHead`: at most 5 matches, each from the input, FINISHED, between the two teams in either orientation |
| `Derivations.HeadToHeadSpec` | server.js:245-253 | at most 5 FINISHED matches whose {home, away} ids are exactly {a, b}, and they are the first such meetings in input order |
| `Derivations.PairSet` | server.js:249-250 | the two-orientation test of the head-to-head filter is equality of the unordered pairs {home, away} and {a, b} |
| `Derivations.HeadToHeadSymmetric` | server.js:245-253 | swapping the two team ids gives the same head-to-head list |
| `Lookup.FindTeam` | server.js:206 | `find` returns the position of the first team with the id, and nothing exactly when no team has it |
| `Lookup.TeamLogo` | server.js:205-208 | the first matching team's crest, or "" when no team has the id |
| `Lookup.TeamName` | server.js:210-213 | the first matching team's short name if non-empty, else its name; "" exactly when no team matches or both are empty |
| `Lookup.LookupFirstWins` | server.js:205-213 | appending teams never changes the name or crest of an id that is already present |
| `Lookup.LookupSkipsOthers` | server.js:205-213 | teams with other ids placed in front change neither name nor crest |
| `Stats.WinRate` | server.js:444 | the rate is 0 when no games were played |
| `Stats.WinRateRounds` | server.js:444 | with games played, the rate is 100 * won / played rounded to the nearest integer, halves up |
| `Stats.RoundedPercentUnique` | server.js:444 | only one integer is that rounding, so the rate is determined |
| `Stats.WinRateAtMost100` | server.js:444 | if wins do not exceed games played, the rate is at most 100 |
| `Stats.SeasonLabel` | server.js:106 | the label has length min(4, start) + 1 + min(4, end); with two full dates it is 9 characters with a dash at index 4 |
| `Stats.SeasonLabelSplits` | server.js:106 | splitting the label at its dash gives back the first four characters of each date |
| `Stats.SeasonLabelExample` | server.js:106 | dates 2024-08-16 and 2025-05-25 give "2024-2025" |
| `Refresh.Dashboard.constructor` | server.js:68-79 | empty collections, season "", status checking, no error, loading, no timestamp |
| `Refresh.Dashboard.CheckBackend` | server.js:81-96 | reports success iff a body with status exactly "OK" arrived; status becomes connected or disconnected accordingly; nothing else changes |
| `Refresh.Dashboard.FetchStandings` | server.js:98-117 | replaces standings only when a first group exists; sets the season label only when the season has both dates; error cleared on success, set on a thrown request or a season missing a date, otherwise kept |
| `Refresh.Dashboard.FetchMatches` | server.js:119-133 | replaces the matches iff the reply carries a `matches` field (an empty list included), otherwise leaves them and reports false |
| `Refresh.Dashboard.FetchTeams` | server.js:135-149 | replaces the teams iff the reply carries a `teams` field, otherwise leaves them and reports false |
| `Refresh.Dashboard.FetchScorers` | server.js:151-165 | when the reply carries scorers, keeps exactly the first min(20, n) of them; otherwise no change; at most 20 scorers are ever held |
| `Refresh.Dashboard.LoadData` | server.js:167-187 | a failed probe changes no collection, the season or the timestamp, and sets the "not responding" error; otherwise each collection and the season label are set as their handlers say, the error reflects only the standings handler, and the cycle is stamped |

## Left out

- Rendering (JSX, icons, Tailwind classes, the position colour bands): presentation only.
- `fetch`, `response.json()` and `console.error`: network I/O. Each reply is an input, `None` for a request that threw and `Some` of the decoded body otherwise.
- The `Promise.all` fan-out: the four handlers run in sequence in the model. They write disjoint fields, and only the standings handler writes `error`, so every interleaving ends in the same state.
- React's batched, asynchronous state setters: assignments take effect at once.
- The 300-second `setInterval` timer and the `useEffect` lifecycle: framework timer plumbing. `LoadData` models one tick.
- `new Date()`: the wall clock is the parameter `now` of `LoadData`.
- `formatDate` and `formatTime`: locale-dependent date formatting.
- Stats.WinRate: uses exact integer round-half-up, `(200 * won + played) / (2 * played)`. `Math.round((won / played) * 100)` in floating point can differ for values that sit exactly on a half.
- Missing fields inside records are not modelled. A match always has numeric full-time scores, and a team's absent name, short name or crest is the empty string. JavaScript's `null` scores of unfinished matches never reach a comparison, because only FINISHED matches are mapped to letters.
- Refresh.Dashboard.FetchStandings: a first group without a `table` field, or a reply body that is JSON `null`, is not modelled separately. The table is always a list, and a body that makes the handler throw before its check is the input `None`.
- Multi-season history, provider adapters, name-based team joins and date-sorted ordering: none of them occur in `server.js`, so the model does not invent them.
- Provider status codes are decoded into `Status` before the model sees them. `Other` never carries "FINISHED", "TIMED" or "SCHEDULED", so the page's string comparisons and the model's constructor tests agree.
