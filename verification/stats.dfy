/** Figures the page computes from one standings reply: a team's win rate and the season label. */
module Stats {
  import opened Football
  import opened Seqs

  /**
   * The win percentage shown for a standing row: 0 for a team that has not
   * played, otherwise 100 * won / playedGames rounded to the nearest integer,
   * halves rounded up as `Math.round` does. Integer arithmetic stands in for
   * the floating-point computation.
   */
  function WinRate(row: StandingRow): (r: nat)
    ensures row.playedGames == 0 ==> r == 0
  {
    if row.playedGames > 0 then (200 * row.won + row.playedGames) / (2 * row.playedGames) else 0
  }

  /** `k` is 100 * won / played rounded to the nearest integer, halves upward. */
  predicate IsRoundedPercent(won: int, played: int, k: int)
  {
    -played <= 2 * (100 * won - k * played) < played
  }

  lemma WinRateRounds(row: StandingRow)
    requires row.playedGames > 0
    ensures IsRoundedPercent(row.won, row.playedGames, WinRate(row))
  {
    var p: int, w: int := row.playedGames, row.won;
    var q := (200 * w + p) / (2 * p);
    var rem := (200 * w + p) % (2 * p);
    assert 200 * w + p == 2 * p * q + rem && 0 <= rem < 2 * p;
    assert 2 * (100 * w - q * p) == rem - p;
  }

  /** At most one integer is the rounded percentage, so `WinRate` is the only answer. */
  lemma RoundedPercentUnique(won: nat, played: nat, k1: int, k2: int)
    requires played > 0
    requires IsRoundedPercent(won, played, k1) && IsRoundedPercent(won, played, k2)
    ensures k1 == k2
  {
    var d := k2 - k1;
    assert d * played == (100 * won - k1 * played) - (100 * won - k2 * played);
    FactorBelow(d, played);
  }

  /** A multiple of a positive `p` strictly between -p and p is zero. */
  lemma FactorBelow(d: int, p: int)
    requires p > 0 && -p < d * p < p
    ensures d == 0
  {
    if d >= 1 {
      MulMono(1, d, p);
    } else if d <= -1 {
      MulMono(1, -d, p);
    }
  }

  lemma MulMono(a: int, b: int, p: int)
    requires a <= b && p >= 0
    ensures a * p <= b * p
  {
  }

  /** A row whose wins do not exceed its games played shows a rate between 0 and 100. */
  lemma WinRateAtMost100(row: StandingRow)
    requires row.won <= row.playedGames
    ensures WinRate(row) <= 100
  {
    if row.playedGames > 0 {
      var p: int, w: int, q: int := row.playedGames, row.won, WinRate(row);
      WinRateRounds(row);
      MulMono(w, p, 100);
      assert (q - 101) * p < 0;
      if q > 100 {
        MulMono(0, q - 101, p);
      }
    }
  }

  /**
   * `${startDate.slice(0,4)}-${endDate.slice(0,4)}`: the first four characters of
   * each date, joined by a dash.
   */
  function SeasonLabel(startDate: string, endDate: string): (r: string)
    ensures |r| == Min(4, |startDate|) + 1 + Min(4, |endDate|)
    ensures |startDate| >= 4 && |endDate| >= 4 ==> |r| == 9 && r[4] == '-'
  {
    Take(startDate, 4) + "-" + Take(endDate, 4)
  }

  /** Splits a label at its first dash; the part after the dash is everything that follows it. */
  function SplitAtDash(s: string): (parts: (string, string))
    ensures '-' !in parts.0
  {
    if |s| == 0 then ("", "")
    else if s[0] == '-' then ("", s[1..])
    else var rest := SplitAtDash(s[1..]); ([s[0]] + rest.0, rest.1)
  }

  lemma {:induction false} SplitAfterPrefix(a: string, b: string)
    requires '-' !in a
    ensures SplitAtDash(a + "-" + b) == (a, b)
  {
    if |a| == 0 {
      assert a + "-" + b == "-" + b;
    } else {
      assert (a + "-" + b)[0] == a[0];
      assert (a + "-" + b)[1..] == a[1..] + "-" + b;
      SplitAfterPrefix(a[1..], b);
      assert [a[0]] + a[1..] == a;
    }
  }

  /** The label keeps both years: splitting it at the dash gives back the two four-character prefixes. */
  lemma SeasonLabelSplits(startDate: string, endDate: string)
    requires '-' !in Take(startDate, 4)
    ensures SplitAtDash(SeasonLabel(startDate, endDate)) == (Take(startDate, 4), Take(endDate, 4))
  {
    SplitAfterPrefix(Take(startDate, 4), Take(endDate, 4));
  }

  lemma SeasonLabelExample()
    ensures SeasonLabel("2024-08-16", "2025-05-25") == "2024-2025"
  {
  }
}
