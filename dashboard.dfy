/**
 * The dashboard's approval ring (components/DashboardClient.tsx): decided
 * products, the rounded approval rate and the ring's dash offset.
 */
module Dashboard {
  import opened Types

  /** The circumference of the approval ring, in SVG units. */
  const RingLength := 440

  /**
   * Products that left review, approved plus rejected: at least as many as
   * either count, and zero only when nothing was approved or rejected.
   */
  function TotalDecided(stats: DashboardStats): (t: nat)
    ensures stats.approved <= t && stats.rejected <= t
    ensures t == 0 <==> stats.approved == 0 && stats.rejected == 0
  {
    stats.approved + stats.rejected
  }

  /** Euclidean division by a positive divisor brackets the dividend. */
  lemma DivBrackets(n: int, d: int)
    requires d > 0
    ensures d * (n / d) <= n < d * (n / d + 1)
  {
    assert n == d * (n / d) + n % d;
  }

  /** Multiplying by a non-negative factor keeps the order. */
  lemma MulMonotone(c: int, x: int, y: int)
    requires c >= 0 && x <= y
    ensures c * x <= c * y
  {
    assert c * y - c * x == c * (y - x);
  }

  /**
   * Math.round(approved / decided * 100), rounding halves up, or 0 with
   * nothing decided: floor((100 a + t / 2) / t) = floor((200 a + t) / (2 t)).
   */
  function ApprovalRate(stats: DashboardStats): (rate: nat)
    ensures rate <= 100
    ensures var t := TotalDecided(stats);
      t > 0 ==> 2 * t * rate <= 200 * stats.approved + t < 2 * t * (rate + 1)
  {
    var t := TotalDecided(stats);
    if t > 0 then
      var n := 200 * stats.approved + t;
      DivBrackets(n, 2 * t);
      var rate := n / (2 * t);
      assert rate <= 100 by {
        if rate > 100 {
          MulMonotone(2 * t, 101, rate);
        }
      }
      rate
    else 0
  }

  /** The rate is the integer nearest 100 approved / decided (halves rounded up), and no other. */
  lemma RateIsNearest(stats: DashboardStats, k: int)
    requires TotalDecided(stats) > 0
    requires 2 * TotalDecided(stats) * k <= 200 * stats.approved + TotalDecided(stats) < 2 * TotalDecided(stats) * (k + 1)
    ensures ApprovalRate(stats) == k
  {
    var t := TotalDecided(stats);
    var r := ApprovalRate(stats);
    if r < k {
      MulMonotone(2 * t, r + 1, k);
    } else if r > k {
      MulMonotone(2 * t, k + 1, r);
    }
  }

  /** Products under review never move the rate. */
  lemma ReviewIgnored(stats: DashboardStats, review: nat, total: nat)
    ensures ApprovalRate(stats) == ApprovalRate(stats.(review := review, total := total))
  {
  }

  /** Nothing rejected but something approved: 100; nothing approved: 0. */
  lemma RateExtremes(stats: DashboardStats)
    ensures stats.rejected == 0 && stats.approved > 0 ==> ApprovalRate(stats) == 100
    ensures stats.approved == 0 ==> ApprovalRate(stats) == 0
  {
    var t := TotalDecided(stats);
    if stats.rejected == 0 && stats.approved > 0 {
      RateIsNearest(stats, 100);
    }
    if stats.approved == 0 && t > 0 {
      RateIsNearest(stats, 0);
    }
  }

  /** One approved out of three decided rounds to 33; one of two is 50; two of three rounds up to 67. */
  lemma RateExamples()
    ensures ApprovalRate(DashboardStats(5, 1, 2, 2)) == 33
    ensures ApprovalRate(DashboardStats(2, 1, 1, 0)) == 50
    ensures ApprovalRate(DashboardStats(3, 2, 1, 0)) == 67
  {
  }

  /**
   * The ring's dash offset 440 - 440 rate / 100, in hundredths of a unit
   * (4.4 per rate point is not a whole number).
   */
  function DashOffsetHundredths(rate: int): (d: int)
    ensures 0 <= rate <= 100 ==> 0 <= d <= 100 * RingLength
    ensures rate == 0 ==> d == 100 * RingLength
    ensures rate == 100 ==> d == 0
  {
    100 * RingLength - RingLength * rate
  }

  /** The offset drawn for the dashboard's rate lies on the ring, and shrinks as the rate grows. */
  lemma DashOffsetOnRing(stats: DashboardStats, other: DashboardStats)
    ensures 0 <= DashOffsetHundredths(ApprovalRate(stats)) <= 100 * RingLength
    ensures ApprovalRate(stats) <= ApprovalRate(other) ==>
      DashOffsetHundredths(ApprovalRate(other)) <= DashOffsetHundredths(ApprovalRate(stats))
  {
  }
}
