/** Rounding up, and how many periods of length `d` can start in a stretch of time. */
module Rates {

  function CeilDiv(x: int, d: int): (n: int)
    requires d > 0
    ensures n >= 0
    ensures x <= 0 ==> n == 0
    ensures x > 0 ==> (n - 1) * d < x <= n * d
  {
    if x <= 0 then 0 else (x + d - 1) / d
  }

  /** One period fewer fits when one period of the stretch is over. */
  lemma OnePeriodLess(x: int, d: int)
    requires d > 0 && x > 0
    ensures CeilDiv(x, d) == 1 + CeilDiv(x - d, d)
  {
    var n, m := CeilDiv(x, d), CeilDiv(x - d, d);
    if x <= d {
      assert n >= 2 ==> (n - 1) * d >= d by { if n >= 2 { TimesMonotone(1, n - 1, d); } }
      assert n > 0 by { if n <= 0 { TimesMonotone(n, 0, d); } }
    } else {
      assert (m + 1) * d == m * d + d && m * d == (m - 1) * d + d && (n - 1) * d == n * d - d;
      if n < m + 1 { TimesMonotone(n, m, d); }
      if n > m + 1 { TimesMonotone(m + 1, n - 1, d); }
    }
  }

  lemma TimesMonotone(n: int, m: int, d: int)
    requires n <= m && d >= 0
    ensures n * d <= m * d
  {
  }

  lemma CeilMonotone(x: int, y: int, d: int)
    requires d > 0 && x <= y
    ensures CeilDiv(x, d) <= CeilDiv(y, d)
  {
    var n, m := CeilDiv(x, d), CeilDiv(y, d);
    if n > m && x > 0 {
      TimesMonotone(m, n - 1, d);
    }
  }

  /** `share` lots for each period that can still start. */
  function Lots(share: nat, x: int, d: int): (n: int)
    requires d > 0
    ensures n >= 0
  {
    assert share * CeilDiv(x, d) >= 0 by { TimesMonotone(0, CeilDiv(x, d), share); }
    share * CeilDiv(x, d)
  }

  lemma LotsMonotone(share: nat, x: int, y: int, d: int)
    requires d > 0 && x <= y
    ensures Lots(share, x, d) <= Lots(share, y, d)
  {
    CeilMonotone(x, y, d);
    TimesMonotone(CeilDiv(x, d), CeilDiv(y, d), share);
  }

  lemma LotsOneLess(share: nat, x: int, d: int)
    requires d > 0 && x > 0
    ensures Lots(share, x, d) == share + Lots(share, x - d, d)
  {
    OnePeriodLess(x, d);
    assert share * (1 + CeilDiv(x - d, d)) == share + share * CeilDiv(x - d, d);
  }

  lemma LotsAndOne(share: nat, x: int, d: int)
    requires d > 0
    ensures share * (CeilDiv(x, d) + 1) == share + Lots(share, x, d)
  {
  }
}
