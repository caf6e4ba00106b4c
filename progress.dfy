/** The progress percentage the dashboard, the projects page and the project
    card all compute: `total > 0 ? Math.round(completed / total * 100) : 0`,
    taken on exact rationals with `Math.round`'s round-half-up. */
module Progress {

  import opened Arithmetic

  /** The percentage rounded half up: the `p` with
      `p - 1/2 <= 100 * completed / total < p + 1/2`. */
  function Percent(completed: nat, total: nat): (p: nat)
    ensures total == 0 ==> p == 0
    ensures total > 0 ==> p * (2 * total) <= 200 * completed + total < (p + 1) * (2 * total)
  {
    if total == 0 then 0 else (200 * completed + total) / (2 * total)
  }

  /** The defining bounds pin the percentage down. */
  lemma PercentUnique(completed: nat, total: nat, p: nat)
    requires total > 0 && p * (2 * total) <= 200 * completed + total < (p + 1) * (2 * total)
    ensures Percent(completed, total) == p
  {
    var q := Percent(completed, total);
    MulCancel(q, p + 1, 2 * total);
    MulCancel(p, q + 1, 2 * total);
  }

  /** No tasks shows 0; no completed tasks shows 0; all completed shows 100;
      up to all completed stays within 0 to 100. */
  lemma PercentBounds(completed: nat, total: nat)
    ensures total == 0 ==> Percent(completed, total) == 0
    ensures completed == 0 ==> Percent(completed, total) == 0
    ensures completed == total ==> Percent(completed, total) == if total == 0 then 0 else 100
    ensures completed <= total ==> Percent(completed, total) <= 100
  {
    if total > 0 {
      if completed == 0 {
        PercentUnique(completed, total, 0);
      }
      if completed == total {
        PercentUnique(completed, total, 100);
      }
      if completed <= total {
        var p := Percent(completed, total);
        MulCancel(p, 101, 2 * total);
      }
    }
  }

  /** More completed tasks never show less progress. */
  lemma PercentMonotone(c1: nat, c2: nat, total: nat)
    requires c1 <= c2
    ensures Percent(c1, total) <= Percent(c2, total)
  {
    if total > 0 {
      MulCancel(Percent(c1, total), Percent(c2, total) + 1, 2 * total);
    }
  }

  /** Short of all tasks, the percentage still reads 100 exactly when at
      most one task in two hundred is open. */
  lemma PercentHundred(completed: nat, total: nat)
    requires completed <= total && total > 0
    ensures Percent(completed, total) == 100 <==> 200 * (total - completed) <= total
  {
    var p := Percent(completed, total);
    PercentBounds(completed, total);
    if 200 * (total - completed) <= total {
      MulCancel(99, p, 2 * total);
    }
    if p == 100 {
      assert 100 * (2 * total) <= 200 * completed + total;
    }
  }
}
