/** task_queue.py: one job per scheduled generation of an action, rebuilt from the database. */
module TaskQueue {

  /** A job id can be known to Redis without being in any registry, once it has run. */
  datatype JobState = Registered | Unregistered

  const DIGITS: string := "0123456789"

  function Decimal(n: nat): (d: string)
    ensures d != [] && forall k :: 0 <= k < |d| ==> d[k] in DIGITS
  {
    if n < 10 then [DIGITS[n]] else Decimal(n / 10) + [DIGITS[n % 10]]
  }

  /** `action-{id}-{attempt_count}`. */
  function JobId(action: string, attempts: nat): string {
    "action-" + action + "-" + Decimal(attempts)
  }

  lemma DigitsAreDistinct(m: nat, n: nat)
    requires m < 10 && n < 10 && DIGITS[m] == DIGITS[n]
    ensures m == n
  {
  }

  lemma {:induction false} DecimalIsInjective(m: nat, n: nat)
    requires Decimal(m) == Decimal(n)
    ensures m == n
    decreases m
  {
    var d, e := Decimal(m), Decimal(n);
    DigitsAreDistinct(m % 10, n % 10) by {
      assert d[|d| - 1] == DIGITS[m % 10] && e[|e| - 1] == DIGITS[n % 10];
    }
    if m >= 10 && n >= 10 {
      assert d[..|d| - 1] == Decimal(m / 10) && e[..|e| - 1] == Decimal(n / 10);
      DecimalIsInjective(m / 10, n / 10);
    }
  }

  lemma DashComesLast(a: string, d: string)
    requires forall k :: 0 <= k < |d| ==> d[k] in DIGITS
    ensures var s := a + "-" + d;
            s[|a|] == '-' && s[..|a|] == a && s[|a| + 1..] == d && forall k :: |a| < k < |s| ==> s[k] != '-'
  {
  }

  lemma SplitAtLastDash(a: string, d: string, b: string, e: string)
    requires a + "-" + d == b + "-" + e
    requires forall k :: 0 <= k < |d| ==> d[k] in DIGITS
    requires forall k :: 0 <= k < |e| ==> e[k] in DIGITS
    ensures a == b && d == e
  {
    DashComesLast(a, d);
    DashComesLast(b, e);
  }

  /** Distinct generations never share a job id, whatever the action ids look like. */
  lemma JobIdsAreDistinct(a: string, m: nat, b: string, n: nat)
    requires JobId(a, m) == JobId(b, n)
    ensures a == b && m == n
  {
    var p := "action-";
    assert JobId(a, m) == p + (a + "-" + Decimal(m)) && JobId(b, n) == p + (b + "-" + Decimal(n));
    assert JobId(a, m)[|p|..] == a + "-" + Decimal(m) && JobId(b, n)[|p|..] == b + "-" + Decimal(n);
    SplitAtLastDash(a, Decimal(m), b, Decimal(n));
    DecimalIsInjective(m, n);
  }
}
