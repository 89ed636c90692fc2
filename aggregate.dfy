/**
 * The summary figures of the report: how many records were loaded, how many
 * have status exactly "PASSED", how many did not, and the pass rate as a
 * whole percentage (0 when there are no records).
 */
module Aggregate {
  import opened Records

  const PassedStatus := "PASSED"

  /** `test.status === 'PASSED'`: exact, case-sensitive comparison. */
  predicate IsPassed(r: Record)
  {
    r.status == PassedStatus
  }

  /** `testReports.filter(test => test.status === 'PASSED')`. */
  function PassedRecords(rs: seq<Record>): (ps: seq<Record>)
    ensures |ps| <= |rs|
  {
    if rs == [] then []
    else (if IsPassed(rs[0]) then [rs[0]] else []) + PassedRecords(rs[1..])
  }

  /**
   * The filter keeps a record with status "PASSED" as many times as it is
   * loaded, and drops every other record.
   */
  lemma {:induction false} PassedMultiplicity(rs: seq<Record>, r: Record)
    ensures multiset(PassedRecords(rs))[r] == if IsPassed(r) then multiset(rs)[r] else 0
  {
    if rs != [] {
      assert rs == [rs[0]] + rs[1..];
      PassedMultiplicity(rs[1..], r);
    }
  }

  /** The records the report counts as failed: every status other than "PASSED". */
  function FailedRecords(rs: seq<Record>): seq<Record>
  {
    if rs == [] then []
    else (if IsPassed(rs[0]) then [] else [rs[0]]) + FailedRecords(rs[1..])
  }

  /** A record is counted as passed exactly when it is loaded and its status is "PASSED". */
  lemma {:induction false} PassedMembership(rs: seq<Record>, r: Record)
    ensures r in PassedRecords(rs) <==> r in rs && IsPassed(r)
  {
    if rs != [] {
      assert rs == [rs[0]] + rs[1..];
      PassedMembership(rs[1..], r);
    }
  }

  /** Every record is counted exactly once, as passed or as failed. */
  lemma {:induction false} PartitionCounts(rs: seq<Record>)
    ensures |PassedRecords(rs)| + |FailedRecords(rs)| == |rs|
  {
    if rs != [] {
      PartitionCounts(rs[1..]);
    }
  }

  /** All records passed exactly when the passed count is the total. */
  lemma {:induction false} AllPassedCount(rs: seq<Record>)
    ensures (forall k :: 0 <= k < |rs| ==> IsPassed(rs[k])) <==> |PassedRecords(rs)| == |rs|
  {
    if rs != [] {
      AllPassedCount(rs[1..]);
      assert forall k :: 1 <= k < |rs| ==> rs[k] == rs[1..][k - 1];
    }
  }

  /** No record passed exactly when the passed count is 0. */
  lemma {:induction false} NonePassedCount(rs: seq<Record>)
    ensures (forall k :: 0 <= k < |rs| ==> !IsPassed(rs[k])) <==> |PassedRecords(rs)| == 0
  {
    if rs != [] {
      NonePassedCount(rs[1..]);
      assert forall k :: 1 <= k < |rs| ==> rs[k] == rs[1..][k - 1];
    }
  }

  /**
   * `r` is `num / den` rounded to the nearest integer, halves rounded up:
   * r - 1/2 <= num/den < r + 1/2.
   */
  predicate IsRoundHalfUp(num: int, den: int, r: int)
  {
    (2 * r - 1) * den <= 2 * num < (2 * r + 1) * den
  }

  lemma {:induction false} MulMonotone(a: int, b: int, c: nat)
    ensures a <= b ==> a * c <= b * c
  {
    assert b * c - a * c == (b - a) * c;
  }

  /** At most one integer is the rounded quotient. */
  lemma {:induction false} RoundHalfUpUnique(num: int, den: int, r1: int, r2: int)
    requires den > 0 && IsRoundHalfUp(num, den, r1) && IsRoundHalfUp(num, den, r2)
    ensures r1 == r2
  {
    MulMonotone(2 * r1 + 1, 2 * r2 - 1, den);
    MulMonotone(2 * r2 + 1, 2 * r1 - 1, den);
  }

  /**
   * `totalTests > 0 ? Math.round((passedTests / totalTests) * 100) : 0`, in
   * exact integer arithmetic.
   */
  function PassRate(passed: nat, total: nat): (rate: nat)
    ensures total == 0 ==> rate == 0
    ensures total > 0 ==> IsRoundHalfUp(100 * passed, total, rate)
    ensures passed <= total ==> rate <= 100
  {
    if total > 0 then
      var n := 200 * passed + total;
      var q := n / (2 * total);
      assert n == 2 * total * q + n % (2 * total);
      assert (2 * q - 1) * total == 2 * total * q - total;
      assert (2 * q + 1) * total == 2 * total * q + total;
      assert passed <= total ==> q <= 100 by {
        MulMonotone(201, 2 * q - 1, total);
      }
      q
    else 0
  }

  /** Everything passed gives 100; nothing passed gives 0. */
  lemma {:induction false} PassRateExtremes(total: nat)
    requires total > 0
    ensures PassRate(total, total) == 100
    ensures PassRate(0, total) == 0
  {
    RoundHalfUpUnique(100 * total, total, PassRate(total, total), 100);
    RoundHalfUpUnique(0, total, PassRate(0, total), 0);
  }

  /** More passed tests never lower the rate. */
  lemma {:induction false} PassRateMonotone(p1: nat, p2: nat, total: nat)
    requires p1 <= p2
    ensures PassRate(p1, total) <= PassRate(p2, total)
  {
    if total > 0 {
      var r1: int, r2: int := PassRate(p1, total), PassRate(p2, total);
      MulMonotone(2 * r2 + 1, 2 * r1 - 1, total);
    }
  }

  /** The four figures of the summary cards. */
  datatype Summary = Summary(total: nat, passed: nat, failed: nat, passRate: nat)

  function Summarize(rs: seq<Record>): (s: Summary)
    ensures s.total == |rs|
    ensures s.passed == |PassedRecords(rs)| && s.failed == |FailedRecords(rs)|
    ensures s.passed + s.failed == s.total
    ensures s.passRate <= 100
    ensures s.total == 0 ==> s.passRate == 0
    ensures s.total > 0 ==> IsRoundHalfUp(100 * s.passed, s.total, s.passRate)
  {
    PartitionCounts(rs);
    var total := |rs|;
    var passed := |PassedRecords(rs)|;
    Summary(total, passed, total - passed, PassRate(passed, total))
  }

  /** No records: every figure is 0. */
  lemma {:induction false} EmptySummary()
    ensures Summarize([]) == Summary(0, 0, 0, 0)
  {
  }

  /** Two of three passed: 3 tests, 2 passed, 1 failed, 67%. */
  lemma {:induction false} TwoOfThreeScenario(a: Record, b: Record, c: Record)
    requires IsPassed(a) && IsPassed(b) && !IsPassed(c)
    ensures Summarize([a, b, c]) == Summary(3, 2, 1, 67)
  {
    assert [a, b, c][1..] == [b, c];
    assert [b, c][1..] == [c];
    assert [c][1..] == [];
    assert PassedRecords([c]) == [];
    assert PassedRecords([b, c]) == [b];
    assert PassedRecords([a, b, c]) == [a, b];
    RoundHalfUpUnique(200, 3, PassRate(2, 3), 67);
  }

  /** One test that passed: 1, 1, 0, 100%. */
  lemma {:induction false} SinglePassScenario(a: Record)
    requires IsPassed(a)
    ensures Summarize([a]) == Summary(1, 1, 0, 100)
  {
    assert PassedRecords([a]) == [a];
    PassRateExtremes(1);
  }
}
