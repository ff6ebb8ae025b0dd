/** Break totals: integer sums of `stopTimestamp - startTimestamp` over the
  * recorded breaks, all of them or those of one category. */
module BreakLedger {
  import opened Data

  function Duration(b: BreakTime): int
  {
    b.stopTimestamp - b.startTimestamp
  }

  /** A break whose stop does not precede its start. */
  predicate WellOrdered(b: BreakTime)
  {
    b.startTimestamp <= b.stopTimestamp
  }

  /** Sum of the durations of all breaks (`sumByLong` over the list). */
  function GetBreakTotalTime(breaks: seq<BreakTime>): (r: int)
    ensures breaks == [] ==> r == 0
    ensures (forall i :: 0 <= i < |breaks| ==> WellOrdered(breaks[i])) ==> r >= 0
  {
    if breaks == [] then 0 else Duration(breaks[0]) + GetBreakTotalTime(breaks[1..])
  }

  /** The breaks of category `t`, in their original order. */
  function FilterByType(breaks: seq<BreakTime>, t: BreakType): (r: seq<BreakTime>)
    ensures |r| <= |breaks|
    ensures forall i :: 0 <= i < |r| ==> r[i].breakType == t
    ensures forall b :: b in r <==> b in breaks && b.breakType == t
  {
    if breaks == [] then []
    else if breaks[0].breakType == t then [breaks[0]] + FilterByType(breaks[1..], t)
    else FilterByType(breaks[1..], t)
  }

  /** The filter keeps every break of category `t` as many times as it
    * occurs, and no break of another category. */
  lemma {:induction false} FilterByTypeCounts(breaks: seq<BreakTime>, t: BreakType)
    ensures forall b :: multiset(FilterByType(breaks, t))[b] == if b.breakType == t then multiset(breaks)[b] else 0
  {
    if breaks != [] {
      FilterByTypeCounts(breaks[1..], t);
      assert breaks == [breaks[0]] + breaks[1..];
    }
  }

  /** Sum of the durations of the breaks of category `t`. */
  function GetBreakTime(t: BreakType, breaks: seq<BreakTime>): (r: int)
    ensures (forall i :: 0 <= i < |breaks| ==> breaks[i].breakType != t) ==> r == 0
  {
    GetBreakTotalTime(FilterByType(breaks, t))
  }

  /** The share a single break contributes to the total of category `t`. */
  function ShareOf(t: BreakType, b: BreakTime): int
  {
    if b.breakType == t then Duration(b) else 0
  }

  lemma {:induction false} TotalAppend(a: seq<BreakTime>, b: seq<BreakTime>)
    ensures GetBreakTotalTime(a + b) == GetBreakTotalTime(a) + GetBreakTotalTime(b)
  {
    if a != [] {
      assert (a + b)[0] == a[0];
      assert (a + b)[1..] == a[1..] + b;
      TotalAppend(a[1..], b);
    } else {
      assert a + b == b;
    }
  }

  lemma {:induction false} FilterAppend(a: seq<BreakTime>, b: seq<BreakTime>, t: BreakType)
    ensures FilterByType(a + b, t) == FilterByType(a, t) + FilterByType(b, t)
  {
    if a != [] {
      assert (a + b)[0] == a[0];
      assert (a + b)[1..] == a[1..] + b;
      FilterAppend(a[1..], b, t);
    } else {
      assert a + b == b;
    }
  }

  /** Both sums are additive over concatenation of break lists. */
  lemma BreakTimeAppend(a: seq<BreakTime>, b: seq<BreakTime>, t: BreakType)
    ensures GetBreakTime(t, a + b) == GetBreakTime(t, a) + GetBreakTime(t, b)
  {
    FilterAppend(a, b, t);
    TotalAppend(FilterByType(a, t), FilterByType(b, t));
  }

  /** Recording one more break adds its duration to the total, and to the
    * total of its own category only. */
  lemma RecordBreak(breaks: seq<BreakTime>, b: BreakTime, t: BreakType)
    ensures GetBreakTotalTime(breaks + [b]) == GetBreakTotalTime(breaks) + Duration(b)
    ensures GetBreakTime(t, breaks + [b]) == GetBreakTime(t, breaks) + ShareOf(t, b)
  {
    TotalAppend(breaks, [b]);
    BreakTimeAppend(breaks, [b], t);
    assert FilterByType([b], t) == if b.breakType == t then [b] else [];
  }

  /** There are exactly three categories, so the total is the sum of the
    * three per-category totals. */
  lemma {:induction false} TotalIsSumOfTypes(breaks: seq<BreakTime>)
    ensures GetBreakTotalTime(breaks)
         == GetBreakTime(Lunch, breaks) + GetBreakTime(Smoking, breaks) + GetBreakTime(Other, breaks)
  {
    if breaks != [] {
      TotalIsSumOfTypes(breaks[1..]);
    }
  }

  /** With well-ordered breaks, no category's total is negative or exceeds
    * the overall total. */
  lemma BreakTimeBounded(breaks: seq<BreakTime>, t: BreakType)
    requires forall i :: 0 <= i < |breaks| ==> WellOrdered(breaks[i])
    ensures 0 <= GetBreakTime(t, breaks) <= GetBreakTotalTime(breaks)
  {
    assert GetBreakTime(Lunch, breaks) >= 0 && GetBreakTime(Smoking, breaks) >= 0 && GetBreakTime(Other, breaks) >= 0;
    TotalIsSumOfTypes(breaks);
  }
}
