/** The chart's data: total and worked hours, the derived missing hours, and
    the two validating setters that are the only public way to change them. */
module Hours {
  import opened KotlinInt

  const TOTAL_HOURS_DEFAULT: Int32 := 200

  datatype Hours = Hours(total: Int32, worked: Int32)

  /** The values a freshly constructed view holds. */
  const Default: Hours := Hours(TOTAL_HOURS_DEFAULT, 0)

  /** The invariant the setters guard: no more hours worked than in total. */
  predicate Consistent(h: Hours) { h.worked <= h.total }

  /** `missingHours`, computed with Kotlin's wrapping `Int` subtraction. */
  function Missing(h: Hours): (m: Int32)
    ensures m == h.total - h.worked <==> MIN_VALUE <= h.total - h.worked <= MAX_VALUE
  {
    Wrap(h.total - h.worked)
  }

  /** With non-negative worked hours, the missing hours are exactly the
      difference and never negative. */
  lemma MissingOfConsistent(h: Hours)
    requires Consistent(h) && 0 <= h.worked
    ensures Missing(h) == h.total - h.worked
    ensures 0 <= Missing(h) <= h.total
  {
  }

  /** Neither setter rejects negative hours, and then the subtraction can wrap:
      the label would show a negative count of missing hours. */
  lemma MissingWrapsForNegativeWorked()
    ensures Consistent(Hours(MAX_VALUE, -1))
    ensures Missing(Hours(MAX_VALUE, -1)) == MIN_VALUE
  {
  }

  /** A setter either stores its argument or throws `IllegalArgumentException`. */
  datatype Outcome = Applied(hours: Hours) | IllegalArgument

  /** `setWorkedHours(n)`: rejected when `n` exceeds the total. */
  function SetWorked(h: Hours, n: Int32): (r: Outcome)
    ensures r.IllegalArgument? <==> n > h.total
    ensures r.Applied? ==> r.hours.worked == n && r.hours.total == h.total
    ensures r.Applied? ==> Consistent(r.hours)
  {
    if n > h.total then IllegalArgument else Applied(h.(worked := n))
  }

  /** `setTotalHours(t)`: rejected when the worked hours exceed `t`. */
  function SetTotal(h: Hours, t: Int32): (r: Outcome)
    ensures r.IllegalArgument? <==> h.worked > t
    ensures r.Applied? ==> r.hours.total == t && r.hours.worked == h.worked
    ensures r.Applied? ==> Consistent(r.hours)
  {
    if h.worked > t then IllegalArgument else Applied(h.(total := t))
  }

  /** A call a client makes on the view. */
  datatype Call = SetWorkedHours(n: Int32) | SetTotalHours(n: Int32)

  /** The hours after one call; a call that throws leaves them as they were. */
  function Step(h: Hours, c: Call): Hours
  {
    var r := match c
      case SetWorkedHours(n) => SetWorked(h, n)
      case SetTotalHours(t) => SetTotal(h, t);
    if r.Applied? then r.hours else h
  }

  /** The hours after a sequence of calls, each made whether or not an earlier one threw. */
  function Run(h: Hours, calls: seq<Call>): Hours
    decreases |calls|
  {
    if calls == [] then h else Run(Step(h, calls[0]), calls[1..])
  }

  lemma {:induction false} RunPreservesConsistent(h: Hours, calls: seq<Call>)
    requires Consistent(h)
    ensures Consistent(Run(h, calls))
    decreases |calls|
  {
    if calls != [] {
      RunPreservesConsistent(Step(h, calls[0]), calls[1..]);
    }
  }

  predicate NonNegativeArgs(calls: seq<Call>)
  {
    forall i | 0 <= i < |calls| :: calls[i].n >= 0
  }

  lemma {:induction false} RunKeepsHoursNonNegative(h: Hours, calls: seq<Call>)
    requires Consistent(h) && 0 <= h.worked
    requires NonNegativeArgs(calls)
    ensures Consistent(Run(h, calls)) && 0 <= Run(h, calls).worked
    decreases |calls|
  {
    if calls != [] {
      assert calls[0].n >= 0;
      assert NonNegativeArgs(calls[1..]) by {
        forall i | 0 <= i < |calls| - 1 ensures calls[1..][i].n >= 0 {
          assert calls[1..][i] == calls[i + 1];
        }
      }
      RunKeepsHoursNonNegative(Step(h, calls[0]), calls[1..]);
    }
  }

  /** From the defaults, any sequence of setter calls with non-negative
      arguments leaves `workedHours <= totalHours` and a non-negative
      `missingHours` equal to their difference. */
  lemma RunFromDefault(calls: seq<Call>)
    requires NonNegativeArgs(calls)
    ensures Consistent(Run(Default, calls))
    ensures Missing(Run(Default, calls)) == Run(Default, calls).total - Run(Default, calls).worked >= 0
  {
    RunKeepsHoursNonNegative(Default, calls);
    MissingOfConsistent(Run(Default, calls));
  }
}
