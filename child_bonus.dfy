/**
 * The child tax bonus (form line r117). The twelve months are split into
 * maximal runs of months with the same number of eligible children; each run
 * contributes the sum of the children's monthly rates, capped at a share of
 * the tax base that depends on that number, prorated when the run is shorter
 * than a year.
 */
module ChildTaxBonus {
  import opened Money
  import opened Children

  /** One month of the year and the number of children eligible in it. */
  datatype MonthCount = MonthCount(count: nat, month: Month)

  /** The twelve `{count, month}` entries for January..December. */
  function MonthCounts(children: seq<Child>): (ms: seq<MonthCount>)
    ensures |ms| == 12
    ensures forall i :: 0 <= i < 12 ==> ms[i] == MonthCount(ChildrenInMonth(children, i + 1), i + 1)
  {
    MonthsUpTo(children, 12)
  }

  /** The entries for the first `n` months. */
  function MonthsUpTo(children: seq<Child>, n: nat): (ms: seq<MonthCount>)
    requires n <= 12
    ensures |ms| == n
    ensures forall i :: 0 <= i < n ==> ms[i] == MonthCount(ChildrenInMonth(children, i + 1), i + 1)
  {
    if n == 0 then [] else MonthsUpTo(children, n - 1) + [MonthCount(ChildrenInMonth(children, n), n)]
  }

  /** The groups put back together, in order. */
  function Flatten(groups: seq<seq<MonthCount>>): seq<MonthCount> {
    if groups == [] then [] else Flatten(groups[..|groups| - 1]) + groups[|groups| - 1]
  }

  /** Every entry of `g` has the count of its first entry. */
  predicate SameCount(g: seq<MonthCount>) {
    forall j :: 0 <= j < |g| ==> g[j].count == g[0].count
  }

  /** A partition into nonempty runs of equal count, neighbouring runs differing in count. */
  predicate MaximalRuns(groups: seq<seq<MonthCount>>) {
    && (forall i :: 0 <= i < |groups| ==> |groups[i]| > 0 && SameCount(groups[i]))
    && (forall i :: 0 < i < |groups| ==> groups[i - 1][0].count != groups[i][0].count)
  }

  /** Where the last run of equal counts in `s` begins. */
  function LastRunStart(s: seq<MonthCount>): (k: nat)
    requires |s| > 0
    ensures k < |s|
    ensures forall i :: k <= i < |s| ==> s[i].count == s[|s| - 1].count
    ensures k > 0 ==> s[k - 1].count != s[k].count
  {
    if |s| == 1 || s[|s| - 2].count != s[|s| - 1].count then |s| - 1
    else LastRunStart(s[..|s| - 1])
  }

  /** The maximal runs of equal count in `s`, left to right. */
  function Runs(s: seq<MonthCount>): (groups: seq<seq<MonthCount>>)
    ensures forall i :: 0 <= i < |groups| ==> |groups[i]| > 0
    decreases |s|
  {
    if s == [] then []
    else
      var k := LastRunStart(s);
      Runs(s[..k]) + [s[k..]]
  }

  /** Any `k` that starts a constant suffix right after a change of count is the last run's start. */
  lemma LastRunStartIs(s: seq<MonthCount>, k: nat)
    requires k < |s|
    requires forall i :: k <= i < |s| ==> s[i].count == s[|s| - 1].count
    requires k > 0 ==> s[k - 1].count != s[k].count
    ensures LastRunStart(s) == k
  {
  }

  /**
   * The grouping loop's open run: the months before `index` end with a run
   * that starts at `last`.
   */
  predicate OpenRun(s: seq<MonthCount>, last: nat, index: nat) {
    0 < index <= |s| && LastRunStart(s[..index]) == last
  }

  /** A month with the open run's count extends it. */
  lemma ExtendRun(s: seq<MonthCount>, last: nat, index: nat)
    requires OpenRun(s, last, index) && index < |s|
    requires s[index].count == s[index - 1].count
    ensures OpenRun(s, last, index + 1)
  {
    assert s[..index + 1][..index] == s[..index];
  }

  /** A change of count at `index` closes the open run as one more group and opens a new one. */
  lemma CloseAtChange(s: seq<MonthCount>, last: nat, index: nat)
    requires OpenRun(s, last, index) && index < |s|
    requires s[index].count != s[index - 1].count
    ensures Runs(s[..index]) == Runs(s[..last]) + [s[last..index]]
    ensures OpenRun(s, index, index + 1)
  {
    assert s[..index][..last] == s[..last];
    assert s[..index][last..] == s[last..index];
  }

  /** At the last month the open run is the last group. */
  lemma CloseAtEnd(s: seq<MonthCount>, last: nat)
    requires |s| > 0 && OpenRun(s, last, |s|)
    ensures Runs(s) == Runs(s[..last]) + [s[last..|s|]]
  {
    assert s[..|s|] == s;
  }

  /** The last entry of the flattened groups is the last entry of the last group. */
  lemma FlattenLast(groups: seq<seq<MonthCount>>)
    requires |groups| > 0 && |groups[|groups| - 1]| > 0
    ensures |Flatten(groups)| > 0
    ensures Flatten(groups)[|Flatten(groups)| - 1] == groups[|groups| - 1][|groups[|groups| - 1]| - 1]
  {
  }

  /** The runs put back together give the months back, in order. */
  lemma {:induction false} RunsFlatten(s: seq<MonthCount>)
    ensures Flatten(Runs(s)) == s
    decreases |s|
  {
    if s != [] {
      var k := LastRunStart(s);
      var init := Runs(s[..k]);
      RunsFlatten(s[..k]);
      assert Runs(s) == init + [s[k..]];
      assert (init + [s[k..]])[..|init|] == init;
      assert s[..k] + s[k..] == s;
    }
  }

  /** Each run is nonempty with a single count, and neighbouring runs have different counts. */
  lemma {:induction false} RunsMaximal(s: seq<MonthCount>)
    ensures MaximalRuns(Runs(s))
    decreases |s|
  {
    if s != [] {
      var k := LastRunStart(s);
      var init := Runs(s[..k]);
      var groups := Runs(s);
      RunsMaximal(s[..k]);
      assert groups == init + [s[k..]];
      forall i | 0 <= i < |groups| ensures |groups[i]| > 0 && SameCount(groups[i]) {
        if i < |init| {
          assert groups[i] == init[i];
        } else {
          assert groups[i] == s[k..];
        }
      }
      forall i | 0 < i < |groups| ensures groups[i - 1][0].count != groups[i][0].count {
        if i < |init| {
          assert groups[i - 1] == init[i - 1] && groups[i] == init[i];
        } else {
          RunsBoundary(s, k);
          assert groups[i - 1] == init[|init| - 1] && groups[i] == s[k..];
        }
      }
    }
  }

  /** The run before the last one ends with a count different from the last run's. */
  lemma RunsBoundary(s: seq<MonthCount>, k: nat)
    requires 0 < k < |s| && k == LastRunStart(s)
    requires MaximalRuns(Runs(s[..k]))
    ensures |Runs(s[..k])| > 0
    ensures Runs(s[..k])[|Runs(s[..k])| - 1][0].count != s[k..][0].count
  {
    var init := Runs(s[..k]);
    RunsFlatten(s[..k]);
    FlattenLast(init);
    var g := init[|init| - 1];
    assert g[|g| - 1] == s[k - 1];
    assert SameCount(g);
  }

  /** The maximal-run partition is unique: any partition with its properties is `Runs`. */
  lemma {:induction false} RunsUnique(s: seq<MonthCount>, groups: seq<seq<MonthCount>>)
    requires Flatten(groups) == s
    requires MaximalRuns(groups)
    ensures groups == Runs(s)
    decreases |groups|
  {
    if groups != [] {
      var init := groups[..|groups| - 1];
      var k := |Flatten(init)|;
      SplitAtLastGroup(s, groups);
      MaximalPrefix(groups);
      RunsUnique(s[..k], init);
      assert groups == init + [s[k..]];
    }
  }

  /** Dropping the last group keeps a partition into maximal runs. */
  lemma MaximalPrefix(groups: seq<seq<MonthCount>>)
    requires |groups| > 0 && MaximalRuns(groups)
    ensures MaximalRuns(groups[..|groups| - 1])
  {
    var init: seq<seq<MonthCount>> := groups[..|groups| - 1];
    forall i | 0 < i < |init| ensures init[i - 1][0].count != init[i][0].count {
      assert init[i - 1] == groups[i - 1] && init[i] == groups[i];
    }
  }

  /** In a partition into maximal runs, the last group starts where `LastRunStart` says. */
  lemma SplitAtLastGroup(s: seq<MonthCount>, groups: seq<seq<MonthCount>>)
    requires |groups| > 0 && Flatten(groups) == s && MaximalRuns(groups)
    ensures var k := |Flatten(groups[..|groups| - 1])|;
            k < |s| && s[..k] == Flatten(groups[..|groups| - 1]) && s[k..] == groups[|groups| - 1]
            && LastRunStart(s) == k
  {
    var init := groups[..|groups| - 1];
    var g := groups[|groups| - 1];
    var k := |Flatten(init)|;
    assert s == Flatten(init) + g;
    assert s[..k] == Flatten(init);
    assert s[k..] == g;
    if k > 0 && |init| > 0 {
      FlattenLast(init);
      var h := init[|init| - 1];
      assert h == groups[|groups| - 2];
      assert s[k - 1] == h[|h| - 1];
      assert SameCount(h);
    }
    LastRunStartIs(s, k);
  }

  /**
   * The loop of the r117 getter that closes a group whenever the count
   * changes and closes the last group at the last month. It produces the
   * maximal runs; the loop reaches the last index only when there are at
   * least two months, as there always are twelve.
   */
  method GroupMonths(months: seq<MonthCount>) returns (monthGroups: seq<seq<MonthCount>>)
    requires |months| >= 2
    ensures monthGroups == Runs(months)
  {
    monthGroups := [];
    var lastChangeIndex := 0;
    for index := 1 to |months|
      invariant index < |months| ==> OpenRun(months, lastChangeIndex, index)
      invariant index < |months| ==> monthGroups == Runs(months[..lastChangeIndex])
      invariant index == |months| ==> monthGroups == Runs(months)
    {
      var currentElement := months[index];
      var previousElement := months[index - 1];
      if currentElement.count != previousElement.count {
        CloseAtChange(months, lastChangeIndex, index);
        monthGroups := monthGroups + [months[lastChangeIndex..index]];
        lastChangeIndex := index;
      } else {
        ExtendRun(months, lastChangeIndex, index);
      }
      if index == |months| - 1 {
        CloseAtEnd(months, lastChangeIndex);
        monthGroups := monthGroups + [months[lastChangeIndex..index + 1]];
      }
    }
  }

  /** The rates of the first `children` in `month` (the inner loop over `this.r033`). */
  function MonthRateSum(ageAt: (string, int, int) -> int, children: seq<Child>, month: Month): (r: real)
    ensures 0.0 <= r
    ensures r == 0.0 <==> forall i :: 0 <= i < |children| ==> !Eligible(children[i], month)
  {
    if children == [] then 0.0
    else MonthRateSum(ageAt, children[..|children| - 1], month) + Rate(ageAt, children[|children| - 1], month)
  }

  /** The rates of every child over every month of `group` (`partialSum`). */
  function GroupRateSum(ageAt: (string, int, int) -> int, children: seq<Child>, group: seq<MonthCount>): (r: real)
    ensures 0.0 <= r
  {
    if group == [] then 0.0
    else GroupRateSum(ageAt, children, group[..|group| - 1]) + MonthRateSum(ageAt, children, group[|group| - 1].month)
  }

  /**
   * The yearly cap for `count` children: the base rounded up to cents times
   * the percentage for that many children, to the nearest cent.
   */
  function YearlyCap(zakladDane: real, count: int): (cap: real)
    ensures WholeCents(cap)
    ensures var yearly := RoundUp2(zakladDane) * PercentLimit(count);
            yearly - 0.005 <= cap <= yearly + 0.005
    ensures 0.0 <= zakladDane ==> 0.0 <= cap
    ensures count <= 0 ==> cap == 0.0
  {
    PercentLimitMonotone(count, count);
    HalfUp2(RoundUp2(zakladDane) * PercentLimit(count))
  }

  /**
   * The cap of one group: the yearly cap for the group's child count
   * (`YearlyCap`, within half a cent of the rounded-up base times the
   * percentage), and for a group shorter than a year, that cap prorated to
   * its months (`Prorated`, within half a cent a month of n twelfths of it).
   */
  function GroupLimit(zakladDane: real, group: seq<MonthCount>): (limit: real)
    requires |group| > 0
    ensures WholeCents(limit)
    ensures 0.0 <= zakladDane ==> 0.0 <= limit
    ensures group[0].count == 0 ==> limit == 0.0
  {
    Prorated(YearlyCap(zakladDane, group[0].count), |group|)
  }

  /**
   * A yearly cap cut down to `months` months, unless it already spans twelve:
   * within half a cent per month, and half a cent more, of `months` twelfths
   * of the cap.
   */
  function Prorated(limit: real, months: nat): (r: real)
    ensures months == 12 ==> r == limit
    ensures WholeCents(limit) ==> WholeCents(r)
    ensures 0.0 <= limit ==> 0.0 <= r
    ensures limit == 0.0 ==> r == 0.0
    ensures var k := months as real;
            limit / 12.0 * k - (0.005 * k + 0.005) <= r <= limit / 12.0 * k + (0.005 * k + 0.005)
  {
    if months != 12 then
      var k := months as real;
      var monthly := HalfUp2(limit / 12.0);
      var r := HalfUp2(monthly * k);
      RoundedProductError(limit / 12.0, k, monthly, r);
      r
    else
      assert limit / 12.0 * 12.0 == limit;
      limit
  }

  /**
   * Two roundings in a row, each within half a cent: a share rounded, then
   * multiplied by `k` and rounded again, stays within `0.005 * k + 0.005`
   * of `k` times the exact share.
   */
  lemma RoundedProductError(share: real, k: real, rounded: real, r: real)
    requires 0.0 <= k
    requires share - 0.005 <= rounded <= share + 0.005
    requires rounded * k - 0.005 <= r <= rounded * k + 0.005
    ensures share * k - (0.005 * k + 0.005) <= r <= share * k + (0.005 * k + 0.005)
  {
    var e := rounded - share;
    ScaledError(e, k);
    var sk, rk := share * k, rounded * k;
    assert rk == sk + e * k;
    assert sk - 0.005 * k <= rk <= sk + 0.005 * k;
    assert rk - 0.005 <= r <= rk + 0.005;
  }

  /** An error of at most half a cent, scaled by a non-negative factor. */
  lemma ScaledError(e: real, k: real)
    requires -0.005 <= e <= 0.005 && 0.0 <= k
    ensures -0.005 * k <= e * k <= 0.005 * k
  {
    MulNonNegative(0.005 - e, k);
    MulNonNegative(e + 0.005, k);
  }

  lemma MulNonNegative(a: real, b: real)
    requires 0.0 <= a && 0.0 <= b
    ensures 0.0 <= a * b
  {
  }

  /** What one group adds to the bonus: its rate sum, unless that exceeds its cap. */
  function GroupBonus(ageAt: (string, int, int) -> int, children: seq<Child>, zakladDane: real,
                      group: seq<MonthCount>): (r: real)
    requires |group| > 0
    ensures r <= GroupRateSum(ageAt, children, group) && r <= GroupLimit(zakladDane, group)
    ensures r == GroupRateSum(ageAt, children, group) || r == GroupLimit(zakladDane, group)
  {
    var partialSum := GroupRateSum(ageAt, children, group);
    var limit := GroupLimit(zakladDane, group);
    if partialSum > limit then limit else partialSum
  }

  /** The bonuses of all groups added up (`danovyBonus`). */
  function SumGroupBonuses(ageAt: (string, int, int) -> int, children: seq<Child>, zakladDane: real,
                           groups: seq<seq<MonthCount>>): real
    requires forall i :: 0 <= i < |groups| ==> |groups[i]| > 0
  {
    if groups == [] then 0.0
    else SumGroupBonuses(ageAt, children, zakladDane, groups[..|groups| - 1])
         + GroupBonus(ageAt, children, zakladDane, groups[|groups| - 1])
  }

  /** Line r117 for the given children and base `r038 + r045`. */
  function ChildBonus(ageAt: (string, int, int) -> int, children: seq<Child>, zakladDane: real): real {
    SumGroupBonuses(ageAt, children, zakladDane, Runs(MonthCounts(children)))
  }

  /** A sequence whose counts are all equal is one single run. */
  lemma SingleRun(s: seq<MonthCount>)
    requires |s| > 0 && SameCount(s)
    ensures Runs(s) == [s]
  {
    assert Flatten([s]) == Flatten([]) + s;
    RunsUnique(s, [s]);
  }

  /** Rate sums over consecutive stretches of months add up. */
  lemma {:induction false} GroupRateSumAppend(ageAt: (string, int, int) -> int, children: seq<Child>,
                                              a: seq<MonthCount>, b: seq<MonthCount>)
    ensures GroupRateSum(ageAt, children, a + b)
            == GroupRateSum(ageAt, children, a) + GroupRateSum(ageAt, children, b)
    decreases |b|
  {
    if b == [] {
      assert a + b == a;
    } else {
      var b' := b[..|b| - 1];
      GroupRateSumAppend(ageAt, children, a, b');
      assert (a + b)[..|a + b| - 1] == a + b';
    }
  }

  /** Groups whose base is not negative add up to a bonus that is not negative. */
  lemma {:induction false} SumGroupBonusesNonNegative(ageAt: (string, int, int) -> int, children: seq<Child>,
                                                      zakladDane: real, groups: seq<seq<MonthCount>>)
    requires 0.0 <= zakladDane
    requires forall i :: 0 <= i < |groups| ==> |groups[i]| > 0
    ensures 0.0 <= SumGroupBonuses(ageAt, children, zakladDane, groups)
    decreases |groups|
  {
    if groups != [] {
      SumGroupBonusesNonNegative(ageAt, children, zakladDane, groups[..|groups| - 1]);
    }
  }

  /** The capped group bonuses never add up to more than the uncapped rates of the same months. */
  lemma {:induction false} SumGroupBonusesAtMostRates(ageAt: (string, int, int) -> int, children: seq<Child>,
                                                      zakladDane: real, groups: seq<seq<MonthCount>>)
    requires forall i :: 0 <= i < |groups| ==> |groups[i]| > 0
    ensures SumGroupBonuses(ageAt, children, zakladDane, groups) <= GroupRateSum(ageAt, children, Flatten(groups))
    decreases |groups|
  {
    if groups != [] {
      var init := groups[..|groups| - 1];
      SumGroupBonusesAtMostRates(ageAt, children, zakladDane, init);
      GroupRateSumAppend(ageAt, children, Flatten(init), groups[|groups| - 1]);
    }
  }

  /** The month groups of r117 put back together are January..December, in order. */
  lemma MonthGroupsCoverYear(children: seq<Child>)
    ensures |Flatten(Runs(MonthCounts(children)))| == 12
    ensures forall i :: 0 <= i < 12 ==> Flatten(Runs(MonthCounts(children)))[i].month == i + 1
    ensures MaximalRuns(Runs(MonthCounts(children)))
  {
    RunsFlatten(MonthCounts(children));
    RunsMaximal(MonthCounts(children));
  }

  /** With a base that is not negative, the child bonus is not negative. */
  lemma ChildBonusNonNegative(ageAt: (string, int, int) -> int, children: seq<Child>, zakladDane: real)
    ensures 0.0 <= zakladDane ==> 0.0 <= ChildBonus(ageAt, children, zakladDane)
  {
    if 0.0 <= zakladDane {
      SumGroupBonusesNonNegative(ageAt, children, zakladDane, Runs(MonthCounts(children)));
    }
  }

  /** The child bonus never exceeds the sum of every child's monthly rate over the year. */
  lemma ChildBonusAtMostRates(ageAt: (string, int, int) -> int, children: seq<Child>, zakladDane: real)
    ensures ChildBonus(ageAt, children, zakladDane) <= GroupRateSum(ageAt, children, MonthCounts(children))
  {
    SumGroupBonusesAtMostRates(ageAt, children, zakladDane, Runs(MonthCounts(children)));
    RunsFlatten(MonthCounts(children));
  }

  /** Rate sum of months in which no child is eligible. */
  lemma {:induction false} GroupRateSumZero(ageAt: (string, int, int) -> int, children: seq<Child>, group: seq<MonthCount>)
    requires forall j, i :: 0 <= j < |group| && 0 <= i < |children| ==> !Eligible(children[i], group[j].month)
    ensures GroupRateSum(ageAt, children, group) == 0.0
    decreases |group|
  {
    if group != [] {
      GroupRateSumZero(ageAt, children, group[..|group| - 1]);
    }
  }

  /** When no child is eligible in any month, the child bonus is 0, whatever the base. */
  lemma NoEligibleChildNoBonus(ageAt: (string, int, int) -> int, children: seq<Child>, zakladDane: real)
    requires forall m: Month, i :: 0 <= i < |children| ==> !Eligible(children[i], m)
    ensures ChildBonus(ageAt, children, zakladDane) == 0.0
  {
    var ms := MonthCounts(children);
    assert SameCount(ms) && ms[0].count == 0;
    SingleRun(ms);
    GroupRateSumZero(ageAt, children, ms);
    SumOneGroup(ageAt, children, zakladDane, ms);
  }

  /** `n` copies of `p` added up. */
  function Repeated(p: real, n: nat): real
  {
    if n == 0 then 0.0 else Repeated(p, n - 1) + p
  }

  lemma {:induction false} RepeatedIsProduct(p: real, n: nat)
    ensures Repeated(p, n) == p * n as real
  {
    if n > 0 {
      RepeatedIsProduct(p, n - 1);
    }
  }

  /** Rate sum of a stretch of months when every month's rate sum lies between `lo` and `hi`. */
  lemma {:induction false} GroupRateSumBetween(ageAt: (string, int, int) -> int, children: seq<Child>,
                                               group: seq<MonthCount>, lo: real, hi: real)
    requires forall m: Month :: lo <= MonthRateSum(ageAt, children, m) <= hi
    ensures Repeated(lo, |group|) <= GroupRateSum(ageAt, children, group) <= Repeated(hi, |group|)
    decreases |group|
  {
    if group != [] {
      GroupRateSumBetween(ageAt, children, group[..|group| - 1], lo, hi);
    }
  }

  /** In a month where every child is eligible, each adds 50 or 140. */
  lemma {:induction false} MonthRateSumAllEligible(ageAt: (string, int, int) -> int, children: seq<Child>, month: Month)
    requires forall i :: 0 <= i < |children| ==> Eligible(children[i], month)
    ensures ChildRate18AndOlder * |children| as real <= MonthRateSum(ageAt, children, month)
            <= ChildRateUnder18 * |children| as real
    decreases |children|
  {
    if children != [] {
      var init := children[..|children| - 1];
      assert forall i :: 0 <= i < |init| ==> init[i] == children[i];
      MonthRateSumAllEligible(ageAt, init, month);
    }
  }

  /**
   * Children claimed for the whole year: the bonus is the sum of their rates,
   * between 600 and 1680 a child, unless that sum exceeds the yearly cap for
   * their number, and then it is the cap.
   */
  lemma WholeYearBonus(ageAt: (string, int, int) -> int, children: seq<Child>, zakladDane: real)
    requires forall i :: 0 <= i < |children| ==> children[i].m00
    ensures var limit := YearlyCap(zakladDane, |children|);
            var n := |children| as real;
            && ChildBonus(ageAt, children, zakladDane) <= limit
            && ChildBonus(ageAt, children, zakladDane) <= 12.0 * ChildRateUnder18 * n
            && Min(12.0 * ChildRate18AndOlder * n, limit) <= ChildBonus(ageAt, children, zakladDane)
  {
    WholeYearChildren(ageAt, children, zakladDane);
    WholeYearLimit(children, zakladDane);
    WholeYearGroupBonus(ageAt, children, zakladDane);
  }

  /** The bounds of `WholeYearBonus`, for the single twelve-month group and its cap. */
  lemma WholeYearGroupBonus(ageAt: (string, int, int) -> int, children: seq<Child>, zakladDane: real)
    requires forall i :: 0 <= i < |children| ==> children[i].m00
    ensures var ms := MonthCounts(children);
            var limit := GroupLimit(zakladDane, ms);
            var n := |children| as real;
            var b := GroupBonus(ageAt, children, zakladDane, ms);
            b <= limit && b <= 12.0 * ChildRateUnder18 * n && Min(12.0 * ChildRate18AndOlder * n, limit) <= b
  {
    WholeYearMonthRates(ageAt, children);
    TwelveMonthRates(ageAt, children, MonthCounts(children),
                     ChildRate18AndOlder * |children| as real, ChildRateUnder18 * |children| as real);
  }

  /** Children claimed for the whole year earn between 50 and 140 each in rates in every month. */
  lemma WholeYearMonthRates(ageAt: (string, int, int) -> int, children: seq<Child>)
    requires forall i :: 0 <= i < |children| ==> children[i].m00
    ensures forall m: Month :: ChildRate18AndOlder * |children| as real <= MonthRateSum(ageAt, children, m)
                               <= ChildRateUnder18 * |children| as real
  {
    forall m: Month ensures ChildRate18AndOlder * |children| as real <= MonthRateSum(ageAt, children, m)
                            <= ChildRateUnder18 * |children| as real {
      MonthRateSumAllEligible(ageAt, children, m);
    }
  }

  /** Twelve months whose monthly rate sums lie between `lo` and `hi` sum to between twelve times each. */
  lemma TwelveMonthRates(ageAt: (string, int, int) -> int, children: seq<Child>, months: seq<MonthCount>,
                         lo: real, hi: real)
    requires |months| == 12
    requires forall m: Month :: lo <= MonthRateSum(ageAt, children, m) <= hi
    ensures 12.0 * lo <= GroupRateSum(ageAt, children, months) <= 12.0 * hi
  {
    GroupRateSumBetween(ageAt, children, months, lo, hi);
    RepeatedIsProduct(lo, 12);
    RepeatedIsProduct(hi, 12);
  }

  /** When every child is claimed for the whole year, every month counts all of them. */
  lemma WholeYearCounts(children: seq<Child>)
    requires forall i :: 0 <= i < |children| ==> children[i].m00
    ensures forall j :: 0 <= j < 12 ==> MonthCounts(children)[j].count == |children|
  {
    var ms := MonthCounts(children);
    forall j | 0 <= j < 12 ensures ms[j].count == |children| {
      WholeYearCount(children, j + 1);
    }
  }

  /** When every child is claimed for the whole year, the twelve months form one single group. */
  lemma WholeYearOneGroup(children: seq<Child>)
    requires forall i :: 0 <= i < |children| ==> children[i].m00
    ensures Runs(MonthCounts(children)) == [MonthCounts(children)]
  {
    WholeYearCounts(children);
    SingleRun(MonthCounts(children));
  }

  /**
   * When every child is claimed for the whole year, the bonus is the bonus of
   * the single twelve-month group.
   */
  lemma WholeYearChildren(ageAt: (string, int, int) -> int, children: seq<Child>, zakladDane: real)
    requires forall i :: 0 <= i < |children| ==> children[i].m00
    ensures ChildBonus(ageAt, children, zakladDane) == GroupBonus(ageAt, children, zakladDane, MonthCounts(children))
  {
    WholeYearOneGroup(children);
    SumOneGroup(ageAt, children, zakladDane, MonthCounts(children));
  }

  /**
   * ... and the limit of that group is the yearly percentage of the base for
   * all the children, without proration.
   */
  lemma WholeYearLimit(children: seq<Child>, zakladDane: real)
    requires forall i :: 0 <= i < |children| ==> children[i].m00
    ensures GroupLimit(zakladDane, MonthCounts(children)) == YearlyCap(zakladDane, |children|)
  {
    WholeYearCounts(children);
    FullYearLimit(zakladDane, MonthCounts(children), |children|);
  }

  /** A group spanning the whole year is not prorated. */
  lemma FullYearLimit(zakladDane: real, group: seq<MonthCount>, count: nat)
    requires |group| == 12 && group[0].count == count
    ensures GroupLimit(zakladDane, group) == YearlyCap(zakladDane, count)
  {
  }

  /** Children claimed all year are all counted in every month. */
  lemma {:induction false} WholeYearCount(children: seq<Child>, month: Month)
    requires forall i :: 0 <= i < |children| ==> children[i].m00
    ensures ChildrenInMonth(children, month) == |children|
    decreases |children|
  {
    if children != [] {
      WholeYearCount(children[..|children| - 1], month);
    }
  }

  /** The bonus of a single group is that group's bonus. */
  lemma SumOneGroup(ageAt: (string, int, int) -> int, children: seq<Child>, zakladDane: real, g: seq<MonthCount>)
    requires |g| > 0
    ensures SumGroupBonuses(ageAt, children, zakladDane, [g]) == GroupBonus(ageAt, children, zakladDane, g)
  {
    assert [g][..0] == [];
  }

  /** The nested loops over the months of one group and the children (`partialSum`). */
  method SumGroupRates(ageAt: (string, int, int) -> int, r033: seq<Child>, monthGroup: seq<MonthCount>)
    returns (partialSum: real)
    ensures partialSum == GroupRateSum(ageAt, r033, monthGroup)
  {
    partialSum := 0.0;
    for j := 0 to |monthGroup|
      invariant partialSum == GroupRateSum(ageAt, r033, monthGroup[..j])
    {
      var month := monthGroup[j].month;
      for c := 0 to |r033|
        invariant partialSum == GroupRateSum(ageAt, r033, monthGroup[..j]) + MonthRateSum(ageAt, r033[..c], month)
      {
        var rate := Rate(ageAt, r033[c], month);
        partialSum := partialSum + rate;
        assert r033[..c + 1][..c] == r033[..c];
      }
      assert r033[..|r033|] == r033;
      assert monthGroup[..j + 1][..j] == monthGroup[..j];
    }
    assert monthGroup[..|monthGroup|] == monthGroup;
  }

  /** Adding up the groups one more at a time: the next group's bonus is added to the sum so far. */
  lemma SumGroupBonusesSnoc(ageAt: (string, int, int) -> int, children: seq<Child>, zakladDane: real,
                            groups: seq<seq<MonthCount>>, g: nat)
    requires g < |groups|
    requires forall i :: 0 <= i < |groups| ==> |groups[i]| > 0
    ensures SumGroupBonuses(ageAt, children, zakladDane, groups[..g + 1])
            == SumGroupBonuses(ageAt, children, zakladDane, groups[..g])
               + GroupBonus(ageAt, children, zakladDane, groups[g])
  {
    assert groups[..g + 1][..g] == groups[..g];
    assert groups[..g + 1][g] == groups[g];
  }

  /**
   * One pass of the loop over the groups: the group's rate sum, capped at its
   * prorated limit (`vysledok`), added to the bonus so far.
   */
  method AddGroupBonus(ageAt: (string, int, int) -> int, r033: seq<Child>, zakladDane: real,
                       monthGroups: seq<seq<MonthCount>>, g: nat, danovyBonus: real)
    returns (next: real)
    requires g < |monthGroups|
    requires forall i :: 0 <= i < |monthGroups| ==> |monthGroups[i]| > 0
    requires danovyBonus == SumGroupBonuses(ageAt, r033, zakladDane, monthGroups[..g])
    ensures next == SumGroupBonuses(ageAt, r033, zakladDane, monthGroups[..g + 1])
  {
    var monthGroup := monthGroups[g];
    var partialSum := SumGroupRates(ageAt, r033, monthGroup);
    var limit := GroupLimit(zakladDane, monthGroup);
    var vysledok := if partialSum > limit then limit else partialSum;
    assert vysledok == GroupBonus(ageAt, r033, zakladDane, monthGroup);
    next := danovyBonus + vysledok;
    SumGroupBonusesSnoc(ageAt, r033, zakladDane, monthGroups, g);
  }

  /** The loop over the groups (`danovyBonus`): each group's capped rate sum, added up. */
  method SumBonuses(ageAt: (string, int, int) -> int, r033: seq<Child>, zakladDane: real,
                    monthGroups: seq<seq<MonthCount>>)
    returns (danovyBonus: real)
    requires monthGroups == Runs(MonthCounts(r033))
    ensures danovyBonus == ChildBonus(ageAt, r033, zakladDane)
  {
    danovyBonus := 0.0;
    for g := 0 to |monthGroups|
      invariant danovyBonus == SumGroupBonuses(ageAt, r033, zakladDane, monthGroups[..g])
    {
      danovyBonus := AddGroupBonus(ageAt, r033, zakladDane, monthGroups, g, danovyBonus);
    }
    assert monthGroups[..|monthGroups|] == monthGroups;
  }

  /**
   * The r117 getter as the source runs it: map the twelve months to their
   * child counts, split the months into groups, then add up each group's
   * rates, capped, into the bonus.
   */
  method ComputeChildBonus(ageAt: (string, int, int) -> int, r033: seq<Child>, r038: real, r045: real)
    returns (danovyBonus: real)
    ensures danovyBonus == ChildBonus(ageAt, r033, r038 + r045)
  {
    var months := MonthCounts(r033);
    var monthGroups := GroupMonths(months);
    danovyBonus := SumBonuses(ageAt, r033, r038 + r045, monthGroups);
  }
}
