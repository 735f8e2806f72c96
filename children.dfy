/**
 * Children claimed for the child tax bonus: the per-month eligibility flags
 * derived from the user's input (`makeMapChild`), the monthly rate of one
 * child (`getRate`), the number of eligible children in a month
 * (`getPocetDetivMesiaci`) and the cap percentage by child count
 * (`getPercentualnyLimitNaDeti`).
 */
module Children {

  const TaxYear := 2023
  const ChildRateUnder18: real := 140.0
  const ChildRate18AndOlder: real := 50.0

  /** A calendar month, January = 1 ... December = 12 (the source's `Months` enum). */
  type Month = m: int | 1 <= m <= 12 witness 1

  /**
   * A child as entered by the user. `monthFrom` and `monthTo` are the parsed
   * month indices of the eligibility window, January = 0.
   */
  datatype ChildInput = ChildInput(
    priezviskoMeno: string,
    rodneCislo: string,
    wholeYear: bool,
    monthFrom: int,
    monthTo: int)

  /** Twelve flags; index k stands for the form's field m(k+1), January = index 0. */
  type MonthFlags = s: seq<bool> | |s| == 12
    witness [false, false, false, false, false, false, false, false, false, false, false, false]

  /** A child as it appears on the form: `m00` is "all year", `months` are `m01`..`m12`. */
  datatype Child = Child(priezviskoMeno: string, rodneCislo: string, m00: bool, months: MonthFlags)

  predicate IsDigit(c: char) { '0' <= c <= '9' }

  /** `s.replace(/\D/g, '')`: the digits of `s`, in order. */
  function DigitsOnly(s: string): (r: string)
    ensures |r| <= |s|
    ensures forall i :: 0 <= i < |r| ==> IsDigit(r[i])
    ensures (forall i :: 0 <= i < |s| ==> IsDigit(s[i])) ==> r == s
  {
    if s == [] then []
    else if IsDigit(s[0]) then [s[0]] + DigitsOnly(s[1..])
    else DigitsOnly(s[1..])
  }

  /** Stripping non-digits works piece by piece: the digits of a concatenation are the digits of each part. */
  lemma {:induction false} DigitsOnlyAppend(a: string, b: string)
    ensures DigitsOnly(a + b) == DigitsOnly(a) + DigitsOnly(b)
    decreases |a|
  {
    if a != [] {
      assert (a + b)[0] == a[0];
      assert (a + b)[1..] == a[1..] + b;
      DigitsOnlyAppend(a[1..], b);
    } else {
      assert a + b == b;
    }
  }

  /** A single character is kept exactly when it is a digit. */
  lemma DigitsOnlyChar(c: char)
    ensures DigitsOnly([c]) == if IsDigit(c) then [c] else []
  {
  }

  /** Flag m(k+1) for the child: months 2..11 test the window; January and December test one end only. */
  function MonthFlag(hasChildren: bool, child: ChildInput, k: int): bool {
    hasChildren && !child.wholeYear &&
    if k == 0 then child.monthFrom == 0
    else if k == 11 then child.monthTo == 11
    else child.monthFrom <= k && child.monthTo >= k
  }

  /**
   * `makeMapChild(hasChildren)(child)`. Without children every flag is off;
   * a whole-year child has only `m00`; otherwise, for a window inside the
   * year, month k+1 is flagged exactly when k lies in the window.
   */
  function MakeMapChild(hasChildren: bool, child: ChildInput): (c: Child)
    ensures c.rodneCislo == DigitsOnly(child.rodneCislo)
    ensures c.m00 <==> hasChildren && child.wholeYear
    ensures !hasChildren ==> !c.m00 && forall k :: 0 <= k < 12 ==> !c.months[k]
    ensures child.wholeYear ==> forall k :: 0 <= k < 12 ==> !c.months[k]
    ensures hasChildren && !child.wholeYear && 0 <= child.monthFrom <= 11 && 0 <= child.monthTo <= 11 ==>
              forall k :: 0 <= k < 12 ==> (c.months[k] <==> child.monthFrom <= k <= child.monthTo)
  {
    Child(child.priezviskoMeno, DigitsOnly(child.rodneCislo), hasChildren && child.wholeYear,
          seq(12, k => MonthFlag(hasChildren, child, k)))
  }

  /** The child counts in `month`: all year (`m00`) or that month's own flag. */
  predicate Eligible(child: Child, month: Month) {
    child.m00 || child.months[month - 1]
  }

  /**
   * `getRate(month, child)`: 140 for a child under 18 in that month of the
   * tax year, 50 otherwise, and 0 when the child is not eligible that month.
   * `ageAt` is the age-from-birth-number helper of the engine's utilities.
   */
  function Rate(ageAt: (string, int, int) -> int, child: Child, month: Month): (r: real)
    ensures r == 0.0 || r == ChildRateUnder18 || r == ChildRate18AndOlder
    ensures 0.0 < r <==> Eligible(child, month)
    ensures Eligible(child, month) ==>
              (r == ChildRateUnder18 <==> ageAt(child.rodneCislo, TaxYear, month - 1) < 18)
  {
    var age := ageAt(child.rodneCislo, TaxYear, month - 1);
    var rate := if age < 18 then ChildRateUnder18 else ChildRate18AndOlder;
    if Eligible(child, month) then rate else 0.0
  }

  /** Number of children eligible in `month` (the value `getPocetDetivMesiaci` reduces to). */
  function ChildrenInMonth(children: seq<Child>, month: Month): (n: nat)
    ensures n <= |children|
    ensures n == 0 <==> forall i :: 0 <= i < |children| ==> !Eligible(children[i], month)
    ensures n == |children| <==> forall i :: 0 <= i < |children| ==> Eligible(children[i], month)
  {
    if children == [] then 0
    else
      var last := children[|children| - 1];
      ChildrenInMonth(children[..|children| - 1], month) + (if Eligible(last, month) then 1 else 0)
  }

  /** `getPocetDetivMesiaci(deti, month)`: the reduce over the children with its accumulator. */
  method CountChildrenInMonth(deti: seq<Child>, month: Month) returns (acc: nat)
    ensures acc == ChildrenInMonth(deti, month)
  {
    acc := 0;
    for i := 0 to |deti|
      invariant acc == ChildrenInMonth(deti[..i], month)
    {
      var dieta := deti[i];
      if dieta.m00 {
        acc := acc + 1;
      } else if dieta.months[month - 1] {
        acc := acc + 1;
      }
      assert deti[..i + 1][..i] == deti[..i];
    }
    assert deti[..|deti|] == deti;
  }

  /**
   * `getPercentualnyLimitNaDeti(pocetDeti)`: the share of the tax base the
   * bonus may not exceed, 20% for one child rising by 7 points per child up
   * to 55% for six or more, and 0 for no child.
   */
  function PercentLimit(pocetDeti: int): (p: real)
    ensures pocetDeti <= 0 ==> p == 0.0
    ensures 1 <= pocetDeti <= 6 ==> p == (13 + 7 * pocetDeti) as real / 100.0
    ensures 6 <= pocetDeti ==> p == 0.55
  {
    match pocetDeti
    case 1 => 0.2
    case 2 => 0.27
    case 3 => 0.34
    case 4 => 0.41
    case 5 => 0.48
    case _ => if pocetDeti >= 6 then 0.55 else 0.0
  }

  /** More children never lower the cap percentage. */
  lemma PercentLimitMonotone(a: int, b: int)
    requires a <= b
    ensures 0.0 <= PercentLimit(a) <= PercentLimit(b) <= 0.55
  {
  }
}
