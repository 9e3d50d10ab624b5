/** The retirement calculator: a year-by-year projection of the combined
    brokerage and retirement balance under yearly contributions, CPI-adjusted
    withdrawals and a fixed return, and the editors of its parameter rows. */
module Retirement {
  import opened Common

  /** One contribution or withdrawal schedule: an amount per year for the
      ages in [startAge, endAge). Only withdrawals consult cpiAdjust; rows of
      the contribution tables carry false there. */
  datatype Row = Row(
    id: string,
    startAge: int,
    endAge: int,
    amount: real,
    cpiAdjust: bool,
    startOfYear: bool)

  /** The three row tables: withdrawals, brokerage contributions and
      retirement-account contributions. */
  datatype Table = Withdrawals | BrokerageContribs | RetirementContribs

  /** All inputs of the projection. Rates are percentages. */
  datatype Plan = Plan(
    currentAge: int,
    retireAge: int,
    lifeExpectancy: int,
    brokerageBalance: real,
    retirementBalance: real,
    annualROI: real,
    inflationRate: real,
    withdrawals: seq<Row>,
    brokerageContribs: seq<Row>,
    retirementContribs: seq<Row>)

  /** One year of the projection: the age, the reported balance and whether
      that age is in retirement. */
  datatype YearResult = YearResult(age: int, balance: int, isRetired: bool)

  // ---------------------------------------------------------------------
  // Per-year sums

  /** A row applies in the years from its start age up to, but excluding,
      its end age. */
  predicate ActiveAt(r: Row, age: int) {
    r.startAge <= age < r.endAge
  }

  function Last(rows: seq<Row>): Row
    requires rows != []
  {
    rows[|rows| - 1]
  }

  function AllButLast(rows: seq<Row>): seq<Row>
    requires rows != []
  {
    rows[..|rows| - 1]
  }

  /** The rows that apply at the given age, in their original order. */
  function ActiveRows(rows: seq<Row>, age: int): seq<Row> {
    if rows == [] then []
    else ActiveRows(AllButLast(rows), age) + (if ActiveAt(Last(rows), age) then [Last(rows)] else [])
  }

  /** A row is selected for an age exactly when it is in the table and
      applies at that age. */
  lemma {:induction false} ActiveRowsMembers(rows: seq<Row>, age: int)
    ensures |ActiveRows(rows, age)| <= |rows|
    ensures forall r :: r in ActiveRows(rows, age) <==> r in rows && ActiveAt(r, age)
  {
    if rows != [] {
      assert rows == AllButLast(rows) + [Last(rows)];
      ActiveRowsMembers(AllButLast(rows), age);
    }
  }

  /** The sum of the rows' amounts, accumulated from the first row. */
  function SumAmounts(rows: seq<Row>): real {
    if rows == [] then 0.0 else SumAmounts(AllButLast(rows)) + Last(rows).amount
  }

  /** x raised to the n-th power. */
  function Pow(x: real, n: nat): real {
    if n == 0 then 1.0 else Pow(x, n - 1) * x
  }

  /** One withdrawal in year yearIdx of the projection: the amount grown by
      inflation since the first year when the row is CPI-adjusted. */
  function WithdrawalOf(r: Row, inf: real, yearIdx: nat): real {
    if r.cpiAdjust then r.amount * Pow(1.0 + inf, yearIdx) else r.amount
  }

  function SumWithdrawals(rows: seq<Row>, inf: real, yearIdx: nat): real {
    if rows == [] then 0.0
    else SumWithdrawals(AllButLast(rows), inf, yearIdx) + WithdrawalOf(Last(rows), inf, yearIdx)
  }

  function Roi(plan: Plan): real { plan.annualROI / 100.0 }

  function Inflation(plan: Plan): real { plan.inflationRate / 100.0 }

  /** Contributions of both accounts at the given age. */
  function YearlyContrib(plan: Plan, age: int): real {
    SumAmounts(ActiveRows(plan.brokerageContribs, age))
    + SumAmounts(ActiveRows(plan.retirementContribs, age))
  }

  /** Withdrawals in year yearIdx, at age currentAge + yearIdx. */
  function YearlyWithdrawal(plan: Plan, yearIdx: nat): real {
    SumWithdrawals(ActiveRows(plan.withdrawals, plan.currentAge + yearIdx), Inflation(plan), yearIdx)
  }

  // ---------------------------------------------------------------------
  // The projection

  /** The running balance after n years: it starts at the sum of both
      accounts and each year grows by the return, then adds that year's
      contributions and subtracts its withdrawals. It is never clamped. */
  function Balance(plan: Plan, n: nat): real {
    if n == 0 then plan.brokerageBalance + plan.retirementBalance
    else
      YearEnd(Balance(plan, n - 1), Roi(plan),
              YearlyContrib(plan, plan.currentAge + (n - 1)), YearlyWithdrawal(plan, n - 1))
  }

  /** The year-end update of the running balance. */
  function YearEnd(balance: real, roi: real, contrib: real, withdrawal: real): real {
    balance * (1.0 + roi) + contrib - withdrawal
  }

  /** Number of ages from the current age to the life expectancy, both
      included. */
  function YearCount(plan: Plan): nat {
    if plan.currentAge <= plan.lifeExpectancy then plan.lifeExpectancy - plan.currentAge + 1 else 0
  }

  /** The reported year n: the balance at the end of that year rounded and
      clamped at zero. */
  function YearAt(plan: Plan, n: nat): YearResult {
    YearResult(
      plan.currentAge + n,
      ClampZero(Round(Balance(plan, n + 1))),
      plan.currentAge + n >= plan.retireAge)
  }

  /** The first k reported years. */
  function Years(plan: Plan, k: nat): seq<YearResult> {
    seq(k, n requires 0 <= n => YearAt(plan, n))
  }

  /** The calculator's result: the reported year for each counted age. */
  function Projection(plan: Plan): seq<YearResult> {
    Years(plan, YearCount(plan))
  }

  /** The projection reports one year per age from the current age to the
      life expectancy, in consecutive ascending order, each with a
      non-negative balance and the retirement flag of that age; it is empty
      when the current age is past the life expectancy. */
  lemma ProjectionShape(plan: Plan)
    ensures Projection(plan) == [] <==> plan.currentAge > plan.lifeExpectancy
    ensures Projection(plan) != [] ==>
      Projection(plan)[0].age == plan.currentAge
      && Projection(plan)[|Projection(plan)| - 1].age == plan.lifeExpectancy
    ensures forall n :: 0 < n < |Projection(plan)| ==> Projection(plan)[n].age == Projection(plan)[n - 1].age + 1
    ensures forall n :: 0 <= n < |Projection(plan)| ==> Projection(plan)[n].balance >= 0
    ensures forall n :: 0 <= n < |Projection(plan)| ==>
      (Projection(plan)[n].isRetired <==> Projection(plan)[n].age >= plan.retireAge)
  {
  }

  /** One year of the recurrence, in the form the calculation loop computes
      it. */
  lemma BalanceStep(plan: Plan, yearIdx: nat, b: real)
    requires b == Balance(plan, yearIdx)
    ensures Balance(plan, yearIdx + 1)
         == YearEnd(b, Roi(plan), YearlyContrib(plan, plan.currentAge + yearIdx), YearlyWithdrawal(plan, yearIdx))
  {
  }

  /** The first k + 1 reported years extend the first k by year k. */
  lemma YearsSnoc(plan: Plan, k: nat)
    ensures Years(plan, k + 1) == Years(plan, k) + [YearAt(plan, k)]
  {
    assert Years(plan, k + 1)[k] == YearAt(plan, k);
  }

  /** The year reported from the balance after year yearIdx. */
  lemma ReportedYear(plan: Plan, yearIdx: nat, b: real)
    requires b == Balance(plan, yearIdx + 1)
    ensures YearResult(plan.currentAge + yearIdx, ClampZero(Round(b)), plan.currentAge + yearIdx >= plan.retireAge)
         == YearAt(plan, yearIdx)
  {
  }

  /** The body of the calculation loop for one age: the year's
      contributions and withdrawals, the year-end balance and the reported
      year. */
  method ProjectYear(plan: Plan, age: int, balance: real, ghost k: nat) returns (next: real, year: YearResult)
    requires age == plan.currentAge + k
    requires balance == Balance(plan, k)
    ensures next == Balance(plan, k + 1)
    ensures year == YearAt(plan, k)
  {
    var yearIdx := age - plan.currentAge;
    var yearlyContrib := YearlyContrib(plan, age);
    var yearlyWithdrawal := YearlyWithdrawal(plan, yearIdx);
    BalanceStep(plan, yearIdx, balance);
    next := YearEnd(balance, Roi(plan), yearlyContrib, yearlyWithdrawal);
    ReportedYear(plan, yearIdx, next);
    year := YearResult(age, ClampZero(Round(next)), age >= plan.retireAge);
  }

  /** The calculation loop: one pass per age, accumulating the balance and
      pushing the reported year. */
  method Project(plan: Plan) returns (results: seq<YearResult>)
    ensures results == Projection(plan)
  {
    results := [];
    var balance := plan.brokerageBalance + plan.retirementBalance;
    var age := plan.currentAge;
    assert Years(plan, 0) == [];
    while age <= plan.lifeExpectancy
      invariant plan.currentAge <= age
      invariant age <= plan.lifeExpectancy + 1 || age == plan.currentAge
      invariant |results| == age - plan.currentAge
      invariant balance == Balance(plan, |results|)
      invariant results == Years(plan, |results|)
      decreases plan.lifeExpectancy - age
    {
      ghost var k := |results|;
      var year;
      balance, year := ProjectYear(plan, age, balance, k);
      YearsSnoc(plan, k);
      results := results + [year];
      age := age + 1;
    }
    assert |results| == YearCount(plan);
  }

  /** The balance of the last reported year; the calculator has none to
      read when the projection is empty. */
  function FinalBalance(results: seq<YearResult>): (r: Option<int>)
    ensures r.None? <==> results == []
    ensures r.Some? ==> r.value == results[|results| - 1].balance
  {
    if results == [] then None else Some(results[|results| - 1].balance)
  }

  /** The plan succeeds when the last reported balance is positive. */
  function IsSuccessful(results: seq<YearResult>): (r: Option<bool>)
    ensures r.None? <==> results == []
    ensures r.Some? ==> (r.value <==> results[|results| - 1].balance > 0)
  {
    match FinalBalance(results)
    case None => None
    case Some(b) => Some(b > 0)
  }

  /** A plan with at least one year succeeds exactly when its running
      balance at the life expectancy is at least one half (so that it
      rounds to a positive amount). */
  lemma SuccessIffFinalBalance(plan: Plan)
    ensures YearCount(plan) == 0 ==> IsSuccessful(Projection(plan)) == None
    ensures YearCount(plan) > 0 ==>
      IsSuccessful(Projection(plan)) == Some(Balance(plan, YearCount(plan)) >= 0.5)
  {
    var rs := Projection(plan);
    if YearCount(plan) > 0 {
      var last := YearCount(plan) - 1;
      assert rs[|rs| - 1] == YearAt(plan, last);
      var b := Balance(plan, last + 1);
      assert Round(b) > 0 <==> b >= 0.5;
    }
  }

  /** A plan that withdraws a from an empty balance at age 30 and
      contributes c at age 31, with no return and no inflation. */
  function ShortfallPlan(a: real, c: real): Plan {
    Plan(30, 31, 31, 0.0, 0.0, 0.0, 0.0,
         [Row("w", 30, 31, a, false, false)],
         [Row("bc", 31, 32, c, false, false)],
         [])
  }

  lemma ShortfallBalances(a: real, c: real)
    ensures Balance(ShortfallPlan(a, c), 1) == -a
    ensures Balance(ShortfallPlan(a, c), 2) == c - a
  {
    var plan := ShortfallPlan(a, c);
    var w, bc, rc := plan.withdrawals, plan.brokerageContribs, plan.retirementContribs;
    assert AllButLast(w) == [] && AllButLast(bc) == [];
    assert ActiveRows(bc, 30) == [] && ActiveRows(rc, 30) == [];
    assert YearlyContrib(plan, 30) == 0.0;
    assert ActiveRows(w, 30) == w;
    assert SumWithdrawals(w, 0.0, 0) == a;
    assert YearlyWithdrawal(plan, 0) == a;
    assert Balance(plan, 1) == YearEnd(0.0, 0.0, 0.0, a);
    assert ActiveRows(bc, 31) == bc && ActiveRows(rc, 31) == [];
    assert SumAmounts(bc) == c;
    assert YearlyContrib(plan, 31) == c;
    assert ActiveRows(w, 31) == [];
    assert YearlyWithdrawal(plan, 1) == 0.0;
    assert Balance(plan, 2) == YearEnd(-a, 0.0, c, 0.0);
  }

  /** The running balance is not clamped between years: after a withdrawal
      of a from nothing and a contribution of c the next year, the plan
      reports 0 and then c - a (rounded, clamped), where a balance clamped
      at zero after the first year would report c. */
  lemma RunningBalanceNotClamped(a: real, c: real)
    requires a > 0.0
    ensures Projection(ShortfallPlan(a, c))
         == [YearResult(30, 0, false), YearResult(31, ClampZero(Round(c - a)), true)]
  {
    ShortfallBalances(a, c);
    var rs := Projection(ShortfallPlan(a, c));
    assert |rs| == 2;
    assert rs[0] == YearAt(ShortfallPlan(a, c), 0);
    assert rs[1] == YearAt(ShortfallPlan(a, c), 1);
  }

  // ---------------------------------------------------------------------
  // Properties of the yearly sums

  /** Adding a row to a table changes that table's sum at an age by the
      row's amount exactly when the age lies in [startAge, endAge). */
  lemma ContributionWithRow(rows: seq<Row>, r: Row, age: int)
    ensures SumAmounts(ActiveRows(rows + [r], age))
         == SumAmounts(ActiveRows(rows, age)) + (if ActiveAt(r, age) then r.amount else 0.0)
  {
    var rows' := rows + [r];
    assert AllButLast(rows') == rows && Last(rows') == r;
    var act := ActiveRows(rows, age);
    if ActiveAt(r, age) {
      assert AllButLast(act + [r]) == act && Last(act + [r]) == r;
    } else {
      assert act + [] == act;
    }
  }

  /** The same for a withdrawal row, which adds its CPI-adjusted amount. */
  lemma WithdrawalWithRow(rows: seq<Row>, r: Row, age: int, inf: real, yearIdx: nat)
    ensures SumWithdrawals(ActiveRows(rows + [r], age), inf, yearIdx)
         == SumWithdrawals(ActiveRows(rows, age), inf, yearIdx)
            + (if ActiveAt(r, age) then WithdrawalOf(r, inf, yearIdx) else 0.0)
  {
    var rows' := rows + [r];
    assert AllButLast(rows') == rows && Last(rows') == r;
    var act := ActiveRows(rows, age);
    if ActiveAt(r, age) {
      assert AllButLast(act + [r]) == act && Last(act + [r]) == r;
    } else {
      assert act + [] == act;
    }
  }

  /** Inflation compounds: a CPI-adjusted withdrawal is its plain amount in
      the first year and, for non-negative amounts and inflation, never
      shrinks from one year to the next; a row without the flag stays at
      its amount. */
  lemma WithdrawalGrowth(r: Row, inf: real, yearIdx: nat)
    ensures WithdrawalOf(r, inf, 0) == r.amount
    ensures !r.cpiAdjust ==> WithdrawalOf(r, inf, yearIdx) == r.amount
    ensures r.cpiAdjust && r.amount >= 0.0 && inf >= 0.0 ==>
      r.amount <= WithdrawalOf(r, inf, yearIdx) <= WithdrawalOf(r, inf, yearIdx + 1)
  {
    if r.cpiAdjust && r.amount >= 0.0 && inf >= 0.0 {
      PowGrowth(1.0 + inf, yearIdx);
      var a, b := Pow(1.0 + inf, yearIdx), Pow(1.0 + inf, yearIdx + 1);
      MulLeftMonotone(r.amount, 1.0, a);
      MulLeftMonotone(r.amount, a, b);
      assert r.amount * 1.0 == r.amount;
      assert WithdrawalOf(r, inf, yearIdx) == r.amount * a;
      assert WithdrawalOf(r, inf, yearIdx + 1) == r.amount * b;
    }
  }

  lemma MulLeftMonotone(c: real, a: real, b: real)
    requires c >= 0.0 && a <= b
    ensures c * a <= c * b
  {
  }

  /** Powers of a base of at least one are at least one and grow with the
      exponent. */
  lemma {:induction false} PowGrowth(x: real, n: nat)
    requires x >= 1.0
    ensures 1.0 <= Pow(x, n) <= Pow(x, n + 1)
  {
    if n > 0 {
      PowGrowth(x, n - 1);
    }
    MulLeftMonotone(Pow(x, n), 1.0, x);
  }

  /** Non-negative amounts have a non-negative sum. */
  lemma {:induction false} SumAmountsNonNegative(rows: seq<Row>)
    requires forall r :: r in rows ==> r.amount >= 0.0
    ensures SumAmounts(rows) >= 0.0
  {
    if rows != [] {
      assert forall r :: r in AllButLast(rows) ==> r in rows;
      SumAmountsNonNegative(AllButLast(rows));
    }
  }

  /** A row with its startOfYear flag cleared. */
  function Untimed(r: Row): Row {
    r.(startOfYear := false)
  }

  /** Two withdrawal tables that differ only in their startOfYear flags. */
  predicate SameButTiming(a: seq<Row>, b: seq<Row>) {
    |a| == |b| && forall i :: 0 <= i < |a| ==> Untimed(a[i]) == Untimed(b[i])
  }

  /** Two rows that differ only in startOfYear apply in the same years and
      withdraw the same amount. */
  lemma RowTimingIgnored(x: Row, y: Row, age: int, inf: real, yearIdx: nat)
    requires Untimed(x) == Untimed(y)
    ensures ActiveAt(x, age) == ActiveAt(y, age)
    ensures WithdrawalOf(x, inf, yearIdx) == WithdrawalOf(y, inf, yearIdx)
  {
    assert x.startAge == y.startAge && x.endAge == y.endAge;
    assert x.amount == y.amount && x.cpiAdjust == y.cpiAdjust;
  }

  /** Selecting the active rows of two tables that differ only in timing
      gives two such tables again. */
  lemma {:induction false} ActiveRowsSameButTiming(a: seq<Row>, b: seq<Row>, age: int)
    requires SameButTiming(a, b)
    ensures SameButTiming(ActiveRows(a, age), ActiveRows(b, age))
  {
    if a != [] {
      var a0, b0, x, y := AllButLast(a), AllButLast(b), Last(a), Last(b);
      assert SameButTiming(a0, b0) by {
        forall i | 0 <= i < |a0|
          ensures Untimed(a0[i]) == Untimed(b0[i])
        {
          assert a0[i] == a[i] && b0[i] == b[i];
        }
      }
      ActiveRowsSameButTiming(a0, b0, age);
      assert Untimed(x) == Untimed(y) by {
        assert x == a[|a| - 1] && y == b[|b| - 1];
      }
      RowTimingIgnored(x, y, age, 0.0, 0);
    }
  }

  /** Two tables that differ only in timing withdraw the same in every
      year. */
  lemma {:induction false} SumWithdrawalsSameButTiming(a: seq<Row>, b: seq<Row>, inf: real, yearIdx: nat)
    requires SameButTiming(a, b)
    ensures SumWithdrawals(a, inf, yearIdx) == SumWithdrawals(b, inf, yearIdx)
  {
    if a != [] {
      var a0, b0, x, y := AllButLast(a), AllButLast(b), Last(a), Last(b);
      assert SameButTiming(a0, b0) by {
        forall i | 0 <= i < |a0|
          ensures Untimed(a0[i]) == Untimed(b0[i])
        {
          assert a0[i] == a[i] && b0[i] == b[i];
        }
      }
      SumWithdrawalsSameButTiming(a0, b0, inf, yearIdx);
      assert Untimed(x) == Untimed(y) by {
        assert x == a[|a| - 1] && y == b[|b| - 1];
      }
      RowTimingIgnored(x, y, 0, inf, yearIdx);
    }
  }

  /** The startOfYear flag has no effect on a year's withdrawals. */
  lemma TimingIgnoredInYear(a: seq<Row>, b: seq<Row>, age: int, inf: real, yearIdx: nat)
    requires SameButTiming(a, b)
    ensures SumWithdrawals(ActiveRows(a, age), inf, yearIdx) == SumWithdrawals(ActiveRows(b, age), inf, yearIdx)
  {
    ActiveRowsSameButTiming(a, b, age);
    SumWithdrawalsSameButTiming(ActiveRows(a, age), ActiveRows(b, age), inf, yearIdx);
  }

  /** The startOfYear flag has no effect on the projection. */
  lemma TimingIgnored(plan: Plan, w: seq<Row>)
    requires SameButTiming(plan.withdrawals, w)
    ensures Projection(plan.(withdrawals := w)) == Projection(plan)
  {
    var plan' := plan.(withdrawals := w);
    forall n: nat | n < YearCount(plan)
      ensures YearAt(plan', n) == YearAt(plan, n)
    {
      TimingIgnoredBalance(plan, w, n + 1);
    }
  }

  lemma {:induction false} TimingIgnoredBalance(plan: Plan, w: seq<Row>, n: nat)
    requires SameButTiming(plan.withdrawals, w)
    ensures Balance(plan.(withdrawals := w), n) == Balance(plan, n)
  {
    if n > 0 {
      var plan' := plan.(withdrawals := w);
      TimingIgnoredBalance(plan, w, n - 1);
      TimingIgnoredYearly(plan, w, n - 1);
      assert plan'.brokerageContribs == plan.brokerageContribs;
      assert plan'.retirementContribs == plan.retirementContribs;
      assert YearlyContrib(plan', plan.currentAge + (n - 1)) == YearlyContrib(plan, plan.currentAge + (n - 1));
      assert Roi(plan') == Roi(plan);
      SameStep(plan', plan, n);
    }
  }

  /** The same for the withdrawals of one year of a plan. */
  lemma TimingIgnoredYearly(plan: Plan, w: seq<Row>, yearIdx: nat)
    requires SameButTiming(plan.withdrawals, w)
    ensures YearlyWithdrawal(plan.(withdrawals := w), yearIdx) == YearlyWithdrawal(plan, yearIdx)
  {
    var plan' := plan.(withdrawals := w);
    assert plan'.withdrawals == w && plan'.currentAge == plan.currentAge;
    assert Inflation(plan') == Inflation(plan);
    TimingIgnoredInYear(plan.withdrawals, w, plan.currentAge + yearIdx, Inflation(plan), yearIdx);
  }

  /** Two plans with the same balance so far, the same return and the same
      contributions and withdrawals in year n - 1 have the same balance after
      year n - 1. */
  lemma SameStep(p: Plan, q: Plan, n: nat)
    requires n > 0 && p.currentAge == q.currentAge
    requires Balance(p, n - 1) == Balance(q, n - 1) && Roi(p) == Roi(q)
    requires YearlyContrib(p, p.currentAge + (n - 1)) == YearlyContrib(q, q.currentAge + (n - 1))
    requires YearlyWithdrawal(p, n - 1) == YearlyWithdrawal(q, n - 1)
    ensures Balance(p, n) == Balance(q, n)
  {
  }

  lemma YearEndGrows(b: real, roi: real, c: real)
    requires b >= 0.0 && roi >= 0.0 && c >= 0.0
    ensures b <= YearEnd(b, roi, c, 0.0)
  {
    MulLeftMonotone(b, 1.0, 1.0 + roi);
  }

  /** Non-negative contribution rows give a non-negative yearly
      contribution. */
  lemma YearlyContribNonNegative(plan: Plan, age: int)
    requires forall r :: r in plan.brokerageContribs ==> r.amount >= 0.0
    requires forall r :: r in plan.retirementContribs ==> r.amount >= 0.0
    ensures YearlyContrib(plan, age) >= 0.0
  {
    ActiveRowsMembers(plan.brokerageContribs, age);
    ActiveRowsMembers(plan.retirementContribs, age);
    SumAmountsNonNegative(ActiveRows(plan.brokerageContribs, age));
    SumAmountsNonNegative(ActiveRows(plan.retirementContribs, age));
  }

  /** With no withdrawals, non-negative contributions, a non-negative return
      and a non-negative start, the running balance never falls. */
  lemma {:induction false} BalanceNondecreasing(plan: Plan, n: nat)
    requires plan.withdrawals == []
    requires Roi(plan) >= 0.0 && plan.brokerageBalance + plan.retirementBalance >= 0.0
    requires forall r :: r in plan.brokerageContribs ==> r.amount >= 0.0
    requires forall r :: r in plan.retirementContribs ==> r.amount >= 0.0
    ensures 0.0 <= Balance(plan, n) <= Balance(plan, n + 1)
  {
    if n > 0 {
      BalanceNondecreasing(plan, n - 1);
    }
    var age := plan.currentAge + n;
    YearlyContribNonNegative(plan, age);
    var b, c := Balance(plan, n), YearlyContrib(plan, age);
    assert ActiveRows(plan.withdrawals, age) == [];
    assert YearlyWithdrawal(plan, n) == 0.0;
    assert Balance(plan, n + 1) == YearEnd(b, Roi(plan), c, 0.0);
    YearEndGrows(b, Roi(plan), c);
  }

  // ---------------------------------------------------------------------
  // Row editing

  /** The field an edit sets, with its new value. */
  datatype FieldUpdate =
    | SetId(newId: string)
    | SetStartAge(newStartAge: int)
    | SetEndAge(newEndAge: int)
    | SetAmount(newAmount: real)
    | SetCpiAdjust(newCpiAdjust: bool)
    | SetStartOfYear(newStartOfYear: bool)

  /** The row with one field replaced: the named field takes the new value
      and every other field keeps its old one. */
  function WithField(r: Row, u: FieldUpdate): (r': Row)
    ensures r'.id == (if u.SetId? then u.newId else r.id)
    ensures r'.startAge == (if u.SetStartAge? then u.newStartAge else r.startAge)
    ensures r'.endAge == (if u.SetEndAge? then u.newEndAge else r.endAge)
    ensures r'.amount == (if u.SetAmount? then u.newAmount else r.amount)
    ensures r'.cpiAdjust == (if u.SetCpiAdjust? then u.newCpiAdjust else r.cpiAdjust)
    ensures r'.startOfYear == (if u.SetStartOfYear? then u.newStartOfYear else r.startOfYear)
  {
    match u
    case SetId(v) => r.(id := v)
    case SetStartAge(v) => r.(startAge := v)
    case SetEndAge(v) => r.(endAge := v)
    case SetAmount(v) => r.(amount := v)
    case SetCpiAdjust(v) => r.(cpiAdjust := v)
    case SetStartOfYear(v) => r.(startOfYear := v)
  }

  /** The row a table's add button appends: the given id, the ages from the
      current age to the retirement age, no amount; a withdrawal row is
      CPI-adjusted and taken at the end of the year. */
  function NewRow(t: Table, id: string, currentAge: int, retireAge: int): (r: Row)
    ensures r.id == id && r.startAge == currentAge && r.endAge == retireAge && r.amount == 0.0
    ensures r.cpiAdjust <==> t == Withdrawals
    ensures !r.startOfYear
  {
    if t == Withdrawals then Row(id, currentAge, retireAge, 0.0, true, false)
    else Row(id, currentAge, retireAge, 0.0, false, false)
  }

  /** A new row adds nothing to any year's contributions or withdrawals
      until its amount is edited. */
  lemma NewRowAddsNothing(t: Table, rows: seq<Row>, id: string, currentAge: int, retireAge: int,
                          age: int, inf: real, yearIdx: nat)
    ensures SumAmounts(ActiveRows(rows + [NewRow(t, id, currentAge, retireAge)], age))
         == SumAmounts(ActiveRows(rows, age))
    ensures SumWithdrawals(ActiveRows(rows + [NewRow(t, id, currentAge, retireAge)], age), inf, yearIdx)
         == SumWithdrawals(ActiveRows(rows, age), inf, yearIdx)
  {
    var r := NewRow(t, id, currentAge, retireAge);
    ContributionWithRow(rows, r, age);
    WithdrawalWithRow(rows, r, age, inf, yearIdx);
  }

  /** The table without the rows carrying the given id: each row with that
      id disappears and every other row keeps its multiplicity. */
  function RemoveRows(rows: seq<Row>, id: string): seq<Row> {
    if rows == [] then []
    else RemoveRows(AllButLast(rows), id) + (if Last(rows).id != id then [Last(rows)] else [])
  }

  /** Removal drops every row with the id and keeps every other row as often
      as it occurred. */
  lemma {:induction false} RemoveRowsExact(rows: seq<Row>, id: string)
    ensures forall r :: multiset(RemoveRows(rows, id))[r] == if r.id == id then 0 else multiset(rows)[r]
    ensures forall r :: r in RemoveRows(rows, id) <==> r in rows && r.id != id
  {
    if rows != [] {
      assert rows == AllButLast(rows) + [Last(rows)];
      RemoveRowsExact(AllButLast(rows), id);
    }
  }

  /** Removal acts on each part of a table separately, so the rows that
      remain keep their order. */
  lemma {:induction false} RemoveRowsKeepsOrder(a: seq<Row>, b: seq<Row>, id: string)
    ensures RemoveRows(a + b, id) == RemoveRows(a, id) + RemoveRows(b, id)
  {
    if b == [] {
      assert a + b == a;
    } else {
      assert AllButLast(a + b) == a + AllButLast(b);
      assert Last(a + b) == Last(b);
      RemoveRowsKeepsOrder(a, AllButLast(b), id);
    }
  }

  /** Removing an id that no row carries leaves the table as it was. */
  lemma {:induction false} RemoveAbsentId(rows: seq<Row>, id: string)
    requires forall r :: r in rows ==> r.id != id
    ensures RemoveRows(rows, id) == rows
  {
    if rows != [] {
      assert rows == AllButLast(rows) + [Last(rows)];
      assert forall r :: r in AllButLast(rows) ==> r in rows;
      RemoveAbsentId(AllButLast(rows), id);
    }
  }

  /** The table with one field set on every row that carries the given id;
      rows with other ids are unchanged and the length is kept. */
  function UpdateRows(rows: seq<Row>, id: string, u: FieldUpdate): (rs: seq<Row>)
    ensures |rs| == |rows|
    ensures forall i :: 0 <= i < |rows| && rows[i].id != id ==> rs[i] == rows[i]
    ensures forall i :: 0 <= i < |rows| && rows[i].id == id ==> rs[i] == WithField(rows[i], u)
  {
    seq(|rows|, i requires 0 <= i < |rows| => if rows[i].id == id then WithField(rows[i], u) else rows[i])
  }

  /** Setting the same field value twice is the same as setting it once. */
  lemma UpdateRowsIdempotent(rows: seq<Row>, id: string, u: FieldUpdate)
    requires !u.SetId? || u.newId == id
    ensures UpdateRows(UpdateRows(rows, id, u), id, u) == UpdateRows(rows, id, u)
  {
  }

  /** Editing rows and then removing them is the same as removing them:
      an edit touches no row of another id. */
  lemma {:induction false} UpdateThenRemove(rows: seq<Row>, id: string, u: FieldUpdate)
    requires !u.SetId? || u.newId == id
    ensures RemoveRows(UpdateRows(rows, id, u), id) == RemoveRows(rows, id)
  {
    if rows != [] {
      var front := AllButLast(rows);
      var upd := UpdateRows(rows, id, u);
      assert AllButLast(upd) == UpdateRows(front, id, u);
      assert Last(upd).id == id <==> Last(rows).id == id;
      UpdateThenRemove(front, id, u);
    }
  }

  // ---------------------------------------------------------------------
  // The calculator's state

  /** The calculator's inputs, which its handlers replace. */
  class Calculator {
    var currentAge: int
    var retireAge: int
    var lifeExpectancy: int
    var brokerageBalance: real
    var retirementBalance: real
    var annualROI: real
    var inflationRate: real
    var withdrawals: seq<Row>
    var brokerageContribs: seq<Row>
    var retirementContribs: seq<Row>

    constructor ()
      ensures currentAge == 30 && retireAge == 45 && lifeExpectancy == 85
      ensures brokerageBalance == 1000000.0 && retirementBalance == 500000.0
      ensures annualROI == 8.0 && inflationRate == 2.5
      ensures withdrawals == [Row("w1", 45, 85, 600000.0, true, false)]
      ensures brokerageContribs == [Row("bc1", 30, 45, 300000.0, false, false)]
      ensures retirementContribs == [Row("rc1", 30, 45, 150000.0, false, false)]
    {
      currentAge, retireAge, lifeExpectancy := 30, 45, 85;
      brokerageBalance, retirementBalance := 1000000.0, 500000.0;
      annualROI, inflationRate := 8.0, 2.5;
      withdrawals := [Row("w1", 45, 85, 600000.0, true, false)];
      brokerageContribs := [Row("bc1", 30, 45, 300000.0, false, false)];
      retirementContribs := [Row("rc1", 30, 45, 150000.0, false, false)];
    }

    /** The inputs the projection is computed from. */
    function CurrentPlan(): Plan
      reads this
    {
      Plan(currentAge, retireAge, lifeExpectancy, brokerageBalance, retirementBalance,
           annualROI, inflationRate, withdrawals, brokerageContribs, retirementContribs)
    }

    /** The scalar inputs, which the row editors never change. */
    function Settings(): (int, int, int, real, real, real, real)
      reads this
    {
      (currentAge, retireAge, lifeExpectancy, brokerageBalance, retirementBalance, annualROI, inflationRate)
    }

    function Rows(t: Table): seq<Row>
      reads this
    {
      match t
      case Withdrawals => withdrawals
      case BrokerageContribs => brokerageContribs
      case RetirementContribs => retirementContribs
    }

    /** Appends a new row (with a caller-chosen id) to one table. */
    method AddRow(t: Table, id: string)
      modifies this
      ensures Rows(t) == old(Rows(t)) + [NewRow(t, id, currentAge, retireAge)]
      ensures forall t' :: t' != t ==> Rows(t') == old(Rows(t'))
      ensures Settings() == old(Settings())
    {
      var newRow := NewRow(t, id, currentAge, retireAge);
      match t
      case Withdrawals => withdrawals := withdrawals + [newRow];
      case BrokerageContribs => brokerageContribs := brokerageContribs + [newRow];
      case RetirementContribs => retirementContribs := retirementContribs + [newRow];
    }

    /** Drops the rows with the given id from one table. */
    method RemoveRow(t: Table, id: string)
      modifies this
      ensures Rows(t) == RemoveRows(old(Rows(t)), id)
      ensures forall t' :: t' != t ==> Rows(t') == old(Rows(t'))
      ensures Settings() == old(Settings())
    {
      match t
      case Withdrawals => withdrawals := RemoveRows(withdrawals, id);
      case BrokerageContribs => brokerageContribs := RemoveRows(brokerageContribs, id);
      case RetirementContribs => retirementContribs := RemoveRows(retirementContribs, id);
    }

    /** Sets one field of the rows with the given id in one table. */
    method UpdateRow(t: Table, id: string, u: FieldUpdate)
      modifies this
      ensures Rows(t) == UpdateRows(old(Rows(t)), id, u)
      ensures forall t' :: t' != t ==> Rows(t') == old(Rows(t'))
      ensures Settings() == old(Settings())
    {
      match t
      case Withdrawals => withdrawals := UpdateRows(withdrawals, id, u);
      case BrokerageContribs => brokerageContribs := UpdateRows(brokerageContribs, id, u);
      case RetirementContribs => retirementContribs := UpdateRows(retirementContribs, id, u);
    }

    /** The year-by-year projection of the calculator's current inputs. */
    method Calculate() returns (results: seq<YearResult>)
      ensures results == Projection(CurrentPlan())
    {
      results := Project(CurrentPlan());
    }
  }
}
