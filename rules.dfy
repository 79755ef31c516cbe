/** The scalar business rules of utils/helpers.py: the debt-to-income ratio with its
    zero-income guard, the loan-approval validator, the affordability rating and the
    choice of unit in format_currency. */
module Rules {
  import opened Optional

  // ---------------------------------------------------------------------------
  // Debt-to-income ratio

  /** A percentage that is either a finite number or the source's float('inf'). */
  datatype Ratio = Finite(percent: real) | Infinite

  /** The source's comparison `ratio > bound`; infinity exceeds every bound. */
  predicate Exceeds(r: Ratio, bound: real)
  {
    r.Infinite? || r.percent > bound
  }

  /** calculate_debt_to_income: debt as a percentage of income, infinite when income is zero. */
  function DebtToIncome(monthlyDebt: real, monthlyIncome: real): (r: Ratio)
    ensures r.Infinite? <==> monthlyIncome == 0.0
    ensures r.Finite? ==> r.percent * monthlyIncome == monthlyDebt * 100.0
  {
    if monthlyIncome == 0.0 then Infinite
    else Finite(monthlyDebt / monthlyIncome * 100.0)
  }

  /** The ratio depends only on the proportion of debt to income. */
  lemma DebtToIncomeScaleInvariant(monthlyDebt: real, monthlyIncome: real, k: real)
    requires k != 0.0
    ensures DebtToIncome(k * monthlyDebt, k * monthlyIncome) == DebtToIncome(monthlyDebt, monthlyIncome)
  {
    if monthlyIncome != 0.0 {
      var r1 := DebtToIncome(k * monthlyDebt, k * monthlyIncome);
      var r2 := DebtToIncome(monthlyDebt, monthlyIncome);
      assert r1.percent * k * monthlyIncome == k * monthlyDebt * 100.0;
      assert r2.percent * k * monthlyIncome == k * monthlyDebt * 100.0;
      assert (r1.percent - r2.percent) * (k * monthlyIncome) == 0.0;
    }
  }

  /** For a positive income, a larger debt gives a larger ratio and, for a non-negative debt,
      a larger income a smaller one. */
  lemma DebtToIncomeMonotone(d1: real, d2: real, i1: real, i2: real)
    requires 0.0 < i1 <= i2
    requires d1 <= d2
    ensures DebtToIncome(d1, i1).percent <= DebtToIncome(d2, i1).percent
    ensures 0.0 <= d1 ==> DebtToIncome(d1, i2).percent <= DebtToIncome(d1, i1).percent
  {
    assert d1 / i1 <= d2 / i1;
    if 0.0 <= d1 {
      assert d1 / i2 * i2 == d1 == d1 / i1 * i1;
      assert d1 / i2 <= d1 / i1;
    }
  }

  // ---------------------------------------------------------------------------
  // Loan-approval validator

  const DefaultExistingDebt: real := 0.0
  const DefaultTermMonths: int := 12
  /** The largest debt-to-income percentage that is approved. */
  const MaxDebtToIncome: real := 60.0
  /** The longest term, in months, that is approved. */
  const MaxTermMonths: int := 60

  /** Why a loan is rejected; DtiTooHigh carries the ratio the source reports with it. */
  datatype Rejection = DtiTooHigh(dti: Ratio) | AmountExceedsAnnualIncome | TermTooLong

  /** The dictionary validate_loan_parameters returns: "approved" is the discriminator. */
  datatype Decision = Approved(dti: real) | Rejected(reason: Rejection)

  function ReasonText(r: Rejection): string
  {
    match r
    case DtiTooHigh(_) => "Debt-to-income ratio too high"
    case AmountExceedsAnnualIncome => "Loan amount exceeds annual income"
    case TermTooLong => "Loan term too long"
  }

  function SuggestionText(r: Rejection): string
  {
    match r
    case DtiTooHigh(_) => "Reduce loan amount or increase income"
    case AmountExceedsAnnualIncome => "Reduce loan amount"
    case TermTooLong => "Maximum term is 60 months"
  }

  /** The monthly obligation the validator rates: existing debt plus an even share of the loan
      per month. The source divides by the term without a guard. */
  function MonthlyObligation(loanAmount: real, existingDebt: real, termMonths: int): real
    requires termMonths != 0
  {
    existingDebt + loanAmount / (termMonths as real)
  }

  /** validate_loan_parameters: three checks in order, the first that fails gives the reason. */
  function ValidateLoanParameters(loanAmount: real, income: real, existingDebt: real, termMonths: int): (d: Decision)
    requires termMonths != 0
    ensures var dti := DebtToIncome(MonthlyObligation(loanAmount, existingDebt, termMonths), income);
      && (d.Approved? <==> !Exceeds(dti, MaxDebtToIncome) && loanAmount <= income * 12.0 && termMonths <= MaxTermMonths)
      && (d == Rejected(DtiTooHigh(dti)) <==> Exceeds(dti, MaxDebtToIncome))
      && (d == Rejected(AmountExceedsAnnualIncome) <==> !Exceeds(dti, MaxDebtToIncome) && loanAmount > income * 12.0)
      && (d == Rejected(TermTooLong) <==>
            !Exceeds(dti, MaxDebtToIncome) && loanAmount <= income * 12.0 && termMonths > MaxTermMonths)
    ensures d.Approved? ==>
      && income != 0.0
      && d.dti <= MaxDebtToIncome
      && d.dti * income == MonthlyObligation(loanAmount, existingDebt, termMonths) * 100.0
  {
    var dti := DebtToIncome(MonthlyObligation(loanAmount, existingDebt, termMonths), income);
    if Exceeds(dti, MaxDebtToIncome) then Rejected(DtiTooHigh(dti))
    else if loanAmount > income * 12.0 then Rejected(AmountExceedsAnnualIncome)
    else if termMonths > MaxTermMonths then Rejected(TermTooLong)
    else Approved(dti.percent)
  }

  /** A rule of an ordered rule list: whether it fails and what it reports when it does. */
  datatype Rule = Rule(fails: bool, rejection: Rejection)

  /** Reference semantics of an ordered, short-circuit rule list: the first failing rule decides. */
  function FirstFailing(rules: seq<Rule>): Option<Rejection>
  {
    if rules == [] then None
    else if rules[0].fails then Some(rules[0].rejection)
    else FirstFailing(rules[1..])
  }

  /** FirstFailing reports rule i exactly when rule i fails and no earlier rule does,
      and reports nothing exactly when no rule fails. */
  lemma {:induction false} FirstFailingSpec(rules: seq<Rule>)
    ensures FirstFailing(rules).None? <==> forall j :: 0 <= j < |rules| ==> !rules[j].fails
    ensures FirstFailing(rules).Some? ==>
      exists i :: 0 <= i < |rules| && rules[i].fails && rules[i].rejection == FirstFailing(rules).value
        && forall j :: 0 <= j < i ==> !rules[j].fails
  {
    if rules != [] && !rules[0].fails {
      FirstFailingSpec(rules[1..]);
      assert forall j :: 1 <= j < |rules| ==> rules[j] == rules[1..][j - 1];
      if FirstFailing(rules).Some? {
        var i :| 0 <= i < |rules[1..]| && rules[1..][i].fails
          && rules[1..][i].rejection == FirstFailing(rules).value
          && forall j :: 0 <= j < i ==> !rules[1..][j].fails;
        assert rules[i + 1] == rules[1..][i];
        assert forall j :: 1 <= j < i + 1 ==> !rules[j].fails;
      }
    } else if rules != [] {
      assert rules[0].fails;
    }
  }

  /** The validator's checks, in the order the source tests them. */
  function LoanRules(loanAmount: real, income: real, existingDebt: real, termMonths: int): seq<Rule>
    requires termMonths != 0
  {
    var dti := DebtToIncome(MonthlyObligation(loanAmount, existingDebt, termMonths), income);
    [ Rule(Exceeds(dti, MaxDebtToIncome), DtiTooHigh(dti)),
      Rule(loanAmount > income * 12.0, AmountExceedsAnnualIncome),
      Rule(termMonths > MaxTermMonths, TermTooLong) ]
  }

  /** The validator rejects with the first failing rule of LoanRules and approves when none fails. */
  lemma ValidateIsFirstFailingRule(loanAmount: real, income: real, existingDebt: real, termMonths: int)
    requires termMonths != 0
    ensures var d := ValidateLoanParameters(loanAmount, income, existingDebt, termMonths);
      match FirstFailing(LoanRules(loanAmount, income, existingDebt, termMonths))
      case None => d.Approved?
      case Some(r) => d == Rejected(r)
  {
    var rules := LoanRules(loanAmount, income, existingDebt, termMonths);
    var rest1 := rules[1..];
    var rest2 := rest1[1..];
    assert rest2 == [rules[2]];
    assert rest2[1..] == [];
    assert FirstFailing(rest2) == if rules[2].fails then Some(rules[2].rejection) else None;
    assert FirstFailing(rest1) == if rules[1].fails then Some(rules[1].rejection) else FirstFailing(rest2);
  }

  /** With zero income the ratio is infinite, so the first check always rejects. */
  lemma ZeroIncomeRejected(loanAmount: real, existingDebt: real, termMonths: int)
    requires termMonths != 0
    ensures ValidateLoanParameters(loanAmount, 0.0, existingDebt, termMonths) == Rejected(DtiTooHigh(Infinite))
    ensures ReasonText(ValidateLoanParameters(loanAmount, 0.0, existingDebt, termMonths).reason)
      == "Debt-to-income ratio too high"
    ensures SuggestionText(ValidateLoanParameters(loanAmount, 0.0, existingDebt, termMonths).reason)
      == "Reduce loan amount or increase income"
  {
  }

  /** An approved application stays approved when the income rises, provided the income was
      positive and the monthly obligation is not negative. */
  lemma ApprovalMonotoneInIncome(loanAmount: real, income: real, income2: real, existingDebt: real, termMonths: int)
    requires termMonths != 0
    requires 0.0 < income <= income2
    requires 0.0 <= MonthlyObligation(loanAmount, existingDebt, termMonths)
    requires ValidateLoanParameters(loanAmount, income, existingDebt, termMonths).Approved?
    ensures ValidateLoanParameters(loanAmount, income2, existingDebt, termMonths).Approved?
  {
    var m := MonthlyObligation(loanAmount, existingDebt, termMonths);
    DebtToIncomeMonotone(m, m, income, income2);
  }

  /** Boundary examples of the validator: 2,000,000 over the default 12 months on 100,000 income
      is rejected for its ratio (about 166.7%); 100,000 over 72 months on 50,000 income passes the
      ratio and amount checks and is rejected for its term. */
  lemma ValidateExamples()
    ensures ValidateLoanParameters(2000000.0, 100000.0, DefaultExistingDebt, DefaultTermMonths).Rejected?
    ensures ReasonText(ValidateLoanParameters(2000000.0, 100000.0, DefaultExistingDebt, DefaultTermMonths).reason)
      == "Debt-to-income ratio too high"
    ensures ValidateLoanParameters(100000.0, 50000.0, DefaultExistingDebt, 72) == Rejected(TermTooLong)
    ensures SuggestionText(ValidateLoanParameters(100000.0, 50000.0, DefaultExistingDebt, 72).reason)
      == "Maximum term is 60 months"
  {
    assert DebtToIncome(MonthlyObligation(2000000.0, 0.0, 12), 100000.0).percent * 100000.0
      == MonthlyObligation(2000000.0, 0.0, 12) * 100.0;
    var p := DebtToIncome(MonthlyObligation(100000.0, 0.0, 72), 50000.0).percent;
    assert p * 50000.0 == 100000.0 / 72.0 * 100.0;
  }

  // ---------------------------------------------------------------------------
  // Affordability

  datatype Standing = Excellent | Good | Fair | Poor

  /** The dictionary calculate_affordability returns. */
  datatype Affordability = Affordability(disposableIncome: real, affordabilityRatio: real, status: Standing, color: string)

  /** The ratio used when nothing is left to pay from. */
  const FallbackRatio: real := 100.0

  function StandingRank(s: Standing): nat
  {
    match s
    case Excellent => 0
    case Good => 1
    case Fair => 2
    case Poor => 3
  }

  /** The colour that goes with each standing. */
  function StandingColor(s: Standing): string
  {
    match s
    case Excellent => "green"
    case Good => "blue"
    case Fair => "orange"
    case Poor => "red"
  }

  /** Recovers the standing from its colour: the inverse of StandingColor. */
  function StandingOfColor(c: string): Option<Standing>
  {
    if c == "green" then Some(Excellent)
    else if c == "blue" then Some(Good)
    else if c == "orange" then Some(Fair)
    else if c == "red" then Some(Poor)
    else None
  }

  /** calculate_affordability: the payment as a percentage of disposable income, rated on
      inclusive upper bounds 30, 50 and 70 compared in that order. */
  function CalculateAffordability(monthlyIncome: real, monthlyExpenses: real, proposedPayment: real): (a: Affordability)
    ensures a.disposableIncome == monthlyIncome - monthlyExpenses
    ensures a.disposableIncome <= 0.0 ==> a.affordabilityRatio == FallbackRatio && a.status == Poor
    ensures a.disposableIncome > 0.0 ==> a.affordabilityRatio * a.disposableIncome == proposedPayment * 100.0
    ensures a.status == Excellent <==> a.affordabilityRatio <= 30.0
    ensures a.status == Good <==> 30.0 < a.affordabilityRatio <= 50.0
    ensures a.status == Fair <==> 50.0 < a.affordabilityRatio <= 70.0
    ensures a.status == Poor <==> 70.0 < a.affordabilityRatio
    ensures StandingOfColor(a.color) == Some(a.status)
  {
    var disposable := monthlyIncome - monthlyExpenses;
    var ratio := if disposable > 0.0 then proposedPayment / disposable * 100.0 else 100.0;
    if ratio <= 30.0 then Affordability(disposable, ratio, Excellent, "green")
    else if ratio <= 50.0 then Affordability(disposable, ratio, Good, "blue")
    else if ratio <= 70.0 then Affordability(disposable, ratio, Fair, "orange")
    else Affordability(disposable, ratio, Poor, "red")
  }

  /** The colour of a result is the fixed colour of its standing, and different standings have
      different colours. */
  lemma AffordabilityColorPairing(monthlyIncome: real, monthlyExpenses: real, proposedPayment: real, s: Standing)
    ensures CalculateAffordability(monthlyIncome, monthlyExpenses, proposedPayment).color
      == StandingColor(CalculateAffordability(monthlyIncome, monthlyExpenses, proposedPayment).status)
    ensures StandingOfColor(StandingColor(s)) == Some(s)
  {
  }

  /** The rating without division: Excellent exactly when there is disposable income and the
      payment is at most 30% of it (likewise 50% for Good or better, 70% for Fair or better). */
  lemma AffordabilityByShareOfDisposable(monthlyIncome: real, monthlyExpenses: real, proposedPayment: real)
    ensures var a := CalculateAffordability(monthlyIncome, monthlyExpenses, proposedPayment);
      var d := monthlyIncome - monthlyExpenses;
      && (a.status == Excellent <==> d > 0.0 && proposedPayment * 100.0 <= 30.0 * d)
      && (StandingRank(a.status) <= 1 <==> d > 0.0 && proposedPayment * 100.0 <= 50.0 * d)
      && (StandingRank(a.status) <= 2 <==> d > 0.0 && proposedPayment * 100.0 <= 70.0 * d)
  {
    var a := CalculateAffordability(monthlyIncome, monthlyExpenses, proposedPayment);
    var d := monthlyIncome - monthlyExpenses;
    if d > 0.0 {
      var y := proposedPayment * 100.0;
      assert a.affordabilityRatio * d == y;
      ShareComparison(a.affordabilityRatio, d, y, 30.0);
      ShareComparison(a.affordabilityRatio, d, y, 50.0);
      ShareComparison(a.affordabilityRatio, d, y, 70.0);
    }
  }

  /** For a positive d, comparing x with a bound is comparing x * d with bound * d. */
  lemma ShareComparison(x: real, d: real, y: real, bound: real)
    requires d > 0.0
    requires x * d == y
    ensures x <= bound <==> y <= bound * d
  {
    if x <= bound {
      assert (bound - x) * d >= 0.0;
    } else {
      assert (x - bound) * d > 0.0;
    }
  }

  /** A larger proposed payment never gives a better standing. */
  lemma AffordabilityMonotoneInPayment(monthlyIncome: real, monthlyExpenses: real, p1: real, p2: real)
    requires p1 <= p2
    ensures StandingRank(CalculateAffordability(monthlyIncome, monthlyExpenses, p1).status)
      <= StandingRank(CalculateAffordability(monthlyIncome, monthlyExpenses, p2).status)
  {
    var d := monthlyIncome - monthlyExpenses;
    if d > 0.0 {
      var a1 := CalculateAffordability(monthlyIncome, monthlyExpenses, p1);
      var a2 := CalculateAffordability(monthlyIncome, monthlyExpenses, p2);
      assert a1.affordabilityRatio * d == p1 * 100.0 <= p2 * 100.0 == a2.affordabilityRatio * d;
      assert a1.affordabilityRatio <= a2.affordabilityRatio;
    }
  }

  // ---------------------------------------------------------------------------
  // Currency display

  const DefaultCurrency: string := "KES"

  /** The unit format_currency shows: millions, thousands or the plain amount. */
  datatype Tier = Millions | Thousands | Plain

  function Scale(t: Tier): real
  {
    match t
    case Millions => 1000000.0
    case Thousands => 1000.0
    case Plain => 1.0
  }

  /** What format_currency renders: the currency, the number before rounding, and the unit. */
  datatype Display = Display(currency: string, mantissa: real, tier: Tier)

  /** format_currency, up to the rendering of digits: the millions tier is chosen ahead of the
      thousands tier, both with inclusive lower bounds. */
  function FormatCurrency(amount: real, currency: string): (d: Display)
    ensures d.currency == currency
    ensures d.tier == Millions <==> 1000000.0 <= amount
    ensures d.tier == Thousands <==> 1000.0 <= amount < 1000000.0
    ensures d.tier == Plain <==> amount < 1000.0
    ensures d.mantissa * Scale(d.tier) == amount
  {
    if amount >= 1000000.0 then Display(currency, amount / 1000000.0, Millions)
    else if amount >= 1000.0 then Display(currency, amount / 1000.0, Thousands)
    else Display(currency, amount, Plain)
  }

  /** The chosen unit is the largest one not exceeding the amount, so the shown number is at
      least 1 in the M and K tiers and below 1000 in the K and plain tiers. */
  lemma FormatCurrencyPicksLargestUnit(amount: real, currency: string, t: Tier)
    ensures Scale(t) <= amount ==> Scale(t) <= Scale(FormatCurrency(amount, currency).tier)
    ensures var d := FormatCurrency(amount, currency);
      && (d.tier != Plain ==> 1.0 <= d.mantissa)
      && (d.tier != Millions ==> d.mantissa < 1000.0)
  {
    var d := FormatCurrency(amount, currency);
    if d.tier == Millions {
      assert d.mantissa * 1000000.0 == amount >= 1000000.0;
    } else if d.tier == Thousands {
      assert d.mantissa * 1000.0 == amount;
      assert 1000.0 <= amount < 1000000.0;
    }
  }

  /** Boundary examples of the tiers: 999 plain, 1500 as 1.5 K, 2500000 as 2.5 M. */
  lemma FormatCurrencyExamples()
    ensures FormatCurrency(999.0, DefaultCurrency) == Display("KES", 999.0, Plain)
    ensures FormatCurrency(1500.0, DefaultCurrency) == Display("KES", 1.5, Thousands)
    ensures FormatCurrency(2500000.0, DefaultCurrency) == Display("KES", 2.5, Millions)
  {
  }
}
