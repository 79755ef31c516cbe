/** generate_sample_borrowers and generate_sample_loans: loops that append one synthetic row
    per index. The random draws are inputs, one record per row, holding the values the
    source's numpy calls return in the order it makes them; the predicates ValidBorrowerDraw
    and ValidLoanDraw state the ranges those calls draw from (randint excludes its upper
    bound, uniform includes both). Weighted choices give a value of the category type and
    their weights are not modelled. */
module SampleData {
  import opened Optional
  import opened Risk
  import opened Records
  import Portfolio

  /** The number of rows `for i in range(count)` produces. */
  function RowCount(count: int): nat
  {
    if count < 0 then 0 else count
  }

  // ---------------------------------------------------------------------------
  // Borrowers

  /** The half-open monthly income range randint draws from for each band. */
  function IncomeFloor(b: IncomeBand): int
  {
    match b
    case LowIncome => 20000
    case MediumIncome => 50000
    case HighIncome => 150000
    case VeryHighIncome => 500000
  }

  function IncomeCeiling(b: IncomeBand): int
  {
    match b
    case LowIncome => 50000
    case MediumIncome => 150000
    case HighIncome => 500000
    case VeryHighIncome => 1000000
  }

  /** The values drawn for one borrower. All four incomes are drawn, because the source
      builds the whole band-to-income dictionary before it looks up the chosen band. */
  datatype BorrowerDraw = BorrowerDraw(
    incomeBand: IncomeBand,
    lowIncome: int,
    mediumIncome: int,
    highIncome: int,
    veryHighIncome: int,
    phoneDigits: int,
    segment: Segment,
    employmentType: EmploymentType,
    region: Region,
    creditScore: int)

  predicate ValidBorrowerDraw(d: BorrowerDraw)
  {
    && 20000 <= d.lowIncome < 50000
    && 50000 <= d.mediumIncome < 150000
    && 150000 <= d.highIncome < 500000
    && 500000 <= d.veryHighIncome < 1000000
    && 10000000 <= d.phoneDigits < 99999999
    && 300 <= d.creditScore < 850
  }

  /** The income drawn for the chosen band. */
  function DrawnIncome(d: BorrowerDraw): int
  {
    match d.incomeBand
    case LowIncome => d.lowIncome
    case MediumIncome => d.mediumIncome
    case HighIncome => d.highIncome
    case VeryHighIncome => d.veryHighIncome
  }

  /** The row appended at loop index i (borrower number i + 1). */
  function BorrowerRow(i: nat, d: BorrowerDraw): (b: Borrower)
    ensures b.borrowerId == i + 1
    ensures ValidBorrowerDraw(d) ==>
      && IncomeFloor(b.incomeBand) <= b.monthlyIncome < IncomeCeiling(b.incomeBand)
      && 300 <= b.creditScore <= 849
      && 10000000 <= b.phoneDigits < 99999999
  {
    Borrower(i + 1, d.phoneDigits, d.segment, d.employmentType, d.incomeBand,
             DrawnIncome(d), d.region, d.creditScore)
  }

  /** The band whose range holds an income, if any. */
  function BandOfIncome(income: int): Option<IncomeBand>
  {
    if 20000 <= income < 50000 then Some(LowIncome)
    else if 50000 <= income < 150000 then Some(MediumIncome)
    else if 150000 <= income < 500000 then Some(HighIncome)
    else if 500000 <= income < 1000000 then Some(VeryHighIncome)
    else None
  }

  /** The bands' ranges do not overlap, so a row's income determines its band. */
  lemma IncomeDeterminesBand(b: IncomeBand, income: int)
    requires IncomeFloor(b) <= income < IncomeCeiling(b)
    ensures BandOfIncome(income) == Some(b)
  {
  }

  /** Rows that a run of generate_sample_borrowers over these draws holds: one per draw,
      numbered from 1, each within its band's income range. */
  predicate BorrowerTable(rows: seq<Borrower>, draws: seq<BorrowerDraw>)
  {
    && |rows| == |draws|
    && (forall k :: 0 <= k < |rows| ==> rows[k] == BorrowerRow(k, draws[k]))
  }

  /** generate_sample_borrowers. */
  method GenerateSampleBorrowers(count: int, draws: seq<BorrowerDraw>) returns (borrowers: seq<Borrower>)
    requires |draws| == RowCount(count)
    requires forall k :: 0 <= k < |draws| ==> ValidBorrowerDraw(draws[k])
    ensures |borrowers| == RowCount(count)
    ensures BorrowerTable(borrowers, draws)
    ensures forall k :: 0 <= k < |borrowers| ==> borrowers[k].borrowerId == k + 1
    ensures forall k :: 0 <= k < |borrowers| ==>
      IncomeFloor(borrowers[k].incomeBand) <= borrowers[k].monthlyIncome < IncomeCeiling(borrowers[k].incomeBand)
    ensures forall k :: 0 <= k < |borrowers| ==> 300 <= borrowers[k].creditScore <= 849
  {
    borrowers := [];
    var i := 0;
    while i < count
      invariant 0 <= i <= RowCount(count)
      invariant |borrowers| == i
      invariant forall k :: 0 <= k < i ==> borrowers[k] == BorrowerRow(k, draws[k])
    {
      var d := draws[i];
      var baseIncome := DrawnIncome(d);
      borrowers := borrowers + [Borrower(i + 1, d.phoneDigits, d.segment, d.employmentType,
                                         d.incomeBand, baseIncome, d.region, d.creditScore)];
      i := i + 1;
    }
    forall k | 0 <= k < |borrowers|
      ensures IncomeFloor(borrowers[k].incomeBand) <= borrowers[k].monthlyIncome < IncomeCeiling(borrowers[k].incomeBand)
      ensures 300 <= borrowers[k].creditScore <= 849
    {
      assert ValidBorrowerDraw(draws[k]);
    }
  }

  /** Borrower numbers in a generated table are distinct. */
  lemma BorrowerIdsDistinct(rows: seq<Borrower>, draws: seq<BorrowerDraw>)
    requires BorrowerTable(rows, draws)
    ensures forall j, k :: 0 <= j < k < |rows| ==> rows[j].borrowerId != rows[k].borrowerId
  {
    forall j, k | 0 <= j < k < |rows| ensures rows[j].borrowerId != rows[k].borrowerId {
      assert rows[j] == BorrowerRow(j, draws[j]) && rows[k] == BorrowerRow(k, draws[k]);
    }
  }

  // ---------------------------------------------------------------------------
  // Loans

  /** The values drawn for one loan. `daysPastDue` is used only when the status is
      Delinquent or Restructured, the only case in which the source draws it. */
  datatype LoanDraw = LoanDraw(
    loanAmount: real,
    status: LoanStatus,
    borrowerId: int,
    productType: Product,
    balanceFraction: real,
    interestRate: real,
    termMonths: int,
    daysPastDue: int,
    riskBand: RiskBand,
    collateralFraction: real)

  predicate ValidLoanDraw(d: LoanDraw)
  {
    && 50000.0 <= d.loanAmount <= 5000000.0
    && 1 <= d.borrowerId < 101
    && 0.1 <= d.balanceFraction <= 1.0
    && 8.0 <= d.interestRate <= 25.0
    && d.termMonths in Terms
    && 0 <= d.daysPastDue < 120
    && 0.5 <= d.collateralFraction <= 1.5
  }

  /** What every generated loan row satisfies. */
  predicate WellFormedLoan(l: Loan)
  {
    && 50000.0 <= l.loanAmount <= 5000000.0
    && 0.1 * l.loanAmount <= l.outstandingBalance <= l.loanAmount
    && 0.5 * l.loanAmount <= l.collateralValue <= 1.5 * l.loanAmount
    && 8.0 <= l.interestRate <= 25.0
    && l.termMonths in Terms
    && 1 <= l.borrowerId <= 100
    && 0 <= l.daysPastDue <= 119
    && (!InArrearsStatus(l.status) ==> l.daysPastDue == 0)
  }

  /** The row appended at loop index i (loan number i + 1). Days past due are recorded only
      for a delinquent or restructured loan. */
  function LoanRow(i: nat, d: LoanDraw): (l: Loan)
    ensures l.loanId == i + 1
    ensures l.daysPastDue != 0 ==> InArrearsStatus(l.status)
  {
    Loan(i + 1, d.borrowerId, d.productType, d.loanAmount,
         d.loanAmount * d.balanceFraction, d.interestRate, d.termMonths,
         if d.status == Delinquent || d.status == Restructured then d.daysPastDue else 0,
         d.status, d.riskBand, d.loanAmount * d.collateralFraction)
  }

  /** A row built from in-range draws is well formed: its balance is between a tenth of the
      amount and the amount, its collateral between half and one and a half times it, and so on. */
  lemma LoanRowWellFormed(i: nat, d: LoanDraw)
    requires ValidLoanDraw(d)
    ensures WellFormedLoan(LoanRow(i, d))
  {
    var l := LoanRow(i, d);
    ScaledWithin(l.loanAmount, d.balanceFraction, 0.1, 1.0, l.outstandingBalance);
    ScaledWithin(l.loanAmount, d.collateralFraction, 0.5, 1.5, l.collateralValue);
  }

  /** For a non-negative amount, a product of it with a fraction within [lo, hi] lies within
      [lo, hi] times the amount. */
  lemma ScaledWithin(amount: real, f: real, lo: real, hi: real, product: real)
    requires 0.0 <= amount && lo <= f <= hi
    requires product == amount * f
    ensures lo * amount <= product <= hi * amount
  {
    assert product - lo * amount == amount * (f - lo) >= 0.0;
    assert hi * amount - product == amount * (hi - f) >= 0.0;
  }

  predicate LoanTable(rows: seq<Loan>, draws: seq<LoanDraw>)
  {
    && |rows| == |draws|
    && (forall k :: 0 <= k < |rows| ==> rows[k] == LoanRow(k, draws[k]))
  }

  /** generate_sample_loans. */
  method GenerateSampleLoans(count: int, draws: seq<LoanDraw>) returns (loans: seq<Loan>)
    requires |draws| == RowCount(count)
    requires forall k :: 0 <= k < |draws| ==> ValidLoanDraw(draws[k])
    ensures |loans| == RowCount(count)
    ensures LoanTable(loans, draws)
    ensures forall k :: 0 <= k < |loans| ==> loans[k].loanId == k + 1 && WellFormedLoan(loans[k])
  {
    loans := [];
    var i := 0;
    while i < count
      invariant 0 <= i <= RowCount(count)
      invariant |loans| == i
      invariant forall k :: 0 <= k < i ==> loans[k] == LoanRow(k, draws[k])
    {
      var d := draws[i];
      var loanAmount := d.loanAmount;
      var status := d.status;
      var daysPastDue := if status == Delinquent || status == Restructured then d.daysPastDue else 0;
      loans := loans + [Loan(i + 1, d.borrowerId, d.productType, loanAmount,
                             loanAmount * d.balanceFraction, d.interestRate, d.termMonths,
                             daysPastDue, status, d.riskBand, loanAmount * d.collateralFraction)];
      i := i + 1;
    }
    forall k | 0 <= k < |loans| ensures loans[k].loanId == k + 1 && WellFormedLoan(loans[k]) {
      LoanRowWellFormed(k, draws[k]);
    }
  }

  /** Loan numbers in a generated table are distinct and run from 1 to the row count. */
  lemma LoanIdsDistinct(rows: seq<Loan>, draws: seq<LoanDraw>)
    requires LoanTable(rows, draws)
    ensures forall k :: 0 <= k < |rows| ==> 1 <= rows[k].loanId <= |rows|
    ensures forall j, k :: 0 <= j < k < |rows| ==> rows[j].loanId != rows[k].loanId
  {
    forall j, k | 0 <= j < k < |rows| ensures rows[j].loanId != rows[k].loanId {
      assert rows[j] == LoanRow(j, draws[j]) && rows[k] == LoanRow(k, draws[k]);
    }
    forall k | 0 <= k < |rows| ensures 1 <= rows[k].loanId <= |rows| {
      assert rows[k] == LoanRow(k, draws[k]);
    }
  }

  /** In a generated loan table every non-performing loan is delinquent or restructured, and
      the outstanding total is non-negative and at most the total lent. */
  lemma GeneratedPortfolioFacts(rows: seq<Loan>, draws: seq<LoanDraw>)
    requires LoanTable(rows, draws)
    requires forall k :: 0 <= k < |draws| ==> ValidLoanDraw(draws[k])
    ensures forall l :: l in Portfolio.NonPerforming(rows) ==> InArrearsStatus(l.status)
    ensures 0.0 <= Portfolio.TotalOutstanding(rows) <= Portfolio.TotalAmount(rows)
  {
    forall k | 0 <= k < |rows|
      ensures 0.0 <= rows[k].outstandingBalance <= rows[k].loanAmount
      ensures rows[k].daysPastDue == 0 || InArrearsStatus(rows[k].status)
    {
      LoanRowWellFormed(k, draws[k]);
    }
    Portfolio.NonPerformingAreInArrears(rows);
    Portfolio.OutstandingWithinLent(rows);
  }
}
