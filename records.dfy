/** The rows of the two synthetic tables utils/helpers.py builds: borrowers and loans,
    with the fixed category lists their columns draw from. Identifiers are kept as
    their number (BORR007 is borrower 7, LOAN012 is loan 12). */
module Records {
  import opened Risk

  datatype Segment = Sme | Consumer | Agriculture | Corporate
  datatype EmploymentType = Salaried | BusinessOwner | SelfEmployed | Contractor
  datatype IncomeBand = LowIncome | MediumIncome | HighIncome | VeryHighIncome
  datatype Region = Nairobi | Coast | Central | RiftValley | Western | Eastern

  datatype Product = PersonalLoan | BusinessLoan | Mortgage | AutoLoan | SmeCredit | EmergencyLoan
  datatype LoanStatus = Active | Delinquent | Restructured | Closed | WrittenOff

  /** The six products, each once. */
  const AllProducts: seq<Product> := [PersonalLoan, BusinessLoan, Mortgage, AutoLoan, SmeCredit, EmergencyLoan]

  /** The terms, in months, a generated loan can have. */
  const Terms: set<int> := {12, 24, 36, 48, 60}

  /** A borrower row. The first and last names and the e-mail address are derived from the
      borrower number alone and are not kept; the phone number is kept as its eight drawn digits. */
  datatype Borrower = Borrower(
    borrowerId: int,
    phoneDigits: int,
    segment: Segment,
    employmentType: EmploymentType,
    incomeBand: IncomeBand,
    monthlyIncome: int,
    region: Region,
    creditScore: int)

  /** A loan row. `borrowerId` is the number of the referenced borrower. */
  datatype Loan = Loan(
    loanId: int,
    borrowerId: int,
    productType: Product,
    loanAmount: real,
    outstandingBalance: real,
    interestRate: real,
    termMonths: int,
    daysPastDue: int,
    status: LoanStatus,
    riskBand: RiskBand,
    collateralValue: real)

  /** Only these two statuses carry days past due. */
  predicate InArrearsStatus(s: LoanStatus)
  {
    s == Delinquent || s == Restructured
  }
}
