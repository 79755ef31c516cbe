# SmartCredit helpers, modelled in Dafny

SmartCredit is a demonstration dashboard for a bank's credit-risk platform. The logic modelled
here is the helper module `utils/helpers.py`: fixed-threshold business rules (risk band of a score,
debt-to-income ratio with a zero-income guard, a loan-approval validator whose checks
short-circuit in order, an affordability rating, the colour of a risk band, the unit chosen
to display an amount), an aggregator that summarises a loan table (totals, the count and
ratio of non-performing loans, frequency tables of risk band and product), and two loops that
generate synthetic borrower and loan tables.

This project models that module in Dafny and proves its contracts:

- `optional.dfy` (module `Optional`): an option type, used for NaN and missing lookups.
- `risk.dfy` (module `Risk`): risk bands, `calculate_risk_band` and `get_risk_color`.
- `rules.dfy` (module `Rules`): `calculate_debt_to_income`, `validate_loan_parameters`,
  `calculate_affordability` and the tier choice of `format_currency`.
- `counting.dfy` (module `Counting`): frequency tables (pandas `value_counts().to_dict()`)
  and the lemma that their counts add up to the number of rows.
- `records.dfy` (module `Records`): the borrower and loan rows and their category types.
- `portfolio.dfy` (module `Portfolio`): `generate_portfolio_summary`.
- `sample_data.dfy` (module `SampleData`): `generate_sample_borrowers` and
  `generate_sample_loans` as methods with loops.

Amounts are `real`, so float rounding never enters. The division by a zero income returns
`Ratio.Infinite`, the model of `float('inf')`, and `Exceeds` is the comparison `> bound` under
which infinity exceeds every bound. Result dictionaries are datatypes: `Decision`
(`Approved` carries the ratio, `Rejected` the `Rejection`, whose `ReasonText` and
`SuggestionText` are the source's strings), `Affordability`, `Display`, `Summary`. A loan table is
a `seq<Loan>`. The random draws of the generators are inputs: one record per row, holding the
values the numpy calls return, in the order the source makes them. `ValidBorrowerDraw` and
`ValidLoanDraw` state the ranges the calls draw from; `randint` excludes its upper bound, and
`uniform` may return either end. Identifiers are kept as their number: `LOAN007` is loan 7.

Edge cases of the code that the model keeps:

- A score of 79.9 is High, because the code tests `score >= 60` before `score >= 40`
  (`Risk.RiskBandExamples`).
- `randint(300, 850)` excludes 850, so credit scores lie in [300, 849].
- `range(count)` is empty for a non-positive count, so the generators then return an empty
  table (`SampleData.RowCount`).

## Model

| member | source | states |
|---|---|---|
| `Risk.CalculateRiskBand` | utils/helpers.py:68-77 | Critical iff score >= 80, High iff 60 <= score < 80, Medium iff 40 <= score < 60, Low iff score < 40 |
| `Risk.RiskBandMonotone` | utils/helpers.py:68-77 | a higher score never gives a lower band |
| `Risk.LowerBoundsInclusive` | utils/helpers.py:68-77 | each band's lower bound (40, 60, 80) is in that band and every smaller score is in a lower band |
| `Risk.RiskBandExamples` | utils/helpers.py:68-77 | boundary examples: 80 is Critical, 79.9 is High, 40 is Medium, 39.9 is Low |
| `Risk.RiskColor` | utils/helpers.py:124-132 | each of the four band names gets its fixed colour code; any other name gets #6c757d |
| `Risk.BandColorsDistinct` | utils/helpers.py:124-132 | the four band colours are pairwise distinct, none is the default, and the colour identifies its band |
| `Risk.UnknownNameGetsDefault` | utils/helpers.py:124-132 | a name that is no band's name gets the default colour, which identifies no band |
| `Rules.DebtToIncome` | utils/helpers.py:88-92 | infinite exactly when income is zero; otherwise ratio times income equals 100 times debt |
| `Rules.DebtToIncomeScaleInvariant` | utils/helpers.py:88-92 | scaling debt and income by the same non-zero factor leaves the ratio unchanged |
| `Rules.DebtToIncomeMonotone` | utils/helpers.py:88-92 | for positive income the ratio grows with debt and, for non-negative debt, shrinks as income grows |
| `Rules.ValidateLoanParameters` | utils/helpers.py:94-122 | with DTI the ratio of `MonthlyObligation` (existing debt plus amount / term, line 96) to income, and `Exceeds` the `> 60` test under which infinity exceeds every bound: approved iff DTI <= 60, amount <= 12 x income and term <= 60; each rejection reason holds iff its check fails and all earlier checks pass; an approval implies non-zero income, DTI <= 60 and the reported DTI times income is 100 times the monthly obligation |
| `Rules.FirstFailingSpec` | utils/helpers.py:98-117 | an ordered rule list reports nothing iff no rule fails, and otherwise a failing rule none of whose predecessors fails |
| `Rules.ValidateIsFirstFailingRule` | utils/helpers.py:94-122 | the validator equals the first-failing-rule reading of its three checks in source order |
| `Rules.ZeroIncomeRejected` | utils/helpers.py:88-104 | with zero income every call is rejected with an infinite ratio; `ReasonText` gives "Debt-to-income ratio too high" and `SuggestionText` "Reduce loan amount or increase income" (lines 101-103) |
| `Rules.ApprovalMonotoneInIncome` | utils/helpers.py:94-122 | an approval with positive income and non-negative obligation stays an approval when income rises |
| `Rules.ValidateExamples` | utils/helpers.py:94-122 | boundary examples with the default existing debt 0: 2,000,000 over the default 12 months on 100,000 income is rejected for DTI; 100,000 over 72 months on 50,000 income is rejected for the term, with the suggestion "Maximum term is 60 months" (line 115) |
| `Rules.CalculateAffordability` | utils/helpers.py:134-157 | disposable is income minus expenses; with no disposable income the ratio is 100 and the status Poor, otherwise ratio times disposable is 100 times the payment; Excellent/Good/Fair/Poor on inclusive upper bounds 30/50/70; the colour decodes to the status |
| `Rules.AffordabilityColorPairing` | utils/helpers.py:139-151 | the colour is the fixed colour of the status (green, blue, orange, red) and different statuses have different colours |
| `Rules.AffordabilityByShareOfDisposable` | utils/helpers.py:136-150 | Excellent iff there is disposable income and the payment is at most 30% of it; at least Good iff at most 50%; at least Fair iff at most 70% |
| `Rules.AffordabilityMonotoneInPayment` | utils/helpers.py:136-150 | a larger payment never gives a better status |
| `Rules.FormatCurrency` | utils/helpers.py:79-86 | M tier iff amount >= 1,000,000, K tier iff 1,000 <= amount < 1,000,000, plain otherwise; the shown number times the unit is the amount |
| `Rules.FormatCurrencyPicksLargestUnit` | utils/helpers.py:79-86 | the chosen unit is the largest one not above the amount; the shown number is at least 1 in the M and K tiers and below 1000 in the K and plain tiers |
| `Rules.FormatCurrencyExamples` | utils/helpers.py:79-86 | boundary examples: 999 is shown plain, 1500 as 1.5 K, 2,500,000 as 2.5 M, all in KES |
| `Counting.ValueCounts` | utils/helpers.py:168-177 | a value is a key iff it occurs in the column, and its count is its positive number of occurrences |
| `Counting.CountsSumToLength` | utils/helpers.py:168-177 | over a complete list of distinct keys the counts add up to the number of rows |
| `Portfolio.NonPerforming` | utils/helpers.py:165 | the filtered table has at most as many rows as the table |
| `Portfolio.NonPerformingIsFilter` | utils/helpers.py:165 | every loan more than 90 days past due is kept with its multiplicity, and no other loan |
| `Portfolio.NplRatio` | utils/helpers.py:166 | in [0, 100]; 0 for an empty table; otherwise ratio times the row count is 100 times the NPL count |
| `Portfolio.Mean` | utils/helpers.py:163 | missing (NaN) exactly for an empty table; otherwise the mean times the row count is the total |
| `Portfolio.RiskDistribution` | utils/helpers.py:168 | a band is a key iff some loan has it, its count is its number of loans, and the counts over the four bands sum to the row count |
| `Portfolio.ProductDistribution` | utils/helpers.py:177 | a product is a key iff some loan has it, its count is its number of loans, and the counts over the six products sum to the row count |
| `Portfolio.GeneratePortfolioSummary` | utils/helpers.py:159-178 | total rows; total outstanding is `TotalOutstanding`, the recursive sum of balances (the `.sum()` of line 162); NPL count is the number of loans over 90 days past due and at most the total; NPL ratio in [0, 100] and 0 for an empty table; the two distributions are `RiskDistribution` and `ProductDistribution` of the table, so each key's count is its number of loans, and each sums to the total |
| `Portfolio.EmptyPortfolioSummary` | utils/helpers.py:159-178 | the empty table gives zero loans, zero NPL count and ratio, zero outstanding and empty distributions |
| `Portfolio.NonPerformingAppend` | utils/helpers.py:165 | the NPL rows of a concatenation are those of each part, in order |
| `Portfolio.TotalOutstandingAppend` | utils/helpers.py:162 | the outstanding total of a concatenation is the sum of the parts' totals |
| `Portfolio.OutstandingWithinLent` | utils/helpers.py:162 | when each balance lies between 0 and its loan amount, the outstanding total lies between 0 and the total lent |
| `Portfolio.NonPerformingAreInArrears` | utils/helpers.py:165 | if only delinquent or restructured rows have days past due, every NPL row is delinquent or restructured |
| `SampleData.BorrowerRow` | utils/helpers.py:14-36 | row i is borrower i + 1; from in-range draws its income lies in its band's half-open range, its credit score in [300, 849] and its phone digits in range |
| `SampleData.IncomeDeterminesBand` | utils/helpers.py:15-21 | the four income ranges do not overlap, so an income in a band's range identifies the band |
| `SampleData.GenerateSampleBorrowers` | utils/helpers.py:6-38 | `RowCount(count)` rows, as many as `range(count)` yields (none for a non-positive count), one per draw; row k is BorrowerRow(k, draw k): borrower k + 1, income within its band's range, credit score in [300, 849] |
| `SampleData.BorrowerIdsDistinct` | utils/helpers.py:24 | the borrower numbers of a generated table are distinct |
| `SampleData.LoanRow` | utils/helpers.py:47-64 | row i is loan i + 1, and days past due are non-zero only for a delinquent or restructured loan |
| `SampleData.LoanRowWellFormed` | utils/helpers.py:47-64 | from in-range draws: 0.1 x amount <= balance <= amount, 0.5 x amount <= collateral <= 1.5 x amount, borrower in 1..100, days past due in [0, 119] and 0 unless delinquent or restructured, term in {12, 24, 36, 48, 60} |
| `SampleData.GenerateSampleLoans` | utils/helpers.py:40-66 | `RowCount(count)` rows, as many as `range(count)` yields (none for a non-positive count), one per draw; row k is LoanRow(k, draw k), numbered k + 1 and well formed |
| `SampleData.LoanIdsDistinct` | utils/helpers.py:52 | the loan numbers of a generated table run over 1..n and are distinct |
| `SampleData.GeneratedPortfolioFacts` | utils/helpers.py:56-59 | in a generated table every NPL loan is delinquent or restructured, and the outstanding total lies between 0 and the total lent |

## Left out

- Timestamps: `registration_date` and `origination_date` read the wall clock, so they and
  their day-count draws are not modelled.
- The first and last names, e-mail address and zero-padded `BORR`/`LOAN` identifiers are
  strings built from the row number alone; the model keeps the number. The phone number is
  kept as its eight drawn digits, without the `+2547` prefix.
- The weights of the weighted choices (status, risk band) and all probability distributions:
  a draw is any value of the category type.
- Rendering of digits: the `:.2f`, `:.1f` and `:,.0f` formats of `format_currency` and the
  `dti_ratio` strings of `validate_loan_parameters`. The model keeps the number before
  rounding; rounding such as 999,999 shown as 1000.0K is therefore not captured.
- `Rules.ValidateLoanParameters`: requires a non-zero term, because the source divides by the
  term unguarded and raises an exception for zero.
- `Portfolio.GeneratePortfolioSummary`: the NPL ratio and the average are stated as the
  values of `Portfolio.NplRatio` and `Portfolio.Mean`, whose contracts carry the identities
  ratio x rows = 100 x NPL count and average x rows = total.
- The dictionary order of `value_counts().to_dict()` (by frequency) is not modelled; the
  model's frequency tables are maps.
- DataFrame construction and IEEE float behaviour (NaN, infinities other than the zero-income
  ratio, rounding).
- `create_sample_npl_trend` returns constant demo data.
- `main.py` is page layout and rendering; `utils/__init__.py` only re-exports names and
  prints a message on import.
- The `Pages/` scripts do not call `utils/helpers.py`; some compute their own demo figures
  inline (a risk score and band at `Pages/2_🔍_Risk_Analysis.py:35-50`, an affordability
  rating at `Pages/3_🔄_Restructuring.py:53-62`), with thresholds different from the
  helpers'. These are not modelled.
- For a non-positive count the source's generators return `pd.DataFrame([])`, a table without
  columns, and `generate_portfolio_summary` on it raises `KeyError` at
  `loans_df['outstanding_balance']`. The model's generators return the empty sequence, whose
  summary is all zeros; only an empty table that has the columns gives that summary in the
  source. The missing columns and the `KeyError` are not modelled.
- The approval's fixed `message` string ("Loan parameters are acceptable") and the `M`/`K`
  suffix characters of `format_currency` are rendering and are not modelled.
- Loans reference borrower numbers 1..100 whatever the number of generated borrowers; the
  model keeps this and adds no link between the two tables.
