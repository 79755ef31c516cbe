/** generate_portfolio_summary: aggregates over a loan table. */
module Portfolio {
  import opened Optional
  import opened Risk
  import opened Records
  import opened Counting

  /** A loan is non-performing when it is more than 90 days past due. */
  const NplThresholdDays: int := 90

  predicate IsNonPerforming(l: Loan)
  {
    l.daysPastDue > NplThresholdDays
  }

  /** The dictionary generate_portfolio_summary returns. `averageLoanSize` is None for an
      empty table, where the source's mean is NaN. */
  datatype Summary = Summary(
    totalLoans: nat,
    totalOutstanding: real,
    averageLoanSize: Option<real>,
    nplRatio: real,
    nplCount: nat,
    riskDistribution: map<RiskBand, nat>,
    productDistribution: map<Product, nat>)

  /** The rows that are non-performing, in table order. */
  function NonPerforming(loans: seq<Loan>): (npl: seq<Loan>)
    ensures |npl| <= |loans|
  {
    if loans == [] then []
    else
      var rest := NonPerforming(loans[1..]);
      if IsNonPerforming(loans[0]) then [loans[0]] + rest else rest
  }

  /** The non-performing rows are exactly the rows more than 90 days past due, each with its
      multiplicity in the table: the filter keeps every such row and nothing else. */
  lemma {:induction false} NonPerformingIsFilter(loans: seq<Loan>, l: Loan)
    ensures multiset(NonPerforming(loans))[l] == if IsNonPerforming(l) then multiset(loans)[l] else 0
  {
    if loans != [] {
      assert loans == [loans[0]] + loans[1..];
      assert multiset(loans) == multiset{loans[0]} + multiset(loans[1..]);
      NonPerformingIsFilter(loans[1..], l);
    }
  }

  /** The sum of the outstanding balances. */
  function TotalOutstanding(loans: seq<Loan>): real
  {
    if loans == [] then 0.0 else loans[0].outstandingBalance + TotalOutstanding(loans[1..])
  }

  /** The sum of the loan amounts. */
  function TotalAmount(loans: seq<Loan>): real
  {
    if loans == [] then 0.0 else loans[0].loanAmount + TotalAmount(loans[1..])
  }

  function RiskBandColumn(loans: seq<Loan>): (col: seq<RiskBand>)
    ensures |col| == |loans| && forall i :: 0 <= i < |loans| ==> col[i] == loans[i].riskBand
  {
    seq(|loans|, i requires 0 <= i < |loans| => loans[i].riskBand)
  }

  function ProductColumn(loans: seq<Loan>): (col: seq<Product>)
    ensures |col| == |loans| && forall i :: 0 <= i < |loans| ==> col[i] == loans[i].productType
  {
    seq(|loans|, i requires 0 <= i < |loans| => loans[i].productType)
  }

  /** The NPL ratio: non-performing rows as a percentage of all rows, 0 for an empty table. */
  function NplRatio(nplCount: nat, totalLoans: nat): (r: real)
    requires nplCount <= totalLoans
    ensures 0.0 <= r <= 100.0
    ensures totalLoans == 0 ==> r == 0.0
    ensures totalLoans > 0 ==> r * (totalLoans as real) == (nplCount as real) * 100.0
  {
    RatioBounds(nplCount, totalLoans);
    if totalLoans > 0 then (nplCount as real) / (totalLoans as real) * 100.0 else 0.0
  }

  /** The mean balance; None (the source's NaN) for an empty table. */
  function Mean(total: real, count: nat): (m: Option<real>)
    ensures m.None? <==> count == 0
    ensures m.Some? ==> m.value * (count as real) == total
  {
    if count > 0 then Some(total / (count as real)) else None
  }

  /** value_counts of the risk_band column. */
  function RiskDistribution(loans: seq<Loan>): (m: map<RiskBand, nat>)
    ensures SumOver(m, AllBands) == |loans|
    ensures forall b :: b in m ==> m[b] == multiset(RiskBandColumn(loans))[b]
    ensures forall b :: b in m <==> exists i :: 0 <= i < |loans| && loans[i].riskBand == b
  {
    var col := RiskBandColumn(loans);
    BandsAreComplete(col);
    CountsSumToLength(col, AllBands);
    ValueCounts(col)
  }

  /** value_counts of the product_type column. */
  function ProductDistribution(loans: seq<Loan>): (m: map<Product, nat>)
    ensures SumOver(m, AllProducts) == |loans|
    ensures forall p :: p in m ==> m[p] == multiset(ProductColumn(loans))[p]
    ensures forall p :: p in m <==> exists i :: 0 <= i < |loans| && loans[i].productType == p
  {
    var col := ProductColumn(loans);
    ProductsAreComplete(col);
    CountsSumToLength(col, AllProducts);
    ValueCounts(col)
  }

  /** generate_portfolio_summary. */
  function GeneratePortfolioSummary(loans: seq<Loan>): (s: Summary)
    ensures s.totalLoans == |loans|
    ensures s.totalOutstanding == TotalOutstanding(loans)
    ensures s.nplCount == |NonPerforming(loans)| <= s.totalLoans
    ensures 0.0 <= s.nplRatio <= 100.0
    ensures s.totalLoans == 0 ==> s.nplRatio == 0.0 && s.nplCount == 0 && s.averageLoanSize == None
    ensures s.nplRatio == NplRatio(s.nplCount, s.totalLoans)
    ensures s.averageLoanSize == Mean(s.totalOutstanding, s.totalLoans)
    ensures s.riskDistribution == RiskDistribution(loans)
    ensures s.productDistribution == ProductDistribution(loans)
    ensures SumOver(s.riskDistribution, AllBands) == s.totalLoans
    ensures SumOver(s.productDistribution, AllProducts) == s.totalLoans
  {
    var totalLoans := |loans|;
    var totalOutstanding := TotalOutstanding(loans);
    var nplCount := |NonPerforming(loans)|;
    var nplRatio := NplRatio(nplCount, totalLoans);
    var average := Mean(totalOutstanding, totalLoans);
    Summary(totalLoans, totalOutstanding, average, nplRatio, nplCount,
            RiskDistribution(loans), ProductDistribution(loans))
  }

  lemma BandsAreComplete(col: seq<RiskBand>)
    ensures Distinct(AllBands)
    ensures forall i :: 0 <= i < |col| ==> col[i] in AllBands
  {
    forall i | 0 <= i < |col| ensures col[i] in AllBands {
      match col[i]
      case Low => assert AllBands[0] == Low;
      case Medium => assert AllBands[1] == Medium;
      case High => assert AllBands[2] == High;
      case Critical => assert AllBands[3] == Critical;
    }
  }

  lemma ProductsAreComplete(col: seq<Product>)
    ensures Distinct(AllProducts)
    ensures forall i :: 0 <= i < |col| ==> col[i] in AllProducts
  {
    forall i | 0 <= i < |col| ensures col[i] in AllProducts {
      match col[i]
      case PersonalLoan => assert AllProducts[0] == PersonalLoan;
      case BusinessLoan => assert AllProducts[1] == BusinessLoan;
      case Mortgage => assert AllProducts[2] == Mortgage;
      case AutoLoan => assert AllProducts[3] == AutoLoan;
      case SmeCredit => assert AllProducts[4] == SmeCredit;
      case EmergencyLoan => assert AllProducts[5] == EmergencyLoan;
    }
  }

  /** A count out of a total, as a percentage with 0 for an empty total, lies in [0, 100]. */
  lemma RatioBounds(part: nat, total: nat)
    requires part <= total
    ensures var r := if total > 0 then (part as real) / (total as real) * 100.0 else 0.0;
      0.0 <= r <= 100.0 && (total > 0 ==> r * (total as real) == (part as real) * 100.0)
  {
    if total > 0 {
      var q := (part as real) / (total as real);
      assert q * (total as real) == part as real;
      assert q <= 1.0 by {
        if q > 1.0 {
          assert (q - 1.0) * (total as real) > 0.0;
        }
      }
    }
  }

  /** The summary of the empty table: no loans, no division by zero, ratio 0. */
  lemma EmptyPortfolioSummary()
    ensures var s := GeneratePortfolioSummary([]);
      s.totalLoans == 0 && s.nplCount == 0 && s.nplRatio == 0.0 && s.totalOutstanding == 0.0
      && s.riskDistribution == map[] && s.productDistribution == map[]
  {
  }

  /** The non-performing rows of a concatenation are those of each part, in order. */
  lemma {:induction false} NonPerformingAppend(a: seq<Loan>, b: seq<Loan>)
    ensures NonPerforming(a + b) == NonPerforming(a) + NonPerforming(b)
  {
    if a != [] {
      assert (a + b)[1..] == a[1..] + b;
      NonPerformingAppend(a[1..], b);
    } else {
      assert a + b == b;
    }
  }

  /** The outstanding total of a concatenation is the sum of the parts' totals. */
  lemma {:induction false} TotalOutstandingAppend(a: seq<Loan>, b: seq<Loan>)
    ensures TotalOutstanding(a + b) == TotalOutstanding(a) + TotalOutstanding(b)
  {
    if a != [] {
      assert (a + b)[1..] == a[1..] + b;
      TotalOutstandingAppend(a[1..], b);
    } else {
      assert a + b == b;
    }
  }

  /** When no balance exceeds its loan amount, the outstanding total does not exceed the
      total lent; with non-negative balances it is not negative either. */
  lemma {:induction false} OutstandingWithinLent(loans: seq<Loan>)
    requires forall i :: 0 <= i < |loans| ==> 0.0 <= loans[i].outstandingBalance <= loans[i].loanAmount
    ensures 0.0 <= TotalOutstanding(loans) <= TotalAmount(loans)
  {
    if loans != [] {
      OutstandingWithinLent(loans[1..]);
    }
  }

  /** When every row with days past due is delinquent or restructured, so is every
      non-performing row. */
  lemma {:induction false} NonPerformingAreInArrears(loans: seq<Loan>)
    requires forall i :: 0 <= i < |loans| ==> loans[i].daysPastDue == 0 || InArrearsStatus(loans[i].status)
    ensures forall l :: l in NonPerforming(loans) ==> InArrearsStatus(l.status)
  {
    forall l | l in NonPerforming(loans) ensures InArrearsStatus(l.status) {
      NonPerformingIsFilter(loans, l);
      assert multiset(NonPerforming(loans))[l] > 0;
      assert l in multiset(loans);
      var i :| 0 <= i < |loans| && loans[i] == l;
    }
  }
}
