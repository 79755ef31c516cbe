/** An optional value: the mean of an empty column (`Portfolio.Mean`, NaN in pandas) and the
    partial lookups `Risk.LowerBound`, `Risk.BandOfColor`, `Rules.StandingOfColor` and
    `SampleData.BandOfIncome`. */
module Optional {
  datatype Option<T> = None | Some(value: T)
}
