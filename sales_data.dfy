/**
 * The sales records of the demo dataset and the dataset document that holds them,
 * shared by the generator (scripts/seed_dataset.py) and the query engine
 * (backend/data_connector.py).
 */
module SalesData {

  /** The three dimensions a record can be filtered and grouped by. */
  datatype Dim = Month | Category | Region

  /** One sales record: a (month, category, region) cell with its measures. */
  datatype SalesRecord = SalesRecord(
    month: string,
    category: string,
    region: string,
    unitsSold: int,
    revenue: int,
    avgUnitPrice: int)

  /** The value of dimension `d` of record `r` (`r[dim]` in Python's data connector). */
  function Field(r: SalesRecord, d: Dim): string {
    match d
    case Month => r.month
    case Category => r.category
    case Region => r.region
  }

  /** The quantities that are summed over records. */
  datatype Measure = Units | Revenue | Weighted

  /** The record's price weighted by its units: `avg_unit_price * units_sold`. */
  function WeightOf(r: SalesRecord): int {
    r.avgUnitPrice * r.unitsSold
  }

  /** Measure `m` of record `r`. */
  function MeasureOf(r: SalesRecord, m: Measure): int {
    match m
    case Units => r.unitsSold
    case Revenue => r.revenue
    case Weighted => WeightOf(r)
  }

  /** The sum of measure `m` over `rs` (Python's `sum(rec[m] for rec in rs)`). */
  function Total(rs: seq<SalesRecord>, m: Measure): int {
    if rs == [] then 0 else Total(rs[..|rs| - 1], m) + MeasureOf(rs[|rs| - 1], m)
  }

  lemma {:induction false} TotalAppend(a: seq<SalesRecord>, b: seq<SalesRecord>, m: Measure)
    ensures Total(a + b, m) == Total(a, m) + Total(b, m)
  {
    if b != [] {
      assert (a + b)[..|a + b| - 1] == a + b[..|b| - 1];
      TotalAppend(a, b[..|b| - 1], m);
    } else {
      assert a + b == a;
    }
  }

  /** The descriptive fields of a dataset document. */
  datatype DatasetMeta = DatasetMeta(
    datasetId: string,
    companyName: string,
    description: string,
    currency: string,
    fiscalYear: int,
    categories: seq<string>,
    regions: seq<string>)

  /** A stored dataset document: its metadata plus the `records` list. */
  datatype Dataset = Dataset(meta: DatasetMeta, records: seq<SalesRecord>)
}
