/**
 * The generator of the PedalForce Bicycles 2025 demo dataset
 * (scripts/seed_dataset.py): the constant tables, one record per
 * (month, category, region) triple, the dataset document, and the
 * branch and summary of the seeding step.
 */
module SeedDataset {
  import opened Wrappers
  import opened SalesData

  // ---------------------------------------------------------------------------
  // Constant tables
  // ---------------------------------------------------------------------------

  /** The Redis key the dataset is stored under. */
  const DatasetKey := "dataset:pedalforce"

  /** The dataset's descriptive fields. */
  const CompanyMeta := DatasetMeta(
    "pedalforce",
    "PedalForce Bicycles",
    "Fictional bicycle manufacturer \U{2014} 2025 monthly sales data across 5 product categories and 4 regions.",
    "USD",
    2025,
    ["Road Bikes", "Mountain Bikes", "E-Bikes", "Kids Bikes", "Accessories"],
    ["North", "South", "East", "West"])

  /** A product category with its annual totals and its (whole-dollar) unit price. */
  datatype CategoryInfo = CategoryInfo(name: string, totalUnits: int, totalRevenue: int, avgUnitPrice: int)

  const Categories: seq<CategoryInfo> := [
    CategoryInfo("Road Bikes", 5_640, 7_332_000, 1_300),
    CategoryInfo("Mountain Bikes", 4_320, 3_456_000, 800),
    CategoryInfo("E-Bikes", 3_480, 8_700_000, 2_500),
    CategoryInfo("Kids Bikes", 6_960, 2_088_000, 300),
    CategoryInfo("Accessories", 18_000, 540_000, 30)
  ]

  const GrandTotalRevenue := 22_116_000

  /** A month with its combined revenue target over all categories. */
  datatype MonthTarget = MonthTarget(month: string, revenue: int)

  const MonthlyTargets: seq<MonthTarget> := [
    MonthTarget("2025-01", 1_105_800),
    MonthTarget("2025-02", 1_216_380),
    MonthTarget("2025-03", 1_548_120),
    MonthTarget("2025-04", 2_100_720),
    MonthTarget("2025-05", 2_543_040),
    MonthTarget("2025-06", 2_764_800),
    MonthTarget("2025-07", 2_654_520),
    MonthTarget("2025-08", 2_433_960),
    MonthTarget("2025-09", 1_879_560),
    MonthTarget("2025-10", 1_437_480),
    MonthTarget("2025-11", 1_216_380),
    MonthTarget("2025-12", 1_215_240)
  ]

  /** A region with its share of annual revenue, in hundredths (0.28 is 28). */
  datatype RegionShare = RegionShare(name: string, hundredths: int)

  const RegionalShares: seq<RegionShare> := [
    RegionShare("North", 28),
    RegionShare("South", 22),
    RegionShare("East", 30),
    RegionShare("West", 20)
  ]

  /** `SEASONAL_WEIGHTS`: each month's share of the grand total, exactly. */
  function SeasonalWeights(ms: seq<MonthTarget>): (ws: seq<real>)
    ensures |ws| == |ms|
    ensures forall i :: 0 <= i < |ms| ==> ws[i] * GrandTotalRevenue as real == ms[i].revenue as real
  {
    seq(|ms|, i requires 0 <= i < |ms| => ms[i].revenue as real / GrandTotalRevenue as real)
  }

  // ---------------------------------------------------------------------------
  // Arithmetic invariants of the tables
  // ---------------------------------------------------------------------------

  function SumCategoryRevenue(cs: seq<CategoryInfo>): int {
    if cs == [] then 0 else cs[0].totalRevenue + SumCategoryRevenue(cs[1..])
  }

  function SumMonthTargets(ms: seq<MonthTarget>): int {
    if ms == [] then 0 else ms[0].revenue + SumMonthTargets(ms[1..])
  }

  function SumShares(rs: seq<RegionShare>): int {
    if rs == [] then 0 else rs[0].hundredths + SumShares(rs[1..])
  }

  function SumReals(xs: seq<real>): real {
    if xs == [] then 0.0 else xs[0] + SumReals(xs[1..])
  }

  /** Every category's annual revenue is its annual units times its unit price. */
  lemma CategoryRevenueIsUnitsTimesPrice()
    ensures forall c :: c in Categories ==> c.totalRevenue == c.totalUnits * c.avgUnitPrice
  {
  }

  /** `GRAND_TOTAL_REVENUE` is the sum of the category revenues. */
  lemma GrandTotalIsSumOfCategories()
    ensures SumCategoryRevenue(Categories) == GrandTotalRevenue
  {
  }

  /** The regional shares add up to one whole. */
  lemma SharesSumToOne()
    ensures SumShares(RegionalShares) == 100
  {
  }

  /** The monthly targets add up to the grand total. */
  lemma MonthlyTargetsSumToGrandTotal()
    ensures SumMonthTargets(MonthlyTargets) == GrandTotalRevenue
  {
  }

  /** Scaling every weight by the grand total gives back the month targets, summed. */
  lemma {:induction false} WeightsScaled(ms: seq<MonthTarget>)
    ensures SumReals(SeasonalWeights(ms)) * GrandTotalRevenue as real == SumMonthTargets(ms) as real
  {
    if ms != [] {
      WeightsScaled(ms[1..]);
      assert SeasonalWeights(ms)[1..] == SeasonalWeights(ms[1..]);
      assert SeasonalWeights(ms)[0] * GrandTotalRevenue as real == ms[0].revenue as real;
    }
  }

  /** Hence the seasonal weights add up to one. */
  lemma SeasonalWeightsSumToOne()
    ensures SumReals(SeasonalWeights(MonthlyTargets)) == 1.0
  {
    WeightsScaled(MonthlyTargets);
    MonthlyTargetsSumToGrandTotal();
  }

  /** The month, category and region names of the tables are pairwise different. */
  lemma TableNamesDistinct()
    ensures forall a, b :: 0 <= a < b < |MonthlyTargets| ==> MonthlyTargets[a].month != MonthlyTargets[b].month
    ensures forall a, b :: 0 <= a < b < |Categories| ==> Categories[a].name != Categories[b].name
    ensures forall a, b :: 0 <= a < b < |RegionalShares| ==> RegionalShares[a].name != RegionalShares[b].name
  {
  }

  // ---------------------------------------------------------------------------
  // Records
  // ---------------------------------------------------------------------------

  /**
   * `round(raw_revenue / avg_price)` for a (month, category, region) triple, where
   * `raw_revenue` is the category's annual revenue times the seasonal weight times
   * the regional share. It is computed in floating point and is left abstract.
   */
  type Estimate = (string, string, string) -> int

  /** The record of one triple: at least one unit, and whole-dollar revenue at the category's price. */
  function MakeRecord(m: MonthTarget, c: CategoryInfo, r: RegionShare, est: Estimate): (rec: SalesRecord)
    ensures (rec.month, rec.category, rec.region) == (m.month, c.name, r.name)
    ensures rec.unitsSold >= 1 && rec.unitsSold >= est(m.month, c.name, r.name)
    ensures rec.unitsSold == 1 || rec.unitsSold == est(m.month, c.name, r.name)
    ensures rec.avgUnitPrice == c.avgUnitPrice && rec.revenue == rec.unitsSold * c.avgUnitPrice
  {
    var e := est(m.month, c.name, r.name);
    var units := if e < 1 then 1 else e;
    SalesRecord(m.month, c.name, r.name, units, units * c.avgUnitPrice, c.avgUnitPrice)
  }

  /** The records of one month and category, one per region in table order. */
  function RegionRows(m: MonthTarget, c: CategoryInfo, rs: seq<RegionShare>, est: Estimate): (out: seq<SalesRecord>)
    ensures |out| == |rs|
  {
    if rs == [] then [] else RegionRows(m, c, rs[..|rs| - 1], est) + [MakeRecord(m, c, rs[|rs| - 1], est)]
  }

  /** The records of one month, category-major. */
  function CategoryRows(m: MonthTarget, cs: seq<CategoryInfo>, rs: seq<RegionShare>, est: Estimate): (out: seq<SalesRecord>)
    ensures |out| == |cs| * |rs|
  {
    if cs == [] then [] else CategoryRows(m, cs[..|cs| - 1], rs, est) + RegionRows(m, cs[|cs| - 1], rs, est)
  }

  /** The records of all months, month-major. */
  function MonthRows(ms: seq<MonthTarget>, cs: seq<CategoryInfo>, rs: seq<RegionShare>, est: Estimate): (out: seq<SalesRecord>)
    ensures |out| == |ms| * (|cs| * |rs|)
  {
    if ms == [] then [] else MonthRows(ms[..|ms| - 1], cs, rs, est) + CategoryRows(ms[|ms| - 1], cs, rs, est)
  }

  /** One more region row at the end of a prefix of the region table. */
  lemma RegionRowsSnoc(m: MonthTarget, c: CategoryInfo, rs: seq<RegionShare>, est: Estimate, k: nat)
    requires k < |rs|
    ensures RegionRows(m, c, rs[..k + 1], est) == RegionRows(m, c, rs[..k], est) + [MakeRecord(m, c, rs[k], est)]
  {
    assert rs[..k + 1][..k] == rs[..k];
  }

  /** One more category block at the end of a prefix of the category table. */
  lemma CategoryRowsSnoc(m: MonthTarget, cs: seq<CategoryInfo>, rs: seq<RegionShare>, est: Estimate, j: nat)
    requires j < |cs|
    ensures CategoryRows(m, cs[..j + 1], rs, est) == CategoryRows(m, cs[..j], rs, est) + RegionRows(m, cs[j], rs, est)
  {
    assert cs[..j + 1][..j] == cs[..j];
  }

  /** Appending category `j`'s rows extends the rows of the first `j` categories by one block. */
  lemma CategoryStep(records: seq<SalesRecord>, acc: seq<SalesRecord>, m: MonthTarget, cs: seq<CategoryInfo>,
                     rs: seq<RegionShare>, est: Estimate, j: nat)
    requires j < |cs| && acc == records + CategoryRows(m, cs[..j], rs, est)
    ensures acc + RegionRows(m, cs[j], rs, est) == records + CategoryRows(m, cs[..j + 1], rs, est)
  {
    CategoryRowsSnoc(m, cs, rs, est, j);
  }

  /** One more month block at the end of a prefix of the month table. */
  lemma MonthRowsSnoc(ms: seq<MonthTarget>, cs: seq<CategoryInfo>, rs: seq<RegionShare>, est: Estimate, i: nat)
    requires i < |ms|
    ensures MonthRows(ms[..i + 1], cs, rs, est) == MonthRows(ms[..i], cs, rs, est) + CategoryRows(ms[i], cs, rs, est)
  {
    assert ms[..i + 1][..i] == ms[..i];
  }

  /** What `build_records` returns. */
  function Records(est: Estimate): seq<SalesRecord> {
    MonthRows(MonthlyTargets, Categories, RegionalShares, est)
  }

  /** The innermost loop of `build_records`: one record per region, appended in table order. */
  method AppendRegions(records: seq<SalesRecord>, month: MonthTarget, cat: CategoryInfo, est: Estimate)
    returns (records': seq<SalesRecord>)
    ensures records' == records + RegionRows(month, cat, RegionalShares, est)
  {
    records' := records;
    var avgPrice := cat.avgUnitPrice;
    for k := 0 to |RegionalShares|
      invariant records' == records + RegionRows(month, cat, RegionalShares[..k], est)
    {
      var region := RegionalShares[k];
      RegionRowsSnoc(month, cat, RegionalShares, est, k);
      var units := est(month.month, cat.name, region.name);
      if units < 1 {
        units := 1;
      }
      var revenue := units * avgPrice;
      records' := records' + [SalesRecord(month.month, cat.name, region.name, units, revenue, avgPrice)];
    }
    assert RegionalShares[..|RegionalShares|] == RegionalShares;
  }

  /** The middle loop of `build_records`: the records of one month, category by category. */
  method AppendCategories(records: seq<SalesRecord>, month: MonthTarget, est: Estimate)
    returns (records': seq<SalesRecord>)
    ensures records' == records + CategoryRows(month, Categories, RegionalShares, est)
  {
    records' := records;
    for j := 0 to |Categories|
      invariant records' == records + CategoryRows(month, Categories[..j], RegionalShares, est)
    {
      CategoryStep(records, records', month, Categories, RegionalShares, est, j);
      records' := AppendRegions(records', month, Categories[j], est);
    }
    assert Categories[..|Categories|] == Categories;
  }

  /** `build_records`: the triple loop over months, categories and regions. */
  method BuildRecords(est: Estimate) returns (records: seq<SalesRecord>)
    ensures records == Records(est)
  {
    records := [];
    for i := 0 to |MonthlyTargets|
      invariant records == MonthRows(MonthlyTargets[..i], Categories, RegionalShares, est)
    {
      MonthRowsSnoc(MonthlyTargets, Categories, RegionalShares, est, i);
      records := AppendCategories(records, MonthlyTargets[i], est);
    }
    assert MonthlyTargets[..|MonthlyTargets|] == MonthlyTargets;
  }

  // ---------------------------------------------------------------------------
  // Properties of the records
  // ---------------------------------------------------------------------------

  lemma MulMonotone(a: nat, c: nat, b: nat)
    requires a <= c
    ensures a * b <= c * b
  {
  }

  /** Block `q` of size `b`, offset `r`, lies inside `n` blocks. */
  lemma BlockIndex(q: nat, r: nat, n: nat, b: nat)
    requires q < n && r < b
    ensures q * b + r < n * b
    ensures (n - 1) * b + r == n * b - b + r
  {
    MulMonotone(q, n - 1, b);
  }

  /** The position of region `k` inside category block `j`. */
  function Offset(j: nat, k: nat, b: nat): (off: nat)
    ensures off == j * b + k
  {
    MulMonotone(0, j, b);
    j * b + k
  }

  /** The position of region `k` of category `j` of month `i`, in blocks of `nc` categories of `nr` regions. */
  function Position(i: nat, j: nat, k: nat, nc: nat, nr: nat): (p: nat)
    ensures p == i * (nc * nr) + j * nr + k
  {
    MulMonotone(0, i, nc * nr);
    i * (nc * nr) + Offset(j, k, nr)
  }

  lemma RegionRowsAt(m: MonthTarget, c: CategoryInfo, rs: seq<RegionShare>, est: Estimate, k: nat)
    requires k < |rs|
    ensures RegionRows(m, c, rs, est)[k] == MakeRecord(m, c, rs[k], est)
  {
    if k < |rs| - 1 {
      RegionRowsAt(m, c, rs[..|rs| - 1], est, k);
    }
  }

  lemma {:induction false} CategoryRowsAt(m: MonthTarget, cs: seq<CategoryInfo>, rs: seq<RegionShare>, est: Estimate, j: nat, k: nat)
    requires j < |cs| && k < |rs|
    ensures Offset(j, k, |rs|) < |cs| * |rs|
    ensures CategoryRows(m, cs, rs, est)[Offset(j, k, |rs|)] == MakeRecord(m, cs[j], rs[k], est)
  {
    BlockIndex(j, k, |cs|, |rs|);
    var init := cs[..|cs| - 1];
    if j < |cs| - 1 {
      CategoryRowsAt(m, init, rs, est, j, k);
    } else {
      assert Offset(j, k, |rs|) == |init| * |rs| + k;
      RegionRowsAt(m, cs[j], rs, est, k);
    }
  }

  /** Month block `i` of the records is that month's category rows. */
  lemma {:induction false} MonthRowsBlock(ms: seq<MonthTarget>, cs: seq<CategoryInfo>, rs: seq<RegionShare>, est: Estimate,
                                          i: nat, off: nat)
    requires i < |ms| && off < |cs| * |rs|
    ensures i * (|cs| * |rs|) + off < |ms| * (|cs| * |rs|)
    ensures MonthRows(ms, cs, rs, est)[i * (|cs| * |rs|) + off] == CategoryRows(ms[i], cs, rs, est)[off]
  {
    var block := |cs| * |rs|;
    BlockIndex(i, off, |ms|, block);
    var init := ms[..|ms| - 1];
    var front := MonthRows(init, cs, rs, est);
    assert MonthRows(ms, cs, rs, est) == front + CategoryRows(ms[|ms| - 1], cs, rs, est);
    if i < |ms| - 1 {
      MonthRowsBlock(init, cs, rs, est, i, off);
    } else {
      assert i * block == |front|;
    }
  }

  /**
   * The records come month-major, then category, then region, in table order:
   * the triple (i, j, k) is at `Position(i, j, k, |cs|, |rs|)`.
   */
  lemma MonthRowsAt(ms: seq<MonthTarget>, cs: seq<CategoryInfo>, rs: seq<RegionShare>, est: Estimate,
                    i: nat, j: nat, k: nat)
    requires i < |ms| && j < |cs| && k < |rs|
    ensures Position(i, j, k, |cs|, |rs|) < |ms| * (|cs| * |rs|)
    ensures MonthRows(ms, cs, rs, est)[Position(i, j, k, |cs|, |rs|)] == MakeRecord(ms[i], cs[j], rs[k], est)
  {
    CategoryRowsAt(ms[i], cs, rs, est, j, k);
    MonthRowsBlock(ms, cs, rs, est, i, Offset(j, k, |rs|));
  }

  /** `build_records` returns 12 x 5 x 4 = 240 records, the triple (i, j, k) at 20i + 4j + k. */
  lemma RecordLayout(est: Estimate)
    ensures |Records(est)| == 240
    ensures forall i, j, k :: 0 <= i < 12 && 0 <= j < 5 && 0 <= k < 4 ==>
              Records(est)[i * 20 + j * 4 + k] == MakeRecord(MonthlyTargets[i], Categories[j], RegionalShares[k], est)
  {
    forall i, j, k | 0 <= i < 12 && 0 <= j < 5 && 0 <= k < 4
      ensures Records(est)[i * 20 + j * 4 + k] == MakeRecord(MonthlyTargets[i], Categories[j], RegionalShares[k], est)
    {
      MonthRowsAt(MonthlyTargets, Categories, RegionalShares, est, i, j, k);
    }
  }

  /** A position below 240 splits into a month block, a category block and a region. */
  lemma Decompose(p: nat)
    requires p < 240
    ensures p / 20 < 12 && p % 20 / 4 < 5 && p % 4 < 4
    ensures p == (p / 20) * 20 + (p % 20 / 4) * 4 + p % 4
  {
  }

  /** Every record belongs to the triple of tables its position names. */
  lemma RecordAt(est: Estimate, p: nat)
    requires p < 240
    ensures |Records(est)| == 240
    ensures Records(est)[p] == MakeRecord(MonthlyTargets[p / 20], Categories[p % 20 / 4], RegionalShares[p % 4], est)
  {
    RecordLayout(est);
    Decompose(p);
  }

  /** The (month, category, region) of a record. */
  function Triple(r: SalesRecord): (string, string, string) {
    (r.month, r.category, r.region)
  }

  /** Some record of `records` carries the triple `t`. */
  predicate Carries(records: seq<SalesRecord>, t: (string, string, string)) {
    exists p :: 0 <= p < |records| && Triple(records[p]) == t
  }

  /** Every (month, category, region) triple of the tables is carried by some record. */
  lemma EveryTriplePresent(est: Estimate)
    ensures forall i, j, k :: 0 <= i < 12 && 0 <= j < 5 && 0 <= k < 4 ==>
              Carries(Records(est), (MonthlyTargets[i].month, Categories[j].name, RegionalShares[k].name))
  {
    forall i, j, k | 0 <= i < 12 && 0 <= j < 5 && 0 <= k < 4 {
      TriplePresent(est, i, j, k);
    }
  }

  /** The triple (i, j, k) is carried by the record at its `Position`. */
  lemma TriplePresent(est: Estimate, i: nat, j: nat, k: nat)
    requires i < 12 && j < 5 && k < 4
    ensures Carries(Records(est), (MonthlyTargets[i].month, Categories[j].name, RegionalShares[k].name))
  {
    MonthRowsAt(MonthlyTargets, Categories, RegionalShares, est, i, j, k);
    var p := Position(i, j, k, |Categories|, |RegionalShares|);
    assert Triple(Records(est)[p]) == (MonthlyTargets[i].month, Categories[j].name, RegionalShares[k].name);
  }

  /** Two different records carry different triples, so each triple appears exactly once. */
  lemma TriplesDistinct(est: Estimate)
    ensures forall p, q :: 0 <= p < q < |Records(est)| ==> Triple(Records(est)[p]) != Triple(Records(est)[q])
  {
    RecordLayout(est);
    forall p, q | 0 <= p < q < |Records(est)| ensures Triple(Records(est)[p]) != Triple(Records(est)[q]) {
      TriplesAt(est, p, q);
    }
  }

  lemma TriplesAt(est: Estimate, p: nat, q: nat)
    requires p < q < 240
    ensures |Records(est)| == 240
    ensures Triple(Records(est)[p]) != Triple(Records(est)[q])
  {
    RecordAt(est, p);
    RecordAt(est, q);
    Decompose(p);
    Decompose(q);
    TableNamesDistinct();
  }

  /**
   * Every record names a month, a category and a region of the tables, has at
   * least one unit, is priced at its category's price and has units times price
   * as revenue.
   */
  lemma RecordInvariants(est: Estimate)
    ensures forall r :: r in Records(est) ==>
              && r.unitsSold >= 1
              && r.revenue == r.unitsSold * r.avgUnitPrice
              && (exists i :: 0 <= i < |MonthlyTargets| && MonthlyTargets[i].month == r.month)
              && (exists j :: 0 <= j < |Categories| && Categories[j].name == r.category
                                                    && Categories[j].avgUnitPrice == r.avgUnitPrice)
              && (exists k :: 0 <= k < |RegionalShares| && RegionalShares[k].name == r.region)
  {
    forall r | r in Records(est)
      ensures r.unitsSold >= 1 && r.revenue == r.unitsSold * r.avgUnitPrice
      ensures exists i :: 0 <= i < |MonthlyTargets| && MonthlyTargets[i].month == r.month
      ensures exists j :: 0 <= j < |Categories| && Categories[j].name == r.category
                                                && Categories[j].avgUnitPrice == r.avgUnitPrice
      ensures exists k :: 0 <= k < |RegionalShares| && RegionalShares[k].name == r.region
    {
      var p :| 0 <= p < |Records(est)| && Records(est)[p] == r;
      RecordLayout(est);
      RecordAt(est, p);
      Decompose(p);
      var i, j, k := p / 20, p % 20 / 4, p % 4;
      assert MonthlyTargets[i].month == r.month;
      assert Categories[j].name == r.category && Categories[j].avgUnitPrice == r.avgUnitPrice;
      assert RegionalShares[k].name == r.region;
    }
  }

  // ---------------------------------------------------------------------------
  // The dataset and the seeding step
  // ---------------------------------------------------------------------------

  /** `build_dataset`: the descriptive fields plus the records. */
  method BuildDataset(est: Estimate) returns (ds: Dataset)
    ensures ds.meta == CompanyMeta
    ensures ds.records == Records(est)
  {
    var records := BuildRecords(est);
    ds := Dataset(CompanyMeta, records);
  }

  /** The schema fields of the dataset document. */
  lemma DatasetSchema()
    ensures CompanyMeta.datasetId == "pedalforce" && CompanyMeta.companyName == "PedalForce Bicycles"
    ensures CompanyMeta.currency == "USD" && CompanyMeta.fiscalYear == 2025
    ensures forall c :: c in CompanyMeta.categories <==> exists j :: 0 <= j < |Categories| && Categories[j].name == c
    ensures forall r :: r in CompanyMeta.regions <==> exists k :: 0 <= k < |RegionalShares| && RegionalShares[k].name == r
  {
    assert CompanyMeta.categories == seq(5, j requires 0 <= j < 5 => Categories[j].name);
    assert CompanyMeta.regions == seq(4, k requires 0 <= k < 4 => RegionalShares[k].name);
  }

  /** The summary `seed_dataset` returns. */
  datatype SeedSummary =
    | Skipped(message: string)
    | Seeded(key: string, recordCount: nat, totalRevenue: int, fiscalYear: int)

  const SkipMessage := "Key '" + DatasetKey + "' already exists. Pass force=True to overwrite."

  /**
   * `seed_dataset` with the existence of the key as an input: without `force` an
   * existing key is left alone; otherwise the dataset is built and written, and
   * the summary reports its size, its revenue and its fiscal year. `written` is the
   * document stored under `DatasetKey`, if any.
   */
  method Seed(force: bool, keyExists: bool, est: Estimate) returns (summary: SeedSummary, written: Option<Dataset>)
    ensures !force && keyExists ==> summary == Skipped(SkipMessage) && written == None
    ensures force || !keyExists ==>
              && written == Some(Dataset(CompanyMeta, Records(est)))
              && summary == Seeded(DatasetKey, |Records(est)|, Total(Records(est), Revenue), CompanyMeta.fiscalYear)
    ensures summary.Seeded? ==> summary.recordCount == 240 && summary.fiscalYear == 2025
  {
    if !force && keyExists {
      return Skipped(SkipMessage), None;
    }
    var dataset := BuildDataset(est);
    written := Some(dataset);
    var recordCount := |dataset.records|;
    var totalRevenue := Total(dataset.records, Revenue);
    summary := Seeded(DatasetKey, recordCount, totalRevenue, CompanyMeta.fiscalYear);
    RecordLayout(est);
  }
}
