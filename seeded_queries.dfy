/**
 * The data connector run over the seeded dataset: how many records each filter
 * of backend/data_connector.py keeps, and how many groups each grouping yields,
 * over the 240 records that scripts/seed_dataset.py builds.
 */
module SeededQueries {
  import opened Wrappers
  import opened SalesData
  import opened Sequences
  import DC = DataConnector
  import SD = SeedDataset

  // ---------------------------------------------------------------------------
  // Counting the records a filter keeps
  // ---------------------------------------------------------------------------

  /** A table name survives the filter `o`: the filter is not given, or it lists the name. */
  predicate Admits(o: Option<seq<string>>, name: string) {
    DC.Given(o) ==> name in o.value
  }

  /** How many months of `ms` survive the month filter `o`. */
  function MonthsAdmitted(ms: seq<SD.MonthTarget>, o: Option<seq<string>>): nat {
    if ms == [] then 0
    else MonthsAdmitted(ms[..|ms| - 1], o) + (if Admits(o, ms[|ms| - 1].month) then 1 else 0)
  }

  /** How many categories of `cs` survive the category filter `o`. */
  function CategoriesAdmitted(cs: seq<SD.CategoryInfo>, o: Option<seq<string>>): nat {
    if cs == [] then 0
    else CategoriesAdmitted(cs[..|cs| - 1], o) + (if Admits(o, cs[|cs| - 1].name) then 1 else 0)
  }

  /** How many regions of `rs` survive the region filter `o`. */
  function RegionsAdmitted(rs: seq<SD.RegionShare>, o: Option<seq<string>>): nat {
    if rs == [] then 0
    else RegionsAdmitted(rs[..|rs| - 1], o) + (if Admits(o, rs[|rs| - 1].name) then 1 else 0)
  }

  lemma SelectedSnoc(s: seq<SalesRecord>, x: SalesRecord, f: DC.Filters)
    ensures DC.Selected(s + [x], f) == DC.Selected(s, f) + (if DC.Passes(x, f) then [x] else [])
  {
    assert (s + [x])[..|s|] == s;
  }

  /** Filtering distributes over concatenation. */
  lemma {:induction false} SelectedAppend(a: seq<SalesRecord>, b: seq<SalesRecord>, f: DC.Filters)
    ensures DC.Selected(a + b, f) == DC.Selected(a, f) + DC.Selected(b, f)
  {
    if b == [] {
      assert a + b == a;
    } else {
      var init, x := b[..|b| - 1], b[|b| - 1];
      assert b == init + [x];
      assert a + b == (a + init) + [x];
      SelectedAppend(a, init, f);
      SelectedSnoc(a + init, x, f);
      SelectedSnoc(init, x, f);
    }
  }

  /**
   * Two blocks, the first keeping `n * b` records and the second `b` or none,
   * keep `total * b` records when `total` counts the second block's one on top of `n`.
   */
  lemma BlocksCount(all: seq<SalesRecord>, front: seq<SalesRecord>, back: seq<SalesRecord>, f: DC.Filters,
                    admitted: bool, n: int, total: int, b: int)
    requires all == front + back
    requires |DC.Selected(front, f)| == n * b
    requires |DC.Selected(back, f)| == if admitted then b else 0
    requires total == n + (if admitted then 1 else 0)
    ensures |DC.Selected(all, f)| == total * b
  {
    SelectedAppend(front, back, f);
    Scale(total, n, admitted, b);
  }

  lemma Scale(total: int, n: int, one: bool, b: int)
    requires total == n + (if one then 1 else 0)
    ensures total * b == n * b + (if one then b else 0)
  {
  }

  /** One month and category block keeps one record per admitted region, or none. */
  lemma {:induction false} RegionRowsSelected(m: SD.MonthTarget, c: SD.CategoryInfo, rs: seq<SD.RegionShare>,
                                              est: SD.Estimate, f: DC.Filters)
    ensures |DC.Selected(SD.RegionRows(m, c, rs, est), f)|
            == if Admits(f.months, m.month) && Admits(f.categories, c.name) then RegionsAdmitted(rs, f.regions) else 0
  {
    if rs != [] {
      var init := rs[..|rs| - 1];
      RegionRowsSelected(m, c, init, est, f);
      SelectedSnoc(SD.RegionRows(m, c, init, est), SD.MakeRecord(m, c, rs[|rs| - 1], est), f);
    }
  }

  /** One month block keeps admitted categories times admitted regions records, or none. */
  lemma {:induction false} CategoryRowsSelected(m: SD.MonthTarget, cs: seq<SD.CategoryInfo>, rs: seq<SD.RegionShare>,
                                                est: SD.Estimate, f: DC.Filters)
    ensures |DC.Selected(SD.CategoryRows(m, cs, rs, est), f)|
            == if Admits(f.months, m.month) then CategoriesAdmitted(cs, f.categories) * RegionsAdmitted(rs, f.regions) else 0
  {
    if cs != [] {
      var init, c := cs[..|cs| - 1], cs[|cs| - 1];
      CategoryRowsSelected(m, init, rs, est, f);
      RegionRowsSelected(m, c, rs, est, f);
      if Admits(f.months, m.month) {
        BlocksCount(SD.CategoryRows(m, cs, rs, est), SD.CategoryRows(m, init, rs, est), SD.RegionRows(m, c, rs, est),
                    f, Admits(f.categories, c.name), CategoriesAdmitted(init, f.categories),
                    CategoriesAdmitted(cs, f.categories), RegionsAdmitted(rs, f.regions));
      } else {
        SelectedAppend(SD.CategoryRows(m, init, rs, est), SD.RegionRows(m, c, rs, est), f);
      }
    }
  }

  /** The whole table keeps the product of the admitted months, categories and regions. */
  lemma {:induction false} MonthRowsSelected(ms: seq<SD.MonthTarget>, cs: seq<SD.CategoryInfo>, rs: seq<SD.RegionShare>,
                                             est: SD.Estimate, f: DC.Filters)
    ensures |DC.Selected(SD.MonthRows(ms, cs, rs, est), f)|
            == MonthsAdmitted(ms, f.months) * (CategoriesAdmitted(cs, f.categories) * RegionsAdmitted(rs, f.regions))
  {
    if ms != [] {
      var init, m := ms[..|ms| - 1], ms[|ms| - 1];
      MonthRowsSelected(init, cs, rs, est, f);
      CategoryRowsSelected(m, cs, rs, est, f);
      BlocksCount(SD.MonthRows(ms, cs, rs, est), SD.MonthRows(init, cs, rs, est), SD.CategoryRows(m, cs, rs, est),
                  f, Admits(f.months, m.month), MonthsAdmitted(init, f.months),
                  MonthsAdmitted(ms, f.months), CategoriesAdmitted(cs, f.categories) * RegionsAdmitted(rs, f.regions));
    }
  }

  /**
   * `_apply_filters` over the seeded records keeps one record per admitted
   * (month, category, region) triple: the product of the three counts.
   */
  lemma FilteredCount(est: SD.Estimate, f: DC.Filters)
    ensures |DC.ApplyFilters(SD.Records(est), f)|
            == MonthsAdmitted(SD.MonthlyTargets, f.months)
               * (CategoriesAdmitted(SD.Categories, f.categories) * RegionsAdmitted(SD.RegionalShares, f.regions))
  {
    DC.FiltersAsOnePass(SD.Records(est), f);
    MonthRowsSelected(SD.MonthlyTargets, SD.Categories, SD.RegionalShares, est, f);
  }

  /** Without a month filter every month is admitted. */
  lemma {:induction false} AllMonths(ms: seq<SD.MonthTarget>, o: Option<seq<string>>)
    requires !DC.Given(o)
    ensures MonthsAdmitted(ms, o) == |ms|
  {
    if ms != [] {
      AllMonths(ms[..|ms| - 1], o);
    }
  }

  /** Without a category filter every category is admitted. */
  lemma {:induction false} AllCategories(cs: seq<SD.CategoryInfo>, o: Option<seq<string>>)
    requires !DC.Given(o)
    ensures CategoriesAdmitted(cs, o) == |cs|
  {
    if cs != [] {
      AllCategories(cs[..|cs| - 1], o);
    }
  }

  /** Without a region filter every region is admitted. */
  lemma {:induction false} AllRegions(rs: seq<SD.RegionShare>, o: Option<seq<string>>)
    requires !DC.Given(o)
    ensures RegionsAdmitted(rs, o) == |rs|
  {
    if rs != [] {
      AllRegions(rs[..|rs| - 1], o);
    }
  }

  lemma MonthsPrefix(ms: seq<SD.MonthTarget>, o: Option<seq<string>>, k: nat)
    requires k < |ms|
    ensures MonthsAdmitted(ms[..k + 1], o) == MonthsAdmitted(ms[..k], o) + (if Admits(o, ms[k].month) then 1 else 0)
  {
    assert ms[..k + 1][..k] == ms[..k];
  }

  lemma CategoriesPrefix(cs: seq<SD.CategoryInfo>, o: Option<seq<string>>, k: nat)
    requires k < |cs|
    ensures CategoriesAdmitted(cs[..k + 1], o) == CategoriesAdmitted(cs[..k], o) + (if Admits(o, cs[k].name) then 1 else 0)
  {
    assert cs[..k + 1][..k] == cs[..k];
  }

  lemma RegionsPrefix(rs: seq<SD.RegionShare>, o: Option<seq<string>>, k: nat)
    requires k < |rs|
    ensures RegionsAdmitted(rs[..k + 1], o) == RegionsAdmitted(rs[..k], o) + (if Admits(o, rs[k].name) then 1 else 0)
  {
    assert rs[..k + 1][..k] == rs[..k];
  }

  /** A month filter naming one month of a table without repeated months admits that month alone. */
  lemma {:induction false} OneMonthAdmitted(ms: seq<SD.MonthTarget>, x: nat, k: nat)
    requires x < |ms| && k <= |ms|
    requires forall a, b :: 0 <= a < b < |ms| ==> ms[a].month != ms[b].month
    ensures MonthsAdmitted(ms[..k], Some([ms[x].month])) == if x < k then 1 else 0
  {
    if k == 0 {
      assert ms[..k] == [];
    } else {
      OneMonthAdmitted(ms, x, k - 1);
      MonthsPrefix(ms, Some([ms[x].month]), k - 1);
    }
  }

  /** A region filter naming one region of a table without repeated regions admits that region alone. */
  lemma {:induction false} OneRegionAdmitted(rs: seq<SD.RegionShare>, x: nat, k: nat)
    requires x < |rs| && k <= |rs|
    requires forall a, b :: 0 <= a < b < |rs| ==> rs[a].name != rs[b].name
    ensures RegionsAdmitted(rs[..k], Some([rs[x].name])) == if x < k then 1 else 0
  {
    if k == 0 {
      assert rs[..k] == [];
    } else {
      OneRegionAdmitted(rs, x, k - 1);
      RegionsPrefix(rs, Some([rs[x].name]), k - 1);
    }
  }

  /** A category filter naming two categories of a table without repeated names admits those two. */
  lemma {:induction false} TwoCategoriesAdmittedPrefix(cs: seq<SD.CategoryInfo>, x: nat, y: nat, k: nat)
    requires x < |cs| && y < |cs| && x != y && k <= |cs|
    requires forall a, b :: 0 <= a < b < |cs| ==> cs[a].name != cs[b].name
    ensures CategoriesAdmitted(cs[..k], Some([cs[x].name, cs[y].name]))
            == (if x < k then 1 else 0) + (if y < k then 1 else 0)
  {
    if k == 0 {
      assert cs[..k] == [];
    } else {
      TwoCategoriesAdmittedPrefix(cs, x, y, k - 1);
      CategoriesPrefix(cs, Some([cs[x].name, cs[y].name]), k - 1);
    }
  }

  /** Of the four regions only East survives a filter on East. */
  lemma EastAdmitted()
    ensures RegionsAdmitted(SD.RegionalShares, Some(["East"])) == 1
  {
    SD.TableNamesDistinct();
    OneRegionAdmitted(SD.RegionalShares, 2, 4);
    assert SD.RegionalShares[..4] == SD.RegionalShares;
  }

  /** Of the five categories two survive a filter on E-Bikes and Road Bikes. */
  lemma TwoCategoriesAdmitted()
    ensures CategoriesAdmitted(SD.Categories, Some(["E-Bikes", "Road Bikes"])) == 2
  {
    SD.TableNamesDistinct();
    TwoCategoriesAdmittedPrefix(SD.Categories, 2, 0, 5);
    assert SD.Categories[..5] == SD.Categories;
  }

  /** Of the twelve months only June survives a filter on 2025-06. */
  lemma JuneAdmitted()
    ensures MonthsAdmitted(SD.MonthlyTargets, Some(["2025-06"])) == 1
  {
    SD.TableNamesDistinct();
    OneMonthAdmitted(SD.MonthlyTargets, 5, 12);
    assert SD.MonthlyTargets[..12] == SD.MonthlyTargets;
  }

  // ---------------------------------------------------------------------------
  // The record counts of tests/test_data_layer.py
  // ---------------------------------------------------------------------------

  /** A `fetch_data` request for the seeded dataset with the given filters and no grouping. */
  function Filtered(months: Option<seq<string>>, categories: Option<seq<string>>, regions: Option<seq<string>>): DC.FetchRequest {
    DC.FetchRequest(SD.CompanyMeta.datasetId, Some(DC.Filters(months, categories, regions)), None)
  }

  /** A filtering request without grouping returns the filtered records themselves. */
  lemma FilteredRows(rs: seq<SalesRecord>, months: Option<seq<string>>, categories: Option<seq<string>>,
                     regions: Option<seq<string>>)
    ensures DC.QueryRows(rs, Filtered(months, categories, regions)) == DC.Raw(DC.ApplyFilters(rs, DC.Filters(months, categories, regions)))
  {
  }

  /** No filters: all 240 records. */
  lemma UnfilteredCount(est: SD.Estimate)
    ensures DC.QueryRows(SD.Records(est), DC.FetchRequest(SD.CompanyMeta.datasetId, None, None)).Count() == 240
  {
    FilteredCount(est, DC.NoFilters);
    AllMonths(SD.MonthlyTargets, None);
    AllCategories(SD.Categories, None);
    AllRegions(SD.RegionalShares, None);
    JuneAdmitted();
  }

  /** One region: 12 months x 5 categories = 60 records. */
  lemma EastCount(est: SD.Estimate)
    ensures DC.QueryRows(SD.Records(est), Filtered(None, None, Some(["East"]))).Count() == 60
  {
    FilteredRows(SD.Records(est), None, None, Some(["East"]));
    FilteredCount(est, DC.Filters(None, None, Some(["East"])));
    AllMonths(SD.MonthlyTargets, None);
    AllCategories(SD.Categories, None);
    EastAdmitted();
  }

  /** Two categories: 12 months x 2 x 4 regions = 96 records. */
  lemma TwoCategoriesCount(est: SD.Estimate)
    ensures DC.QueryRows(SD.Records(est), Filtered(None, Some(["E-Bikes", "Road Bikes"]), None)).Count() == 96
  {
    FilteredRows(SD.Records(est), None, Some(["E-Bikes", "Road Bikes"]), None);
    FilteredCount(est, DC.Filters(None, Some(["E-Bikes", "Road Bikes"]), None));
    AllMonths(SD.MonthlyTargets, None);
    AllRegions(SD.RegionalShares, None);
    TwoCategoriesAdmitted();
  }

  /** One month: 5 categories x 4 regions = 20 records. */
  lemma JuneCount(est: SD.Estimate)
    ensures DC.QueryRows(SD.Records(est), Filtered(Some(["2025-06"]), None, None)).Count() == 20
  {
    FilteredRows(SD.Records(est), Some(["2025-06"]), None, None);
    FilteredCount(est, DC.Filters(Some(["2025-06"]), None, None));
    AllCategories(SD.Categories, None);
    AllRegions(SD.RegionalShares, None);
    JuneAdmitted();
  }

  // ---------------------------------------------------------------------------
  // Counting the groups a grouping yields
  // ---------------------------------------------------------------------------

  /** The values of dimension `d` that the buckets `bs` carry: `{r[d] for r in result["records"]}`. */
  function GroupedValues(bs: seq<DC.Bucket>, d: Dim): set<string> {
    set j | 0 <= j < |bs| && d in bs[j].dims :: bs[j].dims[d]
  }

  lemma SingleKey(r: SalesRecord, d: Dim)
    ensures DC.KeyOf(r, [d]) == [Field(r, d)]
  {
  }

  /**
   * Grouping yields one bucket per entry of `ks` when `ks` has no repeats, every
   * record's key is in `ks` and every entry of `ks` is some record's key.
   */
  lemma GroupsAre(rs: seq<SalesRecord>, g: seq<Dim>, ks: seq<seq<string>>)
    requires Distinct(ks)
    requires forall i :: 0 <= i < |rs| ==> DC.KeyOf(rs[i], g) in ks
    requires forall k :: k in ks ==> exists i :: 0 <= i < |rs| && DC.KeyOf(rs[i], g) == k
    ensures |DC.GroupSpec(rs, g)| == |ks|
    ensures forall k :: k in DC.GroupKeys(rs, g) <==> k in ks
  {
    DC.OneBucketPerKey(rs, g);
    var gk := DC.GroupKeys(rs, g);
    assert (set k | k in gk) == (set k | k in ks);
    DistinctCard(gk);
    DistinctCard(ks);
  }

  /** The bucket of a one-dimension grouping carries its key's value of that dimension. */
  lemma BucketValue(rs: seq<SalesRecord>, d: Dim, j: nat)
    requires j < |DC.GroupKeys(rs, [d])|
    ensures |DC.GroupSpec(rs, [d])| == |DC.GroupKeys(rs, [d])|
    ensures d in DC.GroupSpec(rs, [d])[j].dims
    ensures DC.GroupSpec(rs, [d])[j].dims[d] == DC.GroupKeys(rs, [d])[j][0]
  {
    DC.OneBucketPerKey(rs, [d]);
    var k := DC.GroupKeys(rs, [d])[j];
    assert k in DC.GroupKeys(rs, [d]);
    var i :| 0 <= i < |rs| && DC.KeyOf(rs[i], [d]) == k;
    DC.BucketDims(rs, [d], j);
    assert DC.GroupSpec(rs, [d])[j].dims == DC.Dims(rs[i], [d]);
    assert d in [d];
    assert DC.Dims(rs[i], [d])[d] == Field(rs[i], d);
    SingleKey(rs[i], d);
  }

  /** The one-element keys `[n]` for the names `n`, in order. */
  function Singletons(names: seq<string>): (ks: seq<seq<string>>)
    ensures |ks| == |names|
    ensures forall j :: 0 <= j < |names| ==> ks[j] == [names[j]]
  {
    if names == [] then [] else Singletons(names[..|names| - 1]) + [[names[|names| - 1]]]
  }

  lemma SingletonsMembers(names: seq<string>)
    ensures forall k :: k in Singletons(names) <==> |k| == 1 && k[0] in names
  {
    var ks := Singletons(names);
    forall k ensures k in ks <==> |k| == 1 && k[0] in names {
      if |k| == 1 && k[0] in names {
        var j :| 0 <= j < |names| && names[j] == k[0];
        assert k == ks[j];
      }
    }
  }

  lemma SingletonsDistinct(names: seq<string>)
    requires forall a, b :: 0 <= a < b < |names| ==> names[a] != names[b]
    ensures Distinct(Singletons(names))
  {
    var ks := Singletons(names);
    forall a, b | 0 <= a < b < |ks| ensures ks[a] != ks[b] {
      assert ks[a][0] != ks[b][0];
    }
  }

  /**
   * Grouping by one dimension whose values are exactly the distinct `names`
   * yields one bucket per name, and the buckets carry exactly those names.
   */
  lemma GroupsByNames(rs: seq<SalesRecord>, d: Dim, names: seq<string>)
    requires forall a, b :: 0 <= a < b < |names| ==> names[a] != names[b]
    requires forall i :: 0 <= i < |rs| ==> Field(rs[i], d) in names
    requires forall n :: n in names ==> exists i :: 0 <= i < |rs| && Field(rs[i], d) == n
    ensures |DC.GroupSpec(rs, [d])| == |names|
    ensures GroupedValues(DC.GroupSpec(rs, [d]), d) == set n | n in names
  {
    var ks := Singletons(names);
    SingletonsMembers(names);
    SingletonsDistinct(names);
    forall i | 0 <= i < |rs| ensures DC.KeyOf(rs[i], [d]) in ks {
      SingleKey(rs[i], d);
    }
    forall k | k in ks ensures exists i :: 0 <= i < |rs| && DC.KeyOf(rs[i], [d]) == k {
      var i :| 0 <= i < |rs| && Field(rs[i], d) == k[0];
      SingleKey(rs[i], d);
    }
    GroupsAre(rs, [d], ks);
    ValuesOfGroups(rs, d, names);
  }

  /** The buckets of a one-dimension grouping whose keys are the singleton names carry exactly those names. */
  lemma ValuesOfGroups(rs: seq<SalesRecord>, d: Dim, names: seq<string>)
    requires forall k :: k in DC.GroupKeys(rs, [d]) <==> |k| == 1 && k[0] in names
    ensures GroupedValues(DC.GroupSpec(rs, [d]), d) == set n | n in names
  {
    var bs, gk := DC.GroupSpec(rs, [d]), DC.GroupKeys(rs, [d]);
    DC.OneBucketPerKey(rs, [d]);
    forall n ensures n in GroupedValues(bs, d) <==> n in names {
      if n in names {
        assert [n][0] == n;
        var q :| 0 <= q < |gk| && gk[q] == [n];
        BucketValue(rs, d, q);
      }
      if n in GroupedValues(bs, d) {
        var q :| 0 <= q < |bs| && d in bs[q].dims && bs[q].dims[d] == n;
        BucketValue(rs, d, q);
        assert gk[q] in gk;
      }
    }
  }

  // ---------------------------------------------------------------------------
  // The group counts of tests/test_data_layer.py
  // ---------------------------------------------------------------------------

  /** The names of dimension `d` in the seed tables, in table order. */
  function NamesOf(d: Dim): seq<string> {
    match d
    case Month => seq(|SD.MonthlyTargets|, i requires 0 <= i < |SD.MonthlyTargets| => SD.MonthlyTargets[i].month)
    case Category => seq(|SD.Categories|, j requires 0 <= j < |SD.Categories| => SD.Categories[j].name)
    case Region => seq(|SD.RegionalShares|, k requires 0 <= k < |SD.RegionalShares| => SD.RegionalShares[k].name)
  }

  lemma NamesDistinct(d: Dim)
    ensures forall a, b :: 0 <= a < b < |NamesOf(d)| ==> NamesOf(d)[a] != NamesOf(d)[b]
  {
    SD.TableNamesDistinct();
  }

  /** Every seeded record's value of `d` is a name of the table of `d`. */
  lemma RecordNamed(est: SD.Estimate, r: SalesRecord, d: Dim)
    requires r in SD.Records(est)
    ensures Field(r, d) in NamesOf(d)
  {
    var p :| 0 <= p < |SD.Records(est)| && SD.Records(est)[p] == r;
    SD.RecordAt(est, p);
    SD.Decompose(p);
    match d
    case Month => assert NamesOf(d)[p / 20] == r.month;
    case Category => assert NamesOf(d)[p % 20 / 4] == r.category;
    case Region => assert NamesOf(d)[p % 4] == r.region;
  }

  /** The seeded record of month `i`, category `j` and region `k` passes the filters `f` that admit its names. */
  lemma CarriedRecord(est: SD.Estimate, i: nat, j: nat, k: nat) returns (p: nat)
    requires i < 12 && j < 5 && k < 4
    ensures p < |SD.Records(est)|
    ensures SD.Records(est)[p].month == SD.MonthlyTargets[i].month
    ensures SD.Records(est)[p].category == SD.Categories[j].name
    ensures SD.Records(est)[p].region == SD.RegionalShares[k].name
  {
    SD.TriplePresent(est, i, j, k);
    p :| 0 <= p < |SD.Records(est)| && SD.Triple(SD.Records(est)[p])
           == (SD.MonthlyTargets[i].month, SD.Categories[j].name, SD.RegionalShares[k].name);
  }

  /** Grouping all seeded records by `d` yields one bucket per name of the table of `d`. */
  lemma GroupedSeeded(est: SD.Estimate, d: Dim)
    ensures |DC.GroupSpec(SD.Records(est), [d])| == |NamesOf(d)|
    ensures GroupedValues(DC.GroupSpec(SD.Records(est), [d]), d) == set n | n in NamesOf(d)
  {
    var rs := SD.Records(est);
    NamesDistinct(d);
    forall i | 0 <= i < |rs| ensures Field(rs[i], d) in NamesOf(d) {
      RecordNamed(est, rs[i], d);
    }
    forall n | n in NamesOf(d) ensures exists i :: 0 <= i < |rs| && Field(rs[i], d) == n {
      var x :| 0 <= x < |NamesOf(d)| && NamesOf(d)[x] == n;
      var p;
      match d {
        case Month => p := CarriedRecord(est, x, 0, 0);
        case Category => p := CarriedRecord(est, 0, x, 0);
        case Region => p := CarriedRecord(est, 0, 0, x);
      }
      assert Field(rs[p], d) == n;
    }
    GroupsByNames(rs, d, NamesOf(d));
  }

  /** Grouping the East records by category yields one bucket per category. */
  lemma GroupedEastByCategory(est: SD.Estimate)
    ensures |DC.GroupSpec(DC.ApplyFilters(SD.Records(est), DC.Filters(None, None, Some(["East"]))), [Category])|
            == |NamesOf(Category)|
    ensures GroupedValues(DC.GroupSpec(DC.ApplyFilters(SD.Records(est), DC.Filters(None, None, Some(["East"]))), [Category]),
                          Category)
            == set n | n in NamesOf(Category)
  {
    var f := DC.Filters(None, None, Some(["East"]));
    var rs := DC.ApplyFilters(SD.Records(est), f);
    NamesDistinct(Category);
    forall i | 0 <= i < |rs| ensures Field(rs[i], Category) in NamesOf(Category) {
      DC.FilterMembership(SD.Records(est), f, rs[i]);
      RecordNamed(est, rs[i], Category);
    }
    forall n | n in NamesOf(Category) ensures exists i :: 0 <= i < |rs| && Field(rs[i], Category) == n {
      var x :| 0 <= x < |NamesOf(Category)| && NamesOf(Category)[x] == n;
      var p := CarriedRecord(est, 0, x, 2);
      var r := SD.Records(est)[p];
      DC.FilterMembership(SD.Records(est), f, r);
      var i :| 0 <= i < |rs| && rs[i] == r;
    }
    GroupsByNames(rs, Category, NamesOf(Category));
  }

  /** A `fetch_data` request for the seeded dataset grouped by the one dimension `d`. */
  function GroupedBy(filters: Option<DC.Filters>, d: Dim): DC.FetchRequest {
    DC.FetchRequest(SD.CompanyMeta.datasetId, filters, Some([d]))
  }

  /** A grouping request without filters groups every record. */
  lemma GroupedRows(rs: seq<SalesRecord>, d: Dim)
    ensures DC.QueryRows(rs, GroupedBy(None, d)) == DC.Grouped(DC.GroupSpec(rs, [d]))
  {
    DC.NoFilterKeepsAll(rs, DC.NoFilters);
  }

  lemma CategoryNameSet()
    ensures (set n | n in NamesOf(Category)) == {"Road Bikes", "Mountain Bikes", "E-Bikes", "Kids Bikes", "Accessories"}
  {
    assert NamesOf(Category) == ["Road Bikes", "Mountain Bikes", "E-Bikes", "Kids Bikes", "Accessories"];
  }

  /** Grouping by category: five groups, carrying exactly the five category names. */
  lemma GroupByCategoryCount(est: SD.Estimate)
    ensures DC.QueryRows(SD.Records(est), GroupedBy(None, Category)).Count() == 5
    ensures GroupedValues(DC.QueryRows(SD.Records(est), GroupedBy(None, Category)).buckets, Category)
            == {"Road Bikes", "Mountain Bikes", "E-Bikes", "Kids Bikes", "Accessories"}
  {
    GroupedRows(SD.Records(est), Category);
    GroupedSeeded(est, Category);
    CategoryNameSet();
  }

  /** Grouping by region: four groups. */
  lemma GroupByRegionCount(est: SD.Estimate)
    ensures DC.QueryRows(SD.Records(est), GroupedBy(None, Region)).Count() == 4
  {
    GroupedRows(SD.Records(est), Region);
    GroupedSeeded(est, Region);
  }

  /** Grouping by month: twelve groups. */
  lemma GroupByMonthCount(est: SD.Estimate)
    ensures DC.QueryRows(SD.Records(est), GroupedBy(None, Month)).Count() == 12
  {
    GroupedRows(SD.Records(est), Month);
    GroupedSeeded(est, Month);
  }

  /** Filtering on East and grouping by category: five groups. */
  lemma EastByCategoryCount(est: SD.Estimate)
    ensures DC.QueryRows(SD.Records(est), GroupedBy(Some(DC.Filters(None, None, Some(["East"]))), Category)).Count() == 5
  {
    GroupedEastByCategory(est);
  }
}
