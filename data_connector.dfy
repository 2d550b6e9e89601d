/**
 * The record query engine behind the `fetch_data` tool
 * (backend/data_connector.py): filtering by month, category and region lists,
 * grouping by a tuple of dimensions, and the response assembled after the
 * dataset lookup.
 */
module DataConnector {
  import opened Wrappers
  import opened SalesData
  import opened Sequences

  // ---------------------------------------------------------------------------
  // Filtering
  // ---------------------------------------------------------------------------

  /**
   * The `filters` object of a tool call. Each list is absent or present; an absent
   * `filters` object, and the empty one, are `NoFilters`.
   */
  datatype Filters = Filters(
    months: Option<seq<string>>,
    categories: Option<seq<string>>,
    regions: Option<seq<string>>)

  const NoFilters := Filters(None, None, None)

  /** Python truthiness of an optional list: present and non-empty. */
  predicate Given(o: Option<seq<string>>) {
    o.Some? && o.value != []
  }

  /** `[r for r in rs if r[d] in set(values)]`. */
  function Keep(rs: seq<SalesRecord>, d: Dim, values: seq<string>): (out: seq<SalesRecord>)
    ensures |out| <= |rs|
    ensures forall i :: 0 <= i < |out| ==> Field(out[i], d) in values
  {
    if rs == [] then []
    else
      var last := rs[|rs| - 1];
      Keep(rs[..|rs| - 1], d, values) + (if Field(last, d) in values then [last] else [])
  }

  /** `_apply_filters`: the month, category and region passes, each only when its list is given. */
  function ApplyFilters(rs: seq<SalesRecord>, f: Filters): (out: seq<SalesRecord>)
    ensures |out| <= |rs|
  {
    var byMonth := if Given(f.months) then Keep(rs, Month, f.months.value) else rs;
    var byCategory := if Given(f.categories) then Keep(byMonth, Category, f.categories.value) else byMonth;
    if Given(f.regions) then Keep(byCategory, Region, f.regions.value) else byCategory
  }

  /** Record `r` satisfies the filter on dimension `d`: the list is not given, or holds `r[d]`. */
  predicate PassesOn(r: SalesRecord, d: Dim, o: Option<seq<string>>) {
    Given(o) ==> Field(r, d) in o.value
  }

  /** Record `r` satisfies every given filter of `f`. */
  predicate Passes(r: SalesRecord, f: Filters) {
    PassesOn(r, Month, f.months) && PassesOn(r, Category, f.categories) && PassesOn(r, Region, f.regions)
  }

  /** Reference definition: one pass keeping, in order, the records that pass all filters. */
  function Selected(rs: seq<SalesRecord>, f: Filters): seq<SalesRecord> {
    if rs == [] then []
    else
      var last := rs[|rs| - 1];
      Selected(rs[..|rs| - 1], f) + (if Passes(last, f) then [last] else [])
  }

  lemma KeepSnoc(rs: seq<SalesRecord>, x: SalesRecord, d: Dim, values: seq<string>)
    ensures Keep(rs + [x], d, values) == Keep(rs, d, values) + (if Field(x, d) in values then [x] else [])
  {
    assert (rs + [x])[..|rs|] == rs;
  }

  lemma ApplyFiltersSnoc(rs: seq<SalesRecord>, x: SalesRecord, f: Filters)
    ensures ApplyFilters(rs + [x], f) == ApplyFilters(rs, f) + (if Passes(x, f) then [x] else [])
  {
    var m := if Given(f.months) then Keep(rs, Month, f.months.value) else rs;
    var m' := if Given(f.months) then Keep(rs + [x], Month, f.months.value) else rs + [x];
    if Given(f.months) { KeepSnoc(rs, x, Month, f.months.value); }
    if PassesOn(x, Month, f.months) { assert m' == m + [x]; } else { assert m' == m; }
    var c := if Given(f.categories) then Keep(m, Category, f.categories.value) else m;
    var c' := if Given(f.categories) then Keep(m', Category, f.categories.value) else m';
    if PassesOn(x, Month, f.months) {
      if Given(f.categories) { KeepSnoc(m, x, Category, f.categories.value); }
      if PassesOn(x, Category, f.categories) { assert c' == c + [x]; } else { assert c' == c; }
    } else {
      assert c' == c;
    }
    if PassesOn(x, Month, f.months) && PassesOn(x, Category, f.categories) {
      assert c' == c + [x];
      if Given(f.regions) {
        KeepSnoc(c, x, Region, f.regions.value);
      }
    } else {
      assert c' == c;
    }
    assert ApplyFilters(rs, f) == if Given(f.regions) then Keep(c, Region, f.regions.value) else c;
    assert ApplyFilters(rs + [x], f) == if Given(f.regions) then Keep(c', Region, f.regions.value) else c';
  }

  /** The three successive passes of `_apply_filters` select exactly what one combined pass selects. */
  lemma {:induction false} FiltersAsOnePass(rs: seq<SalesRecord>, f: Filters)
    ensures ApplyFilters(rs, f) == Selected(rs, f)
  {
    if rs != [] {
      var init, x := rs[..|rs| - 1], rs[|rs| - 1];
      assert rs == init + [x];
      FiltersAsOnePass(init, f);
      ApplyFiltersSnoc(init, x, f);
    }
  }

  /** With no list given (absent or empty), filtering returns the records unchanged. */
  lemma NoFilterKeepsAll(rs: seq<SalesRecord>, f: Filters)
    requires !Given(f.months) && !Given(f.categories) && !Given(f.regions)
    ensures ApplyFilters(rs, f) == rs
  {
  }

  lemma {:induction false} SelectedMembers(rs: seq<SalesRecord>, f: Filters, x: SalesRecord)
    ensures x in Selected(rs, f) <==> x in rs && Passes(x, f)
  {
    if rs != [] {
      var init := rs[..|rs| - 1];
      assert rs == init + [rs[|rs| - 1]];
      SelectedMembers(init, f, x);
    }
  }

  /** A record survives filtering iff it is in the input and passes every given filter. */
  lemma FilterMembership(rs: seq<SalesRecord>, f: Filters, x: SalesRecord)
    ensures x in ApplyFilters(rs, f) <==>
              x in rs && PassesOn(x, Month, f.months) && PassesOn(x, Category, f.categories)
              && PassesOn(x, Region, f.regions)
  {
    FiltersAsOnePass(rs, f);
    SelectedMembers(rs, f, x);
  }

  lemma {:induction false} SubseqDropLast<T>(a: seq<T>, b: seq<T>)
    requires a != [] && Subseq(a, b)
    ensures Subseq(a[..|a| - 1], b)
    decreases |b|, 0
  {
    var a', b', y := a[..|a| - 1], b[..|b| - 1], b[|b| - 1];
    assert b' + [y] == b;
    if a[|a| - 1] != y {
      SubseqDropLast(a, b');
    }
    SubseqSnoc(a', b', y);
  }

  lemma {:induction false} SubseqSnoc<T>(a: seq<T>, b: seq<T>, x: T)
    requires Subseq(a, b)
    ensures Subseq(a, b + [x])
    decreases |b|, 1
  {
    assert (b + [x])[..|b|] == b;
    if a != [] && a[|a| - 1] == x {
      SubseqDropLast(a, b);
    }
  }

  lemma {:induction false} SelectedSubseq(rs: seq<SalesRecord>, f: Filters)
    ensures Subseq(Selected(rs, f), rs)
  {
    if rs != [] {
      var init, x := rs[..|rs| - 1], rs[|rs| - 1];
      assert rs == init + [x];
      SelectedSubseq(init, f);
      if Passes(x, f) {
        assert (Selected(init, f) + [x])[..|Selected(init, f)|] == Selected(init, f);
      } else {
        assert Selected(rs, f) == Selected(init, f);
        SubseqSnoc(Selected(init, f), init, x);
      }
    }
  }

  /** Filtering keeps a subsequence of its input: relative order is kept and nothing is added. */
  lemma FilterIsSubsequence(rs: seq<SalesRecord>, f: Filters)
    ensures Subseq(ApplyFilters(rs, f), rs)
    ensures |ApplyFilters(rs, f)| <= |rs|
  {
    FiltersAsOnePass(rs, f);
    SelectedSubseq(rs, f);
    SubseqLength(ApplyFilters(rs, f), rs);
  }

  // ---------------------------------------------------------------------------
  // Grouping
  // ---------------------------------------------------------------------------

  /** The group key of `r`: `tuple(rec[dim] for dim in group_by)`. */
  function KeyOf(r: SalesRecord, g: seq<Dim>): (k: seq<string>)
    ensures |k| == |g|
    ensures forall i :: 0 <= i < |g| ==> k[i] == Field(r, g[i])
  {
    seq(|g|, i requires 0 <= i < |g| => Field(r, g[i]))
  }

  /** The keys of all records, in record order. */
  function KeysOf(rs: seq<SalesRecord>, g: seq<Dim>): (ks: seq<seq<string>>)
    ensures |ks| == |rs|
    ensures forall i :: 0 <= i < |rs| ==> ks[i] == KeyOf(rs[i], g)
  {
    seq(|rs|, i requires 0 <= i < |rs| => KeyOf(rs[i], g))
  }

  /** The records whose key is `k`, in record order. */
  function WithKey(rs: seq<SalesRecord>, g: seq<Dim>, k: seq<string>): seq<SalesRecord> {
    if rs == [] then []
    else
      var last := rs[|rs| - 1];
      WithKey(rs[..|rs| - 1], g, k) + (if KeyOf(last, g) == k then [last] else [])
  }

  /** The dimension fields of a record: `{dim: rec[dim] for dim in group_by}`. */
  function Dims(r: SalesRecord, g: seq<Dim>): map<Dim, string> {
    map d | d in g :: Field(r, d)
  }

  /** The dimension fields a group with key `k` carries. */
  function DimsOfKey(g: seq<Dim>, k: seq<string>): map<Dim, string>
    requires |k| == |g|
  {
    map d | d in g :: k[FirstIndex(g, d)]
  }

  /** An aggregated group: its dimension fields, summed units and revenue, and average price. */
  datatype Bucket = Bucket(dims: map<Dim, string>, unitsSold: int, revenue: int, avgUnitPrice: real)

  /**
   * Units-weighted average price, 0 when no units were sold. Python's `_apply_group_by`
   * rounds the quotient to two decimals in floating point; here it is exact.
   */
  function AveragePrice(units: int, weighted: int): (p: real)
    ensures units == 0 ==> p == 0.0
  {
    if units == 0 then 0.0 else weighted as real / units as real
  }

  /** A non-zero number of units times the average price gives back the weighted sum. */
  lemma AveragePriceWeights(units: int, weighted: int)
    requires units != 0
    ensures AveragePrice(units, weighted) * units as real == weighted as real
  {
    var u, w := units as real, weighted as real;
    assert (w / u) * u == w;
  }

  /** A bucket under construction: the `defaultdict` entry with its `_weighted_price`. */
  datatype Acc = Acc(dims: map<Dim, string>, units: int, revenue: int, weighted: int)

  /** What the accumulator of key `k` holds once the records `rs` have been seen. */
  function AccFor(rs: seq<SalesRecord>, g: seq<Dim>, k: seq<string>): Acc
    requires |k| == |g|
  {
    var members := WithKey(rs, g, k);
    Acc(DimsOfKey(g, k), Total(members, Units), Total(members, Revenue), Total(members, Weighted))
  }

  /** The second pass for one accumulator: `_weighted_price` becomes the average price. */
  function ToBucket(a: Acc): Bucket {
    Bucket(a.dims, a.units, a.revenue, AveragePrice(a.units, a.weighted))
  }

  /** The group of key `k`: sums over exactly the records with that key. */
  function BucketFor(rs: seq<SalesRecord>, g: seq<Dim>, k: seq<string>): Bucket
    requires |k| == |g|
  {
    ToBucket(AccFor(rs, g, k))
  }

  function BucketsFor(rs: seq<SalesRecord>, g: seq<Dim>, ks: seq<seq<string>>): (bs: seq<Bucket>)
    requires forall i :: 0 <= i < |ks| ==> |ks[i]| == |g|
    ensures |bs| == |ks|
  {
    if ks == [] then [] else BucketsFor(rs, g, ks[..|ks| - 1]) + [BucketFor(rs, g, ks[|ks| - 1])]
  }

  lemma BucketsForSnoc(rs: seq<SalesRecord>, g: seq<Dim>, ks: seq<seq<string>>, k: seq<string>)
    requires forall i :: 0 <= i < |ks| ==> |ks[i]| == |g|
    requires |k| == |g|
    ensures BucketsFor(rs, g, ks + [k]) == BucketsFor(rs, g, ks) + [BucketFor(rs, g, k)]
  {
    assert (ks + [k])[..|ks|] == ks;
  }

  /** The distinct keys of `rs`, in order of first appearance. */
  function GroupKeys(rs: seq<SalesRecord>, g: seq<Dim>): (ks: seq<seq<string>>)
    ensures forall i :: 0 <= i < |ks| ==> |ks[i]| == |g|
  {
    var ks := Dedup(KeysOf(rs, g));
    assert forall i :: 0 <= i < |ks| ==> |ks[i]| == |g| by {
      forall i | 0 <= i < |ks| ensures |ks[i]| == |g| {
        DedupMembers(KeysOf(rs, g), ks[i]);
      }
    }
    ks
  }

  /** Reference definition of a non-empty grouping: one bucket per distinct key, in first-appearance order. */
  function GroupSpec(rs: seq<SalesRecord>, g: seq<Dim>): seq<Bucket> {
    BucketsFor(rs, g, GroupKeys(rs, g))
  }

  /** The rows a query returns: the records themselves, or the aggregated groups. */
  datatype Rows = Raw(records: seq<SalesRecord>) | Grouped(buckets: seq<Bucket>) {
    /** `len(records)` of the response. */
    function Count(): nat {
      match this
      case Raw(rs) => |rs|
      case Grouped(bs) => |bs|
    }
  }

  lemma DimsMatchKey(r: SalesRecord, g: seq<Dim>)
    ensures Dims(r, g) == DimsOfKey(g, KeyOf(r, g))
  {
    forall d | d in g ensures Dims(r, g)[d] == DimsOfKey(g, KeyOf(r, g))[d] {
      var i := FirstIndex(g, d);
      assert KeyOf(r, g)[i] == Field(r, g[i]);
    }
  }

  lemma {:induction false} WithKeyAbsent(rs: seq<SalesRecord>, g: seq<Dim>, k: seq<string>)
    requires k !in KeysOf(rs, g)
    ensures WithKey(rs, g, k) == []
  {
    if rs != [] {
      var init := rs[..|rs| - 1];
      assert KeyOf(rs[|rs| - 1], g) == KeysOf(rs, g)[|rs| - 1];
      forall i | 0 <= i < |init| ensures KeysOf(init, g)[i] == KeysOf(rs, g)[i] { }
      assert k !in KeysOf(init, g);
      WithKeyAbsent(init, g, k);
    }
  }

  lemma KeysOfSnoc(seen: seq<SalesRecord>, rec: SalesRecord, g: seq<Dim>)
    ensures KeysOf(seen + [rec], g) == KeysOf(seen, g) + [KeyOf(rec, g)]
  {
  }

  lemma PrefixSnoc<T>(s: seq<T>, i: nat)
    requires i < |s|
    ensures s[..i + 1] == s[..i] + [s[i]]
  {
  }

  /** Adding a record changes only the accumulator of its own key, by its measures. */
  lemma AccForSnoc(seen: seq<SalesRecord>, rec: SalesRecord, g: seq<Dim>, k: seq<string>)
    requires |k| == |g|
    ensures AccFor(seen + [rec], g, k) ==
              if KeyOf(rec, g) == k then
                var a := AccFor(seen, g, k);
                a.(units := a.units + rec.unitsSold, revenue := a.revenue + rec.revenue,
                   weighted := a.weighted + WeightOf(rec))
              else AccFor(seen, g, k)
  {
    assert (seen + [rec])[..|seen|] == seen;
    var m := WithKey(seen, g, k);
    if KeyOf(rec, g) == k {
      assert WithKey(seen + [rec], g, k) == m + [rec];
      assert (m + [rec])[..|m|] == m;
    } else {
      assert WithKey(seen + [rec], g, k) == m;
    }
  }

  /** The accumulator of a record's own key after that record, from its sums before it. */
  lemma NextAcc(seen: seq<SalesRecord>, rec: SalesRecord, g: seq<Dim>, cur: Acc)
    requires cur.units == AccFor(seen, g, KeyOf(rec, g)).units
    requires cur.revenue == AccFor(seen, g, KeyOf(rec, g)).revenue
    requires cur.weighted == AccFor(seen, g, KeyOf(rec, g)).weighted
    ensures AccFor(seen + [rec], g, KeyOf(rec, g)) ==
              Acc(DimsOfKey(g, KeyOf(rec, g)), cur.units + rec.unitsSold, cur.revenue + rec.revenue,
                  cur.weighted + WeightOf(rec))
  {
    AccForSnoc(seen, rec, g, KeyOf(rec, g));
  }

  /** Copying a record's dimension fields over an empty or already-filled bucket gives its key's fields. */
  lemma CopiedDims(before: map<Dim, string>, rec: SalesRecord, g: seq<Dim>)
    requires before == map[] || before == DimsOfKey(g, KeyOf(rec, g))
    ensures before + Dims(rec, g) == DimsOfKey(g, KeyOf(rec, g))
  {
    DimsMatchKey(rec, g);
  }

  /**
   * The state of the first pass after the records `seen`: `order` is the dict's key
   * order and each accumulator holds the sums of its key's records.
   */
  ghost predicate Tally(groups: map<seq<string>, Acc>, order: seq<seq<string>>, seen: seq<SalesRecord>, g: seq<Dim>) {
    && order == GroupKeys(seen, g)
    && (forall k :: k in groups <==> k in order)
    && (forall k :: k in groups ==> |k| == |g| && groups[k] == AccFor(seen, g, k))
  }

  /** `for dim in group_by: bucket[dim] = rec[dim]`. */
  method CopyDims(dims: map<Dim, string>, rec: SalesRecord, g: seq<Dim>) returns (out: map<Dim, string>)
    ensures out == dims + Dims(rec, g)
  {
    out := dims;
    for t := 0 to |g|
      invariant forall d :: d in out <==> d in dims || d in g[..t]
      invariant forall d :: d in out ==> out[d] == if d in g[..t] then Field(rec, d) else dims[d]
    {
      assert g[..t + 1] == g[..t] + [g[t]];
      out := out[g[t] := Field(rec, g[t])];
    }
    assert g[..|g|] == g;
  }

  /**
   * The body of the first pass for one record and its bucket: copy the dimension
   * fields on first encounter, then add the record's units, revenue and weighted price.
   */
  method Absorb(bucket: Acc, rec: SalesRecord, g: seq<Dim>) returns (b: Acc)
    requires bucket.dims == DimsOfKey(g, KeyOf(rec, g))
             || (bucket.dims == map[] && bucket.units == 0 && bucket.revenue == 0)
    ensures b == Acc(DimsOfKey(g, KeyOf(rec, g)), bucket.units + rec.unitsSold,
                     bucket.revenue + rec.revenue, bucket.weighted + WeightOf(rec))
  {
    b := bucket;
    if b.units == 0 && b.revenue == 0 {
      // copy the dimension values on first encounter
      var dims := CopyDims(b.dims, rec, g);
      CopiedDims(b.dims, rec, g);
      b := b.(dims := dims);
    }
    b := b.(units := b.units + rec.unitsSold,
            revenue := b.revenue + rec.revenue,
            weighted := b.weighted + WeightOf(rec));
  }

  /** `groups[key]` on the `defaultdict`: the stored accumulator, or a fresh zero one. */
  function Lookup(groups: map<seq<string>, Acc>, key: seq<string>): (a: Acc)
    ensures key !in groups ==> a == Acc(map[], 0, 0, 0)
    ensures key in groups ==> a == groups[key]
  {
    if key in groups then groups[key] else Acc(map[], 0, 0, 0)
  }

  /** A bucket after absorbing a record of its key: the key's fields, plus the record's measures. */
  function Absorbed(a: Acc, rec: SalesRecord, g: seq<Dim>): Acc {
    Acc(DimsOfKey(g, KeyOf(rec, g)), a.units + rec.unitsSold, a.revenue + rec.revenue,
        a.weighted + WeightOf(rec))
  }

  /**
   * One iteration of the first pass of `_apply_group_by`: look the record's key up
   * (inserting a fresh bucket at the end of the dict's order when it is new) and
   * absorb the record into that bucket.
   */
  method AddRecord(groups: map<seq<string>, Acc>, order: seq<seq<string>>, rec: SalesRecord, g: seq<Dim>)
    returns (groups': map<seq<string>, Acc>, order': seq<seq<string>>)
    requires KeyOf(rec, g) in groups ==> groups[KeyOf(rec, g)].dims == DimsOfKey(g, KeyOf(rec, g))
    ensures groups' == groups[KeyOf(rec, g) := Absorbed(Lookup(groups, KeyOf(rec, g)), rec, g)]
    ensures order' == if KeyOf(rec, g) in groups then order else order + [KeyOf(rec, g)]
  {
    var key := KeyOf(rec, g);
    groups', order' := groups, order;
    if key !in groups' {
      groups' := groups'[key := Acc(map[], 0, 0, 0)];
      order' := order' + [key];
    }
    var bucket := Absorb(groups'[key], rec, g);
    groups' := groups'[key := bucket];
  }

  /** `Dedup` of a sequence with one more element at the end. */
  lemma DedupSnoc<T>(s: seq<T>, x: T)
    ensures Dedup(s + [x]) == if x in s then Dedup(s) else Dedup(s) + [x]
  {
    assert (s + [x])[..|s|] == s;
    DedupMembers(s, x);
  }

  /** After one more record the dict's key order is still the first-appearance order of the keys. */
  lemma TallyOrder(order: seq<seq<string>>, seen: seq<SalesRecord>, rec: SalesRecord, g: seq<Dim>, isNew: bool)
    requires order == GroupKeys(seen, g)
    requires isNew <==> KeyOf(rec, g) !in order
    ensures (if isNew then order + [KeyOf(rec, g)] else order) == GroupKeys(seen + [rec], g)
  {
    KeysOfSnoc(seen, rec, g);
    DedupSnoc(KeysOf(seen, g), KeyOf(rec, g));
    DedupMembers(KeysOf(seen, g), KeyOf(rec, g));
  }

  /** The accumulator of the record's own key is its sums after the record. */
  lemma TallyOwn(a: Acc, seen: seq<SalesRecord>, rec: SalesRecord, g: seq<Dim>)
    requires a == AccFor(seen, g, KeyOf(rec, g)) || (a == Acc(map[], 0, 0, 0) && KeyOf(rec, g) !in KeysOf(seen, g))
    ensures Absorbed(a, rec, g) == AccFor(seen + [rec], g, KeyOf(rec, g))
  {
    var key := KeyOf(rec, g);
    var before := AccFor(seen, g, key);
    if a != before {
      WithKeyAbsent(seen, g, key);
      assert before.units == 0 && before.revenue == 0 && before.weighted == 0;
    }
    NextAcc(seen, rec, g, a);
    assert Absorbed(a, rec, g) == Acc(DimsOfKey(g, key), a.units + rec.unitsSold, a.revenue + rec.revenue,
                                      a.weighted + WeightOf(rec));
  }

  /** One iteration of the first pass keeps every accumulator equal to its key's sums. */
  lemma TallyAccs(groups: map<seq<string>, Acc>, seen: seq<SalesRecord>, rec: SalesRecord,
                  g: seq<Dim>, groups': map<seq<string>, Acc>)
    requires forall k :: k in groups ==> |k| == |g| && groups[k] == AccFor(seen, g, k)
    requires KeyOf(rec, g) in groups || KeyOf(rec, g) !in KeysOf(seen, g)
    requires groups' == groups[KeyOf(rec, g) := Absorbed(Lookup(groups, KeyOf(rec, g)), rec, g)]
    ensures forall k :: k in groups' ==> |k| == |g| && groups'[k] == AccFor(seen + [rec], g, k)
  {
    var key := KeyOf(rec, g);
    TallyOwn(Lookup(groups, key), seen, rec, g);
    forall k | k in groups' ensures |k| == |g| && groups'[k] == AccFor(seen + [rec], g, k) {
      if k != key {
        AccForSnoc(seen, rec, g, k);
      }
    }
  }

  /** One iteration of the first pass keeps `Tally`. */
  lemma TallyStep(groups: map<seq<string>, Acc>, order: seq<seq<string>>, seen: seq<SalesRecord>, rec: SalesRecord,
                  g: seq<Dim>, groups': map<seq<string>, Acc>, order': seq<seq<string>>)
    requires Tally(groups, order, seen, g)
    requires groups' == groups[KeyOf(rec, g) := Absorbed(Lookup(groups, KeyOf(rec, g)), rec, g)]
    requires order' == if KeyOf(rec, g) in groups then order else order + [KeyOf(rec, g)]
    ensures Tally(groups', order', seen + [rec], g)
  {
    var key := KeyOf(rec, g);
    TallyOrder(order, seen, rec, g, key !in groups);
    DedupMembers(KeysOf(seen, g), key);
    TallyAccs(groups, seen, rec, g, groups');
  }

  /**
   * The second pass of `_apply_group_by`: each accumulator, in the dict's order,
   * becomes a bucket whose average price is the weighted price over the units.
   */
  method Aggregate(groups: map<seq<string>, Acc>, order: seq<seq<string>>, ghost rs: seq<SalesRecord>, g: seq<Dim>)
    returns (aggregated: seq<Bucket>)
    requires forall k :: k in order ==> k in groups && |k| == |g| && groups[k] == AccFor(rs, g, k)
    ensures aggregated == BucketsFor(rs, g, order)
  {
    aggregated := [];
    for j := 0 to |order|
      invariant aggregated == BucketsFor(rs, g, order[..j])
    {
      AggregateStep(groups, order, rs, g, j);
      aggregated := aggregated + [ToBucket(groups[order[j]])];
    }
    assert order[..|order|] == order;
  }

  /** One iteration of the second pass adds the bucket of the next key. */
  lemma AggregateStep(groups: map<seq<string>, Acc>, order: seq<seq<string>>, rs: seq<SalesRecord>, g: seq<Dim>, j: nat)
    requires forall k :: k in order ==> k in groups && |k| == |g| && groups[k] == AccFor(rs, g, k)
    requires j < |order|
    ensures order[j] in groups
    ensures BucketsFor(rs, g, order[..j + 1]) == BucketsFor(rs, g, order[..j]) + [ToBucket(groups[order[j]])]
  {
    var key := order[j];
    assert groups[key] == AccFor(rs, g, key);
    PrefixSnoc(order, j);
    BucketsForSnoc(rs, g, order[..j], key);
  }

  /**
   * The first pass of `_apply_group_by`: every record is added to the bucket of
   * its key, and the dict keeps its keys in insertion order.
   */
  method TallyRecords(rs: seq<SalesRecord>, g: seq<Dim>)
    returns (groups: map<seq<string>, Acc>, order: seq<seq<string>>)
    ensures Tally(groups, order, rs, g)
  {
    groups, order := map[], [];
    for i := 0 to |rs|
      invariant Tally(groups, order, rs[..i], g)
    {
      PrefixSnoc(rs, i);
      var groups', order' := AddRecord(groups, order, rs[i], g);
      TallyStep(groups, order, rs[..i], rs[i], g, groups', order');
      groups, order := groups', order';
    }
    assert rs[..|rs|] == rs;
  }

  /** After the first pass every key of the order has its accumulator. */
  lemma TallyLookup(groups: map<seq<string>, Acc>, order: seq<seq<string>>, rs: seq<SalesRecord>, g: seq<Dim>)
    requires Tally(groups, order, rs, g)
    ensures forall k :: k in order ==> k in groups && |k| == |g| && groups[k] == AccFor(rs, g, k)
    ensures BucketsFor(rs, g, order) == GroupSpec(rs, g)
  {
  }

  /**
   * `_apply_group_by`: an empty `group_by` returns the records unchanged; otherwise
   * one pass fills a dict of accumulators keyed by the dimension tuple (keeping its
   * insertion order) and a second pass turns each accumulator into a bucket.
   */
  method ApplyGroupBy(rs: seq<SalesRecord>, g: seq<Dim>) returns (out: Rows)
    ensures g == [] ==> out == Raw(rs)
    ensures g != [] ==> out == Grouped(GroupSpec(rs, g))
  {
    if g == [] {
      return Raw(rs);
    }
    var groups, order := TallyRecords(rs, g);
    TallyLookup(groups, order, rs, g);
    var aggregated := Aggregate(groups, order, rs, g);
    out := Grouped(aggregated);
  }

  // ---------------------------------------------------------------------------
  // Properties of grouping
  // ---------------------------------------------------------------------------

  /** The `i`-th bucket of `BucketsFor` is the bucket of the `i`-th key. */
  lemma {:induction false} BucketsForAt(rs: seq<SalesRecord>, g: seq<Dim>, ks: seq<seq<string>>, i: nat)
    requires forall j :: 0 <= j < |ks| ==> |ks[j]| == |g|
    requires i < |ks|
    ensures BucketsFor(rs, g, ks)[i] == BucketFor(rs, g, ks[i])
  {
    if i < |ks| - 1 {
      BucketsForAt(rs, g, ks[..|ks| - 1], i);
    }
  }

  /**
   * Grouping yields one bucket per distinct key: the keys are pairwise different,
   * every record's key has a bucket, and every bucket's key is some record's key.
   */
  lemma OneBucketPerKey(rs: seq<SalesRecord>, g: seq<Dim>)
    ensures |GroupSpec(rs, g)| == |GroupKeys(rs, g)| <= |rs|
    ensures Distinct(GroupKeys(rs, g))
    ensures forall i :: 0 <= i < |rs| ==> KeyOf(rs[i], g) in GroupKeys(rs, g)
    ensures forall k :: k in GroupKeys(rs, g) ==> exists i :: 0 <= i < |rs| && KeyOf(rs[i], g) == k
  {
    DedupDistinct(KeysOf(rs, g));
    forall i | 0 <= i < |rs| ensures KeyOf(rs[i], g) in GroupKeys(rs, g) {
      assert KeysOf(rs, g)[i] == KeyOf(rs[i], g);
      DedupMembers(KeysOf(rs, g), KeyOf(rs[i], g));
    }
    forall k | k in GroupKeys(rs, g) ensures exists i :: 0 <= i < |rs| && KeyOf(rs[i], g) == k {
      DedupMembers(KeysOf(rs, g), k);
      var i := FirstIndex(KeysOf(rs, g), k);
      assert KeyOf(rs[i], g) == k;
    }
  }

  /** The groups come out in the order their keys first appear among the records. */
  lemma GroupsInFirstAppearanceOrder(rs: seq<SalesRecord>, g: seq<Dim>, i: nat, j: nat)
    requires i < j < |GroupKeys(rs, g)|
    ensures GroupKeys(rs, g)[i] in KeysOf(rs, g) && GroupKeys(rs, g)[j] in KeysOf(rs, g)
    ensures FirstIndex(KeysOf(rs, g), GroupKeys(rs, g)[i]) < FirstIndex(KeysOf(rs, g), GroupKeys(rs, g)[j])
  {
    DedupFirstAppearance(KeysOf(rs, g), i, j);
  }

  /**
   * Each bucket carries the grouping fields of its records, and only those:
   * its key lists them in `group_by` order and every record of the key has them.
   */
  lemma BucketDims(rs: seq<SalesRecord>, g: seq<Dim>, j: nat)
    requires j < |GroupKeys(rs, g)|
    ensures GroupSpec(rs, g)[j].dims.Keys == set d | d in g
    ensures forall i :: 0 <= i < |rs| && KeyOf(rs[i], g) == GroupKeys(rs, g)[j] ==>
              GroupSpec(rs, g)[j].dims == Dims(rs[i], g)
  {
    var k := GroupKeys(rs, g)[j];
    BucketsForAt(rs, g, GroupKeys(rs, g), j);
    assert GroupSpec(rs, g)[j].dims == DimsOfKey(g, k);
    forall i | 0 <= i < |rs| && KeyOf(rs[i], g) == k ensures DimsOfKey(g, k) == Dims(rs[i], g) {
      DimsMatchKey(rs[i], g);
    }
  }

  /** Each bucket sums the units and revenue of exactly the records with its key. */
  lemma BucketSums(rs: seq<SalesRecord>, g: seq<Dim>, j: nat)
    requires j < |GroupKeys(rs, g)|
    ensures GroupSpec(rs, g)[j].unitsSold == Total(WithKey(rs, g, GroupKeys(rs, g)[j]), Units)
    ensures GroupSpec(rs, g)[j].revenue == Total(WithKey(rs, g, GroupKeys(rs, g)[j]), Revenue)
  {
    BucketsForAt(rs, g, GroupKeys(rs, g), j);
  }

  /**
   * The average price is weighted by units: it is the summed price times units of
   * the bucket's records over the bucket's units (0 when no units were sold);
   * `AveragePriceWeights` turns it back into the weighted sum.
   */
  lemma BucketAveragePrice(rs: seq<SalesRecord>, g: seq<Dim>, j: nat)
    requires j < |GroupKeys(rs, g)|
    ensures GroupSpec(rs, g)[j].unitsSold == 0 ==> GroupSpec(rs, g)[j].avgUnitPrice == 0.0
    ensures GroupSpec(rs, g)[j].avgUnitPrice ==
              AveragePrice(GroupSpec(rs, g)[j].unitsSold, Total(WithKey(rs, g, GroupKeys(rs, g)[j]), Weighted))
  {
    BucketsForAt(rs, g, GroupKeys(rs, g), j);
  }

  /** `WithKey` picks out the record of its key from one more record at the end. */
  lemma WithKeySnoc(rs: seq<SalesRecord>, r: SalesRecord, g: seq<Dim>, k: seq<string>)
    ensures WithKey(rs + [r], g, k) == WithKey(rs, g, k) + (if KeyOf(r, g) == k then [r] else [])
  {
    assert (rs + [r])[..|rs|] == rs;
  }

  /** The sum of measure `m` over the records of each key in `ks`. */
  ghost function SumOverKeys(rs: seq<SalesRecord>, g: seq<Dim>, ks: seq<seq<string>>, m: Measure): int {
    if ks == [] then 0 else SumOverKeys(rs, g, ks[..|ks| - 1], m) + Total(WithKey(rs, g, ks[|ks| - 1]), m)
  }

  /** One more record adds its measure to the key sums once, when its key is listed. */
  lemma {:induction false} SumOverKeysSnoc(rs: seq<SalesRecord>, r: SalesRecord, g: seq<Dim>, ks: seq<seq<string>>, m: Measure)
    requires Distinct(ks)
    ensures SumOverKeys(rs + [r], g, ks, m) ==
              SumOverKeys(rs, g, ks, m) + (if KeyOf(r, g) in ks then MeasureOf(r, m) else 0)
  {
    if ks != [] {
      var init := ks[..|ks| - 1];
      var last := ks[|ks| - 1];
      assert Distinct(init);
      assert ks == init + [last];
      assert KeyOf(r, g) in ks <==> KeyOf(r, g) in init || KeyOf(r, g) == last;
      assert last !in init;
      SumOverKeysSnoc(rs, r, g, init, m);
      WithKeySnoc(rs, r, g, last);
      TotalAppend(WithKey(rs, g, last), if KeyOf(r, g) == last then [r] else [], m);
    }
  }

  /** Summed over all groups, a measure adds up to its total over the records. */
  lemma {:induction false} SumOverGroupKeys(rs: seq<SalesRecord>, g: seq<Dim>, m: Measure)
    ensures SumOverKeys(rs, g, GroupKeys(rs, g), m) == Total(rs, m)
  {
    if rs != [] {
      var init := rs[..|rs| - 1];
      var r := rs[|rs| - 1];
      var key := KeyOf(r, g);
      assert rs == init + [r];
      SumOverGroupKeys(init, g, m);
      var ks := GroupKeys(init, g);
      DedupDistinct(KeysOf(init, g));
      DedupMembers(KeysOf(init, g), key);
      TallyOrder(ks, init, r, g, key !in ks);
      SumOverKeysSnoc(init, r, g, ks, m);
      TotalAppend(init, [r], m);
      if key !in ks {
        var ks' := ks + [key];
        assert ks'[..|ks'| - 1] == ks;
        WithKeyAbsent(init, g, key);
        WithKeySnoc(init, r, g, key);
        assert WithKey(rs, g, key) == [r];
      }
    }
  }

  /** The summed units of a list of buckets. */
  function BucketUnits(bs: seq<Bucket>): int {
    if bs == [] then 0 else BucketUnits(bs[..|bs| - 1]) + bs[|bs| - 1].unitsSold
  }

  /** The summed revenue of a list of buckets. */
  function BucketRevenue(bs: seq<Bucket>): int {
    if bs == [] then 0 else BucketRevenue(bs[..|bs| - 1]) + bs[|bs| - 1].revenue
  }

  lemma {:induction false} BucketsForSums(rs: seq<SalesRecord>, g: seq<Dim>, ks: seq<seq<string>>)
    requires forall j :: 0 <= j < |ks| ==> |ks[j]| == |g|
    ensures BucketUnits(BucketsFor(rs, g, ks)) == SumOverKeys(rs, g, ks, Units)
    ensures BucketRevenue(BucketsFor(rs, g, ks)) == SumOverKeys(rs, g, ks, Revenue)
  {
    if ks != [] {
      var bs := BucketsFor(rs, g, ks);
      assert bs[..|bs| - 1] == BucketsFor(rs, g, ks[..|ks| - 1]);
      BucketsForSums(rs, g, ks[..|ks| - 1]);
    }
  }

  /** Grouping conserves the total units and the total revenue of the records. */
  lemma GroupingConservesTotals(rs: seq<SalesRecord>, g: seq<Dim>)
    ensures BucketUnits(GroupSpec(rs, g)) == Total(rs, Units)
    ensures BucketRevenue(GroupSpec(rs, g)) == Total(rs, Revenue)
  {
    BucketsForSums(rs, g, GroupKeys(rs, g));
    SumOverGroupKeys(rs, g, Units);
    SumOverGroupKeys(rs, g, Revenue);
  }

  // ---------------------------------------------------------------------------
  // The fetch_data handler
  // ---------------------------------------------------------------------------

  /** The `input` of a `fetch_data` tool call: `dataset_id`, optional `filters` and `group_by`. */
  datatype FetchRequest = FetchRequest(datasetId: string, filters: Option<Filters>, groupBy: Option<seq<Dim>>)

  /** The JSON object the handler returns: the query result, or an `error`. */
  datatype FetchResponse =
    | Found(datasetId: string, companyName: string, currency: string, recordCount: nat, rows: Rows)
    | NotFound(error: string)

  /** The error text for a dataset that is not stored; it names the dataset. */
  function NotFoundMessage(datasetId: string): (m: string)
    ensures Contains(m, datasetId)
    ensures IsPrefixOf("Dataset '", m)
  {
    var m := "Dataset '" + datasetId + "' not found";
    assert IsPrefixOf(datasetId, m[9..]);
    m
  }

  /** `tool_input.get("filters") or {}`: absent filters select everything. */
  function FiltersOf(req: FetchRequest): Filters {
    req.filters.GetOr(NoFilters)
  }

  /** Python truthiness of `group_by`: present and non-empty. */
  predicate Grouping(req: FetchRequest) {
    req.groupBy.Some? && req.groupBy.value != []
  }

  /** The rows a request selects from `rs`: filter first, then group when asked to. */
  function QueryRows(rs: seq<SalesRecord>, req: FetchRequest): Rows {
    var filtered := ApplyFilters(rs, FiltersOf(req));
    if Grouping(req) then Grouped(GroupSpec(filtered, req.groupBy.value)) else Raw(filtered)
  }

  /**
   * `handle_fetch_data` after the Redis lookup, whose result is `stored`: a missing
   * dataset gives the error object; otherwise the filtered and possibly grouped
   * records with the dataset's name and currency, and their count.
   */
  method HandleFetchData(req: FetchRequest, stored: Option<Dataset>) returns (resp: FetchResponse)
    ensures stored.None? ==> resp == NotFound(NotFoundMessage(req.datasetId))
    ensures stored.Some? ==>
              && resp.Found?
              && resp.datasetId == req.datasetId
              && resp.companyName == stored.value.meta.companyName
              && resp.currency == stored.value.meta.currency
              && resp.rows == QueryRows(stored.value.records, req)
              && resp.recordCount == resp.rows.Count()
  {
    if stored.None? {
      return NotFound(NotFoundMessage(req.datasetId));
    }
    var raw := stored.value;
    var filtered := ApplyFilters(raw.records, FiltersOf(req));
    var rows := Raw(filtered);
    if Grouping(req) {
      rows := ApplyGroupBy(filtered, req.groupBy.value);
    }
    resp := Found(req.datasetId, raw.meta.companyName, raw.meta.currency, rows.Count(), rows);
  }

  /** Without filters and without grouping the handler returns every stored record. */
  lemma FetchAllRecords(ds: Dataset, id: string)
    ensures QueryRows(ds.records, FetchRequest(id, None, None)) == Raw(ds.records)
    ensures QueryRows(ds.records, FetchRequest(id, Some(NoFilters), Some([]))) == Raw(ds.records)
  {
    NoFilterKeepsAll(ds.records, NoFilters);
  }

  /** A query never returns more rows than the dataset holds records. */
  lemma QueryCountBound(rs: seq<SalesRecord>, req: FetchRequest)
    ensures QueryRows(rs, req).Count() <= |rs|
  {
    FilterIsSubsequence(rs, FiltersOf(req));
    if Grouping(req) {
      OneBucketPerKey(ApplyFilters(rs, FiltersOf(req)), req.groupBy.value);
    }
  }

  /** Grouping in a query keeps the units and revenue totals of the filtered records. */
  lemma QueryConservesTotals(rs: seq<SalesRecord>, req: FetchRequest)
    requires Grouping(req)
    ensures BucketUnits(QueryRows(rs, req).buckets) == Total(Selected(rs, FiltersOf(req)), Units)
    ensures BucketRevenue(QueryRows(rs, req).buckets) == Total(Selected(rs, FiltersOf(req)), Revenue)
  {
    FiltersAsOnePass(rs, FiltersOf(req));
    GroupingConservesTotals(ApplyFilters(rs, FiltersOf(req)), req.groupBy.value);
  }
}
