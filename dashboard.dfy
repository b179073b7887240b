/** The aggregation of `useDashboardStats`' `fetchStats` over the detailed instances and the
    detailed stock levels. The recent-activity list is taken as an input. */
module Dashboard {
  import opened Common
  import opened OfficeService
  import opened EquipmentService
  import opened StockService
  import opened AssetTransactionService

  /** One `{ name, count }` entry of `chartData`. */
  datatype ChartEntry = ChartEntry(name: string, count: nat)

  datatype DashboardStats = DashboardStats(
    totalEquipment: nat,
    assetsInStorage: nat,
    suppliesInStock: nat,
    lowStockAlerts: seq<DetailedStock>,
    chartData: seq<ChartEntry>,
    recentActivity: seq<AssetTransaction>)

  const LowStockThreshold: int := 10

  /** The instances counted as "in storage". */
  predicate IsInStorage(d: InstanceDetails)
  {
    d.instance.status == "In Storage" || d.instance.status == "Ready to Deploy"
  }

  /** `stockLevels.filter(s => s.quantityOnHand < 10)`. */
  predicate IsLowStock(d: DetailedStock)
  {
    d.stock.quantityOnHand < LowStockThreshold
  }

  /** `new Set(stockLevels.map(s => s.catalogID))`. */
  function CatalogIds(rows: seq<DetailedStock>): set<int>
  {
    set i | 0 <= i < |rows| :: rows[i].stock.catalogID
  }

  /** A set of catalog ids drawn from the rows has at most as many members as there are rows. */
  lemma {:induction false} CatalogIdsBounded(rows: seq<DetailedStock>)
    ensures |CatalogIds(rows)| <= |rows|
  {
    if rows != [] {
      var init := rows[..|rows| - 1];
      CatalogIdsBounded(init);
      assert CatalogIds(rows) == CatalogIds(init) + {rows[|rows| - 1].stock.catalogID} by {
        forall x | x in CatalogIds(rows) ensures x in CatalogIds(init) + {rows[|rows| - 1].stock.catalogID} {
          var i :| 0 <= i < |rows| && rows[i].stock.catalogID == x;
          if i < |rows| - 1 {
            assert init[i] == rows[i];
          }
        }
        forall x | x in CatalogIds(init) ensures x in CatalogIds(rows) {
          var i :| 0 <= i < |init| && init[i].stock.catalogID == x;
          assert rows[i] == init[i];
        }
      }
    }
  }

  // ----- equipmentByOffice -----

  /** `acc[name] = (acc[name] || 0) + 1` on the entries of the accumulator, which keep the
      order in which their names were first added. */
  function Bump(acc: seq<ChartEntry>, name: string): seq<ChartEntry>
  {
    if acc == [] then [ChartEntry(name, 1)]
    else if acc[0].name == name then [acc[0].(count := acc[0].count + 1)] + acc[1..]
    else [acc[0]] + Bump(acc[1..], name)
  }

  /** The tally after reducing over `names`. */
  function Tally(names: seq<string>): seq<ChartEntry>
  {
    if names == [] then [] else Bump(Tally(names[..|names| - 1]), names[|names| - 1])
  }

  /** `acc[name] || 0`. */
  function CountFor(acc: seq<ChartEntry>, name: string): nat
  {
    if acc == [] then 0 else if acc[0].name == name then acc[0].count else CountFor(acc[1..], name)
  }

  /** The sum of all counts. */
  function Total(acc: seq<ChartEntry>): nat
  {
    if acc == [] then 0 else acc[0].count + Total(acc[1..])
  }

  function Names(acc: seq<ChartEntry>): set<string>
  {
    set i | 0 <= i < |acc| :: acc[i].name
  }

  predicate DistinctNames(acc: seq<ChartEntry>)
  {
    forall i, j :: 0 <= i < j < |acc| ==> acc[i].name != acc[j].name
  }

  /** One bump adds one to the named count and to the total, and leaves every other count. */
  lemma {:induction false} BumpCounts(acc: seq<ChartEntry>, name: string, other: string)
    ensures CountFor(Bump(acc, name), other) == CountFor(acc, other) + (if other == name then 1 else 0)
    ensures Total(Bump(acc, name)) == Total(acc) + 1
  {
    if acc != [] && acc[0].name != name {
      BumpCounts(acc[1..], name, other);
    }
  }

  /** One bump adds the name to the names, keeping them distinct. */
  lemma {:induction false} BumpNames(acc: seq<ChartEntry>, name: string)
    requires DistinctNames(acc)
    ensures Names(Bump(acc, name)) == Names(acc) + {name}
    ensures DistinctNames(Bump(acc, name))
  {
    var r := Bump(acc, name);
    if acc == [] {
      assert r == [ChartEntry(name, 1)];
      assert Names(r) == {name} by {
        assert r[0].name == name;
      }
    } else if acc[0].name == name {
      assert r[0].name == acc[0].name && r[1..] == acc[1..];
      assert |r| == |acc|;
      assert forall i :: 0 <= i < |r| ==> r[i].name == acc[i].name;
      assert Names(r) == Names(acc);
      assert name in Names(acc) by {
        assert acc[0].name == name;
      }
    } else {
      var rest := acc[1..];
      assert DistinctNames(rest);
      BumpNames(rest, name);
      assert acc == [acc[0]] + rest;
      NamesCons(acc[0], rest);
      NamesCons(acc[0], Bump(rest, name));
      forall i, j | 0 <= i < j < |r| ensures r[i].name != r[j].name {
        if i == 0 {
          assert r[j].name in Names(Bump(rest, name));
          assert r[j].name in Names(rest) || r[j].name == name;
          if r[j].name in Names(rest) {
            var k :| 0 <= k < |rest| && rest[k].name == r[j].name;
            assert acc[k + 1] == rest[k];
          }
        } else {
          assert r[i] == Bump(rest, name)[i - 1] && r[j] == Bump(rest, name)[j - 1];
        }
      }
    }
  }

  lemma NamesCons(e: ChartEntry, s: seq<ChartEntry>)
    ensures Names([e] + s) == {e.name} + Names(s)
  {
    var t := [e] + s;
    forall n | n in Names(t) ensures n in {e.name} + Names(s) {
      var i :| 0 <= i < |t| && t[i].name == n;
      if i > 0 {
        assert t[i] == s[i - 1];
      }
    }
    forall n | n in Names(s) ensures n in Names(t) {
      var i :| 0 <= i < |s| && s[i].name == n;
      assert t[i + 1] == s[i];
    }
    assert t[0] == e;
  }

  /** The tally lists every name of `names` once, gives each the number of its occurrences,
      and its counts sum to the number of names. */
  lemma {:induction false} TallyCounts(names: seq<string>)
    ensures Total(Tally(names)) == |names|
    ensures Names(Tally(names)) == set n | n in names
    ensures DistinctNames(Tally(names))
    ensures forall n :: CountFor(Tally(names), n) == multiset(names)[n]
  {
    if names != [] {
      var init := names[..|names| - 1];
      var last := names[|names| - 1];
      assert names == init + [last];
      TallyCounts(init);
      BumpNames(Tally(init), last);
      forall n ensures CountFor(Tally(names), n) == multiset(names)[n] {
        BumpCounts(Tally(init), last, n);
      }
      BumpCounts(Tally(init), last, last);
      assert (set n | n in names) == (set n | n in init) + {last};
    }
  }

  /** The office names of the first `i` instances, all of which have an office. */
  function OfficeNames(instances: seq<InstanceDetails>, i: nat): seq<string>
    requires i <= |instances|
    requires forall j :: 0 <= j < i ==> instances[j].office.Some?
  {
    seq(i, j requires 0 <= j < i => instances[j].office.value.officeName)
  }

  /** The `reduce` building `equipmentByOffice`; reading `instance.office.officeName` of an
      instance without an office throws, which `None` stands for. */
  method EquipmentByOffice(instances: seq<InstanceDetails>) returns (chart: Option<seq<ChartEntry>>)
    ensures chart.None? <==> exists i :: 0 <= i < |instances| && instances[i].office.None?
    ensures chart.Some? ==> chart.value == Tally(OfficeNames(instances, |instances|))
  {
    var acc: seq<ChartEntry> := [];
    var i := 0;
    while i < |instances|
      invariant 0 <= i <= |instances|
      invariant forall j :: 0 <= j < i ==> instances[j].office.Some?
      invariant acc == Tally(OfficeNames(instances, i))
    {
      match instances[i].office
      case None =>
        return None;
      case Some(office) =>
        assert OfficeNames(instances, i + 1)[..i] == OfficeNames(instances, i);
        acc := Bump(acc, office.officeName);
      i := i + 1;
    }
    return Some(acc);
  }

  /** `fetchStats` once its three reads have resolved; `None` when building the chart
      throws. */
  method FetchStats(instances: seq<InstanceDetails>, stockLevels: seq<DetailedStock>,
                    recentActivity: seq<AssetTransaction>) returns (stats: Option<DashboardStats>)
    ensures stats.None? <==> exists i :: 0 <= i < |instances| && instances[i].office.None?
    ensures stats.Some? ==>
      var s := stats.value;
      && s.totalEquipment == |instances|
      && s.assetsInStorage == |Filter(instances, IsInStorage)| <= s.totalEquipment
      && s.suppliesInStock == |CatalogIds(stockLevels)| <= |stockLevels|
      && s.lowStockAlerts == Filter(stockLevels, IsLowStock)
      && s.chartData == Tally(OfficeNames(instances, |instances|))
      && Total(s.chartData) == s.totalEquipment
      && s.recentActivity == recentActivity
  {
    var chart := EquipmentByOffice(instances);
    match chart
    case None =>
      return None;
    case Some(chartData) =>
      CatalogIdsBounded(stockLevels);
      TallyCounts(OfficeNames(instances, |instances|));
      return Some(DashboardStats(
        |instances|,
        |Filter(instances, IsInStorage)|,
        |CatalogIds(stockLevels)|,
        Filter(stockLevels, IsLowStock),
        chartData,
        recentActivity));
  }

  /** The chart has one entry per distinct office name among the instances, carrying the
      number of instances in that office. */
  lemma ChartPerOffice(instances: seq<InstanceDetails>, name: string)
    requires forall i :: 0 <= i < |instances| ==> instances[i].office.Some?
    ensures var chart := Tally(OfficeNames(instances, |instances|));
      && DistinctNames(chart)
      && (name in Names(chart) <==> exists i :: 0 <= i < |instances| && instances[i].office.value.officeName == name)
      && CountFor(chart, name) == multiset(OfficeNames(instances, |instances|))[name]
  {
    var names := OfficeNames(instances, |instances|);
    TallyCounts(names);
    assert name in names <==> exists i :: 0 <= i < |instances| && instances[i].office.value.officeName == name by {
      if name in names {
        var i :| 0 <= i < |names| && names[i] == name;
      }
      forall i | 0 <= i < |instances| && instances[i].office.value.officeName == name ensures name in names {
        assert names[i] == name;
      }
    }
  }

  /** A low-stock alert is exactly a stock row under the threshold, in the original order. */
  lemma LowStockExact(stockLevels: seq<DetailedStock>)
    ensures forall d :: d in Filter(stockLevels, IsLowStock) <==> d in stockLevels && d.stock.quantityOnHand < 10
  {
  }
}
