/** The `fetchData` callbacks of the list pages: a case-insensitive substring search over the
    list a service resolved with, exact-match filters from the table's filter map, then
    `Listing.Paginate`. Each takes the already fetched list as `all`. */
module IndexPages {
  import opened Common
  import opened Text
  import opened Joins
  import opened Listing
  import opened OfficeService
  import opened CatalogService
  import opened EmployeeService
  import opened VoucherService
  import opened AssetService
  import opened EquipmentService
  import opened StockService

  /** `filters[key]` is truthy: present and not the empty "all" option. */
  predicate FilterSet(filters: map<string, string>, key: string)
  {
    key in filters && filters[key] != ""
  }

  /** `if (filters[key]) { rows = rows.filter(row => field(row) === filters[key]); }` as a
      test on one row. */
  predicate PassesFilter(filters: map<string, string>, key: string, field: string)
  {
    !FilterSet(filters, key) || field == filters[key]
  }

  // ----- AssetIndexPage -----

  /** The search of `fetchAssets`, which has no empty-term guard. */
  predicate AssetMatches(a: AssetWithDetails, term: string)
  {
    || IncludesCI(a.asset.name, term)
    || IncludesCI(a.asset.propertyCode, term)
    || IncludesCI(TypeLabel(a.asset.assetType), term)
    || IncludesCI(StatusLabel(a.asset.status), term)
    || IncludesCI(a.officeName, term)
    || IncludesCI(a.assignedToEmployeeName, term)
  }

  function AssetSearch(term: string): AssetWithDetails -> bool
  {
    (a: AssetWithDetails) => AssetMatches(a, term)
  }

  function AssetTypeIs(filters: map<string, string>): AssetWithDetails -> bool
  {
    (a: AssetWithDetails) => PassesFilter(filters, "type", TypeLabel(a.asset.assetType))
  }

  function AssetStatusIs(filters: map<string, string>): AssetWithDetails -> bool
  {
    (a: AssetWithDetails) => PassesFilter(filters, "status", StatusLabel(a.asset.status))
  }

  /** A row survives all three stages of `fetchAssets`. */
  predicate AssetPasses(a: AssetWithDetails, term: string, filters: map<string, string>)
  {
    AssetMatches(a, term) && PassesFilter(filters, "type", TypeLabel(a.asset.assetType))
    && PassesFilter(filters, "status", StatusLabel(a.asset.status))
  }

  function AssetPassesAll(term: string, filters: map<string, string>): AssetWithDetails -> bool
  {
    (a: AssetWithDetails) => AssetPasses(a, term, filters)
  }

  /** `let filtered = all.filter(search); if (filters.type) …; if (filters.status) …`. */
  function FilterAssets(all: seq<AssetWithDetails>, term: string, filters: map<string, string>): seq<AssetWithDetails>
  {
    var searched := Filter(all, AssetSearch(term));
    var byType := if FilterSet(filters, "type") then Filter(searched, AssetTypeIs(filters)) else searched;
    if FilterSet(filters, "status") then Filter(byType, AssetStatusIs(filters)) else byType
  }

  function FetchAssets(all: seq<AssetWithDetails>, page: int, pageSize: nat, term: string,
                       filters: map<string, string>): FetchResult<AssetWithDetails>
    requires pageSize >= 1
  {
    Paginate(FilterAssets(all, term, filters), page, pageSize)
  }

  /** The three stages amount to one order-preserving filter: a row is listed exactly when
      the term occurs in one of its six searched columns and it matches every set filter. */
  lemma AssetSearchExact(all: seq<AssetWithDetails>, term: string, filters: map<string, string>)
    ensures FilterAssets(all, term, filters) == Filter(all, AssetPassesAll(term, filters))
    ensures forall a :: a in FilterAssets(all, term, filters) <==> a in all && AssetPasses(a, term, filters)
  {
    var searched := Filter(all, AssetSearch(term));
    var both := (a: AssetWithDetails) => AssetMatches(a, term) && PassesFilter(filters, "type", TypeLabel(a.asset.assetType));
    var byType := if FilterSet(filters, "type") then Filter(searched, AssetTypeIs(filters)) else searched;
    FilterFilter(all, AssetSearch(term), AssetTypeIs(filters), both);
    assert byType == Filter(all, both) by {
      if !FilterSet(filters, "type") {
        FilterSame(all, AssetSearch(term), both);
      }
    }
    if FilterSet(filters, "status") {
      FilterFilter(all, both, AssetStatusIs(filters), AssetPassesAll(term, filters));
    } else {
      FilterSame(all, both, AssetPassesAll(term, filters));
    }
  }

  /** With an empty term and no filter set, every asset is listed in its original order. */
  lemma AssetEmptySearchKeepsAll(all: seq<AssetWithDetails>)
    ensures FilterAssets(all, "", map[]) == all
  {
    forall i | 0 <= i < |all| ensures AssetSearch("")(all[i]) {
      IncludesCIEmpty(all[i].asset.name);
    }
    FilterKeepsAll(all, AssetSearch(""));
  }

  /** What `fetchAssets` resolves with: at most `pageSize` listed rows, each of them a stored
      asset passing the search and filters; `totalPages` counts the pages of all such rows;
      pages `1..totalPages` concatenate to the filtered list. */
  lemma AssetPage(all: seq<AssetWithDetails>, page: int, pageSize: nat, term: string, filters: map<string, string>)
    requires pageSize >= 1
    ensures var r := FetchAssets(all, page, pageSize, term, filters);
      && |r.data| <= pageSize
      && (forall a :: a in r.data ==> a in all && AssetPasses(a, term, filters))
      && r.totalPages == CeilDiv(|Filter(all, AssetPassesAll(term, filters))|, pageSize)
      && PagesUpTo(FilterAssets(all, term, filters), pageSize, r.totalPages) == FilterAssets(all, term, filters)
  {
    AssetSearchExact(all, term, filters);
    PageShape(FilterAssets(all, term, filters), page, pageSize);
    PagesPartition(FilterAssets(all, term, filters), pageSize);
  }

  // ----- EquipmentIndexPage -----

  /** One instance against a non-empty term. Dereferencing a missing catalog item or office
      throws (`None`), but only when the evaluation of `||` reaches it. */
  function EquipmentMatches(term: string): InstanceDetails -> Option<bool>
  {
    (d: InstanceDetails) =>
      match d.catalogItem
      case None => None
      case Some(item) =>
        if IncludesCI(item.name, term) || IncludesCI(d.instance.propertyCode, term) || IncludesCI(d.instance.status, term)
        then Some(true)
        else
          match d.office
          case None => None
          case Some(office) =>
            Some(IncludesCI(office.officeName, term)
                 || (d.employee.Some? && IncludesCI(ListedFullName(d.employee.value), term)))
  }

  /** The search of the equipment page when nothing is dangling. */
  predicate EquipmentRowMatches(d: InstanceDetails, term: string)
    requires d.catalogItem.Some? && d.office.Some?
  {
    || IncludesCI(d.catalogItem.value.name, term)
    || IncludesCI(d.instance.propertyCode, term)
    || IncludesCI(d.instance.status, term)
    || IncludesCI(d.office.value.officeName, term)
    || (d.employee.Some? && IncludesCI(ListedFullName(d.employee.value), term))
  }

  /** `searchTerm ? all.filter(search) : all`; `None` when the filter throws. */
  function FilterInstances(all: seq<InstanceDetails>, term: string): Option<seq<InstanceDetails>>
  {
    if term == "" then Some(all) else FilterOpt(all, EquipmentMatches(term))
  }

  /** The fetch callback of the equipment page; `None` is a rejected promise. */
  function FetchInstances(all: seq<InstanceDetails>, page: int, pageSize: nat, term: string): Option<FetchResult<InstanceDetails>>
    requires pageSize >= 1
  {
    match FilterInstances(all, term)
    case None => None
    case Some(filtered) => Some(Paginate(filtered, page, pageSize))
  }

  /** Every instance has its catalog item and office. */
  predicate NothingDangling(all: seq<InstanceDetails>)
  {
    forall i :: 0 <= i < |all| ==> all[i].catalogItem.Some? && all[i].office.Some?
  }

  function EquipmentRowSearch(term: string): InstanceDetails -> bool
  {
    (d: InstanceDetails) => d.catalogItem.Some? && d.office.Some? && EquipmentRowMatches(d, term)
  }

  /** An empty term lists every instance. A non-empty term over a list with no dangling
      reference lists, in order, exactly the instances whose catalog name, property code,
      status, office name or assigned employee's full name contains it. */
  lemma EquipmentSearchExact(all: seq<InstanceDetails>, term: string)
    ensures term == "" ==> FilterInstances(all, term) == Some(all)
    ensures term != "" && NothingDangling(all) ==> FilterInstances(all, term) == Some(Filter(all, EquipmentRowSearch(term)))
  {
    if term != "" && NothingDangling(all) {
      FilterOptTotal(all, EquipmentMatches(term), EquipmentRowSearch(term));
    }
  }

  /** With a non-empty term, an instance with no catalog item makes the whole fetch reject. */
  lemma EquipmentMissingCatalogRejects(all: seq<InstanceDetails>, page: int, pageSize: nat, term: string, i: int)
    requires pageSize >= 1
    requires term != "" && 0 <= i < |all| && all[i].catalogItem.None?
    ensures FetchInstances(all, page, pageSize, term).None?
  {
    assert EquipmentMatches(term)(all[i]).None?;
  }

  /** A resolved equipment page holds at most `pageSize` instances, all from the list, and
      pages `1..totalPages` concatenate to the filtered list. */
  lemma EquipmentPage(all: seq<InstanceDetails>, page: int, pageSize: nat, term: string)
    requires pageSize >= 1
    ensures var r := FetchInstances(all, page, pageSize, term);
      r.Some? ==>
        && |r.value.data| <= pageSize
        && (forall d :: d in r.value.data ==> d in all)
        && (term == "" ==> r.value.totalPages == CeilDiv(|all|, pageSize))
        && PagesUpTo(FilterInstances(all, term).value, pageSize, r.value.totalPages) == FilterInstances(all, term).value
  {
    var f := FilterInstances(all, term);
    if f.Some? {
      PageShape(f.value, page, pageSize);
      PagesPartition(f.value, pageSize);
      var data := FetchInstances(all, page, pageSize, term).value.data;
      forall d | d in data ensures d in all {
        assert d in f.value;
      }
    }
  }

  // ----- StockIndexPage -----

  /** One stock row against a non-empty term: catalog name, then the SKU when it is truthy,
      then the office name; a missing catalog item or office throws when reached. */
  function StockMatches(term: string): DetailedStock -> Option<bool>
  {
    (d: DetailedStock) =>
      match d.catalogItem
      case None => None
      case Some(item) =>
        if IncludesCI(item.name, term) || (item.sku.Some? && item.sku.value != "" && IncludesCI(item.sku.value, term))
        then Some(true)
        else
          match d.office
          case None => None
          case Some(office) => Some(IncludesCI(office.officeName, term))
  }

  predicate StockRowMatches(d: DetailedStock, term: string)
  {
    && d.catalogItem.Some? && d.office.Some?
    && (|| IncludesCI(d.catalogItem.value.name, term)
        || (d.catalogItem.value.sku.Some? && d.catalogItem.value.sku.value != ""
            && IncludesCI(d.catalogItem.value.sku.value, term))
        || IncludesCI(d.office.value.officeName, term))
  }

  function StockRowSearch(term: string): DetailedStock -> bool
  {
    (d: DetailedStock) => StockRowMatches(d, term)
  }

  function FilterStock(all: seq<DetailedStock>, term: string): Option<seq<DetailedStock>>
  {
    if term == "" then Some(all) else FilterOpt(all, StockMatches(term))
  }

  function FetchStock(all: seq<DetailedStock>, page: int, pageSize: nat, term: string): Option<FetchResult<DetailedStock>>
    requires pageSize >= 1
  {
    match FilterStock(all, term)
    case None => None
    case Some(filtered) => Some(Paginate(filtered, page, pageSize))
  }

  /** An empty term lists every row; a non-empty term over rows that all have their office
      (the catalog item is always there on the supply rows) lists exactly the matching rows. */
  lemma StockSearchExact(all: seq<DetailedStock>, term: string)
    requires forall i :: 0 <= i < |all| ==> IsSupplyRow(all[i])
    ensures term == "" ==> FilterStock(all, term) == Some(all)
    ensures term != "" && (forall i :: 0 <= i < |all| ==> all[i].office.Some?) ==>
      FilterStock(all, term) == Some(Filter(all, StockRowSearch(term)))
  {
    if term != "" && (forall i :: 0 <= i < |all| ==> all[i].office.Some?) {
      FilterOptTotal(all, StockMatches(term), StockRowSearch(term));
    }
  }

  /** A resolved stock page holds at most `pageSize` rows from the list, in list order, and
      pages `1..totalPages` concatenate to the filtered list. */
  lemma StockPage(all: seq<DetailedStock>, page: int, pageSize: nat, term: string)
    requires pageSize >= 1
    ensures var r := FetchStock(all, page, pageSize, term);
      r.Some? ==>
        && |r.value.data| <= pageSize
        && (forall d :: d in r.value.data ==> d in all)
        && PagesUpTo(FilterStock(all, term).value, pageSize, r.value.totalPages) == FilterStock(all, term).value
  {
    var f := FilterStock(all, term);
    if f.Some? {
      PageShape(f.value, page, pageSize);
      PagesPartition(f.value, pageSize);
      var data := FetchStock(all, page, pageSize, term).value.data;
      forall d | d in data ensures d in all {
        assert d in f.value;
      }
    }
  }

  // ----- OfficeIndexPage -----

  /** `officeName` contains the term, or `address?.…includes(term)` is true. */
  predicate OfficeMatches(o: Office, term: string)
  {
    IncludesCI(o.officeName, term) || (o.address.Some? && IncludesCI(o.address.value, term))
  }

  function OfficeSearch(term: string): Office -> bool
  {
    (o: Office) => OfficeMatches(o, term)
  }

  function FetchOffices(all: seq<Office>, page: int, pageSize: nat, term: string): FetchResult<Office>
    requires pageSize >= 1
  {
    Paginate(Filter(all, OfficeSearch(term)), page, pageSize)
  }

  /** An office is listed exactly when the term occurs in its name or its address; an empty
      term lists every office. */
  lemma OfficeSearchExact(all: seq<Office>, term: string)
    ensures forall o :: o in Filter(all, OfficeSearch(term)) <==> o in all && OfficeMatches(o, term)
    ensures term == "" ==> Filter(all, OfficeSearch(term)) == all
  {
    if term == "" {
      forall i | 0 <= i < |all| ensures OfficeSearch(term)(all[i]) {
        IncludesCIEmpty(all[i].officeName);
      }
      FilterKeepsAll(all, OfficeSearch(term));
    }
  }

  /** An office page holds at most `pageSize` matching offices and pages `1..totalPages`
      concatenate to the filtered list. */
  lemma OfficePage(all: seq<Office>, page: int, pageSize: nat, term: string)
    requires pageSize >= 1
    ensures var r := FetchOffices(all, page, pageSize, term);
      && |r.data| <= pageSize
      && (forall o :: o in r.data ==> o in all && OfficeMatches(o, term))
      && PagesUpTo(Filter(all, OfficeSearch(term)), pageSize, r.totalPages) == Filter(all, OfficeSearch(term))
  {
    PageShape(Filter(all, OfficeSearch(term)), page, pageSize);
    PagesPartition(Filter(all, OfficeSearch(term)), pageSize);
    OfficeSearchExact(all, term);
  }

  // ----- AssetCatalogIndexPage -----

  /** `name` contains the term, or `sku?.…includes(term)` is true. */
  predicate CatalogMatches(c: CatalogItem, term: string)
  {
    IncludesCI(c.name, term) || (c.sku.Some? && IncludesCI(c.sku.value, term))
  }

  function CatalogSearch(term: string): CatalogItem -> bool
  {
    (c: CatalogItem) => CatalogMatches(c, term)
  }

  function CatalogTypeIs(filters: map<string, string>): CatalogItem -> bool
  {
    (c: CatalogItem) => PassesFilter(filters, "type", TypeLabel(c.itemType))
  }

  predicate CatalogPasses(c: CatalogItem, term: string, filters: map<string, string>)
  {
    CatalogMatches(c, term) && PassesFilter(filters, "type", TypeLabel(c.itemType))
  }

  function CatalogPassesAll(term: string, filters: map<string, string>): CatalogItem -> bool
  {
    (c: CatalogItem) => CatalogPasses(c, term, filters)
  }

  function FilterCatalog(all: seq<CatalogItem>, term: string, filters: map<string, string>): seq<CatalogItem>
  {
    var searched := Filter(all, CatalogSearch(term));
    if FilterSet(filters, "type") then Filter(searched, CatalogTypeIs(filters)) else searched
  }

  function FetchCatalog(all: seq<CatalogItem>, page: int, pageSize: nat, term: string,
                        filters: map<string, string>): FetchResult<CatalogItem>
    requires pageSize >= 1
  {
    Paginate(FilterCatalog(all, term, filters), page, pageSize)
  }

  /** The search and the type filter amount to one order-preserving filter: an item is
      listed exactly when the term occurs in its name or SKU and it has the filtered type. */
  lemma CatalogSearchExact(all: seq<CatalogItem>, term: string, filters: map<string, string>)
    ensures FilterCatalog(all, term, filters) == Filter(all, CatalogPassesAll(term, filters))
    ensures forall c :: c in FilterCatalog(all, term, filters) <==> c in all && CatalogPasses(c, term, filters)
    ensures term == "" && !FilterSet(filters, "type") ==> FilterCatalog(all, term, filters) == all
  {
    if FilterSet(filters, "type") {
      FilterFilter(all, CatalogSearch(term), CatalogTypeIs(filters), CatalogPassesAll(term, filters));
    } else {
      FilterSame(all, CatalogSearch(term), CatalogPassesAll(term, filters));
      if term == "" {
        forall i | 0 <= i < |all| ensures CatalogSearch(term)(all[i]) {
          IncludesCIEmpty(all[i].name);
        }
        FilterKeepsAll(all, CatalogSearch(term));
      }
    }
  }

  /** A catalog page holds at most `pageSize` listed items and pages `1..totalPages`
      concatenate to the filtered list. */
  lemma CatalogPage(all: seq<CatalogItem>, page: int, pageSize: nat, term: string, filters: map<string, string>)
    requires pageSize >= 1
    ensures var r := FetchCatalog(all, page, pageSize, term, filters);
      && |r.data| <= pageSize
      && (forall c :: c in r.data ==> c in all && CatalogPasses(c, term, filters))
      && PagesUpTo(FilterCatalog(all, term, filters), pageSize, r.totalPages) == FilterCatalog(all, term, filters)
  {
    CatalogSearchExact(all, term, filters);
    PageShape(FilterCatalog(all, term, filters), page, pageSize);
    PagesPartition(FilterCatalog(all, term, filters), pageSize);
  }

  // ----- EmployeeIndexPage -----

  /** "First Last", the email or the office name contains the term. */
  predicate EmployeeMatches(e: EmployeeWithOffice, term: string)
  {
    || IncludesCI(ListedFullName(e), term)
    || IncludesCI(e.employee.email, term)
    || IncludesCI(e.officeName, term)
  }

  function EmployeeSearch(term: string): EmployeeWithOffice -> bool
  {
    (e: EmployeeWithOffice) => EmployeeMatches(e, term)
  }

  function FetchEmployees(all: seq<EmployeeWithOffice>, page: int, pageSize: nat, term: string): FetchResult<EmployeeWithOffice>
    requires pageSize >= 1
  {
    Paginate(Filter(all, EmployeeSearch(term)), page, pageSize)
  }

  /** An employee is listed exactly when the term occurs in the full name, the email or the
      office name; an empty term lists everyone. */
  lemma EmployeeSearchExact(all: seq<EmployeeWithOffice>, term: string)
    ensures forall e :: e in Filter(all, EmployeeSearch(term)) <==> e in all && EmployeeMatches(e, term)
    ensures term == "" ==> Filter(all, EmployeeSearch(term)) == all
  {
    if term == "" {
      forall i | 0 <= i < |all| ensures EmployeeSearch(term)(all[i]) {
        IncludesCIEmpty(all[i].employee.email);
      }
      FilterKeepsAll(all, EmployeeSearch(term));
    }
  }

  /** An employee page holds at most `pageSize` matching employees and pages
      `1..totalPages` concatenate to the filtered list. */
  lemma EmployeePage(all: seq<EmployeeWithOffice>, page: int, pageSize: nat, term: string)
    requires pageSize >= 1
    ensures var r := FetchEmployees(all, page, pageSize, term);
      && |r.data| <= pageSize
      && (forall e :: e in r.data ==> e in all && EmployeeMatches(e, term))
      && PagesUpTo(Filter(all, EmployeeSearch(term)), pageSize, r.totalPages) == Filter(all, EmployeeSearch(term))
  {
    PageShape(Filter(all, EmployeeSearch(term)), page, pageSize);
    PagesPartition(Filter(all, EmployeeSearch(term)), pageSize);
  }

  // ----- ReceivingVoucherIndexPage -----

  /** The voucher page ignores the search term. */
  function FetchVouchers(all: seq<DetailedVoucher>, page: int, pageSize: nat, term: string): FetchResult<DetailedVoucher>
    requires pageSize >= 1
  {
    Paginate(all, page, pageSize)
  }

  /** Whatever the term, the voucher pages are the pages of the whole list, and pages
      `1..totalPages` concatenate to it. */
  lemma VoucherPages(all: seq<DetailedVoucher>, page: int, pageSize: nat, term: string)
    requires pageSize >= 1
    ensures FetchVouchers(all, page, pageSize, term) == FetchVouchers(all, page, pageSize, "")
    ensures var r := FetchVouchers(all, page, pageSize, term);
      && |r.data| <= pageSize
      && r.totalPages == CeilDiv(|all|, pageSize)
      && PagesUpTo(all, pageSize, r.totalPages) == all
  {
    PageShape(all, page, pageSize);
    PagesPartition(all, pageSize);
  }
}
