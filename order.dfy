// The orders page: the query record (`UserOrderDTO`) its handlers replace, the
// order list replaced by a 200 answer, and the package columns, which pick the
// first present of the main, extra and combo package.

module Orders {
  import opened Wrappers
  import opened AntTable

  /** The part of a package the page shows. */
  datatype Package = Package(name: string)

  /** An order as the list answer carries it; a `null` package is `None`. */
  datatype Order = Order(idOrder: string, packageMain: Option<Package>, packageExtra: Option<Package>, packageCombo: Option<Package>)

  datatype PackageKind = MainKind | ExtraKind | ComboKind

  // ---------------------------------------------------------------------
  // Package precedence
  // ---------------------------------------------------------------------

  /** The packages of an order with their kinds, in precedence order: main, extra, combo. */
  function Slots(o: Order): seq<(PackageKind, Option<Package>)> {
    [(MainKind, o.packageMain), (ExtraKind, o.packageExtra), (ComboKind, o.packageCombo)]
  }

  /** The first slot holding a package, scanning in order. */
  function FirstPresent(slots: seq<(PackageKind, Option<Package>)>): Option<(PackageKind, Package)>
    decreases |slots|
  {
    if slots == [] then None
    else if slots[0].1.Some? then Some((slots[0].0, slots[0].1.value))
    else FirstPresent(slots[1..])
  }

  function KindLabel(k: PackageKind): string {
    match k
    case MainKind => "Main Package"
    case ExtraKind => "Extra Package"
    case ComboKind => "Combo Package"
  }

  /** The "Package type" column. */
  function PackageType(o: Order): (t: string)
    ensures t == "Main Package" <==> o.packageMain.Some?
    ensures t == "Extra Package" <==> o.packageMain.None? && o.packageExtra.Some?
    ensures t == "Combo Package" <==> o.packageMain.None? && o.packageExtra.None? && o.packageCombo.Some?
    ensures t == "" <==> o.packageMain.None? && o.packageExtra.None? && o.packageCombo.None?
  {
    if o.packageMain.Some? then "Main Package"
    else if o.packageExtra.Some? then "Extra Package"
    else if o.packageCombo.Some? then "Combo Package"
    else ""
  }

  /** The "Package" column. */
  function PackageName(o: Order): (n: string)
    ensures o.packageMain.Some? ==> n == o.packageMain.value.name
    ensures o.packageMain.None? && o.packageExtra.Some? ==> n == o.packageExtra.value.name
    ensures o.packageMain.None? && o.packageExtra.None? && o.packageCombo.Some? ==> n == o.packageCombo.value.name
    ensures o.packageMain.None? && o.packageExtra.None? && o.packageCombo.None? ==> n == ""
  {
    if o.packageMain.Some? then o.packageMain.value.name
    else if o.packageExtra.Some? then o.packageExtra.value.name
    else if o.packageCombo.Some? then o.packageCombo.value.name
    else ""
  }

  /** Both columns describe the same package: the first present one in the order main, extra, combo. */
  lemma ColumnsAgree(o: Order)
    ensures FirstPresent(Slots(o)).None? ==> PackageType(o) == "" && PackageName(o) == ""
    ensures FirstPresent(Slots(o)).Some? ==>
              PackageType(o) == KindLabel(FirstPresent(Slots(o)).value.0)
              && PackageName(o) == FirstPresent(Slots(o)).value.1.name
  {
    var s := Slots(o);
    var rest := [(ExtraKind, o.packageExtra), (ComboKind, o.packageCombo)];
    var last := [(ComboKind, o.packageCombo)];
    assert s[1..] == rest && rest[1..] == last && last[1..] == [];
    assert FirstPresent(last) == if o.packageCombo.Some? then Some((ComboKind, o.packageCombo.value)) else None;
    assert FirstPresent(rest) == if o.packageExtra.Some? then Some((ExtraKind, o.packageExtra.value)) else FirstPresent(last);
  }

  /** The detail tab's "Package Type" line as written: its last branch has no emptiness test. */
  function DetailPackageTypeAsWritten(o: Order): string {
    if o.packageMain.Some? then "Main Package"
    else if o.packageExtra.Some? then "Extra Package"
    else "Combo Package"
  }

  /** An order with no package at all: the table says "" but the detail tab says "Combo Package". */
  lemma DetailDisagreesWithoutPackage()
    ensures var o := Order("1", None, None, None);
            DetailPackageTypeAsWritten(o) == "Combo Package" && PackageType(o) == ""
  {
  }

  /** The detail tab's "Package Type" line as intended: the same chain as its own "Package Name" line. */
  function DetailPackageType(o: Order): (t: string)
    ensures t == PackageType(o)
    ensures o.packageMain.None? && o.packageExtra.None? && o.packageCombo.None? ==> t == ""
  {
    if o.packageMain.Some? then "Main Package"
    else if o.packageExtra.Some? then "Extra Package"
    else if o.packageCombo.Some? then "Combo Package"
    else ""
  }

  /** The corrected line differs from the written one exactly on orders without any package. */
  lemma DetailFixOnlyForNoPackage(o: Order)
    ensures DetailPackageType(o) != DetailPackageTypeAsWritten(o)
            <==> o.packageMain.None? && o.packageExtra.None? && o.packageCombo.None?
  {
  }

  // ---------------------------------------------------------------------
  // The query record and its handlers
  // ---------------------------------------------------------------------

  datatype SortDirection = Asc | Desc
  datatype PackageFilter = All | MainOnly | ExtraOnly | ComboOnly

  /** `UserOrderDTO`; `type` is `None` after the package select is cleared. */
  datatype OrderQuery = OrderQuery(
    page: int,
    itemsPerPage: int,
    search: Option<string>,
    sortBy: Option<string>,
    sortDirection: Option<SortDirection>,
    packageType: Option<PackageFilter>)

  const InitialQuery := OrderQuery(1, 10, None, None, None, Some(All))

  /** antd's `ascend`/`descend` to the backend's `ASC`/`DESC`; anything else clears the direction. */
  function MapOrder(order: Option<string>): (d: Option<SortDirection>)
    ensures d == Some(Asc) <==> order == Some("ascend")
    ensures d == Some(Desc) <==> order == Some("descend")
    ensures d.None? <==> order != Some("ascend") && order != Some("descend")
  {
    if order == Some("ascend") then Some(Asc)
    else if order == Some("descend") then Some(Desc)
    else None
  }

  /** `field || null`: an absent or empty field becomes `null`. */
  function FieldOrNull(field: Option<string>): (r: Option<string>)
    ensures r.Some? <==> field.Some? && field.value != ""
    ensures r.Some? ==> r == field
  {
    if field.Some? && field.value != "" then field else None
  }

  datatype OrdersReply = OrdersThrown | OrdersAnswered(status: int, data: seq<Order>, total: int)

  /** Everything the page holds, as one value. */
  datatype PageState = PageState(
    query: OrderQuery, userOrders: seq<Order>, totalOrders: int,
    selectedOrder: Option<Order>, isModalVisible: bool)

  class OrderPage {
    var query: OrderQuery
    var userOrders: seq<Order>
    var totalOrders: int
    var selectedOrder: Option<Order>
    var isModalVisible: bool

    constructor ()
      ensures query == InitialQuery && userOrders == [] && totalOrders == 0
      ensures selectedOrder.None? && !isModalVisible
    {
      query := InitialQuery;
      userOrders, totalOrders := [], 0;
      selectedOrder, isModalVisible := None, false;
    }

    function State(): PageState
      reads this
    {
      PageState(query, userOrders, totalOrders, selectedOrder, isModalVisible)
    }

    /** A search sets the keyword and goes back to page 1. */
    method HandleSearch(value: string)
      modifies this
      ensures query == old(query).(search := Some(value), page := 1)
      ensures State() == old(State()).(query := query)
      ensures userOrders == old(userOrders) && totalOrders == old(totalOrders)
      ensures selectedOrder == old(selectedOrder) && isModalVisible == old(isModalVisible)
    {
      query := query.(search := Some(value), page := 1);
    }

    /** A package-type choice sets the type and goes back to page 1. */
    method HandlePackageChange(value: Option<PackageFilter>)
      modifies this
      ensures query == old(query).(packageType := value, page := 1)
      ensures State() == old(State()).(query := query)
      ensures userOrders == old(userOrders) && totalOrders == old(totalOrders)
      ensures selectedOrder == old(selectedOrder) && isModalVisible == old(isModalVisible)
    {
      query := query.(packageType := value, page := 1);
    }

    /**
     * `handleTableChange`: page and size with the defaults 1 and 10, the
     * active sorter's field and direction; keyword and type are kept.
     */
    method HandleTableChange(current: Option<int>, pageSize: Option<int>, sorter: SorterArg)
      modifies this
      ensures query.page == OrDefault(current, 1) && query.itemsPerPage == OrDefault(pageSize, 10)
      ensures ActiveSorter(sorter).None? ==> query.sortBy.None? && query.sortDirection.None?
      ensures ActiveSorter(sorter).Some? ==>
                query.sortBy == FieldOrNull(ActiveSorter(sorter).value.field)
                && query.sortDirection == MapOrder(ActiveSorter(sorter).value.order)
      ensures query.search == old(query).search && query.packageType == old(query).packageType
      ensures State() == old(State()).(query := query)
      ensures userOrders == old(userOrders) && totalOrders == old(totalOrders)
      ensures selectedOrder == old(selectedOrder) && isModalVisible == old(isModalVisible)
    {
      var sort := ActiveSorter(sorter);
      var field := if sort.Some? then sort.value.field else None;
      var order := if sort.Some? then sort.value.order else None;
      query := query.(page := OrDefault(current, 1), itemsPerPage := OrDefault(pageSize, 10),
                      sortBy := FieldOrNull(field), sortDirection := MapOrder(order));
    }

    /** `getListUserOrders`: the list and the total are replaced together, only by a 200 answer. */
    method GetListUserOrders(reply: OrdersReply)
      modifies this
      ensures reply.OrdersAnswered? && reply.status == 200 ==> userOrders == reply.data && totalOrders == reply.total
      ensures !(reply.OrdersAnswered? && reply.status == 200) ==> userOrders == old(userOrders) && totalOrders == old(totalOrders)
      ensures query == old(query)
      ensures selectedOrder == old(selectedOrder) && isModalVisible == old(isModalVisible)
      ensures State() == old(State()).(userOrders := userOrders, totalOrders := totalOrders)
    {
      if reply.OrdersAnswered? && reply.status == 200 {
        userOrders := reply.data;
        totalOrders := reply.total;
      }
    }

    method ShowOrderDetails(o: Order)
      modifies this
      ensures selectedOrder == Some(o) && isModalVisible
      ensures query == old(query) && userOrders == old(userOrders) && totalOrders == old(totalOrders)
      ensures State() == old(State()).(selectedOrder := Some(o), isModalVisible := true)
    {
      selectedOrder := Some(o);
      isModalVisible := true;
    }

    method HandleModalClose()
      modifies this
      ensures selectedOrder.None? && !isModalVisible
      ensures query == old(query) && userOrders == old(userOrders) && totalOrders == old(totalOrders)
      ensures State() == old(State()).(selectedOrder := None, isModalVisible := false)
    {
      isModalVisible := false;
      selectedOrder := None;
    }

    /** The detail tab's type line for the open order, with the corrected chain. */
    function DetailType(): (t: Option<string>)
      reads this
      ensures t.Some? <==> selectedOrder.Some?
      ensures selectedOrder.Some? ==> t.value == PackageType(selectedOrder.value)
    {
      if selectedOrder.Some? then Some(DetailPackageType(selectedOrder.value)) else None
    }
  }
}
