// The users page: page, size, keyword and sort state changed by the handlers,
// the sort-arrow shown in the column headers, the list answer's defaults, and
// the ban/unban confirmation flow.

module Users {
  import opened Wrappers
  import opened AntTable

  datatype User = User(idUser: string, email: string)

  // ---------------------------------------------------------------------
  // Sort state
  // ---------------------------------------------------------------------

  /** The arrow a column header shows: ↓ or ↑ on the sorted column, nothing elsewhere. */
  function SortIcon(sortBy: string, sortDesc: bool, field: string): (icon: Option<string>)
    ensures icon.Some? <==> field == sortBy
    ensures icon == Some("↓") <==> field == sortBy && sortDesc
    ensures icon == Some("↑") <==> field == sortBy && !sortDesc
  {
    if sortBy == field then Some(if sortDesc then "↓" else "↑") else None
  }

  /** `handleSort`: the sorted column flips its direction; another column becomes sorted, descending. */
  function SortClick(sortBy: string, sortDesc: bool, field: string): (r: (string, bool))
    ensures r.0 == field
    ensures field == sortBy ==> r.1 == !sortDesc
    ensures field != sortBy ==> r.1
  {
    if sortBy == field then (sortBy, !sortDesc) else (field, true)
  }

  /** Clicking the sorted column twice restores its direction; a new column clicked twice ends ascending. */
  lemma SortClickTwice(sortBy: string, sortDesc: bool, field: string)
    ensures var once := SortClick(sortBy, sortDesc, field);
            var twice := SortClick(once.0, once.1, field);
            && (field == sortBy ==> twice == (sortBy, sortDesc))
            && (field != sortBy ==> twice == (field, false))
  {
  }

  /** After a click, only the clicked column shows an arrow, pointing the way it now sorts. */
  lemma SortClickIcon(sortBy: string, sortDesc: bool, field: string, other: string)
    ensures var r := SortClick(sortBy, sortDesc, field);
            && SortIcon(r.0, r.1, field) == Some(if r.1 then "↓" else "↑")
            && (other != field ==> SortIcon(r.0, r.1, other).None?)
  {
  }

  // ---------------------------------------------------------------------
  // The table's sorter
  // ---------------------------------------------------------------------

  function SorterOrder(s: Option<Sorter>): Option<string> {
    if s.Some? then s.value.order else None
  }

  /** `sort?.field ?? ""`: only a missing field becomes the empty column name. */
  function SortField(s: Option<Sorter>): (f: string)
    ensures s.Some? && s.value.field.Some? ==> f == s.value.field.value
    ensures s.None? || s.value.field.None? ==> f == ""
  {
    if s.Some? && s.value.field.Some? then s.value.field.value else ""
  }

  /** The table's direction as written: descending exactly when antd reports "ascend". */
  function TableSortDescAsWritten(order: Option<string>): bool {
    order == Some("ascend")
  }

  /** Sorting a column ascending in the table shows the descending arrow and asks for a descending list. */
  lemma AscendShowsDescending(field: string)
    ensures TableSortDescAsWritten(Some("ascend"))
    ensures SortIcon(field, TableSortDescAsWritten(Some("ascend")), field) == Some("↓")
    ensures !TableSortDescAsWritten(Some("descend"))
  {
  }

  /** The table's direction as intended: descending exactly when antd reports "descend". */
  function TableSortDesc(order: Option<string>): (desc: bool)
    ensures desc <==> order == Some("descend")
  {
    order == Some("descend")
  }

  /** With the intended mapping the header arrow agrees with antd's order. */
  lemma TableSortIconAgrees(field: string, order: Option<string>)
    requires order == Some("ascend") || order == Some("descend")
    ensures SortIcon(field, TableSortDesc(order), field) == Some(if order == Some("descend") then "↓" else "↑")
    ensures TableSortDesc(order) != TableSortDescAsWritten(order)
  {
  }

  /**
   * What antd hands over when no column declares `sorter`: no sorter at all,
   * or one whose field and order are both `undefined`.
   */
  predicate NoColumnSorter(arg: SorterArg) {
    var s := ActiveSorter(arg);
    s.None? || (s.value.field.None? && s.value.order.None?)
  }

  /**
   * A pager change on a table whose columns declare no `sorter` clears the
   * sort: the column becomes "" and the direction ascending, whichever
   * direction mapping is used, so a sort chosen by a header click is lost.
   */
  lemma PagerDropsHeaderSort(sortBy: string, sortDesc: bool, field: string, sorter: SorterArg)
    requires NoColumnSorter(sorter) && field != ""
    ensures SortField(ActiveSorter(sorter)) == ""
    ensures !TableSortDesc(SorterOrder(ActiveSorter(sorter)))
    ensures TableSortDesc(SorterOrder(ActiveSorter(sorter))) == TableSortDescAsWritten(SorterOrder(ActiveSorter(sorter)))
    ensures SortField(ActiveSorter(sorter)) != SortClick(sortBy, sortDesc, field).0
  {
  }

  /** The list answer: `data` and `total` may be missing; a throw (also from a missing body) is `UsersThrown`. */
  datatype UsersReply = UsersThrown | UsersAnswered(data: Option<seq<User>>, total: Option<int>)

  /** Everything the page holds, as one value. */
  datatype PageState = PageState(
    page: int, itemsPerPage: int, search: string, sortBy: string, sortDesc: bool,
    loading: bool, users: seq<User>, total: int,
    isBanModalVisible: bool, isUnbanModalVisible: bool, targetUserId: string)

  class UsersPage {
    var page: int
    var itemsPerPage: int
    var search: string
    var sortBy: string
    var sortDesc: bool
    var loading: bool
    var users: seq<User>
    var total: int
    var isBanModalVisible: bool
    var isUnbanModalVisible: bool
    var targetUserId: string

    constructor ()
      ensures page == 1 && itemsPerPage == 10 && search == ""
      ensures sortBy == "id_user" && sortDesc
      ensures loading && users == [] && total == 0
      ensures !isBanModalVisible && !isUnbanModalVisible && targetUserId == ""
    {
      page, itemsPerPage, search := 1, 10, "";
      sortBy, sortDesc := "id_user", true;
      loading, users, total := true, [], 0;
      isBanModalVisible, isUnbanModalVisible, targetUserId := false, false, "";
    }

    function State(): PageState
      reads this
    {
      PageState(page, itemsPerPage, search, sortBy, sortDesc, loading, users, total,
                isBanModalVisible, isUnbanModalVisible, targetUserId)
    }

    function GetSortIcon(field: string): (icon: Option<string>)
      reads this
      ensures icon == SortIcon(sortBy, sortDesc, field)
    {
      if sortBy == field then Some(if sortDesc then "↓" else "↑") else None
    }

    method HandleSort(field: string)
      modifies this
      ensures (sortBy, sortDesc) == SortClick(old(sortBy), old(sortDesc), field)
      ensures page == old(page) && itemsPerPage == old(itemsPerPage) && search == old(search)
      ensures users == old(users) && total == old(total) && loading == old(loading)
      ensures isBanModalVisible == old(isBanModalVisible) && isUnbanModalVisible == old(isUnbanModalVisible)
      ensures targetUserId == old(targetUserId)
    {
      if sortBy == field {
        sortDesc := !sortDesc;
      } else {
        sortBy := field;
        sortDesc := true;
      }
    }

    /**
     * `handleTableChange`: page and size with the defaults 1 and 20, the
     * active sorter's field (or ""), and its direction through the intended
     * mapping; the keyword is kept.
     */
    method HandleTableChange(current: Option<int>, pageSize: Option<int>, sorter: SorterArg)
      modifies this
      ensures page == OrDefault(current, 1) && itemsPerPage == OrDefault(pageSize, 20)
      ensures sortBy == SortField(ActiveSorter(sorter))
      ensures sortDesc <==> SorterOrder(ActiveSorter(sorter)) == Some("descend")
      ensures NoColumnSorter(sorter) ==> sortBy == "" && !sortDesc
      ensures search == old(search) && users == old(users) && total == old(total) && loading == old(loading)
      ensures isBanModalVisible == old(isBanModalVisible) && isUnbanModalVisible == old(isUnbanModalVisible)
      ensures targetUserId == old(targetUserId)
    {
      var sort := ActiveSorter(sorter);
      page := OrDefault(current, 1);
      itemsPerPage := OrDefault(pageSize, 20);
      sortBy := SortField(sort);
      sortDesc := TableSortDesc(SorterOrder(sort));
    }

    method HandleSearch(value: string)
      modifies this
      ensures search == value && page == 1
      ensures itemsPerPage == old(itemsPerPage) && sortBy == old(sortBy) && sortDesc == old(sortDesc)
      ensures users == old(users) && total == old(total) && loading == old(loading)
      ensures isBanModalVisible == old(isBanModalVisible) && isUnbanModalVisible == old(isUnbanModalVisible)
      ensures targetUserId == old(targetUserId)
    {
      search := value;
      page := 1;
    }

    /** `fetchUsers`: a missing list becomes empty and a missing or zero total becomes 0; loading ends either way. */
    method FetchUsers(reply: UsersReply)
      modifies this
      ensures !loading
      ensures reply.UsersAnswered? ==>
                users == (if reply.data.Some? then reply.data.value else [])
                && total == (if reply.total.Some? then reply.total.value else 0)
      ensures reply.UsersThrown? ==> users == old(users) && total == old(total)
      ensures page == old(page) && search == old(search) && sortBy == old(sortBy) && sortDesc == old(sortDesc)
      ensures State() == old(State()).(users := users, total := total, loading := false)
    {
      loading := true;
      if reply.UsersAnswered? {
        users := if reply.data.Some? then reply.data.value else [];
        total := OrDefault(reply.total, 0);
      }
      loading := false;
    }

    method BanAccount(id: string)
      modifies this
      ensures targetUserId == id && isBanModalVisible
      ensures isUnbanModalVisible == old(isUnbanModalVisible) && users == old(users)
      ensures State() == old(State()).(targetUserId := id, isBanModalVisible := true)
    {
      targetUserId := id;
      isBanModalVisible := true;
    }

    method UnbanAccount(id: string)
      modifies this
      ensures targetUserId == id && isUnbanModalVisible
      ensures isBanModalVisible == old(isBanModalVisible) && users == old(users)
      ensures State() == old(State()).(targetUserId := id, isUnbanModalVisible := true)
    {
      targetUserId := id;
      isUnbanModalVisible := true;
    }

    /** `handleBan`: only a call that does not throw closes the dialog and asks for a re-fetch. */
    method HandleBan(threw: bool) returns (refetch: bool)
      modifies this
      ensures refetch <==> !threw
      ensures isBanModalVisible == (if threw then old(isBanModalVisible) else false)
      ensures targetUserId == old(targetUserId) && users == old(users) && total == old(total)
      ensures State() == old(State()).(isBanModalVisible := isBanModalVisible)
    {
      refetch := false;
      if !threw {
        isBanModalVisible := false;
        refetch := true;
      }
    }

    method HandleUnban(threw: bool) returns (refetch: bool)
      modifies this
      ensures refetch <==> !threw
      ensures isUnbanModalVisible == (if threw then old(isUnbanModalVisible) else false)
      ensures targetUserId == old(targetUserId) && users == old(users) && total == old(total)
      ensures State() == old(State()).(isUnbanModalVisible := isUnbanModalVisible)
    {
      refetch := false;
      if !threw {
        isUnbanModalVisible := false;
        refetch := true;
      }
    }
  }
}
