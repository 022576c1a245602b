// The package tabs keep the fetched page of packages in memory and patch it
// after the server confirms a change instead of fetching it again: delete
// filters by id, update maps the matching id to the server's record, create
// appends it. Prices come back as numbers and are shown as `"$<n>.00"`; the
// edit form reads them back with `parseInt(price.slice(1))`.

module PackageLists {
  import opened Wrappers
  import opened Text

  /** `xs.filter(x => idOf(x) !== id)`. */
  function RemoveId<P(!new)>(xs: seq<P>, id: int, idOf: P -> int): (r: seq<P>)
    ensures |r| <= |xs|
  {
    if xs == [] then []
    else (if idOf(xs[0]) != id then [xs[0]] else []) + RemoveId(xs[1..], id, idOf)
  }

  /** Deleting keeps exactly the entries whose id differs. */
  lemma {:induction false} RemoveIdMembers<P(!new)>(xs: seq<P>, id: int, idOf: P -> int)
    ensures forall x :: x in RemoveId(xs, id, idOf) <==> x in xs && idOf(x) != id
    decreases |xs|
  {
    if xs != [] {
      RemoveIdMembers(xs[1..], id, idOf);
      assert xs == [xs[0]] + xs[1..];
    }
  }

  /** `xs.map(x => idOf(x) === id ? replacement : x)`. */
  function ReplaceId<P>(xs: seq<P>, id: int, replacement: P, idOf: P -> int): (r: seq<P>)
    ensures |r| == |xs|
    ensures forall i :: 0 <= i < |xs| ==> r[i] == if idOf(xs[i]) == id then replacement else xs[i]
  {
    if xs == [] then []
    else [if idOf(xs[0]) == id then replacement else xs[0]] + ReplaceId(xs[1..], id, replacement, idOf)
  }

  /** Deleting keeps the survivors in their order: filtering a concatenation filters each part. */
  lemma {:induction false} RemoveIdAppend<P(!new)>(xs: seq<P>, ys: seq<P>, id: int, idOf: P -> int)
    ensures RemoveId(xs + ys, id, idOf) == RemoveId(xs, id, idOf) + RemoveId(ys, id, idOf)
    decreases |xs|
  {
    if xs == [] {
      assert xs + ys == ys;
    } else {
      var head := if idOf(xs[0]) != id then [xs[0]] else [];
      assert (xs + ys)[0] == xs[0] && (xs + ys)[1..] == xs[1..] + ys;
      RemoveIdAppend(xs[1..], ys, id, idOf);
      calc {
        RemoveId(xs + ys, id, idOf);
        head + RemoveId(xs[1..] + ys, id, idOf);
        head + (RemoveId(xs[1..], id, idOf) + RemoveId(ys, id, idOf));
        (head + RemoveId(xs[1..], id, idOf)) + RemoveId(ys, id, idOf);
      }
    }
  }

  /** A list without the id is left exactly as it was. */
  lemma {:induction false} RemoveAbsentId<P(!new)>(xs: seq<P>, id: int, idOf: P -> int)
    requires forall i :: 0 <= i < |xs| ==> idOf(xs[i]) != id
    ensures RemoveId(xs, id, idOf) == xs
    decreases |xs|
  {
    if xs != [] {
      RemoveAbsentId(xs[1..], id, idOf);
    }
  }

  /** Deleting twice removes nothing more. */
  lemma {:induction false} RemoveIdIdempotent<P(!new)>(xs: seq<P>, id: int, idOf: P -> int)
    ensures RemoveId(RemoveId(xs, id, idOf), id, idOf) == RemoveId(xs, id, idOf)
  {
    var r := RemoveId(xs, id, idOf);
    RemoveIdMembers(xs, id, idOf);
    assert forall i :: 0 <= i < |r| ==> r[i] in r;
    RemoveAbsentId(r, id, idOf);
  }

  /** An update touches only the entries with its id: every other entry is kept, in order. */
  lemma {:induction false} ReplaceIdKeepsOthers<P(!new)>(xs: seq<P>, id: int, replacement: P, idOf: P -> int)
    requires idOf(replacement) == id
    ensures RemoveId(ReplaceId(xs, id, replacement, idOf), id, idOf) == RemoveId(xs, id, idOf)
    decreases |xs|
  {
    if xs != [] {
      ReplaceIdKeepsOthers(xs[1..], id, replacement, idOf);
    }
  }

  /** The displayed price: `` `$${price}.00` ``. */
  function FormatPrice(price: nat): (s: string)
    ensures |s| >= 5 && s[0] == '$' && s[|s| - 3..] == ".00"
  {
    "$" + NatToString(price) + ".00"
  }

  /** The edit form's price: `parseInt(price.slice(1))`; `None` is `NaN`. */
  function EditPrice(display: string): (p: Option<nat>)
    ensures p.None? <==> |display| <= 1 || !IsDigit(display[1])
  {
    ParseInt(if display == [] then [] else display[1..])
  }

  /** A price shown by the list is read back unchanged by the edit form. */
  lemma PriceRoundTrip(price: nat)
    ensures EditPrice(FormatPrice(price)) == Some(price)
  {
    var s := FormatPrice(price);
    assert s[1..] == NatToString(price) + ".00";
    ParseIntOfNumber(price, ".00");
  }

  /** How a request the handler chains `.then` onto ended. */
  datatype Settled = Resolved | Rejected

  /** The list request the page's effect sends. */
  datatype PackagesQuery = PackagesQuery(page: int, itemsPerPage: int, search: string, sortBy: string, sortDesc: bool)
}

module MainPackages {
  import opened Wrappers
  import opened PackageLists

  /** A main package as the server returns it after an update or create. */
  datatype MainRecord = MainRecord(
    idMainPackage: int, name: string, description: Option<string>, price: nat,
    durationMonths: int, isActive: bool)

  /** A main package as the table holds it, with its price already formatted. */
  datatype MainPackage = MainPackage(
    idMainPackage: int, name: string, description: Option<string>, price: string,
    durationMonths: int, isActive: bool)

  function MainId(p: MainPackage): int { p.idMainPackage }

  /** `{...record, price: `$${record.price}.00`}`. */
  function Priced(r: MainRecord): (p: MainPackage)
    ensures p.idMainPackage == r.idMainPackage && p.price == FormatPrice(r.price)
    ensures EditPrice(p.price) == Some(r.price)
  {
    PriceRoundTrip(r.price);
    MainPackage(r.idMainPackage, r.name, r.description, FormatPrice(r.price), r.durationMonths, r.isActive)
  }

  /** How an update or create ended: rejected (or the form did not validate), or resolved with `data.data`. */
  datatype RecordReply = Failed | Returned(data: Option<MainRecord>)

  /** Everything the tab holds, as one value, so that a handler can state its whole new state. */
  datatype TabState = TabState(
    mainPackage: seq<MainPackage>, mainPage: int, mainItemsPerPage: int, searchText: string,
    selected: Option<MainPackage>, formPrice: Option<nat>,
    isEditModalVisible: bool, isDeleteModalVisible: bool, isCreateModalVisible: bool,
    renderCrashed: bool)

  class MainPackageTab {
    var mainPackage: seq<MainPackage>
    var mainPage: int
    var mainItemsPerPage: int
    var searchText: string
    var selected: Option<MainPackage>
    var formPrice: Option<nat>
    var isEditModalVisible: bool
    var isDeleteModalVisible: bool
    var isCreateModalVisible: bool
    /** A state updater queued by a handler throws when React next renders the tab. */
    var renderCrashed: bool

    constructor ()
      ensures mainPackage == [] && mainPage == 1 && mainItemsPerPage == 10 && searchText == ""
      ensures selected.None? && !isEditModalVisible && !isDeleteModalVisible && !isCreateModalVisible
      ensures !renderCrashed
    {
      mainPackage, mainPage, mainItemsPerPage, searchText := [], 1, 10, "";
      selected, formPrice := None, None;
      isEditModalVisible, isDeleteModalVisible, isCreateModalVisible := false, false, false;
      renderCrashed := false;
    }

    function State(): TabState
      reads this
    {
      TabState(mainPackage, mainPage, mainItemsPerPage, searchText, selected, formPrice,
               isEditModalVisible, isDeleteModalVisible, isCreateModalVisible, renderCrashed)
    }

    /** The request the list effect sends for the current state. */
    function Query(): (q: PackagesQuery)
      reads this
      ensures q.page == mainPage && q.itemsPerPage == mainItemsPerPage && q.search == searchText
      ensures q.sortBy == "id_main_package" && q.sortDesc
    {
      PackagesQuery(mainPage, mainItemsPerPage, searchText, "id_main_package", true)
    }

    /** The `total` handed to the pagination control. */
    function PaginationTotal(): (n: nat)
      reads this
      ensures n == |mainPackage|
    {
      |mainPackage|
    }

    /** `handleSearch`: new search text, back to page 1. */
    method HandleSearch(value: string)
      modifies this
      ensures searchText == value && mainPage == 1
      ensures State() == old(State()).(searchText := value, mainPage := 1)
      ensures Query() == old(Query()).(page := 1, search := value)
    {
      searchText := value;
      mainPage := 1;
    }

    /** `handlePageChange`: page and page size, nothing else. */
    method HandlePageChange(page: int, pageSize: int)
      modifies this
      ensures mainPage == page && mainItemsPerPage == pageSize
      ensures State() == old(State()).(mainPage := page, mainItemsPerPage := pageSize)
      ensures Query() == old(Query()).(page := page, itemsPerPage := pageSize)
    {
      mainPage := page;
      mainItemsPerPage := pageSize;
    }

    /** `handleEditButtonClick`: load the form (price parsed back) and open the edit modal. */
    method HandleEditButtonClick(record: MainPackage)
      modifies this
      ensures selected == Some(record) && isEditModalVisible
      ensures formPrice == EditPrice(record.price)
      ensures State() == old(State()).(formPrice := EditPrice(record.price), selected := Some(record), isEditModalVisible := true)
    {
      formPrice := EditPrice(record.price);
      selected := Some(record);
      isEditModalVisible := true;
    }

    /** `handleDeleteButtonClick`. */
    method HandleDeleteButtonClick(record: MainPackage)
      modifies this
      ensures selected == Some(record) && isDeleteModalVisible
      ensures State() == old(State()).(isDeleteModalVisible := true, selected := Some(record))
    {
      isDeleteModalVisible := true;
      selected := Some(record);
    }

    /**
     * `handleDeleteOk`: once the delete resolves, drop every entry with the
     * selected id and close the modal; a rejection changes nothing. With no
     * selection the id compared against is `undefined`, which no entry has.
     */
    method HandleDeleteOk(outcome: Settled)
      modifies this
      ensures outcome == Resolved && old(selected).Some? ==>
                mainPackage == RemoveId(old(mainPackage), old(selected).value.idMainPackage, MainId)
      ensures outcome == Resolved && old(selected).None? ==> mainPackage == old(mainPackage)
      ensures outcome == Resolved ==> !isDeleteModalVisible
      ensures outcome == Rejected ==> mainPackage == old(mainPackage) && isDeleteModalVisible == old(isDeleteModalVisible)
      ensures selected == old(selected)
      ensures outcome == Rejected ==> State() == old(State())
      ensures outcome == Resolved ==> State() == old(State()).(mainPackage := mainPackage, isDeleteModalVisible := false)
    {
      if outcome == Resolved {
        if selected.Some? {
          mainPackage := RemoveId(mainPackage, selected.value.idMainPackage, MainId);
        }
        isDeleteModalVisible := false;
      }
    }

    /**
     * `handleFormSubmit`: once the update resolves, the entry whose id is the
     * returned record's id becomes that record, priced for display; a reply
     * without a record matches nothing. A failure changes nothing.
     */
    method HandleFormSubmit(reply: RecordReply)
      modifies this
      ensures reply.Returned? && reply.data.Some? ==>
                mainPackage == ReplaceId(old(mainPackage), reply.data.value.idMainPackage, Priced(reply.data.value), MainId)
      ensures reply.Returned? && reply.data.None? ==> mainPackage == old(mainPackage)
      ensures reply.Returned? ==> !isEditModalVisible
      ensures reply.Failed? ==> mainPackage == old(mainPackage) && isEditModalVisible == old(isEditModalVisible)
      ensures reply.Failed? ==> State() == old(State())
      ensures reply.Returned? ==> State() == old(State()).(mainPackage := mainPackage, isEditModalVisible := false)
    {
      if reply.Returned? {
        if reply.data.Some? {
          var r := reply.data.value;
          mainPackage := ReplaceId(mainPackage, r.idMainPackage, Priced(r), MainId);
        }
        isEditModalVisible := false;
      }
    }

    /**
     * `handleCreateFormSubmit`: the returned record, priced for display, is
     * appended and the modal closes. The record is read inside the state
     * updater, which React runs outside the `.then` callback, so for a reply
     * without a record the `catch` sees nothing: the modal still closes and
     * the updater throws when the tab next renders. A rejection changes nothing.
     */
    method HandleCreateFormSubmit(reply: RecordReply)
      modifies this
      ensures reply.Returned? && reply.data.Some? ==>
                mainPackage == old(mainPackage) + [Priced(reply.data.value)] && renderCrashed == old(renderCrashed)
      ensures reply.Returned? && reply.data.None? ==> mainPackage == old(mainPackage) && renderCrashed
      ensures reply.Returned? ==> !isCreateModalVisible
      ensures reply.Failed? ==>
                mainPackage == old(mainPackage) && isCreateModalVisible == old(isCreateModalVisible)
                && renderCrashed == old(renderCrashed)
      ensures mainPage == old(mainPage) && searchText == old(searchText) && selected == old(selected)
      ensures reply.Failed? ==> State() == old(State())
      ensures reply.Returned? ==>
                State() == old(State()).(mainPackage := mainPackage, isCreateModalVisible := false, renderCrashed := renderCrashed)
    {
      if reply.Returned? {
        if reply.data.Some? {
          mainPackage := mainPackage + [Priced(reply.data.value)];
        } else {
          renderCrashed := true;
        }
        isCreateModalVisible := false;
      }
    }
  }
}

module ComboPackages {
  import opened Wrappers
  import opened PackageLists

  datatype ExtraPackage = ExtraPackage(idExtraPackage: int, name: string, price: nat, isActive: bool)

  /** A combo package as the server returns it after an update or create. */
  datatype ComboRecord = ComboRecord(
    idComboPackage: int, name: string, description: Option<string>, price: nat,
    isActive: bool, extras: seq<ExtraPackage>)

  /** A combo package as the table holds it, with its price already formatted. */
  datatype ComboPackage = ComboPackage(
    idComboPackage: int, name: string, description: Option<string>, price: string,
    isActive: bool, extras: seq<ExtraPackage>)

  function ComboId(p: ComboPackage): int { p.idComboPackage }

  function Priced(r: ComboRecord): (p: ComboPackage)
    ensures p.idComboPackage == r.idComboPackage && p.extras == r.extras
    ensures EditPrice(p.price) == Some(r.price)
  {
    PriceRoundTrip(r.price);
    ComboPackage(r.idComboPackage, r.name, r.description, FormatPrice(r.price), r.isActive, r.extras)
  }

  /** The ids the edit form's extra-package selector starts with, in the record's order. */
  function ExtraIds(extras: seq<ExtraPackage>): (ids: seq<int>)
    ensures |ids| == |extras|
    ensures forall i :: 0 <= i < |extras| ==> ids[i] == extras[i].idExtraPackage
  {
    if extras == [] then [] else [extras[0].idExtraPackage] + ExtraIds(extras[1..])
  }

  /** The options of the create and edit selectors: only the active extra packages, in order. */
  function ActiveExtras(extras: seq<ExtraPackage>): (r: seq<ExtraPackage>)
    ensures |r| <= |extras|
    ensures forall e :: e in r <==> e in extras && e.isActive
  {
    if extras == [] then []
    else (if extras[0].isActive then [extras[0]] else []) + ActiveExtras(extras[1..])
  }

  /** The selector keeps the catalogue's order: the active extras of a concatenation. */
  lemma {:induction false} ActiveExtrasAppend(xs: seq<ExtraPackage>, ys: seq<ExtraPackage>)
    ensures ActiveExtras(xs + ys) == ActiveExtras(xs) + ActiveExtras(ys)
    decreases |xs|
  {
    if xs == [] {
      assert xs + ys == ys;
    } else {
      var head := if xs[0].isActive then [xs[0]] else [];
      assert (xs + ys)[0] == xs[0] && (xs + ys)[1..] == xs[1..] + ys;
      ActiveExtrasAppend(xs[1..], ys);
      calc {
        ActiveExtras(xs + ys);
        head + ActiveExtras(xs[1..] + ys);
        head + (ActiveExtras(xs[1..]) + ActiveExtras(ys));
        (head + ActiveExtras(xs[1..])) + ActiveExtras(ys);
      }
    }
  }

  /** The ids of a concatenation are the ids of each part. */
  lemma ExtraIdsAppend(xs: seq<ExtraPackage>, ys: seq<ExtraPackage>)
    ensures ExtraIds(xs + ys) == ExtraIds(xs) + ExtraIds(ys)
  {
    var whole, parts := ExtraIds(xs + ys), ExtraIds(xs) + ExtraIds(ys);
    forall i | 0 <= i < |whole|
      ensures whole[i] == parts[i]
    {
      if i < |xs| {
        assert (xs + ys)[i] == xs[i];
      } else {
        assert (xs + ys)[i] == ys[i - |xs|];
      }
    }
  }

  datatype RecordReply = Failed | Returned(data: Option<ComboRecord>)

  /** What a resolved create asks for next: nothing, or a fresh fetch of the current page. */
  datatype Followup = NoFetch | Refetch(query: PackagesQuery)

  /**
   * Everything the tab holds, as one value. `formPrice` and `formExtraIds`
   * are the form's price and extras fields; `None` is the `undefined` the
   * form starts with and returns to on `resetFields()`, since it declares no
   * initial values.
   */
  datatype TabState = TabState(
    comboPackage: seq<ComboPackage>, comboPage: int, comboItemsPerPage: int, searchText: string,
    selected: Option<ComboPackage>, formPrice: Option<nat>, formExtraIds: Option<seq<int>>,
    isEditModalVisible: bool, isCreateModalVisible: bool, isDeleteModalVisible: bool,
    renderCrashed: bool)

  class ComboPackageTab {
    var comboPackage: seq<ComboPackage>
    var comboPage: int
    var comboItemsPerPage: int
    var searchText: string
    var selected: Option<ComboPackage>
    var formPrice: Option<nat>
    var formExtraIds: Option<seq<int>>
    var isEditModalVisible: bool
    var isCreateModalVisible: bool
    var isDeleteModalVisible: bool
    /** A state updater queued by a handler throws when React next renders the tab. */
    var renderCrashed: bool

    constructor ()
      ensures comboPackage == [] && comboPage == 1 && comboItemsPerPage == 10 && searchText == ""
      ensures selected.None? && !isEditModalVisible && !isCreateModalVisible && !isDeleteModalVisible
      ensures !renderCrashed
    {
      comboPackage, comboPage, comboItemsPerPage, searchText := [], 1, 10, "";
      selected, formPrice, formExtraIds := None, None, None;
      isEditModalVisible, isCreateModalVisible, isDeleteModalVisible := false, false, false;
      renderCrashed := false;
    }

    function State(): TabState
      reads this
    {
      TabState(comboPackage, comboPage, comboItemsPerPage, searchText, selected, formPrice, formExtraIds,
               isEditModalVisible, isCreateModalVisible, isDeleteModalVisible, renderCrashed)
    }

    function Query(): (q: PackagesQuery)
      reads this
      ensures q.page == comboPage && q.itemsPerPage == comboItemsPerPage && q.search == searchText
      ensures q.sortBy == "id_combo_package" && q.sortDesc
    {
      PackagesQuery(comboPage, comboItemsPerPage, searchText, "id_combo_package", true)
    }

    function PaginationTotal(): (n: nat)
      reads this
      ensures n == |comboPackage|
    {
      |comboPackage|
    }

    method HandleSearch(value: string)
      modifies this
      ensures searchText == value && comboPage == 1
      ensures State() == old(State()).(searchText := value, comboPage := 1)
      ensures Query() == old(Query()).(page := 1, search := value)
    {
      searchText := value;
      comboPage := 1;
    }

    method HandlePageChange(page: int, pageSize: int)
      modifies this
      ensures comboPage == page && comboItemsPerPage == pageSize
      ensures State() == old(State()).(comboPage := page, comboItemsPerPage := pageSize)
      ensures Query() == old(Query()).(page := page, itemsPerPage := pageSize)
    {
      comboPage := page;
      comboItemsPerPage := pageSize;
    }

    /** `handleEditButtonClick`: price parsed back, extras as their ids in order. */
    method HandleEditButtonClick(record: ComboPackage)
      modifies this
      ensures formPrice == EditPrice(record.price)
      ensures formExtraIds == Some(ExtraIds(record.extras))
      ensures selected == Some(record) && isEditModalVisible
      ensures State() == old(State()).(formPrice := formPrice, formExtraIds := formExtraIds,
                                       selected := Some(record), isEditModalVisible := true)
    {
      formPrice := EditPrice(record.price);
      formExtraIds := Some(ExtraIds(record.extras));
      selected := Some(record);
      isEditModalVisible := true;
    }

    method HandleDeleteButtonClick(record: ComboPackage)
      modifies this
      ensures selected == Some(record) && isDeleteModalVisible
      ensures State() == old(State()).(selected := Some(record), isDeleteModalVisible := true)
    {
      selected := Some(record);
      isDeleteModalVisible := true;
    }

    /**
     * `handleEditFormSubmit`: the entry with the returned id becomes the
     * returned record and the modal closes. The record is read without `?.`
     * inside the `map` callback of a state updater, which React runs outside
     * the `.then` callback: for a reply without a record the modal still
     * closes, and the updater throws at the next render unless the list is
     * empty, when `map` never calls its callback. A rejection changes nothing.
     */
    method HandleEditFormSubmit(reply: RecordReply)
      modifies this
      ensures reply.Returned? && reply.data.Some? ==>
                comboPackage == ReplaceId(old(comboPackage), reply.data.value.idComboPackage, Priced(reply.data.value), ComboId)
                && renderCrashed == old(renderCrashed)
      ensures reply.Returned? && reply.data.None? ==>
                comboPackage == old(comboPackage) && renderCrashed == (old(renderCrashed) || old(comboPackage) != [])
      ensures reply.Returned? ==> !isEditModalVisible
      ensures reply.Failed? ==>
                comboPackage == old(comboPackage) && isEditModalVisible == old(isEditModalVisible)
                && renderCrashed == old(renderCrashed)
      ensures comboPage == old(comboPage) && searchText == old(searchText) && selected == old(selected)
      ensures reply.Returned? ==> formPrice.None? && formExtraIds.None?
      ensures reply.Failed? ==> State() == old(State())
      ensures reply.Returned? ==>
                State() == old(State()).(comboPackage := comboPackage, renderCrashed := renderCrashed,
                                         isEditModalVisible := false, formPrice := None, formExtraIds := None)
    {
      if reply.Returned? {
        if reply.data.Some? {
          var r := reply.data.value;
          comboPackage := ReplaceId(comboPackage, r.idComboPackage, Priced(r), ComboId);
        } else if comboPackage != [] {
          renderCrashed := true;
        }
        isEditModalVisible := false;
        formPrice, formExtraIds := None, None;
      }
    }

    /**
     * `handleCreateFormSubmit`: on an empty list the current page is fetched
     * again (the list is then replaced by that answer); otherwise the returned
     * record is appended. Either way the create modal closes. The appended
     * record is read inside a state updater, outside the `.then` callback, so
     * a reply without a record still closes the modal and the updater throws
     * at the next render. A rejection changes nothing.
     */
    method HandleCreateFormSubmit(reply: RecordReply) returns (next: Followup)
      modifies this
      ensures reply.Returned? && old(comboPackage) == [] ==>
                next == Refetch(old(Query())) && comboPackage == [] && renderCrashed == old(renderCrashed)
      ensures reply.Returned? && old(comboPackage) != [] && reply.data.Some? ==>
                next == NoFetch && comboPackage == old(comboPackage) + [Priced(reply.data.value)]
                && renderCrashed == old(renderCrashed)
      ensures reply.Returned? && old(comboPackage) != [] && reply.data.None? ==>
                next == NoFetch && comboPackage == old(comboPackage) && renderCrashed
      ensures reply.Returned? ==> !isCreateModalVisible
      ensures reply.Failed? ==>
                next == NoFetch && comboPackage == old(comboPackage) && isCreateModalVisible == old(isCreateModalVisible)
                && renderCrashed == old(renderCrashed)
      ensures comboPage == old(comboPage) && searchText == old(searchText) && comboItemsPerPage == old(comboItemsPerPage)
      ensures reply.Returned? ==> formPrice.None? && formExtraIds.None?
      ensures reply.Failed? ==> State() == old(State())
      ensures reply.Returned? ==>
                State() == old(State()).(comboPackage := comboPackage, renderCrashed := renderCrashed,
                                         isCreateModalVisible := false, formPrice := None, formExtraIds := None)
    {
      next := NoFetch;
      if reply.Returned? {
        if |comboPackage| == 0 {
          next := Refetch(Query());
        } else if reply.data.Some? {
          comboPackage := comboPackage + [Priced(reply.data.value)];
        } else {
          renderCrashed := true;
        }
        isCreateModalVisible := false;
        formPrice, formExtraIds := None, None;
      }
    }

    /** The re-fetched page replaces the list. */
    method ReceivePage(data: seq<ComboPackage>)
      modifies this
      ensures comboPackage == data
      ensures comboPage == old(comboPage) && searchText == old(searchText)
      ensures State() == old(State()).(comboPackage := data)
    {
      comboPackage := data;
    }

    /**
     * `handleDeleteOk`: once the delete resolves, drop every entry with the
     * selected id, then `onDeleteCancel()` closes the modal and resets the
     * form. A rejection changes nothing. With no selection the id compared
     * against is `undefined`, which no entry has.
     */
    method HandleDeleteOk(outcome: Settled)
      modifies this
      ensures selected == old(selected)
      ensures outcome == Resolved && old(selected).Some? ==>
                comboPackage == RemoveId(old(comboPackage), old(selected).value.idComboPackage, ComboId)
      ensures outcome == Resolved && old(selected).None? ==> comboPackage == old(comboPackage)
      ensures outcome == Resolved ==> !isDeleteModalVisible && formPrice.None? && formExtraIds.None?
      ensures outcome == Rejected ==> comboPackage == old(comboPackage) && isDeleteModalVisible == old(isDeleteModalVisible)
      ensures outcome == Rejected ==> State() == old(State())
      ensures outcome == Resolved ==>
                State() == old(State()).(comboPackage := comboPackage, isDeleteModalVisible := false,
                                         formPrice := None, formExtraIds := None)
    {
      if outcome == Resolved {
        if selected.Some? {
          comboPackage := RemoveId(comboPackage, selected.value.idComboPackage, ComboId);
        }
        isDeleteModalVisible := false;
        formPrice, formExtraIds := None, None;
      }
    }
  }
}

module ExtraPackages {

  /** The sort part of the tab's state. */
  datatype SortState = SortState(currentSortColumn: string, sortBy: string, sortDesc: bool)

  /** `id_extra_package`, ascending. */
  const InitialSort := SortState("id_extra_package", "id_extra_package", false)

  /**
   * `handleSortChange`: a column click on the current column flips the
   * direction; any other call takes the direction it is given. The column
   * becomes both the sort field and the current column.
   */
  function SortChange(s: SortState, newSortBy: string, newSortDesc: bool, fromColumn: bool): (r: SortState)
    ensures r.sortBy == newSortBy && r.currentSortColumn == newSortBy
    ensures fromColumn && newSortBy == s.currentSortColumn ==> r.sortDesc == !s.sortDesc
    ensures !(fromColumn && newSortBy == s.currentSortColumn) ==> r.sortDesc == newSortDesc
  {
    SortState(newSortBy, newSortBy, if fromColumn && newSortBy == s.currentSortColumn then !s.sortDesc else newSortDesc)
  }

  /** The table's `onChange`: descending exactly when antd reports `"descend"`. */
  function TableSortChange(s: SortState, field: string, order: string): (r: SortState)
    ensures r.sortBy == field && (r.sortDesc <==> order == "descend")
  {
    SortChange(s, field, order == "descend", false)
  }

  /** Clicking the current column twice restores the direction. */
  lemma DoubleClickRestores(s: SortState)
    ensures SortChange(SortChange(s, s.currentSortColumn, false, true), s.currentSortColumn, false, true) == s.(sortBy := s.currentSortColumn)
  {
  }

  /** The first click on a new column takes the given direction; from then on clicks alternate. */
  lemma NewColumnThenClicks(s: SortState, column: string, desc: bool)
    requires column != s.currentSortColumn
    ensures SortChange(s, column, desc, true).sortDesc == desc
    ensures SortChange(SortChange(s, column, desc, true), column, desc, true).sortDesc == !desc
  {
  }

  class ExtraPackageTab {
    var extraPage: int
    var extraItemsPerPage: int
    var searchText: string
    var currentSortColumn: string
    var sortBy: string
    var sortDesc: bool

    function Sort(): SortState
      reads this
    {
      SortState(currentSortColumn, sortBy, sortDesc)
    }

    /** The sort field and the current column never disagree. */
    predicate Valid()
      reads this
    {
      sortBy == currentSortColumn
    }

    constructor ()
      ensures extraPage == 1 && extraItemsPerPage == 10 && searchText == ""
      ensures Sort() == InitialSort && Valid()
    {
      extraPage, extraItemsPerPage, searchText := 1, 10, "";
      currentSortColumn, sortBy, sortDesc := "id_extra_package", "id_extra_package", false;
    }

    method HandlePageChange(page: int, pageSize: int)
      modifies this
      ensures extraPage == page && extraItemsPerPage == pageSize
      ensures searchText == old(searchText) && Sort() == old(Sort())
    {
      extraPage := page;
      extraItemsPerPage := pageSize;
    }

    method HandleSearch(value: string)
      modifies this
      ensures searchText == value && extraPage == 1
      ensures extraItemsPerPage == old(extraItemsPerPage) && Sort() == old(Sort())
    {
      searchText := value;
      extraPage := 1;
    }

    method HandleSortChange(newSortBy: string, newSortDesc: bool, fromColumn: bool)
      modifies this
      ensures Sort() == SortChange(old(Sort()), newSortBy, newSortDesc, fromColumn)
      ensures Valid()
      ensures extraPage == old(extraPage) && extraItemsPerPage == old(extraItemsPerPage) && searchText == old(searchText)
    {
      if fromColumn && newSortBy == currentSortColumn {
        sortDesc := !sortDesc;
      } else {
        sortDesc := newSortDesc;
      }
      sortBy := newSortBy;
      currentSortColumn := newSortBy;
    }
  }
}
