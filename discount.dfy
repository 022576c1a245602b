// The discount editor on the orders page: an inline-editable table of
// discount codes, patched locally on save, delete and create. Expiry dates are
// day numbers; the `YYYY-MM-DD` formatting around them is not modelled.

module Discounts {
  import opened Wrappers
  import opened Text

  /**
   * A discount as the table holds it. `code` is absent only for a row pushed
   * by `save` when its key was no longer in the list (the edit form carries
   * no code field).
   */
  datatype Discount = Discount(code: Option<string>, percentage: Option<int>, expiredAt: Option<int>)

  /** What `editForm.validateFields()` yields for the row being edited. */
  datatype EditRow = EditRow(percentage: int, expiredAt: int)

  /** `editingKey`: `null`, or the code of the row being edited (`undefined` for a row without one). */
  datatype EditingKey = NotEditing | Editing(code: Option<string>)

  // ---------------------------------------------------------------------
  // Finding a row by code
  // ---------------------------------------------------------------------

  /** `findIndex(item => key === item.code)`: the first row with the code, or -1. */
  function FindCode(ds: seq<Discount>, key: Option<string>): (i: int)
    ensures -1 <= i < |ds|
    ensures i == -1 <==> forall j :: 0 <= j < |ds| ==> ds[j].code != key
    ensures i >= 0 ==> ds[i].code == key && forall j :: 0 <= j < i ==> ds[j].code != key
    decreases |ds|
  {
    if ds == [] then -1
    else if ds[0].code == key then 0
    else
      var k := FindCode(ds[1..], key);
      if k == -1 then -1 else k + 1
  }

  /** The linear scan `findIndex` performs. */
  method FindIndex(ds: seq<Discount>, key: Option<string>) returns (index: int)
    ensures index == FindCode(ds, key)
  {
    index := 0;
    while index < |ds| && ds[index].code != key
      invariant 0 <= index <= |ds|
      invariant forall j :: 0 <= j < index ==> ds[j].code != key
    {
      index := index + 1;
    }
    if index == |ds| {
      index := -1;
    }
  }

  /** `{...item, ...row, expired_at: …}`: the form's two fields over the stored row. */
  function Merge(item: Discount, row: EditRow): (d: Discount)
    ensures d.code == item.code
    ensures d.percentage == Some(row.percentage) && d.expiredAt == Some(row.expiredAt)
  {
    Discount(item.code, Some(row.percentage), Some(row.expiredAt))
  }

  /** The list `save` leaves behind for `key` and a validated row. */
  function Saved(ds: seq<Discount>, key: Option<string>, row: EditRow): (r: seq<Discount>)
    ensures FindCode(ds, key) >= 0 ==> |r| == |ds|
    ensures FindCode(ds, key) == -1 ==> r == ds + [Discount(None, Some(row.percentage), Some(row.expiredAt))]
  {
    var i := FindCode(ds, key);
    if i >= 0 then ds[i := Merge(ds[i], row)]
    else ds + [Discount(None, Some(row.percentage), Some(row.expiredAt))]
  }

  /** Saving an existing code changes only its first row, and keeps that row's code. */
  lemma SavedReplacesOne(ds: seq<Discount>, key: Option<string>, row: EditRow)
    requires FindCode(ds, key) >= 0
    ensures var i := FindCode(ds, key);
            var r := Saved(ds, key, row);
            && r[i].code == key
            && r[i].percentage == Some(row.percentage) && r[i].expiredAt == Some(row.expiredAt)
            && (forall j :: 0 <= j < |ds| && j != i ==> r[j] == ds[j])
  {
  }

  /** Saving the same row twice gives the same list as saving it once. */
  lemma SavedIdempotent(ds: seq<Discount>, key: Option<string>, row: EditRow)
    requires FindCode(ds, key) >= 0
    ensures Saved(Saved(ds, key, row), key, row) == Saved(ds, key, row)
  {
    var i := FindCode(ds, key);
    var r := Saved(ds, key, row);
    assert |r| == |ds| && r[i].code == key;
    assert forall j :: 0 <= j < i ==> r[j] == ds[j];
    var k := FindCode(r, key);
    assert k != -1;
    assert k == i;
  }

  /** `filter(discount => discount.code !== code)`. */
  function WithoutCode(ds: seq<Discount>, code: Option<string>): (r: seq<Discount>)
    ensures |r| <= |ds|
    ensures forall j :: 0 <= j < |r| ==> r[j].code != code
    decreases |ds|
  {
    if ds == [] then []
    else (if ds[0].code != code then [ds[0]] else []) + WithoutCode(ds[1..], code)
  }

  /** Deleting keeps every row with another code, and only those. */
  lemma {:induction false} WithoutCodeMembers(ds: seq<Discount>, code: Option<string>)
    ensures forall d :: d in WithoutCode(ds, code) <==> d in ds && d.code != code
    decreases |ds|
  {
    if ds != [] {
      WithoutCodeMembers(ds[1..], code);
      assert ds == [ds[0]] + ds[1..];
    }
  }

  /** After a delete the code is gone, so `findIndex` no longer finds it. */
  lemma DeletedNotFound(ds: seq<Discount>, code: Option<string>)
    ensures FindCode(WithoutCode(ds, code), code) == -1
  {
  }

  // ---------------------------------------------------------------------
  // validateNumber
  // ---------------------------------------------------------------------

  /** A form value: missing (`undefined`/`null`), a number from the number input, or text. */
  datatype FormValue = Missing | Number(n: int) | Text(s: string)

  /** JavaScript truthiness of a form value. */
  predicate Truthy(v: FormValue) {
    match v
    case Missing => false
    case Number(n) => n != 0
    case Text(s) => s != ""
  }

  /** Text `Number()` reads as a decimal: an optional sign, then digits with at most one point, at least one digit. */
  predicate NumericText(s: string) {
    DecimalBody(if s != [] && (s[0] == '-' || s[0] == '+') then s[1..] else s)
  }

  /** Digits with at most one point, at least one digit. */
  predicate DecimalBody(body: string) {
    && (exists i :: 0 <= i < |body| && IsDigit(body[i]))
    && (forall i :: 0 <= i < |body| ==> IsDigit(body[i]) || body[i] == '.')
    && (forall i, j :: 0 <= i < j < |body| && body[i] == '.' ==> body[j] != '.')
  }

  /** `!Number.isNaN(Number(value))`. */
  predicate Numeric(v: FormValue) {
    match v
    case Missing => false
    case Number(_) => true
    case Text(s) => NumericText(s)
  }

  /** `validateNumber`: accept exactly the truthy values that read as a number. */
  function ValidateNumber(v: FormValue): (ok: bool)
    ensures ok <==> Truthy(v) && Numeric(v)
  {
    match v
    case Missing => false
    case Number(n) => n != 0
    case Text(s) => s != "" && NumericText(s)
  }

  /** Zero and empty input are refused; the text "0" is truthy and numeric, so it passes. */
  lemma ValidateNumberEdges()
    ensures !ValidateNumber(Number(0)) && !ValidateNumber(Text("")) && !ValidateNumber(Missing)
    ensures ValidateNumber(Text("0")) && ValidateNumber(Number(15))
    ensures !ValidateNumber(Text("abc"))
  {
    assert IsDigit("0"[0]);
    var abc := "abc";
    assert abc[0] == 'a' && !IsDigit(abc[0]);
    assert !DecimalBody(abc);
  }

  // ---------------------------------------------------------------------
  // The modal
  // ---------------------------------------------------------------------

  /** How the edit form's validation and the update request went for one `save`. */
  datatype SaveInput = Invalid | Valid(row: EditRow, updateStatus: Option<int>)

  datatype Notice = NoNotice | UpdatedNotice | UpdateFailedNotice | SaveFailedNotice
                  | DeletedNotice | DeleteFailedNotice | AddedNotice | AddFailedNotice

  /** What the add form submits, after its required rules passed. */
  datatype NewDiscount = NewDiscount(code: string, percentage: int, expiredAt: int)

  class DiscountModal {
    var discounts: seq<Discount>
    var editingKey: EditingKey

    constructor ()
      ensures discounts == [] && editingKey == NotEditing
    {
      discounts, editingKey := [], NotEditing;
    }

    /** `isEditing(record)`: the row's code is the key being edited. */
    predicate IsEditing(record: Discount)
      reads this
    {
      editingKey == Editing(record.code)
    }

    /** Every row's edit button is disabled while some key is being edited. */
    predicate EditDisabled()
      reads this
    {
      editingKey != NotEditing
    }

    method Edit(record: Discount)
      modifies this
      ensures editingKey == Editing(record.code) && IsEditing(record) && EditDisabled()
      ensures forall other: Discount :: IsEditing(other) <==> other.code == record.code
      ensures discounts == old(discounts)
    {
      editingKey := Editing(record.code);
    }

    method Cancel()
      modifies this
      ensures editingKey == NotEditing && !EditDisabled()
      ensures forall record: Discount :: !IsEditing(record)
      ensures discounts == old(discounts)
    {
      editingKey := NotEditing;
    }

    /**
     * `save(key)`: `key` is the edited row's code, `undefined` (None) for a
     * row without one, which then matches the rows without a code. With a
     * valid form, the first row with the code is replaced
     * by the merged row (or the row is pushed when the code is gone), and the
     * key is cleared. The replacement stays whether or not the update that
     * follows succeeds.
     */
    method Save(key: Option<string>, input: SaveInput) returns (notice: Notice)
      modifies this
      ensures input.Invalid? ==> discounts == old(discounts) && editingKey == old(editingKey) && notice == SaveFailedNotice
      ensures input.Valid? ==> discounts == Saved(old(discounts), key, input.row) && editingKey == NotEditing
      ensures input.Valid? && FindCode(old(discounts), key) >= 0 ==>
                notice == (if input.updateStatus == Some(200) then UpdatedNotice
                           else if input.updateStatus.None? then SaveFailedNotice
                           else UpdateFailedNotice)
      ensures input.Valid? && FindCode(old(discounts), key) == -1 ==> notice == NoNotice
    {
      if input.Invalid? {
        return SaveFailedNotice;
      }
      var row := input.row;
      var newData := discounts;
      var index := FindIndex(newData, key);
      if index > -1 {
        var item := newData[index];
        newData := newData[index := Merge(item, row)];
        discounts := newData;
        editingKey := NotEditing;
        match input.updateStatus
        case None =>
          notice := SaveFailedNotice;
        case Some(status) =>
          notice := if status == 200 then UpdatedNotice else UpdateFailedNotice;
      } else {
        newData := newData + [Discount(None, Some(row.percentage), Some(row.expiredAt))];
        discounts := newData;
        editingKey := NotEditing;
        notice := NoNotice;
      }
    }

    /**
     * `handleDelete`: rows with the code go only when the server answers 200.
     * The code is the clicked row's, `undefined` (None) for a row without one,
     * and the filter then drops every row without a code.
     */
    method HandleDelete(code: Option<string>, status: Option<int>) returns (notice: Notice)
      modifies this
      ensures status == Some(200) ==> discounts == WithoutCode(old(discounts), code) && notice == DeletedNotice
      ensures status != Some(200) ==> discounts == old(discounts) && notice == DeleteFailedNotice
      ensures editingKey == old(editingKey)
    {
      if status == Some(200) {
        discounts := WithoutCode(discounts, code);
        notice := DeletedNotice;
      } else {
        notice := DeleteFailedNotice;
      }
    }

    /** The add form's `onFinish`: the submitted values are appended only on a 201. */
    method Create(values: NewDiscount, status: Option<int>) returns (notice: Notice)
      modifies this
      ensures status == Some(201) ==>
                discounts == old(discounts) + [Discount(Some(values.code), Some(values.percentage), Some(values.expiredAt))]
                && notice == AddedNotice
      ensures status != Some(201) ==> discounts == old(discounts) && notice == AddFailedNotice
      ensures editingKey == old(editingKey)
    {
      if status == Some(201) {
        discounts := discounts + [Discount(Some(values.code), Some(values.percentage), Some(values.expiredAt))];
        notice := AddedNotice;
      } else {
        notice := AddFailedNotice;
      }
    }

    /** Closing the modal drops the edit in progress. */
    method CloseModal()
      modifies this
      ensures editingKey == NotEditing && discounts == old(discounts)
    {
      editingKey := NotEditing;
    }
  }
}
