// What an antd `Table` hands to its `onChange` handler, and the fallbacks the
// list pages apply to it.

module AntTable {
  import opened Wrappers

  /** One antd sorter; the table hands over one sorter or an array of them. */
  datatype Sorter = Sorter(field: Option<string>, order: Option<string>)
  datatype SorterArg = Single(sorter: Sorter) | Several(sorters: seq<Sorter>)

  /** `Array.isArray(sorter) ? sorter[0] : sorter`; the first of an empty array is `undefined`. */
  function ActiveSorter(arg: SorterArg): (s: Option<Sorter>)
    ensures arg.Single? ==> s == Some(arg.sorter)
    ensures arg.Several? ==> (s.None? <==> arg.sorters == [])
    ensures arg.Several? && arg.sorters != [] ==> s == Some(arg.sorters[0])
  {
    match arg
    case Single(sorter) => Some(sorter)
    case Several(sorters) => if sorters == [] then None else Some(sorters[0])
  }

  /** `x || fallback` for a page number: a missing or zero value falls back. */
  function OrDefault(x: Option<int>, fallback: int): (r: int)
    ensures x.Some? && x.value != 0 ==> r == x.value
    ensures x.None? || x.value == 0 ==> r == fallback
  {
    if x.Some? && x.value != 0 then x.value else fallback
  }
}
