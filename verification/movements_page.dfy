/** The movement list page: its filter form and query, the destination
    select, and its page-index pagination (`page=offset`, stepped by one). */
module MovementsPage {
  import opened Wrappers
  import opened Strings
  import opened Query
  import opened SelectOptions
  import Paging

  /** A movement as the list endpoint returns it; the model needs only its id. */
  datatype Movement = Movement(id: string)

  /** A workstation of the scheduling service, offered as a destination. */
  datatype Unit = Unit(id: OptionValue, name: string)

  /** The watched filter form; `kind` is the form's `type` field. */
  datatype FormValues = FormValues(
    kind: Value,
    inChargeName: Value,
    destinationId: Value,
    equipmentId: Value,
    lowerDate: Value,
    higherDate: Value,
    searchTerm: Value)

  const EmptyForm := FormValues(Undefined, Undefined, Undefined, Undefined, Undefined, Undefined, Undefined)

  /** The keys of `formattedFormData`, in declaration order. */
  const FilterKeys: seq<string> := [
    "type", "inChargeName", "destinationId", "equipmentId", "lowerDate", "higherDate", "searchTerm"]

  /** `formattedFormData`: both dates are formatted only when present, and
      `searchTerm` is the debounced `search` state. */
  function FilterEntries(f: FormValues, search: string, fmt: string -> string): (r: seq<Entry>)
    ensures |r| == |FilterKeys| && forall k :: 0 <= k < |r| ==> r[k].0 == FilterKeys[k]
  {
    [("type", f.kind),
     ("inChargeName", f.inChargeName),
     ("destinationId", f.destinationId),
     ("equipmentId", f.equipmentId),
     ("lowerDate", FormatDate(fmt, f.lowerDate)),
     ("higherDate", FormatDate(fmt, f.higherDate)),
     ("searchTerm", Text(search))]
  }

  /** `handleChangeForm`: the query stored in `filter`. It is non-empty, and so the
      "clear applied filters" control is shown, exactly when some field
      survives the filter; a non-empty search always does. */
  function HandleChangeForm(f: FormValues, search: string, fmt: string -> string): (r: string)
    ensures r != "" <==> exists i :: 0 <= i < |FilterKeys| && IsKept(FilterEntries(f, search, fmt)[i].1)
    ensures search != "" ==> r != ""
  {
    assert FilterEntries(f, search, fmt)[6].1 == Text(search);
    Encode(FilterEntries(f, search, fmt))
  }

  lemma FilterKeysDistinct()
    ensures forall i, j :: 0 <= i < j < |FilterKeys| ==> FilterKeys[i] != FilterKeys[j]
  {
  }

  lemma FilterKeysWithoutEquals()
    ensures forall i :: 0 <= i < |FilterKeys| ==> '=' !in FilterKeys[i]
  {
  }

  lemma FilterKeysPlain(f: FormValues, search: string, fmt: string -> string)
    ensures DistinctKeys(FilterEntries(f, search, fmt)) && PlainKeys(FilterEntries(f, search, fmt))
  {
    FilterKeysDistinct();
    FilterKeysWithoutEquals();
    KeysFromList(FilterEntries(f, search, fmt), FilterKeys);
  }

  /** The kept pairs follow the order type, inChargeName, destinationId,
      equipmentId, lowerDate, higherDate, searchTerm, and every kept field
      appears. */
  lemma QueryKeyOrder(f: FormValues, search: string, fmt: string -> string) returns (idx: seq<nat>)
    ensures |idx| == |KeptPairs(FilterEntries(f, search, fmt))|
    ensures forall k :: 0 <= k < |idx| ==>
      idx[k] < |FilterKeys| && KeptPairs(FilterEntries(f, search, fmt))[k].0 == FilterKeys[idx[k]]
    ensures forall k, l :: 0 <= k < l < |idx| ==> idx[k] < idx[l]
    ensures forall i :: 0 <= i < |FilterKeys| && IsKept(FilterEntries(f, search, fmt)[i].1) ==> i in idx
  {
    idx := KeptPairsSelect(FilterEntries(f, search, fmt));
  }

  /** Each date bound reaches the query exactly when it is a non-empty date,
      and then as its formatted text. */
  lemma QueryDates(f: FormValues, search: string, fmt: string -> string, v: string)
    ensures ("lowerDate", v) in KeptPairs(FilterEntries(f, search, fmt)) <==>
      f.lowerDate.Text? && f.lowerDate.s != "" && v == fmt(f.lowerDate.s) && v != ""
    ensures ("higherDate", v) in KeptPairs(FilterEntries(f, search, fmt)) <==>
      f.higherDate.Text? && f.higherDate.s != "" && v == fmt(f.higherDate.s) && v != ""
  {
    FilterKeysPlain(f, search, fmt);
    KeptPairAt(FilterEntries(f, search, fmt), 4, v);
    KeptPairAt(FilterEntries(f, search, fmt), 5, v);
  }

  /** The query holds `searchTerm=v` exactly when the debounced search text is
      the non-empty `v`; the form's own `searchTerm` field plays no part. */
  lemma QuerySearchTerm(f: FormValues, search: string, fmt: string -> string, v: string)
    ensures ("searchTerm", v) in KeptPairs(FilterEntries(f, search, fmt)) <==> search != "" && v == search
    ensures forall w :: HandleChangeForm(f.(searchTerm := w), search, fmt) == HandleChangeForm(f, search, fmt)
  {
    FilterKeysPlain(f, search, fmt);
    KeptPairAt(FilterEntries(f, search, fmt), 6, v);
  }

  /** Without `&` in any value, the query splits back into the kept pairs with
      one `&` between neighbours. */
  lemma QueryRoundTrip(f: FormValues, search: string, fmt: string -> string)
    requires NoAmpersand(FilterEntries(f, search, fmt))
    ensures Decode(HandleChangeForm(f, search, fmt)) == KeptPairs(FilterEntries(f, search, fmt))
    ensures |KeptPairs(FilterEntries(f, search, fmt))| > 0 ==>
      Count(HandleChangeForm(f, search, fmt), '&') == |KeptPairs(FilterEntries(f, search, fmt))| - 1
  {
    FilterKeysPlain(f, search, fmt);
    DecodeEncode(FilterEntries(f, search, fmt));
    SeparatorCount(FilterEntries(f, search, fmt));
  }

  /** `cleanFilters`: `filter` and `search` become `''` and the form is reset;
      the reset form encodes to the same empty query. */
  function CleanFilters(s: FilterState<FormValues>): (r: FilterState<FormValues>)
    ensures r.filter == "" && r.search == "" && !ShowClearFilters(r)
    ensures forall fmt :: HandleChangeForm(r.form, r.search, fmt) == r.filter
  {
    assert forall fmt :: HandleChangeForm(EmptyForm, "", fmt) == "";
    FilterState(EmptyForm, "", "")
  }

  /** `generateDestinationOptions`: `[]` for a missing response, otherwise
      `{ label: name, value: id }` for every unit, in order. */
  function DestinationOptions(data: Option<seq<Unit>>): (r: seq<SelectOption>)
    ensures data.None? ==> r == []
    ensures data.Some? ==> (|r| == |data.value|
      && forall k :: 0 <= k < |r| ==> r[k] == SelectOption(data.value[k].name, data.value[k].id))
  {
    match data
    case None => []
    case Some(units) => UnitOptions(units)
  }

  function UnitOptions(units: seq<Unit>): (r: seq<SelectOption>)
    ensures |r| == |units| && forall k :: 0 <= k < |r| ==> r[k] == SelectOption(units[k].name, units[k].id)
  {
    if |units| == 0 then [] else [SelectOption(units[0].name, units[0].id)] + UnitOptions(units[1..])
  }

  /** `resultquantity=10`, `page=offset`, stepped by one; only the current
      fetch toasts on failure. */
  const Pages := Paging.Config(10, Paging.PageIndex, false)

  /** From the initial state `offset == currentPage - 1` whatever happens; the
      current request asks for page `offset` and the lookahead for page
      `offset + 1`, ten movements each. */
  lemma PagingFromStart(events: seq<Paging.Event<Movement>>)
    ensures var p := Paging.Run(Pages, Paging.Start(), events);
      p.currentPage >= 1 && p.offset == p.currentPage - 1
      && Paging.CurrentRequest(Pages, p) == Paging.Request(10, p.offset)
      && Paging.LookaheadRequest(Pages, p) == Paging.Request(10, p.offset + 1)
  {
    Paging.RunKeepsConsistent(Pages, Paging.Start(), events);
  }
}
