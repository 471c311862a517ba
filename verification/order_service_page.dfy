/** The order-service list page: its filter form and query, the name option
    lists built from every order service, and its record-offset pagination
    whose lookahead fails silently. */
module OrderServicePage {
  import opened Wrappers
  import opened Strings
  import opened Query
  import opened SelectOptions
  import Paging

  /** An order service as the list endpoint returns it (the fields the page
      reads); `equipmentModel` is `equipment.model`. */
  datatype OrderServiceData = OrderServiceData(
    id: string,
    senderName: string,
    withdrawalName: string,
    technicianName: string,
    equipmentModel: string)

  /** The watched filter form; `kind` is the form's `type` field. */
  datatype FilterValues = FilterValues(
    kind: Value,
    brand: Value,
    createdAt: Value,
    updatedAt: Value,
    finishDate: Value,
    unit: Value,
    status: Value,
    search: Value,
    model: Value,
    senderName: Value,
    withdrawalName: Value,
    technicianName: Value)

  const EmptyFilters := FilterValues(
    Undefined, Undefined, Undefined, Undefined, Undefined, Undefined,
    Undefined, Undefined, Undefined, Undefined, Undefined, Undefined)

  /** The keys of `dataFormatted`, in declaration order. */
  const FilterKeys: seq<string> := [
    "type", "createdAt", "updatedAt", "finishDate", "status", "unit",
    "search", "brand", "model", "technicianName", "senderName", "withdrawalName"]

  /** `dataFormatted`: the three dates are formatted only when present, and
      `search` is the debounced search state. */
  function FilterEntries(f: FilterValues, search: string, fmt: string -> string): (r: seq<Entry>)
    ensures |r| == |FilterKeys| && forall k :: 0 <= k < |r| ==> r[k].0 == FilterKeys[k]
  {
    [("type", f.kind),
     ("createdAt", FormatDate(fmt, f.createdAt)),
     ("updatedAt", FormatDate(fmt, f.updatedAt)),
     ("finishDate", FormatDate(fmt, f.finishDate)),
     ("status", f.status),
     ("unit", f.unit),
     ("search", Text(search)),
     ("brand", f.brand),
     ("model", f.model),
     ("technicianName", f.technicianName),
     ("senderName", f.senderName),
     ("withdrawalName", f.withdrawalName)]
  }

  /** `handleFilterChange`: the query stored in `filter`. It is non-empty, and so the
      "clear applied filters" control is shown, exactly when some field
      survives the filter; a non-empty search always does. */
  function HandleFilterChange(f: FilterValues, search: string, fmt: string -> string): (r: string)
    ensures r != "" <==> exists i :: 0 <= i < |FilterKeys| && IsKept(FilterEntries(f, search, fmt)[i].1)
    ensures search != "" ==> r != ""
  {
    assert FilterEntries(f, search, fmt)[6].1 == Text(search);
    Encode(FilterEntries(f, search, fmt))
  }

  lemma FilterKeysDistinct()
    ensures forall i, j :: 0 <= i < j < |FilterKeys| ==> FilterKeys[i] != FilterKeys[j]
  {
  }

  lemma FilterKeysWithoutEquals()
    ensures forall i :: 0 <= i < |FilterKeys| ==> '=' !in FilterKeys[i]
  {
  }

  lemma FilterKeysPlain(f: FilterValues, search: string, fmt: string -> string)
    ensures DistinctKeys(FilterEntries(f, search, fmt)) && PlainKeys(FilterEntries(f, search, fmt))
  {
    FilterKeysDistinct();
    FilterKeysWithoutEquals();
    KeysFromList(FilterEntries(f, search, fmt), FilterKeys);
  }

  /** The kept pairs follow the order type, createdAt, updatedAt, finishDate,
      status, unit, search, brand, model, technicianName, senderName,
      withdrawalName, and every kept field appears. */
  lemma QueryKeyOrder(f: FilterValues, search: string, fmt: string -> string) returns (idx: seq<nat>)
    ensures |idx| == |KeptPairs(FilterEntries(f, search, fmt))|
    ensures forall k :: 0 <= k < |idx| ==>
      idx[k] < |FilterKeys| && KeptPairs(FilterEntries(f, search, fmt))[k].0 == FilterKeys[idx[k]]
    ensures forall k, l :: 0 <= k < l < |idx| ==> idx[k] < idx[l]
    ensures forall i :: 0 <= i < |FilterKeys| && IsKept(FilterEntries(f, search, fmt)[i].1) ==> i in idx
  {
    idx := KeptPairsSelect(FilterEntries(f, search, fmt));
  }

  /** Each date reaches the query exactly when it is a non-empty date, and
      then as its formatted text. */
  lemma QueryDates(f: FilterValues, search: string, fmt: string -> string, v: string)
    ensures ("createdAt", v) in KeptPairs(FilterEntries(f, search, fmt)) <==>
      f.createdAt.Text? && f.createdAt.s != "" && v == fmt(f.createdAt.s) && v != ""
    ensures ("updatedAt", v) in KeptPairs(FilterEntries(f, search, fmt)) <==>
      f.updatedAt.Text? && f.updatedAt.s != "" && v == fmt(f.updatedAt.s) && v != ""
    ensures ("finishDate", v) in KeptPairs(FilterEntries(f, search, fmt)) <==>
      f.finishDate.Text? && f.finishDate.s != "" && v == fmt(f.finishDate.s) && v != ""
  {
    FilterKeysPlain(f, search, fmt);
    KeptPairAt(FilterEntries(f, search, fmt), 1, v);
    KeptPairAt(FilterEntries(f, search, fmt), 2, v);
    KeptPairAt(FilterEntries(f, search, fmt), 3, v);
  }

  /** The query holds `search=v` exactly when the debounced search text is the
      non-empty `v`; the form's own `search` field plays no part. */
  lemma QuerySearch(f: FilterValues, search: string, fmt: string -> string, v: string)
    ensures ("search", v) in KeptPairs(FilterEntries(f, search, fmt)) <==> search != "" && v == search
    ensures forall w :: HandleFilterChange(f.(search := w), search, fmt) == HandleFilterChange(f, search, fmt)
  {
    FilterKeysPlain(f, search, fmt);
    KeptPairAt(FilterEntries(f, search, fmt), 6, v);
  }

  /** Without `&` in any value, the query splits back into the kept pairs with
      one `&` between neighbours. */
  lemma QueryRoundTrip(f: FilterValues, search: string, fmt: string -> string)
    requires NoAmpersand(FilterEntries(f, search, fmt))
    ensures Decode(HandleFilterChange(f, search, fmt)) == KeptPairs(FilterEntries(f, search, fmt))
    ensures |KeptPairs(FilterEntries(f, search, fmt))| > 0 ==>
      Count(HandleFilterChange(f, search, fmt), '&') == |KeptPairs(FilterEntries(f, search, fmt))| - 1
  {
    FilterKeysPlain(f, search, fmt);
    DecodeEncode(FilterEntries(f, search, fmt));
    SeparatorCount(FilterEntries(f, search, fmt));
  }

  /** `cleanFilters`: `filter` and `search` become `''` and the form is reset;
      the reset form encodes to the same empty query. */
  function CleanFilters(s: FilterState<FilterValues>): (r: FilterState<FilterValues>)
    ensures r.filter == "" && r.search == "" && !ShowClearFilters(r)
    ensures forall fmt :: HandleFilterChange(r.form, r.search, fmt) == r.filter
  {
    assert forall fmt :: HandleFilterChange(EmptyFilters, "", fmt) == "";
    FilterState(EmptyFilters, "", "")
  }

  /** One field of every order service; `data?.forEach` visits nothing when
      the response is absent. */
  function Names(data: Option<seq<OrderServiceData>>, field: OrderServiceData -> string): (r: seq<string>)
    ensures data.None? ==> r == []
    ensures data.Some? ==> |r| == |data.value| && forall k :: 0 <= k < |r| ==> r[k] == field(data.value[k])
  {
    match data
    case None => []
    case Some(list) => FieldValues(list, field)
  }

  function FieldValues(list: seq<OrderServiceData>, field: OrderServiceData -> string): (r: seq<string>)
    ensures |r| == |list| && forall k :: 0 <= k < |r| ==> r[k] == field(list[k])
  {
    if |list| == 0 then [] else [field(list[0])] + FieldValues(list[1..], field)
  }

  /** `formattedSenderName` and its siblings: collect the names into a `Set`,
      drop the falsy ones, and offer each as `{ label: name, value: name }`.
      The result is the duplicate-free, first-occurrence-ordered list of
      truthy names. */
  function NameOptions(data: Option<seq<OrderServiceData>>, field: OrderServiceData -> string): (r: seq<SelectOption>)
    ensures r == Labelled(PushUnique(Names(data, field)))
  {
    SetThenFilterIsPushUnique(Names(data, field));
    Labelled(Truthy(SetOrder(Names(data, field))))
  }

  function SenderNameOf(o: OrderServiceData): string { o.senderName }
  function WithdrawalNameOf(o: OrderServiceData): string { o.withdrawalName }
  function TechnicianNameOf(o: OrderServiceData): string { o.technicianName }
  function ModelOf(o: OrderServiceData): string { o.equipmentModel }

  /** The four name selects of the filter form. */
  function SenderNameOptions(data: Option<seq<OrderServiceData>>): seq<SelectOption> { NameOptions(data, SenderNameOf) }
  function WithdrawalNameOptions(data: Option<seq<OrderServiceData>>): seq<SelectOption> { NameOptions(data, WithdrawalNameOf) }
  function TechnicianNameOptions(data: Option<seq<OrderServiceData>>): seq<SelectOption> { NameOptions(data, TechnicianNameOf) }
  function ModelOptions(data: Option<seq<OrderServiceData>>): seq<SelectOption> { NameOptions(data, ModelOf) }

  /** Ten records per request, the offset stepped by ten; only the current
      fetch toasts on failure. */
  const Pages := Paging.Config(10, Paging.RecordOffset, false)

  /** From the initial state `offset == (currentPage-1)*10` whatever happens;
      a failed current fetch empties the list with a toast, a failed
      lookahead empties the lookahead (hiding "next") without one. */
  lemma PagingFromStart(events: seq<Paging.Event<OrderServiceData>>)
    ensures var p := Paging.Run(Pages, Paging.Start(), events);
      p.currentPage >= 1 && p.offset == (p.currentPage - 1) * 10
      && Paging.CurrentRequest(Pages, p) == Paging.Request(10, p.offset)
      && Paging.LookaheadRequest(Pages, p) == Paging.Request(10, p.offset + 10)
      && Paging.LoadCurrent(p, None).toast && Paging.LoadCurrent(p, None).pager.items == []
      && !Paging.LoadLookahead(Pages, p, None).toast
      && !Paging.ShowNext(Paging.LoadLookahead(Pages, p, None).pager)
  {
    Paging.RunKeepsConsistent(Pages, Paging.Start(), events);
  }
}
