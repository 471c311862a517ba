/** The equipment list page: its filter form and query, the checkbox
    selection feeding the batch "movement" action, the filter-select option
    lists built from every equipment, and its record-offset pagination. */
module EquipmentsPage {
  import opened Wrappers
  import opened Strings
  import opened Query
  import opened Seqs
  import SelectOptions
  import Paging

  /** An equipment as the list endpoint returns it (the fields the page reads). */
  datatype EquipmentData = EquipmentData(
    id: string,
    tippingNumber: string,
    serialNumber: string,
    typeName: string,
    model: string,
    ramSize: Option<string>,
    storageType: Option<string>,
    processor: Option<string>,
    power: Option<string>,
    screenType: Option<string>,
    screenSize: Option<string>,
    acquisitionName: string)

  datatype BrandData = BrandData(id: int, name: string)

  /** The watched filter form; `kind` is the form's `type` field. */
  datatype FilterValues = FilterValues(
    kind: Value,
    brand: Value,
    lastModifiedDate: Value,
    unit: Value,
    situation: Value,
    search: Value,
    model: Value,
    ramSize: Value,
    description: Value,
    processor: Value,
    power: Value,
    storageType: Value,
    initialDate: Value,
    finalDate: Value,
    screenType: Value,
    screenSize: Value,
    acquisitionYear: Value,
    acquisition: Value)

  /** The form after `reset()`: every field `undefined`. */
  const EmptyFilters := FilterValues(
    Undefined, Undefined, Undefined, Undefined, Undefined, Undefined,
    Undefined, Undefined, Undefined, Undefined, Undefined, Undefined,
    Undefined, Undefined, Undefined, Undefined, Undefined, Undefined)

  /** The keys of `dataFormatted`, in declaration order. */
  const FilterKeys: seq<string> := [
    "type", "updatedAt", "situation", "unit", "search", "model", "brand",
    "ram_size", "processor", "power", "storageType", "initialDate",
    "finalDate", "screenSize", "screenType", "acquisitionYear", "acquisition"]

  /** `dataFormatted`: the three dates go through `formattedDate`, `updatedAt`
      comes from `lastModifiedDate`, and `search` is the debounced search
      state rather than the form's own `search` field. */
  function FilterEntries(f: FilterValues, search: string, fmt: string -> string): (r: seq<Entry>)
    ensures |r| == |FilterKeys| && forall k :: 0 <= k < |r| ==> r[k].0 == FilterKeys[k]
  {
    [("type", f.kind),
     ("updatedAt", FormatDate(fmt, f.lastModifiedDate)),
     ("situation", f.situation),
     ("unit", f.unit),
     ("search", Text(search)),
     ("model", f.model),
     ("brand", f.brand),
     ("ram_size", f.ramSize),
     ("processor", f.processor),
     ("power", f.power),
     ("storageType", f.storageType),
     ("initialDate", FormatDate(fmt, f.initialDate)),
     ("finalDate", FormatDate(fmt, f.finalDate)),
     ("screenSize", f.screenSize),
     ("screenType", f.screenType),
     ("acquisitionYear", f.acquisitionYear),
     ("acquisition", f.acquisition)]
  }

  /** `handleFilterChange`: the query stored in `filter`. It is non-empty, and so the
      "clear applied filters" control is shown, exactly when some field
      survives the filter; a non-empty search always does. */
  function HandleFilterChange(f: FilterValues, search: string, fmt: string -> string): (r: string)
    ensures r != "" <==> exists i :: 0 <= i < |FilterKeys| && IsKept(FilterEntries(f, search, fmt)[i].1)
    ensures search != "" ==> r != ""
  {
    assert FilterEntries(f, search, fmt)[4].1 == Text(search);
    Encode(FilterEntries(f, search, fmt))
  }

  lemma FilterKeysDistinct()
    ensures forall i, j :: 0 <= i < j < |FilterKeys| ==> FilterKeys[i] != FilterKeys[j]
  {
  }

  lemma FilterKeysWithoutEquals()
    ensures forall i :: 0 <= i < |FilterKeys| ==> '=' !in FilterKeys[i]
  {
  }

  lemma FilterKeysPlain(f: FilterValues, search: string, fmt: string -> string)
    ensures DistinctKeys(FilterEntries(f, search, fmt)) && PlainKeys(FilterEntries(f, search, fmt))
  {
    FilterKeysDistinct();
    FilterKeysWithoutEquals();
    KeysFromList(FilterEntries(f, search, fmt), FilterKeys);
  }

  /** The kept pairs follow the fixed key order: the k-th pair carries key
      `FilterKeys[idx[k]]` with `idx` strictly increasing, and every kept
      field appears. */
  lemma QueryKeyOrder(f: FilterValues, search: string, fmt: string -> string) returns (idx: seq<nat>)
    ensures |idx| == |KeptPairs(FilterEntries(f, search, fmt))|
    ensures forall k :: 0 <= k < |idx| ==>
      idx[k] < |FilterKeys| && KeptPairs(FilterEntries(f, search, fmt))[k].0 == FilterKeys[idx[k]]
    ensures forall k, l :: 0 <= k < l < |idx| ==> idx[k] < idx[l]
    ensures forall i :: 0 <= i < |FilterKeys| && IsKept(FilterEntries(f, search, fmt)[i].1) ==> i in idx
  {
    idx := KeptPairsSelect(FilterEntries(f, search, fmt));
  }

  /** The query holds `updatedAt=v` exactly when `lastModifiedDate` is a
      non-empty date that formats to the non-empty `v`. */
  lemma QueryUpdatedAt(f: FilterValues, search: string, fmt: string -> string, v: string)
    ensures ("updatedAt", v) in KeptPairs(FilterEntries(f, search, fmt)) <==>
      f.lastModifiedDate.Text? && f.lastModifiedDate.s != ""
      && v == fmt(f.lastModifiedDate.s) && v != ""
  {
    FilterKeysPlain(f, search, fmt);
    KeptPairAt(FilterEntries(f, search, fmt), 1, v);
  }

  /** The query holds `search=v` exactly when the debounced search text is the
      non-empty `v`; the form's own `search` field plays no part. */
  lemma QuerySearch(f: FilterValues, search: string, fmt: string -> string, v: string)
    ensures ("search", v) in KeptPairs(FilterEntries(f, search, fmt)) <==> search != "" && v == search
    ensures forall w :: HandleFilterChange(f.(search := w), search, fmt) == HandleFilterChange(f, search, fmt)
  {
    FilterKeysPlain(f, search, fmt);
    KeptPairAt(FilterEntries(f, search, fmt), 4, v);
  }

  /** A `null` field is not dropped: it reaches the query as `type=null`. */
  lemma QueryKeepsNull(f: FilterValues, search: string, fmt: string -> string)
    requires f.kind == Null
    ensures ("type", "null") in KeptPairs(FilterEntries(f, search, fmt))
  {
    FilterKeysPlain(f, search, fmt);
    KeptPairAt(FilterEntries(f, search, fmt), 0, "null");
  }

  /** Without `&` in any value, the query splits back into the kept pairs with
      one `&` between neighbours. */
  lemma QueryRoundTrip(f: FilterValues, search: string, fmt: string -> string)
    requires NoAmpersand(FilterEntries(f, search, fmt))
    ensures Decode(HandleFilterChange(f, search, fmt)) == KeptPairs(FilterEntries(f, search, fmt))
    ensures |KeptPairs(FilterEntries(f, search, fmt))| > 0 ==>
      Count(HandleFilterChange(f, search, fmt), '&') == |KeptPairs(FilterEntries(f, search, fmt))| - 1
  {
    FilterKeysPlain(f, search, fmt);
    DecodeEncode(FilterEntries(f, search, fmt));
    SeparatorCount(FilterEntries(f, search, fmt));
  }

  /** `cleanFilters`: `filter` and `search` become `''` and the form is reset;
      the reset form encodes to the same empty query, so the clear control
      disappears and stays hidden. */
  function CleanFilters(s: FilterState<FilterValues>): (r: FilterState<FilterValues>)
    ensures r.filter == "" && r.search == "" && !ShowClearFilters(r)
    ensures forall fmt :: HandleFilterChange(r.form, r.search, fmt) == r.filter
  {
    assert forall fmt :: HandleFilterChange(EmptyFilters, "", fmt) == "";
    FilterState(EmptyFilters, "", "")
  }

  /** The selection minus every equipment with the given id: each other
      entry keeps all of its copies, in the original order. */
  function WithoutId(sel: seq<EquipmentData>, id: string): (r: seq<EquipmentData>)
    ensures forall x :: multiset(r)[x] == if x.id != id then multiset(sel)[x] else 0
    ensures forall x :: x in r <==> x in sel && x.id != id
    ensures IsSubsequence(r, sel)
  {
    if |sel| == 0 then []
    else
      assert sel == [sel[0]] + sel[1..];
      if sel[0].id == id then WithoutId(sel[1..], id)
      else [sel[0]] + WithoutId(sel[1..], id)
  }

  lemma {:induction false} WithoutAbsentId(sel: seq<EquipmentData>, id: string)
    requires forall x :: x in sel ==> x.id != id
    ensures WithoutId(sel, id) == sel
  {
    if |sel| > 0 {
      WithoutAbsentId(sel[1..], id);
    }
  }

  lemma {:induction false} WithoutIdAppend(sel: seq<EquipmentData>, e: EquipmentData)
    ensures WithoutId(sel + [e], e.id) == WithoutId(sel, e.id)
  {
    if |sel| > 0 {
      assert (sel + [e])[1..] == sel[1..] + [e];
      WithoutIdAppend(sel[1..], e);
    }
  }

  /** `handleCheckboxClick`: an equipment not yet selected is appended at the
      end; a selected one is removed together with every entry sharing its
      id, the others keeping their order. */
  function ToggleSelection(sel: seq<EquipmentData>, e: EquipmentData): (r: seq<EquipmentData>)
    ensures e in r <==> e !in sel
    ensures e !in sel ==> |r| == |sel| + 1 && r[..|sel|] == sel && r[|sel|] == e
    ensures e in sel ==> IsSubsequence(r, sel) && forall x :: x in r <==> x in sel && x.id != e.id
    ensures e in sel ==> forall x :: multiset(r)[x] == if x.id != e.id then multiset(sel)[x] else 0
  {
    if e in sel then WithoutId(sel, e.id) else sel + [e]
  }

  /** Toggling an equipment twice restores the selection when no selected
      equipment shares its id. */
  lemma ToggleTwice(sel: seq<EquipmentData>, e: EquipmentData)
    requires forall x :: x in sel ==> x.id != e.id
    ensures ToggleSelection(ToggleSelection(sel, e), e) == sel
  {
    WithoutIdAppend(sel, e);
    WithoutAbsentId(sel, e.id);
  }

  /** What the "Movimentar" button does. */
  datatype MovementOutcome = OpenRegister | ErrorToast(message: string)

  /** `handleMovement`: an empty selection is refused with a toast instead of
      opening the registration modal. */
  function HandleMovement(sel: seq<EquipmentData>): (r: MovementOutcome)
    ensures r.ErrorToast? <==> |sel| == 0
  {
    if |sel| == 0 then ErrorToast("Selecione ao menos um equipamento para movimentar")
    else OpenRegister
  }

  /** The option lists `setFilterOptions` stores. */
  datatype FilterOptions = FilterOptions(
    models: seq<SelectOptions.SelectOption>,
    brands: seq<SelectOptions.SelectOption>,
    ramSizes: seq<SelectOptions.SelectOption>,
    storageTypes: seq<SelectOptions.SelectOption>,
    processors: seq<SelectOptions.SelectOption>,
    powers: seq<SelectOptions.SelectOption>,
    screenTypes: seq<SelectOptions.SelectOption>,
    screenSizes: seq<SelectOptions.SelectOption>,
    acquisitionTypes: seq<SelectOptions.SelectOption>)

  /** One field of every equipment, in list order; an absent value is falsy,
      written `''`. */
  function Names(es: seq<EquipmentData>, field: EquipmentData -> string): (r: seq<string>)
    ensures |r| == |es| && forall k :: 0 <= k < |es| ==> r[k] == field(es[k])
  {
    if |es| == 0 then [] else [field(es[0])] + Names(es[1..], field)
  }

  /** The fields the option lists are built from; `obj.ram_size &&` and the
      like treat an absent value as falsy. */
  function ModelOf(e: EquipmentData): string { e.model }
  function RamSizeOf(e: EquipmentData): string { e.ramSize.GetOr("") }
  function StorageTypeOf(e: EquipmentData): string { e.storageType.GetOr("") }
  function ProcessorOf(e: EquipmentData): string { e.processor.GetOr("") }
  function PowerOf(e: EquipmentData): string { e.power.GetOr("") }
  function ScreenTypeOf(e: EquipmentData): string { e.screenType.GetOr("") }
  function ScreenSizeOf(e: EquipmentData): string { e.screenSize.GetOr("") }
  function AcquisitionOf(e: EquipmentData): string { e.acquisitionName }

  /** The brand select: every brand, in order, with its id as the value and
      no de-duplication. */
  function BrandOptions(brands: seq<BrandData>): (r: seq<SelectOptions.SelectOption>)
    ensures |r| == |brands|
    ensures forall k :: 0 <= k < |r| ==>
      r[k].text == brands[k].name && r[k].value == SelectOptions.Num(brands[k].id)
  {
    if |brands| == 0 then []
    else [SelectOptions.SelectOption(brands[0].name, SelectOptions.Num(brands[0].id))] + BrandOptions(brands[1..])
  }

  /** `setFilterOptions`: each equipment field's list holds its truthy values
      once each, in first-occurrence order, with `label == value`; brands
      are listed as fetched. */
  method SetFilterOptions(equipments: seq<EquipmentData>, brands: seq<BrandData>) returns (o: FilterOptions)
    ensures o.brands == BrandOptions(brands)
    ensures o.models == SelectOptions.Labelled(SelectOptions.PushUnique(Names(equipments, ModelOf)))
    ensures o.ramSizes == SelectOptions.Labelled(SelectOptions.PushUnique(Names(equipments, RamSizeOf)))
    ensures o.storageTypes == SelectOptions.Labelled(SelectOptions.PushUnique(Names(equipments, StorageTypeOf)))
    ensures o.processors == SelectOptions.Labelled(SelectOptions.PushUnique(Names(equipments, ProcessorOf)))
    ensures o.powers == SelectOptions.Labelled(SelectOptions.PushUnique(Names(equipments, PowerOf)))
    ensures o.screenTypes == SelectOptions.Labelled(SelectOptions.PushUnique(Names(equipments, ScreenTypeOf)))
    ensures o.screenSizes == SelectOptions.Labelled(SelectOptions.PushUnique(Names(equipments, ScreenSizeOf)))
    ensures o.acquisitionTypes == SelectOptions.Labelled(SelectOptions.PushUnique(Names(equipments, AcquisitionOf)))
  {
    var models := SelectOptions.CollectUnique(Names(equipments, ModelOf));
    var ramSizes := SelectOptions.CollectUnique(Names(equipments, RamSizeOf));
    var storageTypes := SelectOptions.CollectUnique(Names(equipments, StorageTypeOf));
    var processors := SelectOptions.CollectUnique(Names(equipments, ProcessorOf));
    var powers := SelectOptions.CollectUnique(Names(equipments, PowerOf));
    var screenTypes := SelectOptions.CollectUnique(Names(equipments, ScreenTypeOf));
    var screenSizes := SelectOptions.CollectUnique(Names(equipments, ScreenSizeOf));
    var acquisitionTypes := SelectOptions.CollectUnique(Names(equipments, AcquisitionOf));
    o := FilterOptions(models, BrandOptions(brands), ramSizes, storageTypes, processors,
                       powers, screenTypes, screenSizes, acquisitionTypes);
  }

  /** Ten records per request, the offset stepped by ten, and a toast on
      either failed fetch. */
  const Pages := Paging.Config(10, Paging.RecordOffset, true)

  /** From the initial state, whatever happens, `offset == (currentPage-1)*10`;
      the current request skips `offset` records and the lookahead
      `offset + 10`, both taking ten. */
  lemma PagingFromStart(events: seq<Paging.Event<EquipmentData>>)
    ensures var p := Paging.Run(Pages, Paging.Start(), events);
      p.currentPage >= 1 && p.offset == (p.currentPage - 1) * 10
      && Paging.CurrentRequest(Pages, p) == Paging.Request(10, p.offset)
      && Paging.LookaheadRequest(Pages, p) == Paging.Request(10, p.offset + 10)
  {
    Paging.RunKeepsConsistent(Pages, Paging.Start(), events);
  }
}
