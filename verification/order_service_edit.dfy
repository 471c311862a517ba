/** The order-service edit form: the rule on the description, and the
    helpers it defines for an equipment lookup by tipping number (option
    mapping, `find`, the debounced search). The form's markup attaches none
    of those helpers to an input; `Wiring` tells the form as written from
    the evidently intended one. */
module OrderServiceEdit {
  import opened Wrappers
  import opened Strings
  import opened Query
  import opened SelectOptions
  import EquipmentsPage
  import EquipmentForm

  type EquipmentData = EquipmentsPage.EquipmentData

  /** How many equipments one search asks for. */
  const Take: nat := 5

  /** `formattedOptions(data, label, value)`: `data?.map(...)` with the
      label and value each the string form of one field of the item. The
      projections already include `String(...)`. */
  function FormattedOptions<T>(data: Option<seq<T>>, labelOf: T -> string, valueOf: T -> string)
    : (r: Option<seq<SelectOption>>)
    ensures r.Some? <==> data.Some?
    ensures r.Some? ==> |r.value| == |data.value|
    ensures r.Some? ==> forall k :: 0 <= k < |r.value| ==>
      r.value[k].text == labelOf(data.value[k]) && r.value[k].value == Str(valueOf(data.value[k]))
  {
    if data.None? then None else Some(Format(data.value, labelOf, valueOf))
  }

  function Format<T>(items: seq<T>, labelOf: T -> string, valueOf: T -> string): (r: seq<SelectOption>)
    ensures |r| == |items|
    ensures forall k :: 0 <= k < |r| ==> r[k] == SelectOption(labelOf(items[k]), Str(valueOf(items[k])))
  {
    if |items| == 0 then []
    else [SelectOption(labelOf(items[0]), Str(valueOf(items[0])))] + Format(items[1..], labelOf, valueOf)
  }

  function TippingOf(e: EquipmentData): string
  {
    e.tippingNumber
  }

  /** Index of the first equipment with tipping number `t`, if any. */
  function FirstWithTipping(es: seq<EquipmentData>, t: string): (r: Option<nat>)
    ensures r.None? <==> forall k :: 0 <= k < |es| ==> es[k].tippingNumber != t
    ensures r.Some? ==>
      (r.value < |es| && es[r.value].tippingNumber == t
       && forall j :: 0 <= j < r.value ==> es[j].tippingNumber != t)
  {
    if |es| == 0 then None
    else if es[0].tippingNumber == t then Some(0)
    else
      var rest := FirstWithTipping(es[1..], t);
      if rest.None? then None else Some(rest.value + 1)
  }

  /** `handleChange`: `equipments.find(e => e.tippingNumber === event?.value)`.
      A cleared select or a numeric value matches nothing, since a tipping
      number is a string. */
  function HandleChange(equipments: seq<EquipmentData>, event: Option<SelectOption>): (r: Option<EquipmentData>)
    ensures r.Some? <==>
      (event.Some? && event.value.value.Str?
       && exists k :: 0 <= k < |equipments| && equipments[k].tippingNumber == event.value.value.s)
    ensures r.Some? ==>
      exists k ::
        (0 <= k < |equipments| && equipments[k] == r.value
         && r.value.tippingNumber == event.value.value.s
         && forall j :: 0 <= j < k ==> equipments[j].tippingNumber != event.value.value.s)
  {
    if event.None? || !event.value.value.Str? then None
    else
      var i := FirstWithTipping(equipments, event.value.value.s);
      if i.None? then None else Some(equipments[i.value])
  }

  /** Choosing the option built from the `k`-th equipment's tipping number
      selects an equipment with that tipping number, no later than the
      `k`-th: the first of any duplicates. */
  lemma ChosenOptionSelects(equipments: seq<EquipmentData>, labelOf: EquipmentData -> string, k: nat)
    requires k < |equipments|
    ensures var option := FormattedOptions(Some(equipments), labelOf, TippingOf).value[k];
      var r := HandleChange(equipments, Some(option));
      && r.Some?
      && r.value.tippingNumber == equipments[k].tippingNumber
      && exists j :: 0 <= j <= k && equipments[j] == r.value
  {
    var option := FormattedOptions(Some(equipments), labelOf, TippingOf).value[k];
    assert option.value == Str(equipments[k].tippingNumber);
    var i := FirstWithTipping(equipments, equipments[k].tippingNumber);
    assert i.Some?;
    assert i.value <= k;
  }

  /** The query of `equipment/find?searchTipping=${str}&take=${take}`: for a
      non-empty search, the query the list pages' encoder writes for the
      same two fields. */
  function SearchQuery(str: string): (r: string)
    ensures str != "" ==> r == Encode(SearchEntries(str))
  {
    SearchEntriesEncode(str);
    "searchTipping=" + str + "&take=" + IntToString(Take)
  }

  /** `handleSearch` after its debounce: the path fetched, or none for the
      empty string. */
  function HandleSearch(str: string): (r: Option<string>)
    ensures r.Some? <==> str != ""
    ensures r.Some? ==> r.value == "equipment/find?" + SearchQuery(str)
  {
    if str != "" then Some("equipment/find?" + SearchQuery(str)) else None
  }

  /** The two search entries as the list pages' encoder would write them. */
  function SearchEntries(str: string): seq<Entry>
  {
    [("searchTipping", Text(str)), ("take", Text(IntToString(Take)))]
  }

  lemma SearchEntriesEncode(str: string)
    ensures str != "" ==> KeptPairs(SearchEntries(str)) == [("searchTipping", str), ("take", "5")]
    ensures str != "" ==> Encode(SearchEntries(str)) == "searchTipping=" + str + "&take=" + IntToString(Take)
  {
    if str != "" {
      var pairs := [("searchTipping", str), ("take", "5")];
      assert IntToString(Take) == "5";
      assert KeptPairs(SearchEntries(str)) == pairs;
      var parts := RenderPairs(pairs);
      assert parts[0] == RenderPair(("searchTipping", str)) && parts[1] == RenderPair(("take", "5"));
      assert "searchTipping" + "=" + str == "searchTipping=" + str;
      assert "take" + "=" + "5" == "take=5";
      assert parts == ["searchTipping=" + str, "take=5"];
      assert Join(["take=5"], '&') == "take=5";
    }
  }

  lemma SearchEntriesPlain(str: string)
    requires '&' !in str
    ensures NoAmpersand(SearchEntries(str)) && PlainKeys(SearchEntries(str))
  {
    var e := SearchEntries(str);
    assert IntToString(Take) == "5";
    assert '&' !in "searchTipping" && '=' !in "searchTipping";
    assert '&' !in "take" && '=' !in "take" && '&' !in "5";
    assert e[0].0 == "searchTipping" && e[1].0 == "take" && e[1].1 == Text("5");
  }

  /** A non-empty search without `&` reads back as the search text and a
      limit of five results, and is the query the list pages would build
      from the same two fields. */
  lemma SearchQueryDecodes(str: string)
    requires str != "" && '&' !in str
    ensures SearchQuery(str) == Encode([("searchTipping", Text(str)), ("take", Text("5"))])
    ensures Decode(SearchQuery(str)) == [("searchTipping", str), ("take", "5")]
    ensures ParseInt(Decode(SearchQuery(str))[1].1) == Take
  {
    assert IntToString(Take) == "5";
    SearchEntriesEncode(str);
    SearchEntriesPlain(str);
    DecodeEncode(SearchEntries(str));
    IntToStringRoundTrip(Take);
  }

  /** `fetchEquipments`: a response replaces the list; a failed request
      keeps the previous one. */
  function Fetched(current: seq<EquipmentData>, response: Option<seq<EquipmentData>>): (r: seq<EquipmentData>)
    ensures response.Some? ==> r == response.value
    ensures response.None? ==> r == current
  {
    if response.Some? then response.value else current
  }

  /** The description input: optional, at most 255 characters; the empty
      description passes. */
  predicate DescriptionOk(description: string): (r: bool)
    ensures r <==> |description| <= 255
  {
    EquipmentForm.TextOk(EquipmentForm.OptionalMax255, description)
  }

  /** What can happen around the tipping-number lookup: text typed into a
      search, a response to the search request, an option chosen. */
  datatype LookupEvent =
    | Typed(text: string)
    | Responded(response: Option<seq<EquipmentData>>)
    | Chosen(option: Option<SelectOption>)

  /** The lookup state: the `equipments` list, the `selectedEquipment`
      (absent after `find` matched nothing), and the last path requested. */
  datatype Lookup = Lookup(equipments: seq<EquipmentData>, selected: Option<EquipmentData>, requested: Option<string>)

  /** The form's initial state: no equipments, the order service's own
      equipment selected, nothing requested. */
  function InitialLookup(current: EquipmentData): (s: Lookup)
    ensures s.selected == Some(current) && s.equipments == [] && s.requested.None?
  {
    Lookup([], Some(current), None)
  }

  /** Whether the helpers are attached to an input. As written nothing in the
      form's markup refers to `handleSearch`, `handleChange` or the options
      built by `formattedOptions`; `Attached` is the evident intent. */
  datatype Wiring = Unattached | Attached

  /** One event under a wiring. */
  function LookupStep(w: Wiring, s: Lookup, e: LookupEvent): (t: Lookup)
    ensures w.Unattached? ==> t == s
    ensures e.Typed? && w.Attached? ==> t.requested == HandleSearch(e.text) && t.equipments == s.equipments
    ensures e.Chosen? && w.Attached? ==> t.selected == HandleChange(s.equipments, e.option)
  {
    if w.Unattached? then s
    else
      match e
      case Typed(text) => s.(requested := HandleSearch(text))
      case Responded(response) => s.(equipments := Fetched(s.equipments, response))
      case Chosen(option) => s.(selected := HandleChange(s.equipments, option))
  }

  function RunLookup(w: Wiring, s: Lookup, events: seq<LookupEvent>): Lookup
    decreases |events|
  {
    if |events| == 0 then s else RunLookup(w, LookupStep(w, s, events[0]), events[1..])
  }

  /** As written, whatever is typed, answered or clicked, the selected
      equipment stays the order service's own and no search is requested. */
  lemma {:induction false} SelectionNeverChanges(current: EquipmentData, s: Lookup, events: seq<LookupEvent>)
    requires s == InitialLookup(current)
    ensures RunLookup(Unattached, s, events).selected == Some(current)
    ensures RunLookup(Unattached, s, events).requested.None?
    decreases |events|
  {
    if |events| > 0 {
      SelectionNeverChanges(current, LookupStep(Unattached, s, events[0]), events[1..]);
    }
  }

  lemma {:induction false} RunThree(w: Wiring, s: Lookup, a: LookupEvent, b: LookupEvent, c: LookupEvent)
    ensures RunLookup(w, s, [a, b, c]) == LookupStep(w, LookupStep(w, LookupStep(w, s, a), b), c)
  {
    var s1 := LookupStep(w, s, a);
    var s2 := LookupStep(w, s1, b);
    assert [a, b, c][1..] == [b, c];
    assert [b, c][1..] == [c];
    assert RunLookup(w, s2, [c]) == RunLookup(w, LookupStep(w, s2, c), []);
    assert RunLookup(w, s1, [b, c]) == RunLookup(w, s2, [c]);
  }

  /** With the helpers attached, typing a non-empty tipping number requests
      it, and once the response arrives, choosing the option of its `k`-th
      equipment selects an equipment with that tipping number. */
  lemma TippingSearchSelects(current: EquipmentData, text: string, data: seq<EquipmentData>,
                             labelOf: EquipmentData -> string, k: nat)
    requires text != "" && k < |data|
    ensures var option := FormattedOptions(Some(data), labelOf, TippingOf).value[k];
      var s := RunLookup(Attached, InitialLookup(current), [Typed(text), Responded(Some(data)), Chosen(Some(option))]);
      && s.requested == Some("equipment/find?" + SearchQuery(text))
      && s.equipments == data
      && s.selected.Some? && s.selected.value.tippingNumber == data[k].tippingNumber
  {
    var option := FormattedOptions(Some(data), labelOf, TippingOf).value[k];
    RunThree(Attached, InitialLookup(current), Typed(text), Responded(Some(data)), Chosen(Some(option)));
    ChosenOptionSelects(data, labelOf, k);
  }
}
