/** The `{ label, value }` option lists that fill the pages' filter selects,
    and the two ways the pages build duplicate-free lists from fetched
    records: the equipment page's push-if-absent loop and the order-service
    page's `Set` followed by a truthiness filter. A missing or `null` name is
    falsy like `''`, so names are strings and "falsy" is `''`. */
module SelectOptions {
  import opened Wrappers
  import opened Seqs

  /** An option's `value: number | string`. */
  datatype OptionValue = Str(s: string) | Num(n: int)

  /** An option `{ label, value }`; `text` is its `label`. */
  datatype SelectOption = SelectOption(text: string, value: OptionValue)

  /** `{ label: name, value: name }` for every name, in order. */
  function Labelled(names: seq<string>): (r: seq<SelectOption>)
    ensures |r| == |names|
    ensures forall k :: 0 <= k < |r| ==> r[k].text == names[k] && r[k].value == Str(names[k])
  {
    if |names| == 0 then [] else [SelectOption(names[0], Str(names[0]))] + Labelled(names[1..])
  }

  /** No name occurs twice. */
  predicate Distinct(names: seq<string>)
  {
    forall i, j :: 0 <= i < j < |names| ==> names[i] != names[j]
  }

  /** The equipment page's builder: walk the names and push each truthy one
      not already in the list. */
  function PushUnique(names: seq<string>): (r: seq<string>)
    ensures Distinct(r)
    ensures forall x :: x in r <==> x in names && x != ""
    decreases |names|
  {
    if |names| == 0 then []
    else
      var acc := PushUnique(names[..|names| - 1]);
      var x := names[|names| - 1];
      assert forall y :: y in names <==> y in names[..|names| - 1] || y == x;
      if x != "" && x !in acc then acc + [x] else acc
  }

  lemma FirstIndexOfPrefix(names: seq<string>, n: nat, x: string)
    requires n <= |names| && x in names[..n]
    ensures IndexOf(names, x) == IndexOf(names[..n], x)
  {
    var i, j := IndexOf(names, x), IndexOf(names[..n], x);
    assert names[j] == names[..n][j] == x;
    assert i <= j;
    assert names[..n][i] == names[i];
  }

  /** Appending a name leaves the first occurrences of earlier names alone. */
  lemma FirstIndexAppend(prefix: seq<string>, x: string, y: string)
    requires y in prefix
    ensures IndexOf(prefix + [x], y) == IndexOf(prefix, y) < |prefix|
  {
    assert (prefix + [x])[..|prefix|] == prefix;
    FirstIndexOfPrefix(prefix + [x], |prefix|, y);
  }

  /** `acc` lists names of `names` in order of first occurrence. */
  ghost predicate FirstOccurrenceOrdered(names: seq<string>, acc: seq<string>)
  {
    && (forall y :: y in acc ==> y in names)
    && forall i, j :: 0 <= i < j < |acc| ==> IndexOf(names, acc[i]) < IndexOf(names, acc[j])
  }

  /** Appending a name that does not occur in the prefix keeps the order. */
  lemma OrderedAfterPush(prefix: seq<string>, x: string, acc: seq<string>)
    requires x !in prefix
    requires FirstOccurrenceOrdered(prefix, acc)
    ensures FirstOccurrenceOrdered(prefix + [x], acc + [x])
  {
    var names := prefix + [x];
    var r := acc + [x];
    assert IndexOf(names, x) == |prefix|;
    forall i, j | 0 <= i < j < |r|
      ensures IndexOf(names, r[i]) < IndexOf(names, r[j])
    {
      assert r[i] == acc[i];
      FirstIndexAppend(prefix, x, acc[i]);
      if j < |acc| {
        assert r[j] == acc[j];
        FirstIndexAppend(prefix, x, acc[j]);
      }
    }
  }

  /** Leaving the list alone also keeps the order. */
  lemma OrderedAfterSkip(prefix: seq<string>, x: string, acc: seq<string>)
    requires FirstOccurrenceOrdered(prefix, acc)
    ensures FirstOccurrenceOrdered(prefix + [x], acc)
  {
    var names := prefix + [x];
    forall i, j | 0 <= i < j < |acc|
      ensures IndexOf(names, acc[i]) < IndexOf(names, acc[j])
    {
      FirstIndexAppend(prefix, x, acc[i]);
      FirstIndexAppend(prefix, x, acc[j]);
    }
  }

  /** `PushUnique` keeps first-occurrence order: earlier options first
      occurred earlier in the input. */
  lemma {:induction false} PushUniqueFirstOccurrenceOrder(names: seq<string>)
    ensures FirstOccurrenceOrdered(names, PushUnique(names))
    decreases |names|
  {
    if |names| > 0 {
      var n := |names| - 1;
      var prefix := names[..n];
      var acc := PushUnique(prefix);
      var x := names[n];
      assert names == prefix + [x];
      PushUniqueFirstOccurrenceOrder(prefix);
      if x != "" && x !in acc {
        OrderedAfterPush(prefix, x, acc);
      } else {
        OrderedAfterSkip(prefix, x, acc);
      }
    }
  }

  /** `Array.from(new Set(names))`: each name once, at its first occurrence. */
  function SetOrder(names: seq<string>): (r: seq<string>)
    ensures forall x :: x in r <==> x in names
    decreases |names|
  {
    if |names| == 0 then []
    else
      var acc := SetOrder(names[..|names| - 1]);
      var x := names[|names| - 1];
      assert forall y :: y in names <==> y in names[..|names| - 1] || y == x;
      if x in acc then acc else acc + [x]
  }

  /** `.filter((name) => !!name)`. */
  function Truthy(names: seq<string>): (r: seq<string>)
    ensures forall x :: x in r <==> x in names && x != ""
    decreases |names|
  {
    if |names| == 0 then []
    else
      var rest := Truthy(names[..|names| - 1]);
      var x := names[|names| - 1];
      assert forall y :: y in names <==> y in names[..|names| - 1] || y == x;
      if x != "" then rest + [x] else rest
  }

  /** The order-service page's `Set`-then-filter builder produces exactly the
      equipment page's push-if-absent list. */
  lemma {:induction false} SetThenFilterIsPushUnique(names: seq<string>)
    ensures Truthy(SetOrder(names)) == PushUnique(names)
    decreases |names|
  {
    if |names| > 0 {
      var n := |names| - 1;
      var x := names[n];
      var acc := SetOrder(names[..n]);
      SetThenFilterIsPushUnique(names[..n]);
      if x !in acc {
        assert SetOrder(names) == acc + [x];
        assert (acc + [x])[..|acc|] == acc;
      }
    }
  }

  /** `.some((item) => item.value === value)`. */
  method SomeHasValue(options: seq<SelectOption>, value: OptionValue) returns (found: bool)
    ensures found <==> exists k :: 0 <= k < |options| && options[k].value == value
  {
    found := false;
    var k := 0;
    while k < |options| && !found
      invariant 0 <= k <= |options|
      invariant found <==> exists m :: 0 <= m < k && options[m].value == value
    {
      found := options[k].value == value;
      k := k + 1;
    }
  }

  /** The loop of `setFilterOptions` for one field: push
      `{ label: name, value: name }` when the name is truthy and no option
      already has that value. */
  method CollectUnique(names: seq<string>) returns (options: seq<SelectOption>)
    ensures options == Labelled(PushUnique(names))
  {
    options := [];
    var i := 0;
    while i < |names|
      invariant 0 <= i <= |names|
      invariant options == Labelled(PushUnique(names[..i]))
    {
      var name := names[i];
      var present := SomeHasValue(options, Str(name));
      assert present <==> name in PushUnique(names[..i]) by {
        var acc := PushUnique(names[..i]);
        if name in acc {
          var k :| 0 <= k < |acc| && acc[k] == name;
          assert options[k].value == Str(name);
        }
      }
      assert names[..i + 1][..i] == names[..i];
      if name != "" && !present {
        options := options + [SelectOption(name, Str(name))];
        assert Labelled(PushUnique(names[..i + 1])) == options by {
          LabelledSnoc(PushUnique(names[..i]), name);
        }
      }
      i := i + 1;
    }
    assert names[..i] == names;
  }

  lemma LabelledSnoc(names: seq<string>, name: string)
    ensures Labelled(names + [name]) == Labelled(names) + [SelectOption(name, Str(name))]
  {
  }

  /** A list of names offered as options: duplicate-free, no falsy name,
      `label == value`, every truthy input name present. */
  lemma {:induction false} UniqueOptionsShape(names: seq<string>)
    ensures forall i, j :: 0 <= i < j < |Labelled(PushUnique(names))| ==>
      Labelled(PushUnique(names))[i].value != Labelled(PushUnique(names))[j].value
    ensures forall k :: 0 <= k < |Labelled(PushUnique(names))| ==>
      Labelled(PushUnique(names))[k].text != ""
      && Labelled(PushUnique(names))[k].value == Str(Labelled(PushUnique(names))[k].text)
    ensures forall x :: x in names && x != "" ==>
      exists k :: 0 <= k < |Labelled(PushUnique(names))| && Labelled(PushUnique(names))[k].text == x
  {
    var r := PushUnique(names);
    var opts := Labelled(r);
    forall k | 0 <= k < |opts|
      ensures opts[k].text != ""
    {
      assert r[k] in r;
    }
    forall x | x in names && x != ""
      ensures exists k :: 0 <= k < |opts| && opts[k].text == x
    {
      assert x in r;
      var k :| 0 <= k < |r| && r[k] == x;
      assert opts[k].text == x;
    }
  }

  /** A workstation as the scheduling service lists it. */
  datatype Workstation = Workstation(name: string)

  /** `formattedWorkstations`: `data?.map(...)` with `label == value == name`;
      an absent response stays absent. */
  function WorkstationOptions(data: Option<seq<Workstation>>): (r: Option<seq<SelectOption>>)
    ensures data.None? <==> r.None?
    ensures data.Some? ==> (|r.value| == |data.value|
      && forall k :: 0 <= k < |r.value| ==>
        r.value[k].text == data.value[k].name && r.value[k].value == Str(data.value[k].name))
  {
    match data
    case None => None
    case Some(ws) => Some(Labelled(WorkstationNames(ws)))
  }

  function WorkstationNames(ws: seq<Workstation>): (names: seq<string>)
    ensures |names| == |ws| && forall k :: 0 <= k < |ws| ==> names[k] == ws[k].name
  {
    if |ws| == 0 then [] else [ws[0].name] + WorkstationNames(ws[1..])
  }
}
