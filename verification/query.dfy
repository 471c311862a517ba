/** The filter query encoder shared by the equipment, order-service and
    movement pages (`handleFilterChange` / `handleChangeForm`): a record of
    named filter fields, in a fixed key order, becomes `key=value` pairs joined
    with `&`. Entries whose value is `undefined` or `''` are dropped; `null` is
    kept and written as `null`; nothing is escaped. */
module Query {
  import opened Strings
  import opened Seqs

  /** A filter field as the encoder sees it. */
  datatype Value = Undefined | Null | Text(s: string)

  /** A named field of the record the page builds, in declaration order. */
  type Entry = (string, Value)

  /** A `key=value` pair that reaches the query. */
  type Pair = (string, string)

  /** The test `field[1] !== undefined && field[1] !== ''`. */
  predicate IsKept(v: Value)
  {
    v != Undefined && v != Text("")
  }

  /** How the template literal `${value}` writes a kept value. */
  function Render(v: Value): string
    requires IsKept(v)
  {
    if v.Null? then "null" else v.s
  }

  /** The entries that pass the filter, in order, with their values rendered.
      There are none exactly when every entry is dropped, and no pair carries
      an empty value. */
  function KeptPairs(entries: seq<Entry>): (r: seq<Pair>)
    ensures |r| <= |entries|
    ensures r == [] <==> forall i :: 0 <= i < |entries| ==> !IsKept(entries[i].1)
    ensures forall k :: 0 <= k < |r| ==> r[k].1 != ""
  {
    if |entries| == 0 then []
    else
      var rest := KeptPairs(entries[1..]);
      assert forall i :: 1 <= i < |entries| ==> entries[i] == entries[1..][i - 1];
      if IsKept(entries[0].1) then [(entries[0].0, Render(entries[0].1))] + rest else rest
  }

  function RenderPair(p: Pair): string
  {
    p.0 + "=" + p.1
  }

  function RenderPairs(pairs: seq<Pair>): (r: seq<string>)
    ensures |r| == |pairs|
  {
    seq(|pairs|, k requires 0 <= k < |pairs| => RenderPair(pairs[k]))
  }

  /** The query string the page stores in its `filter` state: `''` exactly
      when every field is `undefined` or `''`. */
  function Encode(entries: seq<Entry>): (r: string)
    ensures r == "" <==> forall i :: 0 <= i < |entries| ==> !IsKept(entries[i].1)
  {
    var parts := RenderPairs(KeptPairs(entries));
    assert |parts| > 0 ==> |parts[0]| > 0;
    Join(parts, '&')
  }

  /** `formattedDate`: a date is formatted only when it is not `null`, not `''`
      and not `undefined`; otherwise the field stays `undefined` and so never
      reaches the query. The locale formatter is the parameter `fmt`. */
  function FormatDate(fmt: string -> string, date: Value): (r: Value)
    ensures (date.Text? && date.s != "") <==> r.Text?
    ensures r.Text? ==> r.s == fmt(date.s)
    ensures !r.Text? ==> !IsKept(r)
  {
    if date.Text? && date.s != "" then Text(fmt(date.s)) else Undefined
  }

  /** A list page's filter state: the watched form, the stored query
      `filter`, and the debounced `search` text. */
  datatype FilterState<F> = FilterState(form: F, filter: string, search: string)

  /** "Clear applied filters" is rendered exactly when `filter !== ''`. */
  predicate ShowClearFilters<F>(s: FilterState<F>)
  {
    s.filter != ""
  }

  /** Reads a query back into its pairs: split on `&`, then each piece at its
      first `=`. */
  function Decode(q: string): seq<Pair>
  {
    if q == "" then []
    else
      var pieces := Split(q, '&');
      seq(|pieces|, k requires 0 <= k < |pieces| => ParsePair(pieces[k]))
  }

  function ParsePair(piece: string): Pair
  {
    if '=' in piece then
      var i := IndexOf(piece, '=');
      (piece[..i], piece[i + 1..])
    else
      (piece, "")
  }

  /** No key and no string value contains `&`. */
  predicate NoAmpersand(entries: seq<Entry>)
  {
    forall i :: 0 <= i < |entries| ==>
      '&' !in entries[i].0 && (entries[i].1.Text? ==> '&' !in entries[i].1.s)
  }

  /** No key contains `=`. */
  predicate PlainKeys(entries: seq<Entry>)
  {
    forall i :: 0 <= i < |entries| ==> '=' !in entries[i].0
  }

  /** Each listed position holds a kept entry rendering to the matching pair. */
  ghost predicate SelectedAreKept(entries: seq<Entry>, idx: seq<nat>, pairs: seq<Pair>)
  {
    && |idx| == |pairs|
    && forall k :: 0 <= k < |idx| ==>
         idx[k] < |entries| && IsKept(entries[idx[k]].1)
         && pairs[k] == (entries[idx[k]].0, Render(entries[idx[k]].1))
  }

  ghost predicate Increasing(idx: seq<nat>)
  {
    forall k, l :: 0 <= k < l < |idx| ==> idx[k] < idx[l]
  }

  /** Every kept position is listed. */
  ghost predicate CoversKept(entries: seq<Entry>, idx: seq<nat>)
  {
    forall i :: 0 <= i < |entries| && IsKept(entries[i].1) ==> i in idx
  }

  /** The positions of the kept entries among `entries`, in order. */
  ghost predicate SelectsKept(entries: seq<Entry>, idx: seq<nat>, pairs: seq<Pair>)
  {
    SelectedAreKept(entries, idx, pairs) && Increasing(idx) && CoversKept(entries, idx)
  }

  function Shift(idx: seq<nat>): (r: seq<nat>)
    ensures |r| == |idx|
    ensures forall k :: 0 <= k < |r| ==> r[k] == idx[k] + 1
  {
    seq(|idx|, k requires 0 <= k < |idx| => idx[k] + 1)
  }

  /** Positions selected in `entries[1..]` are positions in `entries` once
      shifted by one. */
  lemma ShiftSelection(entries: seq<Entry>, tail: seq<nat>, pairs: seq<Pair>)
    requires |entries| > 0
    requires SelectsKept(entries[1..], tail, pairs)
    ensures |Shift(tail)| == |pairs|
    ensures forall k :: 0 <= k < |Shift(tail)| ==>
      0 < Shift(tail)[k] < |entries| && IsKept(entries[Shift(tail)[k]].1)
      && pairs[k] == (entries[Shift(tail)[k]].0, Render(entries[Shift(tail)[k]].1))
    ensures forall k, l :: 0 <= k < l < |Shift(tail)| ==> Shift(tail)[k] < Shift(tail)[l]
    ensures forall i :: 0 < i < |entries| && IsKept(entries[i].1) ==> i in Shift(tail)
  {
    var shifted := Shift(tail);
    forall i | 0 < i < |entries| && IsKept(entries[i].1)
      ensures i in shifted
    {
      assert entries[1..][i - 1] == entries[i];
      assert i - 1 in tail;
      var k :| 0 <= k < |tail| && tail[k] == i - 1;
      assert shifted[k] == i;
    }
  }

  lemma PrependSelected(entries: seq<Entry>, shifted: seq<nat>, rest: seq<Pair>)
    requires |entries| > 0 && IsKept(entries[0].1)
    requires |shifted| == |rest|
    requires forall k :: 0 <= k < |shifted| ==>
      0 < shifted[k] < |entries| && IsKept(entries[shifted[k]].1)
      && rest[k] == (entries[shifted[k]].0, Render(entries[shifted[k]].1))
    ensures SelectedAreKept(entries, [0] + shifted, [(entries[0].0, Render(entries[0].1))] + rest)
  {
    var idx := [0] + shifted;
    var pairs := [(entries[0].0, Render(entries[0].1))] + rest;
    forall k | 0 < k < |idx|
      ensures idx[k] < |entries| && IsKept(entries[idx[k]].1)
      ensures pairs[k] == (entries[idx[k]].0, Render(entries[idx[k]].1))
    {
      assert idx[k] == shifted[k - 1] && pairs[k] == rest[k - 1];
    }
  }

  lemma PrependIncreasing(shifted: seq<nat>)
    requires forall k :: 0 <= k < |shifted| ==> shifted[k] > 0
    requires Increasing(shifted)
    ensures Increasing([0] + shifted)
  {
    var idx := [0] + shifted;
    forall k, l | 0 <= k < l < |idx|
      ensures idx[k] < idx[l]
    {
      assert idx[l] == shifted[l - 1];
      if k > 0 {
        assert idx[k] == shifted[k - 1];
      }
    }
  }

  lemma PrependCovers(entries: seq<Entry>, shifted: seq<nat>)
    requires forall i :: 0 < i < |entries| && IsKept(entries[i].1) ==> i in shifted
    ensures CoversKept(entries, [0] + shifted)
  {
    var idx := [0] + shifted;
    forall i | 0 < i < |entries| && IsKept(entries[i].1)
      ensures i in idx
    {
      var k :| 0 <= k < |shifted| && shifted[k] == i;
      assert idx[k + 1] == i;
    }
  }

  lemma SelectKeptHead(entries: seq<Entry>, tail: seq<nat>)
    requires |entries| > 0 && IsKept(entries[0].1)
    requires SelectsKept(entries[1..], tail, KeptPairs(entries[1..]))
    ensures SelectsKept(entries, [0] + Shift(tail), KeptPairs(entries))
  {
    var rest := KeptPairs(entries[1..]);
    ShiftSelection(entries, tail, rest);
    var shifted := Shift(tail);
    assert KeptPairs(entries) == [(entries[0].0, Render(entries[0].1))] + rest;
    PrependSelected(entries, shifted, rest);
    PrependIncreasing(shifted);
    PrependCovers(entries, shifted);
  }

  lemma SkipUnkeptHead(entries: seq<Entry>, tail: seq<nat>)
    requires |entries| > 0 && !IsKept(entries[0].1)
    requires SelectsKept(entries[1..], tail, KeptPairs(entries[1..]))
    ensures SelectsKept(entries, Shift(tail), KeptPairs(entries))
  {
    var rest := KeptPairs(entries[1..]);
    assert KeptPairs(entries) == rest;
    ShiftSelection(entries, tail, rest);
    assert SelectedAreKept(entries, Shift(tail), rest);
    assert CoversKept(entries, Shift(tail));
  }

  /** `KeptPairs` selects exactly the kept entries, in their original order:
      `idx` lists their positions, strictly increasing, and every kept
      position is listed. */
  lemma {:induction false} KeptPairsSelect(entries: seq<Entry>) returns (idx: seq<nat>)
    ensures SelectsKept(entries, idx, KeptPairs(entries))
  {
    if |entries| == 0 {
      idx := [];
    } else {
      var tail := KeptPairsSelect(entries[1..]);
      if IsKept(entries[0].1) {
        SelectKeptHead(entries, tail);
        idx := [0] + Shift(tail);
      } else {
        SkipUnkeptHead(entries, tail);
        idx := Shift(tail);
      }
    }
  }

  /** A pair reaches the query exactly when some entry with that key holds a
      kept value rendering to that value: `undefined` and `''` are the only
      values excluded. */
  lemma KeptPairsMembership(entries: seq<Entry>, p: Pair)
    ensures p in KeptPairs(entries) <==>
      exists i :: 0 <= i < |entries| && IsKept(entries[i].1) && p == (entries[i].0, Render(entries[i].1))
  {
    var idx := KeptPairsSelect(entries);
    if p in KeptPairs(entries) {
      var k :| 0 <= k < |KeptPairs(entries)| && KeptPairs(entries)[k] == p;
      assert IsKept(entries[idx[k]].1);
    }
    if exists i :: 0 <= i < |entries| && IsKept(entries[i].1) && p == (entries[i].0, Render(entries[i].1)) {
      var i :| 0 <= i < |entries| && IsKept(entries[i].1) && p == (entries[i].0, Render(entries[i].1));
      assert i in idx;
      var k :| 0 <= k < |idx| && idx[k] == i;
      assert KeptPairs(entries)[k] == p;
    }
  }

  /** No key occurs twice. */
  predicate DistinctKeys(entries: seq<Entry>)
  {
    forall i, j :: 0 <= i < j < |entries| ==> entries[i].0 != entries[j].0
  }

  /** Entries whose keys are, in order, a list of distinct `=`-free names
      have distinct plain keys. */
  lemma KeysFromList(entries: seq<Entry>, keys: seq<string>)
    requires |entries| == |keys| && forall k :: 0 <= k < |keys| ==> entries[k].0 == keys[k]
    requires forall i, j :: 0 <= i < j < |keys| ==> keys[i] != keys[j]
    requires forall i :: 0 <= i < |keys| ==> '=' !in keys[i]
    ensures DistinctKeys(entries) && PlainKeys(entries)
  {
  }

  /** With distinct keys, the query holds `key=v` for the entry at `j` exactly
      when that entry is kept and renders to `v`. */
  lemma KeptPairAt(entries: seq<Entry>, j: nat, v: string)
    requires j < |entries| && DistinctKeys(entries)
    ensures (entries[j].0, v) in KeptPairs(entries) <==> IsKept(entries[j].1) && v == Render(entries[j].1)
  {
    KeptPairsMembership(entries, (entries[j].0, v));
    if (entries[j].0, v) in KeptPairs(entries) {
      var i :| 0 <= i < |entries| && IsKept(entries[i].1) && (entries[j].0, v) == (entries[i].0, Render(entries[i].1));
      assert i == j;
    }
  }

  /** Every kept pair inherits the absence of `&` (and of `=` in keys) from
      the entries. */
  lemma KeptPairsPlain(entries: seq<Entry>)
    ensures NoAmpersand(entries) ==>
      forall k :: 0 <= k < |KeptPairs(entries)| ==>
        '&' !in KeptPairs(entries)[k].0 && '&' !in KeptPairs(entries)[k].1
    ensures PlainKeys(entries) ==>
      forall k :: 0 <= k < |KeptPairs(entries)| ==> '=' !in KeptPairs(entries)[k].0
  {
    var idx := KeptPairsSelect(entries);
    forall k | 0 <= k < |idx|
      ensures NoAmpersand(entries) ==> '&' !in KeptPairs(entries)[k].0 && '&' !in KeptPairs(entries)[k].1
      ensures PlainKeys(entries) ==> '=' !in KeptPairs(entries)[k].0
    {
      var e := entries[idx[k]];
      assert KeptPairs(entries)[k] == (e.0, Render(e.1));
    }
  }

  /** When no key or value contains `&`, the query holds exactly one `&`
      between neighbouring pairs. */
  lemma SeparatorCount(entries: seq<Entry>)
    requires NoAmpersand(entries)
    ensures |KeptPairs(entries)| > 0 ==> Count(Encode(entries), '&') == |KeptPairs(entries)| - 1
    ensures |KeptPairs(entries)| == 0 ==> Count(Encode(entries), '&') == 0
  {
    var pairs := KeptPairs(entries);
    if |pairs| > 0 {
      KeptPairsPlain(entries);
      var parts := RenderPairs(pairs);
      forall k | 0 <= k < |parts|
        ensures '&' !in parts[k]
      {
        assert parts[k] == pairs[k].0 + "=" + pairs[k].1;
      }
      JoinSeparatorCount(parts, '&');
    }
  }

  lemma ParseRenderedPair(p: Pair)
    requires '=' !in p.0
    ensures ParsePair(RenderPair(p)) == p
  {
    var s := RenderPair(p);
    assert s[|p.0|] == '=';
    assert forall j :: 0 <= j < |p.0| ==> s[j] == p.0[j];
    var i := IndexOf(s, '=');
    assert i == |p.0|;
    assert s[..i] == p.0;
    assert s[i + 1..] == p.1;
  }

  /** Splitting the query on `&` and each piece at its first `=` gives back
      the kept pairs, when no key or value contains `&` and no key contains `=`. */
  lemma DecodeEncode(entries: seq<Entry>)
    requires NoAmpersand(entries) && PlainKeys(entries)
    ensures Decode(Encode(entries)) == KeptPairs(entries)
  {
    var pairs := KeptPairs(entries);
    if |pairs| > 0 {
      KeptPairsPlain(entries);
      var parts := RenderPairs(pairs);
      forall k | 0 <= k < |parts|
        ensures '&' !in parts[k]
      {
        assert parts[k] == pairs[k].0 + "=" + pairs[k].1;
      }
      SplitJoin(parts, '&');
      assert |Encode(entries)| > 0 by {
        assert |parts[0]| > 0;
        JoinNonEmpty(parts, '&');
      }
      var decoded := Decode(Encode(entries));
      forall k | 0 <= k < |pairs|
        ensures decoded[k] == pairs[k]
      {
        ParseRenderedPair(pairs[k]);
      }
    }
  }
}
