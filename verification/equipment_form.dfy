/** The equipment registration form: its validation rules as
    react-hook-form applies them, the type-dependent fields, the
    acquisition-year list, and the payload sent on submission. */
module EquipmentForm {
  import opened Wrappers
  import opened Strings

  /** A select's chosen option `{ value, label }`; `text` is the label. */
  datatype Choice = Choice(value: string, text: string)

  /** An option of the acquisition-year select; its value is a number. */
  datatype YearOption = YearOption(value: int, text: string)

  /** The form's values. Text inputs always rendered hold a string (`''` when
      empty); the type-dependent inputs and the selects may be absent. */
  datatype FormValues = FormValues(
    tippingNumber: string,
    serialNumber: string,
    kind: Option<Choice>,
    situacao: Option<string>,
    model: string,
    description: string,
    initialUseDate: Option<YearOption>,
    acquisitionDate: Option<string>,
    screenSize: Option<string>,
    invoiceNumber: string,
    power: Option<string>,
    screenType: Option<Choice>,
    processor: Option<string>,
    storageType: Option<Choice>,
    storageAmount: Option<string>,
    brandName: string,
    acquisitionName: string,
    unitId: Option<string>,
    ramSize: Option<string>,
    estado: Option<Choice>)

  /** The watched type, `{ label: '', value: '' }` while none is chosen. */
  function TypeValue(f: FormValues): string
  {
    if f.kind.Some? then f.kind.value.value else ""
  }

  /** The rules of a registered text input. */
  datatype TextRule = TextRule(required: bool, maxLength: Option<nat>, digitsOnly: bool)

  /** How react-hook-form checks a text input: `required` fails on an empty
      value; `maxLength` and `pattern` only look at a non-empty one, so an
      empty optional value passes them all. */
  predicate TextOk(rule: TextRule, v: string): (r: bool)
    ensures v == "" ==> (r <==> !rule.required)
    ensures r && rule.required ==> |v| > 0
    ensures r && rule.maxLength.Some? ==> |v| <= rule.maxLength.value
    ensures r && rule.digitsOnly && v != "" ==> forall i :: 0 <= i < |v| ==> '0' <= v[i] <= '9'
  {
    if v == "" then !rule.required
    else (rule.maxLength.None? || |v| <= rule.maxLength.value) && (!rule.digitsOnly || IsDigits(v))
  }

  const Required := TextRule(true, None, false)
  const RequiredMax50 := TextRule(true, Some(50), false)
  const RequiredDigits := TextRule(true, None, true)
  const RequiredDigitsMax50 := TextRule(true, Some(50), true)
  const OptionalMax255 := TextRule(false, Some(255), false)

  /** The form's fields, in the order they are rendered. */
  datatype Field =
    | TypeField | BrandName | Model | TippingNumber | SerialNumber | InvoiceNumber
    | AcquisitionName | Estado | InitialUseDate | AcquisitionDate
    | RamSize | StorageType | StorageAmount | Processor
    | ScreenType | ScreenSize | Power | Description

  /** One rendered input and whether its rules hold. */
  datatype Verdict = Verdict(field: Field, ok: bool)

  predicate AllOk(vs: seq<Verdict>)
  {
    forall k :: 0 <= k < |vs| ==> vs[k].ok
  }

  /** The fields of the failing verdicts, in order. */
  function Failing(vs: seq<Verdict>): (r: seq<Field>)
    ensures r == [] <==> AllOk(vs)
  {
    if |vs| == 0 then []
    else (if vs[0].ok then [] else [vs[0].field]) + Failing(vs[1..])
  }

  /** A reported field has a failing verdict. */
  lemma {:induction false} FailingFields(vs: seq<Verdict>, x: Field) returns (k: nat)
    requires x in Failing(vs)
    ensures k < |vs| && vs[k].field == x && !vs[k].ok
    decreases |vs|
  {
    if !vs[0].ok && x == vs[0].field {
      k := 0;
    } else {
      var j := FailingFields(vs[1..], x);
      k := j + 1;
    }
  }

  /** The inputs every equipment has, apart from the description. */
  function CommonVerdicts(f: FormValues): seq<Verdict>
  {
    [Verdict(TypeField, f.kind.Some?),
     Verdict(BrandName, TextOk(RequiredMax50, f.brandName)),
     Verdict(Model, TextOk(RequiredMax50, f.model)),
     Verdict(TippingNumber, TextOk(RequiredDigits, f.tippingNumber)),
     Verdict(SerialNumber, TextOk(RequiredDigits, f.serialNumber)),
     Verdict(InvoiceNumber, TextOk(RequiredDigitsMax50, f.invoiceNumber)),
     Verdict(AcquisitionName, TextOk(RequiredMax50, f.acquisitionName)),
     Verdict(Estado, f.estado.Some?),
     Verdict(InitialUseDate, f.initialUseDate.Some?),
     Verdict(AcquisitionDate, f.acquisitionDate.Some?)]
  }

  /** The inputs a CPU adds. */
  function CpuVerdicts(f: FormValues): seq<Verdict>
  {
    [Verdict(RamSize, TextOk(RequiredDigits, f.ramSize.GetOr(""))),
     Verdict(StorageType, f.storageType.Some?),
     Verdict(StorageAmount, TextOk(RequiredDigits, f.storageAmount.GetOr(""))),
     Verdict(Processor, TextOk(Required, f.processor.GetOr("")))]
  }

  /** The inputs a monitor adds. */
  function MonitorVerdicts(f: FormValues): seq<Verdict>
  {
    [Verdict(ScreenType, f.screenType.Some?),
     Verdict(ScreenSize, TextOk(Required, f.screenSize.GetOr("")))]
  }

  /** The input a stabiliser or a no-break adds. */
  function PowerVerdicts(f: FormValues): seq<Verdict>
  {
    [Verdict(Power, TextOk(RequiredDigits, f.power.GetOr("")))]
  }

  /** The inputs rendered only for the watched type. */
  function TypeVerdicts(f: FormValues): seq<Verdict>
  {
    (if TypeValue(f) == "CPU" then CpuVerdicts(f) else [])
    + (if TypeValue(f) == "Monitor" then MonitorVerdicts(f) else [])
    + (if TypeValue(f) == "Estabilizador" || TypeValue(f) == "Nobreak" then PowerVerdicts(f) else [])
  }

  /** Every rendered input's verdict, in render order. */
  function Verdicts(f: FormValues): seq<Verdict>
  {
    CommonVerdicts(f) + TypeVerdicts(f) + [Verdict(Description, TextOk(OptionalMax255, f.description))]
  }

  /** The fields whose rules fail, in render order; a type-dependent input
      is validated only while it is rendered. There are none exactly when
      the form describes a registrable equipment. */
  function Errors(f: FormValues): (r: seq<Field>)
    ensures r == [] <==> Acceptable(f)
  {
    VerdictsOkIff(f);
    Failing(Verdicts(f))
  }

  /** Present and non-empty. */
  predicate Filled(v: Option<string>)
  {
    v.Some? && v.value != ""
  }

  /** What a registrable equipment looks like, field by field. */
  predicate Acceptable(f: FormValues)
  {
    && f.kind.Some? && f.estado.Some? && f.initialUseDate.Some? && f.acquisitionDate.Some?
    && IsDigits(f.tippingNumber)
    && IsDigits(f.serialNumber)
    && IsDigits(f.invoiceNumber) && |f.invoiceNumber| <= 50
    && 0 < |f.brandName| <= 50
    && 0 < |f.model| <= 50
    && 0 < |f.acquisitionName| <= 50
    && |f.description| <= 255
    && (f.kind.value.value == "CPU" ==>
          Filled(f.ramSize) && IsDigits(f.ramSize.value)
          && Filled(f.storageAmount) && IsDigits(f.storageAmount.value)
          && f.storageType.Some? && Filled(f.processor))
    && (f.kind.value.value == "Monitor" ==> f.screenType.Some? && Filled(f.screenSize))
    && (f.kind.value.value in {"Estabilizador", "Nobreak"} ==> Filled(f.power) && IsDigits(f.power.value))
  }

  lemma AllOkConcat(a: seq<Verdict>, b: seq<Verdict>)
    ensures AllOk(a + b) <==> AllOk(a) && AllOk(b)
  {
    if AllOk(a) && AllOk(b) {
      forall k | 0 <= k < |a + b|
        ensures (a + b)[k].ok
      {
        if k >= |a| {
          assert (a + b)[k] == b[k - |a|];
        }
      }
    }
    if AllOk(a + b) {
      forall k | 0 <= k < |a|
        ensures a[k].ok
      {
        assert (a + b)[k] == a[k];
      }
      forall k | 0 <= k < |b|
        ensures b[k].ok
      {
        assert (a + b)[|a| + k] == b[k];
      }
    }
  }

  lemma CommonOkIff(f: FormValues)
    ensures AllOk(CommonVerdicts(f)) <==>
      && f.kind.Some? && f.estado.Some? && f.initialUseDate.Some? && f.acquisitionDate.Some?
      && IsDigits(f.tippingNumber)
      && IsDigits(f.serialNumber)
      && IsDigits(f.invoiceNumber) && |f.invoiceNumber| <= 50
      && 0 < |f.brandName| <= 50
      && 0 < |f.model| <= 50
      && 0 < |f.acquisitionName| <= 50
  {
    var vs := CommonVerdicts(f);
    assert AllOk(vs) <==>
      (vs[0].ok && vs[1].ok && vs[2].ok && vs[3].ok && vs[4].ok
       && vs[5].ok && vs[6].ok && vs[7].ok && vs[8].ok && vs[9].ok);
  }

  lemma CpuOkIff(f: FormValues)
    ensures AllOk(CpuVerdicts(f)) <==>
      Filled(f.ramSize) && IsDigits(f.ramSize.value)
      && Filled(f.storageAmount) && IsDigits(f.storageAmount.value)
      && f.storageType.Some? && Filled(f.processor)
  {
    var c := CpuVerdicts(f);
    assert AllOk(c) <==> c[0].ok && c[1].ok && c[2].ok && c[3].ok;
  }

  lemma MonitorOkIff(f: FormValues)
    ensures AllOk(MonitorVerdicts(f)) <==> f.screenType.Some? && Filled(f.screenSize)
  {
    var m := MonitorVerdicts(f);
    assert AllOk(m) <==> m[0].ok && m[1].ok;
  }

  lemma PowerOkIff(f: FormValues)
    ensures AllOk(PowerVerdicts(f)) <==> Filled(f.power) && IsDigits(f.power.value)
  {
    assert AllOk(PowerVerdicts(f)) <==> PowerVerdicts(f)[0].ok;
  }

  lemma TypeOkIff(f: FormValues)
    ensures AllOk(TypeVerdicts(f)) <==>
      && (TypeValue(f) == "CPU" ==>
            Filled(f.ramSize) && IsDigits(f.ramSize.value)
            && Filled(f.storageAmount) && IsDigits(f.storageAmount.value)
            && f.storageType.Some? && Filled(f.processor))
      && (TypeValue(f) == "Monitor" ==> f.screenType.Some? && Filled(f.screenSize))
      && (TypeValue(f) in {"Estabilizador", "Nobreak"} ==> Filled(f.power) && IsDigits(f.power.value))
  {
    var t := TypeValue(f);
    if t == "CPU" {
      assert TypeVerdicts(f) == CpuVerdicts(f);
      CpuOkIff(f);
    } else if t == "Monitor" {
      assert TypeVerdicts(f) == MonitorVerdicts(f);
      MonitorOkIff(f);
    } else if t == "Estabilizador" || t == "Nobreak" {
      assert TypeVerdicts(f) == PowerVerdicts(f);
      PowerOkIff(f);
    } else {
      assert TypeVerdicts(f) == [];
    }
  }

  /** Every rendered input passes its rules exactly when the form describes
      a registrable equipment. */
  lemma VerdictsOkIff(f: FormValues)
    ensures AllOk(Verdicts(f)) <==> Acceptable(f)
  {
    var d := [Verdict(Description, TextOk(OptionalMax255, f.description))];
    assert AllOk(d) <==> |f.description| <= 255 by {
      assert AllOk(d) <==> d[0].ok;
    }
    AllOkConcat(CommonVerdicts(f), TypeVerdicts(f));
    AllOkConcat(CommonVerdicts(f) + TypeVerdicts(f), d);
    CommonOkIff(f);
    TypeOkIff(f);
  }

  /** Changing the type resets the seven type-dependent fields. */
  function ChangeType(f: FormValues, kind: Option<Choice>): (g: FormValues)
    ensures g.kind == kind
    ensures g.power.None? && g.screenSize.None? && g.screenType.None? && g.ramSize.None?
      && g.processor.None? && g.storageType.None? && g.storageAmount.None?
    ensures g.tippingNumber == f.tippingNumber && g.serialNumber == f.serialNumber
      && g.brandName == f.brandName && g.model == f.model && g.invoiceNumber == f.invoiceNumber
    ensures g.estado == f.estado && g.initialUseDate == f.initialUseDate
      && g.acquisitionDate == f.acquisitionDate && g.acquisitionName == f.acquisitionName
      && g.description == f.description && g.situacao == f.situacao && g.unitId == f.unitId
  {
    f.(kind := kind, power := None, screenSize := None, screenType := None, ramSize := None,
       processor := None, storageType := None, storageAmount := None)
  }

  /** After switching to a type with its own inputs the form cannot be
      submitted until they are filled in again. */
  lemma ChangeTypeRequiresReentry(f: FormValues, c: Choice)
    requires c.value in {"CPU", "Monitor", "Estabilizador", "Nobreak"}
    ensures !Acceptable(ChangeType(f, Some(c)))
    ensures Errors(ChangeType(f, Some(c))) != []
  {
  }

  /** The object posted to `equipment/createEquipment`. */
  datatype Payload = Payload(
    kind: string,
    estado: string,
    initialUseDate: int,
    storageType: Option<string>,
    screenType: Option<string>,
    tippingNumber: string,
    serialNumber: string,
    situacao: Option<string>,
    model: string,
    description: string,
    acquisitionDate: Option<string>,
    screenSize: Option<string>,
    invoiceNumber: string,
    power: Option<string>,
    processor: Option<string>,
    storageAmount: Option<string>,
    brandName: string,
    acquisitionName: string,
    unitId: Option<string>,
    ramSize: Option<string>)

  function ValueOf(c: Option<Choice>): Option<string>
  {
    if c.Some? then Some(c.value.value) else None
  }

  /** `handleSubmit(onSubmit)`: a form with errors is not submitted; otherwise
      the three selects become their `.value`, the optional selects their
      `.value` or `undefined`, and every other field passes through. */
  function Submit(f: FormValues): (r: Result<Payload, seq<Field>>)
    ensures r.Success? <==> Acceptable(f)
    ensures r.Failure? ==> r.error == Errors(f) && |r.error| > 0
    ensures r.Success? ==>
      && f.kind == Some(Choice(r.value.kind, f.kind.value.text))
      && f.estado == Some(Choice(r.value.estado, f.estado.value.text))
      && f.initialUseDate == Some(YearOption(r.value.initialUseDate, f.initialUseDate.value.text))
      && (r.value.storageType.Some? <==> f.storageType.Some?)
      && (r.value.storageType.Some? ==> r.value.storageType.value == f.storageType.value.value)
      && (r.value.screenType.Some? <==> f.screenType.Some?)
      && (r.value.screenType.Some? ==> r.value.screenType.value == f.screenType.value.value)
      && r.value.tippingNumber == f.tippingNumber && r.value.serialNumber == f.serialNumber
      && r.value.situacao == f.situacao && r.value.model == f.model
      && r.value.description == f.description && r.value.acquisitionDate == f.acquisitionDate
      && r.value.screenSize == f.screenSize && r.value.invoiceNumber == f.invoiceNumber
      && r.value.power == f.power && r.value.processor == f.processor
      && r.value.storageAmount == f.storageAmount && r.value.brandName == f.brandName
      && r.value.acquisitionName == f.acquisitionName && r.value.unitId == f.unitId
      && r.value.ramSize == f.ramSize
  {
    if Errors(f) != [] then Failure(Errors(f))
    else
      Success(Payload(
        f.kind.value.value, f.estado.value.value, f.initialUseDate.value.value,
        ValueOf(f.storageType), ValueOf(f.screenType),
        f.tippingNumber, f.serialNumber, f.situacao, f.model, f.description,
        f.acquisitionDate, f.screenSize, f.invoiceNumber, f.power, f.processor,
        f.storageAmount, f.brandName, f.acquisitionName, f.unitId, f.ramSize))
  }

  /** A submitted CPU carries a storage type and digit-only memory and
      storage sizes. */
  lemma SubmittedCpu(f: FormValues)
    requires Submit(f).Success? && Submit(f).value.kind == "CPU"
    ensures Submit(f).value.storageType.Some?
    ensures Submit(f).value.ramSize.Some? && IsDigits(Submit(f).value.ramSize.value)
    ensures Submit(f).value.storageAmount.Some? && IsDigits(Submit(f).value.storageAmount.value)
  {
  }

  /** `Array.from({ length: n }, (_, i) => ...)` starting at `start`. */
  function Ascending(start: int, n: nat): (r: seq<YearOption>)
    ensures |r| == n
    ensures forall k :: 0 <= k < n ==> r[k] == YearOption(start + k, IntToString(start + k))
  {
    if n == 0 then [] else Ascending(start, n - 1) + [YearOption(start + n - 1, IntToString(start + n - 1))]
  }

  function Reverse<T>(s: seq<T>): (r: seq<T>)
    ensures |r| == |s| && forall k :: 0 <= k < |s| ==> r[k] == s[|s| - 1 - k]
  {
    if |s| == 0 then [] else [s[|s| - 1]] + Reverse(s[..|s| - 1])
  }

  /** The reversed ascending list counts down from its last year. */
  lemma ReversedAscending(start: int, n: nat)
    ensures forall k :: 0 <= k < n ==>
      Reverse(Ascending(start, n))[k] == YearOption(start + n - 1 - k, IntToString(start + n - 1 - k))
  {
    var a := Ascending(start, n);
    forall k | 0 <= k < n
      ensures Reverse(a)[k] == YearOption(start + n - 1 - k, IntToString(start + n - 1 - k))
    {
      var j := n - 1 - k;
      assert Reverse(a)[k] == a[j];
      assert a[j] == YearOption(start + j, IntToString(start + j));
    }
  }

  /** Labels rendered with `toString` read back as their values. */
  lemma LabelsReadBack(years: seq<YearOption>)
    requires forall k :: 0 <= k < |years| ==> years[k].text == IntToString(years[k].value)
    ensures forall k :: 0 <= k < |years| ==> ParseInt(years[k].text) == years[k].value
  {
    forall k | 0 <= k < |years|
      ensures ParseInt(years[k].text) == years[k].value
    {
      IntToStringRoundTrip(years[k].value);
    }
  }

  /** `listOfYears`: 31 options from the current year down to thirty years
      before it, each labelled with the decimal rendering of its value. */
  function ListOfYears(endYear: int): (r: seq<YearOption>)
    ensures |r| == 31
    ensures forall k :: 0 <= k < |r| ==> r[k].value == endYear - k
    ensures forall i, j :: 0 <= i < j < |r| ==> r[i].value > r[j].value
    ensures forall k :: 0 <= k < |r| ==> r[k].text == IntToString(r[k].value) && ParseInt(r[k].text) == r[k].value
  {
    var startYear := endYear - 30;
    var r := Reverse(Ascending(startYear, endYear - startYear + 1));
    ReversedAscending(startYear, 31);
    LabelsReadBack(r);
    r
  }

  /** Whether an input is on screen: the type-dependent inputs are rendered
      only for their type. */
  predicate Rendered(f: FormValues, input: Field)
  {
    match input
    case RamSize | StorageType | StorageAmount | Processor => TypeValue(f) == "CPU"
    case ScreenType | ScreenSize => TypeValue(f) == "Monitor"
    case Power => TypeValue(f) == "Estabilizador" || TypeValue(f) == "Nobreak"
    case _ => true
  }

  lemma {:induction false} FailingConcat(a: seq<Verdict>, b: seq<Verdict>)
    ensures Failing(a + b) == Failing(a) + Failing(b)
    decreases |a|
  {
    if |a| == 0 {
      assert a + b == b;
    } else {
      assert (a + b)[0] == a[0];
      assert (a + b)[1..] == a[1..] + b;
      FailingConcat(a[1..], b);
    }
  }

  /** The errors of the common inputs, then of the type's inputs, then of
      the description. */
  lemma ErrorsSplit(f: FormValues)
    ensures Errors(f) == Failing(CommonVerdicts(f)) + Failing(TypeVerdicts(f))
      + Failing([Verdict(Description, TextOk(OptionalMax255, f.description))])
  {
    var d := [Verdict(Description, TextOk(OptionalMax255, f.description))];
    FailingConcat(CommonVerdicts(f) + TypeVerdicts(f), d);
    FailingConcat(CommonVerdicts(f), TypeVerdicts(f));
  }

  lemma TypeVerdictsRendered(f: FormValues)
    ensures forall k :: 0 <= k < |TypeVerdicts(f)| ==> Rendered(f, TypeVerdicts(f)[k].field)
  {
    var t := TypeValue(f);
    if t == "CPU" {
      assert TypeVerdicts(f) == CpuVerdicts(f);
    } else if t == "Monitor" {
      assert TypeVerdicts(f) == MonitorVerdicts(f);
    } else if t == "Estabilizador" || t == "Nobreak" {
      assert TypeVerdicts(f) == PowerVerdicts(f);
    } else {
      assert TypeVerdicts(f) == [];
    }
  }

  lemma CommonVerdictsRendered(f: FormValues)
    ensures forall k :: 0 <= k < |CommonVerdicts(f)| ==> Rendered(f, CommonVerdicts(f)[k].field)
  {
  }

  /** Every failing field belongs to an input on screen. */
  lemma ErrorsAreRendered(f: FormValues, x: Field)
    requires x in Errors(f)
    ensures Rendered(f, x)
  {
    ErrorsSplit(f);
    var common, typed := CommonVerdicts(f), TypeVerdicts(f);
    if x in Failing(common) {
      var k := FailingFields(common, x);
      CommonVerdictsRendered(f);
    } else if x in Failing(typed) {
      var k := FailingFields(typed, x);
      TypeVerdictsRendered(f);
    } else {
      var k := FailingFields([Verdict(Description, TextOk(OptionalMax255, f.description))], x);
    }
  }

  /** Which error object each input is handed. */
  datatype Display = AsWritten | Intended

  /** The error object whose message an input displays. As written, the
      screen-size and power inputs are handed the storage-amount error; each
      input is meant to display its own. */
  function Shown(d: Display, input: Field): Field
  {
    if d == AsWritten && (input == ScreenSize || input == Power) then StorageAmount else input
  }

  /** A failing field's message appears under some rendered input. */
  predicate MessageShown(f: FormValues, x: Field, d: Display)
  {
    exists input: Field :: Rendered(f, input) && Shown(d, input) == x
  }

  /** A monitor whose size was left empty, everything else in order. */
  const MonitorWithoutSize := FormValues(
    "1", "1", Some(Choice("Monitor", "Monitor")), None, "LG", "",
    Some(YearOption(2020, "2020")), Some("2020-01-01"), None, "1", None,
    Some(Choice("LCD", "LCD")), None, None, None, "LG", "Compra", None, None,
    Some(Choice("Novo", "Novo")))

  /** A monitor whose only fault is its missing size reports that field
      alone. */
  lemma OnlySizeMissing(f: FormValues)
    requires TypeValue(f) == "Monitor" && AllOk(CommonVerdicts(f))
    requires f.screenType.Some? && f.screenSize.GetOr("") == "" && |f.description| <= 255
    ensures Errors(f) == [ScreenSize]
  {
    assert Failing(TypeVerdicts(f)) == [ScreenSize] by {
      assert TypeVerdicts(f) == MonitorVerdicts(f);
    }
    assert Failing([Verdict(Description, TextOk(OptionalMax255, f.description))]) == [];
    ErrorsSplit(f);
  }

  lemma MonitorWithoutSizeErrors()
    ensures Errors(MonitorWithoutSize) == [ScreenSize]
  {
    var f := MonitorWithoutSize;
    assert AllOk(CommonVerdicts(f)) by {
      assert IsDigits("1");
      CommonOkIff(f);
    }
    OnlySizeMissing(f);
  }

  /** As written, the monitor above is refused for its size alone, and no
      input shows that message. */
  lemma ScreenSizeMessageLost()
    ensures Errors(MonitorWithoutSize) == [ScreenSize]
    ensures !MessageShown(MonitorWithoutSize, ScreenSize, AsWritten)
  {
    MonitorWithoutSizeErrors();
  }

  /** A stabiliser whose power was left empty, everything else in order. */
  const StabilizerWithoutPower := MonitorWithoutSize.(
    kind := Some(Choice("Estabilizador", "Estabilizador")), screenType := None)

  /** A stabiliser or no-break whose only fault is its missing power reports
      that field alone. */
  lemma OnlyPowerMissing(f: FormValues)
    requires (TypeValue(f) == "Estabilizador" || TypeValue(f) == "Nobreak") && AllOk(CommonVerdicts(f))
    requires f.power.GetOr("") == "" && |f.description| <= 255
    ensures Errors(f) == [Power]
  {
    assert Failing(TypeVerdicts(f)) == [Power] by {
      assert TypeVerdicts(f) == PowerVerdicts(f);
    }
    assert Failing([Verdict(Description, TextOk(OptionalMax255, f.description))]) == [];
    ErrorsSplit(f);
  }

  lemma StabilizerWithoutPowerErrors()
    ensures Errors(StabilizerWithoutPower) == [Power]
  {
    var f := StabilizerWithoutPower;
    assert AllOk(CommonVerdicts(f)) by {
      assert IsDigits("1");
      CommonOkIff(f);
    }
    OnlyPowerMissing(f);
  }

  /** As written, the stabiliser above is refused for its power alone, and
      no input shows that message. */
  lemma PowerMessageLost()
    ensures Errors(StabilizerWithoutPower) == [Power]
    ensures !MessageShown(StabilizerWithoutPower, Power, AsWritten)
  {
    StabilizerWithoutPowerErrors();
  }

  /** With each input displaying its own error, every failing field's
      message is on screen. */
  lemma EveryErrorShown(f: FormValues, x: Field)
    requires x in Errors(f)
    ensures MessageShown(f, x, Intended)
  {
    ErrorsAreRendered(f, x);
    assert Rendered(f, x) && Shown(Intended, x) == x;
  }
}
