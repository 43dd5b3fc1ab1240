/** The presentation session of src/present/PresentApp.tsx: it loads the
    published build configuration, derives the selected VADs from the VAD
    layout, and on "Calculate" turns the input value table into per-VAD
    results and four headline figures.

    The formula switch is reproduced as written. Two of its case labels,
    "Increased Recyclability" and "Embodied Carbon Reduction", are not catalog
    names, so the catalog VADs "Increase in Recyclability" and "Lower Material
    Input Emissions" fall through to the default sum. The electricity and
    ticket-sales formulas read field indices 1 and 2 and the avoided-revenue
    formula reads index 2, none of which the catalog creates, so on a table
    built from the catalog those reads are 0. */
module PresentApp {
  import opened Wrappers
  import opened Types
  import opened NumberCoercion
  import opened InputsRenderer
  import VadCatalog
  import VadSelection
  import Api

  /** The project a presentation opens when no `projectId` is requested. */
  const DemoProjectId: string := "demo-project"

  /** `getFieldNumber(fields, index)`: the number in cell `index`, 0 when the
      cell is missing or its text does not parse. */
  function GetFieldNumber(fields: VadFields, index: nat): (r: real)
    ensures index !in fields ==> r == 0.0
    ensures index in fields && fields[index].value.Number? ==> r == fields[index].value.n
    ensures index in fields && fields[index].value.Text? && !HasNumericPrefix(fields[index].value.s) ==> r == 0.0
    ensures index in fields && fields[index].value.Text? && HasNumericPrefix(fields[index].value.s) ==>
      r == ParseFloat(fields[index].value.s).value
  {
    if index in fields then Coerce(fields[index].value) else 0.0
  }

  function Max0(x: real): (r: real)
    ensures r >= 0.0 && r >= x && (r == 0.0 || r == x)
  {
    if x > 0.0 then x else 0.0
  }

  /** The case labels of the formula switch. */
  const FormulaNames: set<string> := {
    "Reduced Electricity Consumption",
    "Reduced Maintenance Cost",
    "Increased Ticket Sales",
    "Avoided Revenue Loss",
    "Increased Recyclability",
    "Embodied Carbon Reduction"
  }

  /** The switch of `handleCalculate` for one VAD: the named formula's value,
      or `None` for a name that reaches the `default` branch. */
  function Formula(name: string, f: VadFields): (r: Option<real>)
    ensures r.None? <==> name !in FormulaNames
    ensures name == "Reduced Maintenance Cost" ==> r.Some? && r.value >= 0.0
  {
    if name == "Reduced Electricity Consumption" then
      // consumption (kWh) * reduction % * cost per kWh
      Some(GetFieldNumber(f, 0) * (GetFieldNumber(f, 1) / 100.0) * GetFieldNumber(f, 2))
    else if name == "Reduced Maintenance Cost" then
      // current contract - predictive maintenance plan, never below 0
      Some(Max0(GetFieldNumber(f, 0) - GetFieldNumber(f, 1)))
    else if name == "Increased Ticket Sales" then
      // patrons * increase % * average profit
      Some(GetFieldNumber(f, 0) * (GetFieldNumber(f, 1) / 100.0) * GetFieldNumber(f, 2))
    else if name == "Avoided Revenue Loss" then
      // revenue per show * at-risk shows * reduced failure %
      Some(GetFieldNumber(f, 0) * GetFieldNumber(f, 1) * (GetFieldNumber(f, 2) / 100.0))
    else if name == "Increased Recyclability" then
      // HVAC units * cost saved
      Some(GetFieldNumber(f, 0) * GetFieldNumber(f, 3))
    else if name == "Embodied Carbon Reduction" then
      // HVAC units * average emissions * reduction % * carbon cost
      Some(GetFieldNumber(f, 0) * GetFieldNumber(f, 1) * (GetFieldNumber(f, 2) / 100.0) * GetFieldNumber(f, 3))
    else
      None
  }

  /** Every field of a VAD, coerced to a number. */
  function CoercedFields(f: VadFields): map<nat, real>
  {
    map i | i in f :: Coerce(f[i].value)
  }

  /** The per-VAD total `handleCalculate` records: the formula's value, or
      the sum of all the VAD's coerced fields in the `default` branch. */
  ghost function VadTotal(name: string, f: VadFields): real
  {
    match Formula(name, f)
    case Some(total) => total
    case None => Total(CoercedFields(f))
  }

  /** `res`: one total per VAD of the table. */
  ghost function PerVadResults(inputs: InputTable): map<string, real>
  {
    map name | name in inputs :: VadTotal(name, inputs[name])
  }

  /** The four headline figures. */
  datatype Headline = Headline(
    totalAnnualValue: real,
    totalInvestments: real,
    netBenefit: real,
    roi: real)

  /** Investments are taken to be 30% of the total annual value; ROI is
      defined as 0 when investments are 0. */
  function Headlines(total: real): (h: Headline)
    ensures h.totalAnnualValue == total
    ensures h.totalInvestments + h.netBenefit == total
    ensures h.totalInvestments == 0.0 <==> total == 0.0
    ensures total == 0.0 ==> h.netBenefit == 0.0 && h.roi == 0.0
    ensures total != 0.0 ==> h.roi * h.totalInvestments == h.netBenefit && h.roi == 7.0 / 3.0
  {
    var investments := total * 0.3;
    var net := total - investments;
    Headline(total, investments, net, if investments == 0.0 then 0.0 else net / investments)
  }

  const TotalAnnualValueKey: string := "Total Annual Value"
  const TotalInvestmentsKey: string := "Total Investments"
  const NetBenefitKey: string := "Net Benefit (Year 1)"
  const RoiKey: string := "ROI"
  const HeadlineKeys: set<string> := {TotalAnnualValueKey, TotalInvestmentsKey, NetBenefitKey, RoiKey}

  /** `{ ...res, "Total Annual Value": ..., ..., ROI: ... }`: the headline keys
      are written last, so they replace a per-VAD entry of the same name. */
  function WithHeadlines(res: map<string, real>, h: Headline): (r: map<string, real>)
    ensures r.Keys == res.Keys + HeadlineKeys
    ensures r[TotalAnnualValueKey] == h.totalAnnualValue && r[TotalInvestmentsKey] == h.totalInvestments
    ensures r[NetBenefitKey] == h.netBenefit && r[RoiKey] == h.roi
    ensures forall k :: k in res && k !in HeadlineKeys ==> r[k] == res[k]
  {
    res[TotalAnnualValueKey := h.totalAnnualValue][TotalInvestmentsKey := h.totalInvestments]
       [NetBenefitKey := h.netBenefit][RoiKey := h.roi]
  }

  /** The results table `handleCalculate` stores for a non-empty input table. */
  ghost function Calculate(inputs: InputTable): map<string, real>
  {
    var res := PerVadResults(inputs);
    WithHeadlines(res, Headlines(Total(res)))
  }

  /** One step of the `forEach` of `handleCalculate`: the switch for one VAD. */
  method ComputeVadTotal(name: string, f: VadFields) returns (total: real)
    ensures total == VadTotal(name, f)
  {
    var formula := Formula(name, f);
    if formula.Some? {
      total := formula.value;
    } else {
      total := SumValues(CoercedFields(f));
    }
  }

  /** The per-VAD part of `handleCalculate`: a `forEach` over the table
      filling `res`. */
  method PerVadLoop(inputs: InputTable) returns (res: map<string, real>)
    ensures res == PerVadResults(inputs)
  {
    res := map[];
    var pending := inputs.Keys;
    while pending != {}
      invariant pending <= inputs.Keys
      invariant res.Keys == inputs.Keys - pending
      invariant forall n :: n in res ==> res[n] == VadTotal(n, inputs[n])
      decreases pending
    {
      var name :| name in pending;
      var total := ComputeVadTotal(name, inputs[name]);
      res := res[name := total];
      pending := pending - {name};
    }
  }

  /** The body of `handleCalculate` after its emptiness guard: the per-VAD
      totals, then the headline figures. */
  method CalculateResults(inputs: InputTable) returns (results: map<string, real>)
    ensures results == Calculate(inputs)
  {
    var res := PerVadLoop(inputs);
    var totalAnnualValue := SumValues(res);
    results := WithHeadlines(res, Headlines(totalAnnualValue));
  }

  // ---------------------------------------------------------------------------
  // Properties of the engine

  /** Every VAD of the table has exactly one result entry, and the headline keys
      are present; a VAD whose name is not a headline key keeps its own total. */
  lemma CalculateEntries(inputs: InputTable)
    ensures Calculate(inputs).Keys == inputs.Keys + HeadlineKeys
    ensures forall name :: name in inputs && name !in HeadlineKeys ==>
      Calculate(inputs)[name] == VadTotal(name, inputs[name])
    ensures Calculate(inputs)[TotalAnnualValueKey] == Total(PerVadResults(inputs))
  {
  }

  /** The catalog VADs "Increase in Recyclability" and "Lower Material Input
      Emissions" match no case label and take the default sum. */
  lemma CatalogNamesWithoutFormula(name: string, f: VadFields)
    requires name in VadCatalog.VadsList && name !in FormulaNames
    ensures name == "Increase in Recyclability" || name == "Lower Material Input Emissions"
    ensures VadTotal(name, f) == Total(CoercedFields(f))
  {
  }

  /** On a VAD entry shaped like the catalog's, the electricity, ticket-sales
      and avoided-revenue formulas multiply by a field that does not exist, so
      they yield 0 whatever was typed. */
  lemma UncreatedFieldsZeroFormula(name: string, f: VadFields)
    requires name in {"Reduced Electricity Consumption", "Increased Ticket Sales", "Avoided Revenue Loss"}
    requires forall i :: i in f ==> i < |VadCatalog.Lookup(name).value.fields|
    ensures VadTotal(name, f) == 0.0
  {
    assert name == VadCatalog.VadsList[0] || name == VadCatalog.VadsList[2] || name == VadCatalog.VadsList[3];
    var fields := VadCatalog.Lookup(name).value.fields;
    assert |fields| <= 2;
    assert 2 !in f;
    ZeroThirdField(name, f);
  }

  /** The three formulas that read field 2 are 0 when that field is missing. */
  lemma ZeroThirdField(name: string, f: VadFields)
    requires name in {"Reduced Electricity Consumption", "Increased Ticket Sales", "Avoided Revenue Loss"}
    requires 2 !in f
    ensures VadTotal(name, f) == 0.0
  {
    var z := GetFieldNumber(f, 2);
    assert z == 0.0;
  }

  lemma TotalOfThree(a: real, b: real, c: real)
    ensures var m: map<nat, real> := map[0 := a, 1 := b, 2 := c]; Total(m) == a + b + c
  {
    var m: map<nat, real> := map[0 := a, 1 := b, 2 := c];
    var m1: map<nat, real> := map[1 := b, 2 := c];
    var m2: map<nat, real> := map[2 := c];
    var m3: map<nat, real> := map[];
    assert m - {0} == m1;
    assert m1 - {1} == m2;
    assert m2 - {2} == m3;
    TotalPick(m2, 2);
    TotalPick(m1, 1);
    TotalPick(m, 0);
  }

  /** A VAD without a formula and with fields 0, 1, 2 totals their coerced values. */
  lemma DefaultSumOfThree(name: string, f: VadFields, a: real, b: real, c: real)
    requires name !in FormulaNames && f.Keys == {0, 1, 2}
    requires Coerce(f[0].value) == a && Coerce(f[1].value) == b && Coerce(f[2].value) == c
    ensures VadTotal(name, f) == a + b + c
  {
    CoercedThree(f, a, b, c);
    TotalOfThree(a, b, c);
    DefaultBranch(name, f);
  }

  /** A VAD that reaches the `default` branch totals its coerced fields. */
  lemma DefaultBranch(name: string, f: VadFields)
    requires name !in FormulaNames
    ensures VadTotal(name, f) == Total(CoercedFields(f))
  {
    assert Formula(name, f) == None;
  }

  lemma CoercedThree(f: VadFields, a: real, b: real, c: real)
    requires f.Keys == {0, 1, 2}
    requires Coerce(f[0].value) == a && Coerce(f[1].value) == b && Coerce(f[2].value) == c
    ensures CoercedFields(f) == map[0 := a, 1 := b, 2 := c]
  {
    var m := CoercedFields(f);
    assert m.Keys == {0, 1, 2};
  }

  /** The default sum reads text with `parseFloat` and counts what does not
      parse as 0: fields "10", "abc" and 5 give 15. */
  lemma DefaultSumExample(name: string, f: VadFields)
    requires name !in FormulaNames && f.Keys == {0, 1, 2}
    requires f[0].value == Text("10") && f[1].value == Text("abc") && f[2].value == Number(5.0)
    ensures VadTotal(name, f) == 15.0
  {
    CoerceTen(f[0].value.s);
    CoerceAbc(f[1].value.s);
    DefaultSumOfThree(name, f, 10.0, 0.0, 5.0);
  }

  /** A total annual value of 1000 gives investments 300, net benefit 700 and
      ROI 7/3; a total of 0 gives ROI 0. */
  lemma HeadlineExamples()
    ensures Headlines(1000.0) == Headline(1000.0, 300.0, 700.0, 7.0 / 3.0)
    ensures Headlines(0.0).roi == 0.0
  {
  }

  /** A VAD whose every cell reads as 0 totals 0, whichever branch it takes. */
  lemma ZeroCellsZeroTotal(name: string, f: VadFields)
    requires forall i :: i in f ==> Coerce(f[i].value) == 0.0
    ensures VadTotal(name, f) == 0.0
  {
    assert GetFieldNumber(f, 0) == 0.0 && GetFieldNumber(f, 1) == 0.0;
    assert GetFieldNumber(f, 2) == 0.0 && GetFieldNumber(f, 3) == 0.0;
    if name !in FormulaNames {
      DefaultBranch(name, f);
      TotalOfZeros(CoercedFields(f));
    }
  }

  /** Calculating on a freshly built table, before anything is typed, gives 0
      for every VAD and for every headline figure. */
  lemma InitialTableCalculatesZero(vadNames: seq<string>)
    ensures forall name :: name in vadNames && name !in HeadlineKeys ==>
      Calculate(InitialTable(vadNames))[name] == 0.0
    ensures forall key :: key in HeadlineKeys ==> Calculate(InitialTable(vadNames))[key] == 0.0
  {
    var t := InitialTable(vadNames);
    var res := PerVadResults(t);
    forall name | name in t ensures res[name] == 0.0 {
      var f := t[name];
      assert f == InitialEntry(name);
      forall i | i in f ensures Coerce(f[i].value) == 0.0 {
        assert f[i].value == Text("");
        BlankIsZero();
      }
      ZeroCellsZeroTotal(name, f);
    }
    TotalOfZeros(res);
    CalculateEntries(t);
  }

  // ---------------------------------------------------------------------------
  // The session

  datatype PresentTab = HomeTab | VadsTab | ResultsTab

  /** `params.get("projectId") ?? "demo-project"`. */
  function RequestedProjectId(query: Option<string>): (pid: string)
    ensures query.None? ==> pid == DemoProjectId
    ensures query.Some? ==> pid == query.value
  {
    query.GetOr(DemoProjectId)
  }

  /** One mounted `PresentApp`. */
  class PresentSession {
    var active: PresentTab
    var config: Option<BuildConfig>
    var loading: bool
    var results: Option<map<string, real>>
    /** The raw inputs the session calculates from (`inputValues`). */
    var inputValues: InputTable

    constructor ()
      ensures active == HomeTab && config == None && loading
      ensures results == None && inputValues == map[]
    {
      active := HomeTab;
      config := None;
      loading := true;
      results := None;
      inputValues := map[];
    }

    /** The mount effect: load the configuration of the requested project. */
    method Load(store: Api.Store, query: Option<string>)
      modifies this
      ensures config == Api.LoadFrom(store.slot, RequestedProjectId(query)) && !loading
      ensures NotFound() <==> Api.LoadFrom(store.slot, RequestedProjectId(query)).None?
      ensures active == old(active) && results == old(results) && inputValues == old(inputValues)
    {
      var pid := RequestedProjectId(query);
      config := store.LoadBuildConfig(pid);
      loading := false;
    }

    /** The blocking "no build configuration found" screen: shown once
        loading has ended without a configuration, and then no VAD is
        selected. */
    predicate NotFound(): (b: bool)
      reads this
      ensures b ==> config.None? && SelectedVads() == []
      ensures !b ==> loading || config.Some?
    {
      !loading && config.None?
    }

    /** `selectedVADs`: the detector applied to the loaded VAD layout. */
    function SelectedVads(): (s: seq<string>)
      reads this
      ensures config.None? ==> s == []
      ensures forall name :: name in s ==> name in VadCatalog.VadsList
      ensures VadSelection.NoDuplicates(s)
    {
      var layout := if config.Some? then config.value.vadLayout else None;
      VadSelection.DetectSpec(layout);
      VadSelection.Detect(layout)
    }

    /** A navigation tab was clicked. */
    method SelectTab(tab: PresentTab)
      modifies this
      ensures active == tab
      ensures config == old(config) && loading == old(loading)
      ensures results == old(results) && inputValues == old(inputValues)
    {
      active := tab;
    }

    /** `setInputValues`, the `onInputsChange` listener. */
    method SetInputValues(table: InputTable)
      modifies this
      ensures inputValues == table
      ensures active == old(active) && config == old(config) && loading == old(loading)
      ensures results == old(results)
    {
      inputValues := table;
    }

    /** `handleCalculate`: nothing happens on an empty table; otherwise the
        results are replaced and the Results tab is shown. */
    method HandleCalculate()
      modifies this
      ensures old(inputValues) == map[] ==> results == old(results) && active == old(active)
      ensures old(inputValues) != map[] ==> results == Some(Calculate(old(inputValues))) && active == ResultsTab
      ensures inputValues == old(inputValues) && config == old(config) && loading == old(loading)
    {
      if |inputValues| == 0 {
        return;
      }
      var res := CalculateResults(inputValues);
      results := Some(res);
      active := ResultsTab;
    }
  }
}
