/** The static VAD (value assessment driver) catalog of src/vadInputs.ts: each
    VAD name with its ordered input fields and units of measure. The order of
    the entries is the declaration order of the object literal, which is the
    order `Object.keys` yields and so the order every consumer sees. */
module VadCatalog {
  import opened Wrappers

  datatype FieldType = NumberInput | TextInput | DropdownInput

  datatype InputField = InputField(
    labelText: string,
    fieldType: FieldType,
    placeholder: Option<string>,
    options: Option<seq<string>>,
    defaultUom: Option<string>)

  datatype VadInputConfig = VadInputConfig(vadName: string, fields: seq<InputField>)

  type Entry = (string, VadInputConfig)

  /** The unit choices every catalog field offers. */
  const UnitOptions: seq<string> := ["$", "Number", "%", "kWh"]

  /** The palette of VAD blocks the editor offers for dragging
      (`VADS_LIST` in the editor shell). */
  const VadsList: seq<string> := [
    "Reduced Electricity Consumption",
    "Reduced Maintenance Cost",
    "Increased Ticket Sales",
    "Avoided Revenue Loss",
    "Increase in Recyclability",
    "Lower Material Input Emissions"
  ]

  function NumberField(labelText: string, uom: string): InputField
  {
    InputField(labelText, NumberInput, Some("Enter value"), Some(UnitOptions), Some(uom))
  }

  function KeysOf(entries: seq<Entry>): (keys: seq<string>)
    ensures |keys| == |entries|
    ensures forall i :: 0 <= i < |entries| ==> keys[i] == entries[i].0
  {
    seq(|entries|, i requires 0 <= i < |entries| => entries[i].0)
  }

  ghost predicate DistinctKeys(entries: seq<Entry>)
  {
    forall i, j :: 0 <= i < j < |entries| ==> entries[i].0 != entries[j].0
  }

  /** Every entry's `vadName` repeats its key. */
  ghost predicate NamesMatchKeys(entries: seq<Entry>)
  {
    forall i :: 0 <= i < |entries| ==> entries[i].1.vadName == entries[i].0
  }

  /** Every field is a number input whose default unit is one of its options. */
  ghost predicate FieldsWellFormed(entries: seq<Entry>)
  {
    forall i, j :: 0 <= i < |entries| && 0 <= j < |entries[i].1.fields| ==>
      var f := entries[i].1.fields[j];
      f.fieldType == NumberInput && f.options.Some? && f.defaultUom.Some? &&
      f.defaultUom.value in f.options.value
  }

  /** Every field offers the same four units. */
  ghost predicate StandardUnits(entries: seq<Entry>)
  {
    forall i, j :: 0 <= i < |entries| && 0 <= j < |entries[i].1.fields| ==>
      entries[i].1.fields[j].options == Some(UnitOptions)
  }

  /** One field per entry, except "Avoided Revenue Loss", which has two. */
  ghost predicate FieldCounts(entries: seq<Entry>)
  {
    forall i :: 0 <= i < |entries| ==>
      |entries[i].1.fields| == if entries[i].0 == "Avoided Revenue Loss" then 2 else 1
  }

  /** `VAD_INPUT_CONFIGS`, in declaration order. */
  function Configs(): (c: seq<Entry>)
    ensures |c| == 6
    ensures KeysOf(c) == VadsList
  {
    [
      ("Reduced Electricity Consumption",
       VadInputConfig("Reduced Electricity Consumption",
         [NumberField("Current annual electricity consumption", "kWh")])),
      ("Reduced Maintenance Cost",
       VadInputConfig("Reduced Maintenance Cost",
         [NumberField("Cost of current maintenance contract per year", "$")])),
      ("Increased Ticket Sales",
       VadInputConfig("Increased Ticket Sales",
         [NumberField("Annual patrons", "Number")])),
      ("Avoided Revenue Loss",
       VadInputConfig("Avoided Revenue Loss",
         [NumberField("Revenue per show", "$"),
          NumberField("No. of at-risk shows annually", "Number")])),
      ("Increase in Recyclability",
       VadInputConfig("Increase in Recyclability",
         [NumberField("No. of HVAC units required", "Number")])),
      ("Lower Material Input Emissions",
       VadInputConfig("Lower Material Input Emissions",
         [NumberField("No. of HVAC units required", "Number")]))
    ]
  }

  /** The catalog's invariants: distinct keys, each entry named after its key,
      one field per entry except two for "Avoided Revenue Loss", and every
      field a number input offering the four units, its default among them. */
  lemma CatalogWellFormed()
    ensures DistinctKeys(Configs()) && NamesMatchKeys(Configs())
    ensures FieldsWellFormed(Configs()) && FieldCounts(Configs()) && StandardUnits(Configs())
  {
    var c := Configs();
    assert forall i :: 0 <= i < |c| ==> c[i].0 == VadsList[i];
    forall i, j | 0 <= i < |c| && 0 <= j < |c[i].1.fields|
      ensures c[i].1.fields[j].fieldType == NumberInput
      ensures c[i].1.fields[j].options == Some(UnitOptions)
      ensures c[i].1.fields[j].defaultUom.Some?
      ensures c[i].1.fields[j].defaultUom.value in UnitOptions
    {
      var f := c[i].1.fields[j];
      assert f.defaultUom.value in {"kWh", "$", "Number"};
    }
  }

  /** `Object.keys(VAD_INPUT_CONFIGS)`. */
  function Keys(): (keys: seq<string>)
    ensures keys == VadsList
  {
    KeysOf(Configs())
  }

  /** The entry stored under `name` in `entries`, if any. */
  function Find(entries: seq<Entry>, name: string): (r: Option<VadInputConfig>)
    ensures r.None? <==> name !in KeysOf(entries)
    ensures r.Some? ==> (name, r.value) in entries
  {
    if entries == [] then None
    else if entries[0].0 == name then Some(entries[0].1)
    else
      var r := Find(entries[1..], name);
      assert KeysOf(entries) == [entries[0].0] + KeysOf(entries[1..]);
      r
  }

  /** What a well-formed catalog promises about the configuration stored under a key. */
  lemma EntryOf(entries: seq<Entry>, name: string, config: VadInputConfig)
    requires NamesMatchKeys(entries) && FieldsWellFormed(entries) && FieldCounts(entries)
    requires StandardUnits(entries)
    requires (name, config) in entries
    ensures config.vadName == name && |config.fields| >= 1
    ensures |config.fields| == if name == "Avoided Revenue Loss" then 2 else 1
    ensures forall f :: f in config.fields ==>
      f.fieldType == NumberInput && f.options == Some(UnitOptions) && f.defaultUom.Some? &&
      f.defaultUom.value in UnitOptions
  {
    var i :| 0 <= i < |entries| && entries[i] == (name, config);
    forall f | f in config.fields
      ensures f.fieldType == NumberInput && f.options == Some(UnitOptions) && f.defaultUom.Some? &&
        f.defaultUom.value in UnitOptions
    {
      var j :| 0 <= j < |config.fields| && config.fields[j] == f;
      assert entries[i].1.fields[j] == f;
    }
  }

  /** `VAD_INPUT_CONFIGS[name]`, `undefined` for a name that is not a key. */
  function Lookup(name: string): (r: Option<VadInputConfig>)
    ensures r.Some? <==> name in VadsList
    ensures r.Some? ==> (name, r.value) in Configs()
    ensures r.Some? ==> r.value.vadName == name && |r.value.fields| >= 1
    ensures r.Some? ==> |r.value.fields| == if name == "Avoided Revenue Loss" then 2 else 1
    ensures r.Some? ==> forall f :: f in r.value.fields ==>
      f.fieldType == NumberInput && f.options == Some(UnitOptions) && f.defaultUom.Some? &&
      f.defaultUom.value in UnitOptions
  {
    var entries := Configs();
    CatalogWellFormed();
    var r := Find(entries, name);
    if r.Some? then EntryOf(entries, name, r.value); r else r
  }
}
