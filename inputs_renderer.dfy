/** The input value table of src/present/InputsRenderer.tsx: for each selected
    VAD name, its fields by index, each holding the value typed so far and the
    unit picked. The component builds the table once from the names it is
    given and then edits one cell at a time, handing each new table to the
    optional `onInputsChange` listener. */
module InputsRenderer {
  import opened Wrappers
  import opened NumberCoercion
  import VadCatalog

  /** `{ value, uom }`: one input cell. */
  datatype FieldInput = FieldInput(value: CellValue, uom: string)

  /** The fields of one VAD, by field index. */
  type VadFields = map<nat, FieldInput>

  /** `VADInputValue`: VAD name, then field index, to cell. */
  type InputTable = map<string, VadFields>

  /** The indices of `e` are exactly 0 .. n - 1. */
  ghost predicate DenseIndices(e: VadFields, n: nat)
  {
    forall i: nat :: i in e <==> i < n
  }

  /** `field.defaultUOM || "$"`: an absent or empty default unit becomes "$". */
  function UnitOrDollar(defaultUom: Option<string>): (u: string)
    ensures u != ""
    ensures defaultUom.Some? && defaultUom.value != "" ==> u == defaultUom.value
  {
    if defaultUom.Some? && defaultUom.value != "" then defaultUom.value else "$"
  }

  /** The fresh cells of one VAD: a blank value and the default unit for each
      catalog field; no cells at all for a name the catalog does not know. */
  function InitialEntry(name: string): (e: VadFields)
    ensures VadCatalog.Lookup(name).None? ==> e == map[]
    ensures VadCatalog.Lookup(name).Some? ==>
      var fields := VadCatalog.Lookup(name).value.fields;
      && DenseIndices(e, |fields|)
      && forall i :: i in e ==> e[i].value == Text("") && e[i].uom in VadCatalog.UnitOptions
  {
    match VadCatalog.Lookup(name)
    case None => map[]
    case Some(config) =>
      map i: nat | i < |config.fields| :: FieldInput(Text(""), UnitOrDollar(config.fields[i].defaultUom))
  }

  /** The table the component starts from. */
  function InitialTable(vadNames: seq<string>): InputTable
  {
    map name | name in vadNames :: InitialEntry(name)
  }

  /** What the initial table holds: an entry for each given name and nothing
      else; for a catalog VAD one blank cell per catalog field, indices
      0 .. n - 1, each with the field's default unit; no cells otherwise. */
  ghost predicate InitialMeaning(vadNames: seq<string>, t: InputTable)
  {
    && t.Keys == set name | name in vadNames
    && (forall name :: name in t && VadCatalog.Lookup(name).None? ==> t[name] == map[])
    && (forall name :: name in t && VadCatalog.Lookup(name).Some? ==>
         DenseIndices(t[name], |VadCatalog.Lookup(name).value.fields|))
    && (forall name, i :: name in t && i in t[name] ==>
         t[name][i] == FieldInput(Text(""), UnitOrDollar(VadCatalog.Lookup(name).value.fields[i].defaultUom)))
  }

  lemma InitialTableMeaning(vadNames: seq<string>)
    ensures InitialMeaning(vadNames, InitialTable(vadNames))
  {
    var t := InitialTable(vadNames);
    forall name, i | name in t && i in t[name]
      ensures VadCatalog.Lookup(name).Some? && i < |VadCatalog.Lookup(name).value.fields|
      ensures t[name][i] == FieldInput(Text(""), UnitOrDollar(VadCatalog.Lookup(name).value.fields[i].defaultUom))
    {
      assert t[name] == InitialEntry(name);
    }
  }

  /** The fields loop for one catalog VAD: `config.fields.forEach((field, idx) => ...)`. */
  method FillEntry(fields: seq<VadCatalog.InputField>) returns (entry: VadFields)
    ensures DenseIndices(entry, |fields|)
    ensures forall i :: i in entry ==> entry[i] == FieldInput(Text(""), UnitOrDollar(fields[i].defaultUom))
  {
    entry := map[];
    for idx := 0 to |fields|
      invariant DenseIndices(entry, idx)
      invariant forall i :: i in entry ==> entry[i] == FieldInput(Text(""), UnitOrDollar(fields[i].defaultUom))
    {
      entry := entry[idx := FieldInput(Text(""), UnitOrDollar(fields[idx].defaultUom))];
    }
  }

  /** Extending the names by one adds that name's entry and changes nothing else. */
  lemma InitialTableSnoc(vadNames: seq<string>, name: string)
    ensures InitialTable(vadNames + [name]) == InitialTable(vadNames)[name := InitialEntry(name)]
  {
    var a := InitialTable(vadNames + [name]);
    var b := InitialTable(vadNames)[name := InitialEntry(name)];
    assert a.Keys == b.Keys by {
      assert forall n :: n in vadNames + [name] <==> n in vadNames || n == name;
    }
    forall n | n in a ensures a[n] == b[n] {
      EntryOf(vadNames + [name], n);
      if n != name {
        EntryOf(vadNames, n);
      }
    }
  }

  /** (proof helper) The initial table holds each name's initial entry. */
  lemma EntryOf(vadNames: seq<string>, n: string)
    requires n in vadNames
    ensures n in InitialTable(vadNames) && InitialTable(vadNames)[n] == InitialEntry(n)
  {
  }

  /** One `reduce` step: `acc[vadName] = {}`, then the fields of the catalog
      entry, if there is one. */
  method BuildEntry(name: string) returns (entry: VadFields)
    ensures entry == InitialEntry(name)
  {
    entry := map[];
    var config := VadCatalog.Lookup(name);
    if config.Some? {
      entry := FillEntry(config.value.fields);
      assert entry.Keys == InitialEntry(name).Keys;
    }
  }

  /** The initial `reduce`: for each name, a fresh entry filled field by field. */
  method BuildInitialTable(vadNames: seq<string>) returns (acc: InputTable)
    ensures InitialMeaning(vadNames, acc)
    ensures acc == InitialTable(vadNames)
  {
    acc := map[];
    for k := 0 to |vadNames|
      invariant acc == InitialTable(vadNames[..k])
    {
      var name := vadNames[k];
      var entry := BuildEntry(name);
      assert vadNames[..k + 1] == vadNames[..k] + [name];
      InitialTableSnoc(vadNames[..k], name);
      acc := acc[name := entry];
    }
    assert vadNames[..|vadNames|] == vadNames;
    InitialTableMeaning(vadNames);
  }

  /** Two tables have the same VAD names and, per VAD, the same field indices. */
  ghost predicate SameShape(a: InputTable, b: InputTable)
  {
    a.Keys == b.Keys && forall name :: name in a ==> a[name].Keys == b[name].Keys
  }

  /** `updated[vadName][fieldIndex].value = value`. */
  function WithValue(t: InputTable, vadName: string, fieldIndex: nat, value: CellValue): (r: InputTable)
    requires vadName in t && fieldIndex in t[vadName]
    ensures SameShape(r, t)
    ensures r[vadName][fieldIndex].value == value
    ensures r[vadName][fieldIndex].uom == t[vadName][fieldIndex].uom
    ensures forall name, i :: name in r && i in r[name] && (name, i) != (vadName, fieldIndex) ==>
      r[name][i] == t[name][i]
  {
    t[vadName := t[vadName][fieldIndex := t[vadName][fieldIndex].(value := value)]]
  }

  /** `updated[vadName][fieldIndex].uom = uom`. */
  function WithUom(t: InputTable, vadName: string, fieldIndex: nat, uom: string): (r: InputTable)
    requires vadName in t && fieldIndex in t[vadName]
    ensures SameShape(r, t)
    ensures r[vadName][fieldIndex].uom == uom
    ensures r[vadName][fieldIndex].value == t[vadName][fieldIndex].value
    ensures forall name, i :: name in r && i in r[name] && (name, i) != (vadName, fieldIndex) ==>
      r[name][i] == t[name][i]
  {
    t[vadName := t[vadName][fieldIndex := t[vadName][fieldIndex].(uom := uom)]]
  }

  /** Edits of two different cells can be made in either order. */
  lemma EditsCommute(t: InputTable, v1: string, i1: nat, x: CellValue, v2: string, i2: nat, u: string)
    requires v1 in t && i1 in t[v1] && v2 in t && i2 in t[v2]
    ensures WithUom(WithValue(t, v1, i1, x), v2, i2, u) == WithValue(WithUom(t, v2, i2, u), v1, i1, x)
  {
    var a := WithUom(WithValue(t, v1, i1, x), v2, i2, u);
    var b := WithValue(WithUom(t, v2, i2, u), v1, i1, x);
    forall name | name in a ensures a[name] == b[name] {
      forall i | i in a[name] ensures a[name][i] == b[name][i] {
      }
    }
  }

  /** One mounted `InputsRenderer`: its `inputs` state and what it has handed
      to `onInputsChange`. */
  class Renderer {
    var inputs: InputTable
    /** Whether the parent supplied `onInputsChange`. */
    const listening: bool
    /** Every table passed to `onInputsChange`, oldest first. */
    var delivered: seq<InputTable>
    /** The table the component was mounted with; edits keep its shape. */
    ghost const initial: InputTable

    ghost predicate Valid()
      reads this
    {
      SameShape(inputs, initial)
    }

    constructor (vadNames: seq<string>, listening: bool)
      ensures Valid()
      ensures inputs == InitialTable(vadNames) && initial == inputs
      ensures this.listening == listening && delivered == []
    {
      var table := BuildInitialTable(vadNames);
      inputs := table;
      initial := table;
      this.listening := listening;
      delivered := [];
    }

    /** `handleValueChange`: the code dereferences the cell unguarded, so a
        cell that does not exist throws; callers only edit rendered cells. */
    method HandleValueChange(vadName: string, fieldIndex: nat, value: CellValue)
      requires Valid()
      requires vadName in inputs && fieldIndex in inputs[vadName]
      modifies this
      ensures Valid()
      ensures inputs == WithValue(old(inputs), vadName, fieldIndex, value)
      ensures delivered == old(delivered) + if listening then [inputs] else []
    {
      var updated := WithValue(inputs, vadName, fieldIndex, value);
      inputs := updated;
      if listening {
        delivered := delivered + [updated];
      }
    }

    /** `handleUOMChange`, with the same unguarded dereference. */
    method HandleUomChange(vadName: string, fieldIndex: nat, uom: string)
      requires Valid()
      requires vadName in inputs && fieldIndex in inputs[vadName]
      modifies this
      ensures Valid()
      ensures inputs == WithUom(old(inputs), vadName, fieldIndex, uom)
      ensures delivered == old(delivered) + if listening then [inputs] else []
    {
      var updated := WithUom(inputs, vadName, fieldIndex, uom);
      inputs := updated;
      if listening {
        delivered := delivered + [updated];
      }
    }
  }
}
