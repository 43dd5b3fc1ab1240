/** The persistence stub and the evaluation stub of src/api.ts. Storage is one
    slot (one `localStorage` key) shared by the build and the presentation
    sessions. JSON encoding is taken to round-trip exactly, so the slot holds
    either the encoding of a configuration or some other text that does not
    parse as one. */
module Api {
  import opened Wrappers
  import opened Types
  import opened NumberCoercion

  /** What the storage slot can hold. */
  datatype StoredText =
    | ConfigJson(config: BuildConfig)   // `JSON.stringify(config)`
    | Unparsable(raw: string)           // text that `JSON.parse` rejects, or the empty string

  /** What `loadBuildConfig(projectId)` yields for a given slot: null when the
      slot is missing or empty, when its text does not parse, or when the
      stored project id differs from the requested one. */
  function LoadFrom(slot: Option<StoredText>, projectId: string): (r: Option<BuildConfig>)
    ensures r.Some? <==> slot.Some? && slot.value.ConfigJson? && slot.value.config.projectId == projectId
    ensures r.Some? ==> slot == Some(ConfigJson(r.value)) && r.value.projectId == projectId
  {
    match slot
    case None => None
    case Some(Unparsable(_)) => None
    case Some(ConfigJson(c)) => if c.projectId != projectId then None else Some(c)
  }

  /** The single storage slot. */
  class Store {
    var slot: Option<StoredText>

    constructor ()
      ensures slot == None
    {
      slot := None;
    }

    /** `saveBuildConfig`: overwrite the slot, whatever project it held. */
    method SaveBuildConfig(config: BuildConfig)
      modifies this
      ensures slot == Some(ConfigJson(config))
    {
      slot := Some(ConfigJson(config));
    }

    /** `loadBuildConfig`. */
    method LoadBuildConfig(projectId: string) returns (r: Option<BuildConfig>)
      ensures r == LoadFrom(slot, projectId)
    {
      if slot.None? {
        return None;
      }
      match slot.value
      case Unparsable(_) =>
        r := None;
      case ConfigJson(parsed) =>
        if parsed.projectId != projectId {
          return None;
        }
        r := Some(parsed);
    }
  }

  /** Saving and then loading under the same project id gives the saved
      configuration back, and with the single slot a later save replaces an
      earlier one whatever its project id. */
  method SaveTwiceThenLoad(first: BuildConfig, second: BuildConfig)
    returns (loadedFirst: Option<BuildConfig>, loadedSecond: Option<BuildConfig>)
    ensures loadedSecond == Some(second)
    ensures loadedFirst == if first.projectId == second.projectId then Some(second) else None
  {
    var store := new Store();
    store.SaveBuildConfig(first);
    var afterOne := store.LoadBuildConfig(first.projectId);
    assert afterOne == Some(first);
    store.SaveBuildConfig(second);
    loadedFirst := store.LoadBuildConfig(first.projectId);
    loadedSecond := store.LoadBuildConfig(second.projectId);
  }

  // ---------------------------------------------------------------------------
  // The evaluation stub

  /** `VADId`: the identifiers the evaluation service knows. */
  datatype VadId =
    | ReducedElectricity
    | ReducedMaintenance
    | IncreasedTicketSales
    | AvoidedRevenueLoss
    | IncreasedRecyclability
    | EmbodiedCarbonReduction

  /** `VADInputValues`: field name to value. */
  type VadInputValues = map<string, CellValue>

  /** The values of one VAD's inputs, coerced to numbers; none for a VAD
      without inputs (`inputs[id] || {}`). */
  function CoercedInputs(inputs: map<VadId, VadInputValues>, id: VadId): map<string, real>
  {
    if id in inputs then map k | k in inputs[id] :: Coerce(inputs[id][k]) else map[]
  }

  /** `calculateFromEval`: one result per listed VAD, the coerced sum of its
      values. The 400 ms delay before the promise resolves is not modelled. */
  method CalculateFromEval(vads: seq<VadId>, inputs: map<VadId, VadInputValues>)
    returns (result: map<VadId, real>)
    ensures result.Keys == set id | id in vads
    ensures forall id :: id in result ==> result[id] == Total(CoercedInputs(inputs, id))
  {
    result := map[];
    for k := 0 to |vads|
      invariant result.Keys == set id | id in vads[..k]
      invariant forall id :: id in result ==> result[id] == Total(CoercedInputs(inputs, id))
    {
      var id := vads[k];
      var sum := SumValues(CoercedInputs(inputs, id));
      result := result[id := sum];
      assert vads[..k + 1] == vads[..k] + [id];
    }
    assert vads[..|vads|] == vads;
  }

  /** A VAD listed without inputs evaluates to 0, and one whose values are all
      unparsable text evaluates to 0 too. */
  lemma UnusableInputsGiveZero(inputs: map<VadId, VadInputValues>, id: VadId)
    requires id in inputs ==> forall k :: k in inputs[id] ==>
      inputs[id][k].Text? && !HasNumericPrefix(inputs[id][k].s)
    ensures Total(CoercedInputs(inputs, id)) == 0.0
  {
    var m := CoercedInputs(inputs, id);
    forall k | k in m ensures m[k] == 0.0 {
      NonNumericIsZero(inputs[id][k].s);
    }
    TotalOfZeros(m);
  }
}
