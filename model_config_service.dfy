/** The model-configuration table and the queries and updates of `modelConfigService.js`. */
module ModelConfigService {
  import opened Wrappers
  import opened Catalog

  /** The columns of a model configuration besides `modelId` (the row key), `priority`,
      `isActive` and `isDefault`. */
  datatype ModelFields = ModelFields(
    name: string,
    description: string,
    capabilities: string,
    baseUrl: string,
    apiKey: Option<string>,
    prompt: Option<string>)

  type ModelConfig = Row<ModelFields>

  type ModelTable = Table<ModelFields>

  /** The model fields an update names; a field left `Undefined` keeps its column. */
  datatype ModelChanges = ModelChanges(
    name: Option<string>,
    description: Option<string>,
    capabilities: Option<string>,
    baseUrl: Option<string>,
    apiKey: Field<string>,
    prompt: Field<string>)

  function ApplyModelChanges(d: ModelFields, c: ModelChanges): ModelFields
  {
    ModelFields(
      Assign(d.name, c.name), Assign(d.description, c.description), Assign(d.capabilities, c.capabilities),
      Assign(d.baseUrl, c.baseUrl), AssignNullable(d.apiKey, c.apiKey), AssignNullable(d.prompt, c.prompt))
  }

  /** `getAllModelConfigs(includeInactive)`; the argument defaults to true, all records. */
  function GetAllModelConfigs(t: ModelTable, includeInactive: bool): (r: seq<ModelConfig>)
    reads t
    ensures IsListing(t.rows, includeInactive, r)
  {
    t.GetAll(includeInactive)
  }

  /** `getModelConfigById(modelId)`: the one record with that id, or null. */
  function GetModelConfigById(t: ModelTable, modelId: string): (r: Option<ModelConfig>)
    reads t
    ensures r.Some? ==> r.value in t.rows && r.value.key == modelId
    ensures r.None? <==> modelId !in Keys(t.rows)
  {
    t.GetByKey(modelId)
  }

  /** `getDefaultModelConfig()`. */
  function GetDefaultModelConfig(t: ModelTable): (r: Option<ModelConfig>)
    reads t
    ensures DefaultAnswer(t.rows, r)
  {
    t.GetDefault()
  }

  /** `modelConfigExists(modelId)`. */
  function ModelConfigExists(t: ModelTable, modelId: string): (b: bool)
    reads t
    ensures b <==> exists i :: 0 <= i < |t.rows| && t.rows[i].key == modelId
  {
    t.Exists(modelId)
  }

  /** `createModelConfig(configData)`; `ok` is false when the `modelId` is taken. */
  method CreateModelConfig(t: ModelTable, config: ModelConfig) returns (ok: bool)
    requires t.Valid()
    modifies t
    ensures t.Valid()
    ensures ok <==> config.key !in Keys(old(t.rows))
    ensures t.rows == Created(old(t.rows), config)
  {
    ok := t.Create(config);
  }

  /** `updateModelConfig(modelId, configData)`; `ok` is false when no record has that id. */
  method UpdateModelConfig(t: ModelTable, modelId: string, patch: Patch<ModelChanges>) returns (ok: bool)
    requires t.Valid()
    modifies t
    ensures t.Valid()
    ensures ok <==> modelId in Keys(old(t.rows))
    ensures t.rows == Updated(old(t.rows), modelId, patch, ApplyModelChanges)
  {
    ok := t.Update(modelId, patch, ApplyModelChanges);
  }

  /** `deleteModelConfig(modelId)`: a soft delete. */
  method DeleteModelConfig(t: ModelTable, modelId: string) returns (ok: bool)
    requires t.Valid()
    modifies t
    ensures t.Valid()
    ensures ok <==> modelId in Keys(old(t.rows))
    ensures t.rows == RawUpdated(old(t.rows), modelId, Deactivate(), KeepFields)
  {
    ok := t.SoftDelete(modelId);
  }
}
