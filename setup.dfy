/** `setup.js`: seeding the model and agent tables with the sample records and creating
    the first administrator. */
module Setup {
  import opened Wrappers
  import opened Catalog
  import opened AgentService
  import opened ModelConfigService

  /** The environment variables the seeding reads. */
  datatype SetupEnv = SetupEnv(
    defaultBaseUrl: Option<string>,
    defaultApiKey: Option<string>,
    openaiApiKey: Option<string>,
    anthropicApiKey: Option<string>,
    adminUsername: Option<string>,
    adminPassword: Option<string>)

  /** A JavaScript value passed to Prisma: `undefined` leaves the column alone. */
  function Given<U>(v: Option<U>): Field<U>
  {
    if v.Some? then Present(v.value) else Undefined
  }

  function SampleModels(env: SetupEnv): seq<ModelConfig>
  {
    var openaiUrl := Or(env.defaultBaseUrl, Some("https://api.openai.com/v1")).value;
    var openaiKey := Or(env.defaultApiKey, env.openaiApiKey);
    [ Row("gpt-4", 10, true, true, ModelFields(
          "GPT-4", "高级通用模型，适合复杂推理和创意任务",
          "[\"复杂问题推理\",\"创意写作\",\"代码生成与评审\",\"深度分析\"]",
          openaiUrl, openaiKey, Some("你是一个由OpenAI开发的AI助手。你擅长复杂推理和创意任务。"))),
      Row("gpt-3.5-turbo", 5, true, false, ModelFields(
          "GPT-3.5 Turbo", "快速响应通用模型，适合日常对话和简单任务",
          "[\"日常对话\",\"简单问题解答\",\"信息查询\",\"基础创作\"]",
          openaiUrl, openaiKey, Some("你是一个由OpenAI开发的AI助手。你擅长简洁高效地回答问题。"))),
      Row("claude-3-opus", 8, true, false, ModelFields(
          "Claude 3 Opus", "高级理解模型，适合长文本分析和学术任务",
          "[\"深度内容理解与分析\",\"长文本处理\",\"学术写作\",\"多轮对话\"]",
          "https://api.anthropic.com/v1", env.anthropicApiKey,
          Some("你是Claude，一个由Anthropic开发的有用、无害且诚实的AI助手。你擅长理解和分析复杂内容。")))
    ]
  }

  /** The sample agents name no API key of their own. */
  const SampleAgents: seq<Agent> := [
    Row("general-assistant", 5, true, true, AgentFields(
        "通用助手", "适合日常对话和一般问题的通用AI助手",
        "[\"日常对话\",\"一般问题解答\",\"信息查询\"]",
        Some("gpt-3.5-turbo"), None,
        Some("你是一个友好、有帮助的AI助手。你的目标是提供有用、安全和诚实的回答。"),
        Present(0.7), Present(1.0), Present(2000))),
    Row("code-expert", 8, true, false, AgentFields(
        "代码专家", "专注于编程和技术问题的AI助手",
        "[\"代码生成\",\"代码审查\",\"编程问题解答\",\"技术文档编写\"]",
        Some("gpt-4"), None,
        Some("你是一个专业的编程助手。你擅长解决编程问题、代码审查和软件开发相关问题。请提供清晰、准确的技术解答，并在适当时提供代码示例。"),
        Present(0.3), Present(1.0), Present(4000))),
    Row("creative-writer", 7, true, false, AgentFields(
        "创意写手", "专注于创意写作和内容创作的AI助手",
        "[\"创意写作\",\"故事创作\",\"内容生成\",\"文案撰写\"]",
        Some("claude-3-opus"), None,
        Some("你是一个富有创造力的AI写作助手。你擅长创意写作、故事创作、内容生成等任务。请提供有创意、引人入胜的内容。"),
        Present(0.9), Present(1.0), Present(3000)))
  ]

  /** `update({ data: config })` with a sample model: every field it gives, an `undefined`
      key left alone. */
  function ModelOverwrite(s: ModelConfig): Patch<ModelChanges>
  {
    Patch(Some(s.priority), Some(s.isActive), Some(s.isDefault), ModelChanges(
      Some(s.data.name), Some(s.data.description), Some(s.data.capabilities), Some(s.data.baseUrl),
      Given(s.data.apiKey), Given(s.data.prompt)))
  }

  /** `update({ data: agent })` with a sample agent. */
  function AgentOverwrite(s: Agent): Patch<AgentChanges>
  {
    Patch(Some(s.priority), Some(s.isActive), Some(s.isDefault), AgentChanges(
      Some(s.data.name), Some(s.data.description), Some(s.data.capabilities),
      Given(s.data.modelId), Given(s.data.apiKey), Given(s.data.systemPrompt),
      s.data.temperature, s.data.topP, s.data.maxTokens))
  }

  /** One sample after the snapshot `existing` was read: updated in place when the snapshot
      has its key, else created through the service (which clears other defaults). */
  function Upsert<T, P>(existing: seq<Row<T>>, rows: seq<Row<T>>, s: Row<T>, patchOf: Row<T> -> Patch<P>, apply: (T, P) -> T): seq<Row<T>>
  {
    if s.key in Keys(existing) then RawUpdated(rows, s.key, patchOf(s), apply) else Created(rows, s)
  }

  /** The table after the seeding loop over `samples`, starting from `existing`. */
  function Seeded<T, P>(existing: seq<Row<T>>, samples: seq<Row<T>>, patchOf: Row<T> -> Patch<P>, apply: (T, P) -> T): seq<Row<T>>
    decreases |samples|
  {
    if samples == [] then existing
    else Upsert(existing, Seeded(existing, samples[..|samples| - 1], patchOf, apply), samples[|samples| - 1], patchOf, apply)
  }

  /** Lines 161-190: one seeding loop over a table. */
  method SeedTable<T(==), P>(t: Table<T>, samples: seq<Row<T>>, patchOf: Row<T> -> Patch<P>, apply: (T, P) -> T)
    requires t.Valid()
    modifies t
    ensures t.Valid()
    ensures t.rows == Seeded(old(t.rows), samples, patchOf, apply)
  {
    var existing := t.rows;
    for i := 0 to |samples|
      invariant t.Valid()
      invariant t.rows == Seeded(existing, samples[..i], patchOf, apply)
    {
      assert samples[..i + 1][..i] == samples[..i];
      var s := samples[i];
      if FindByKey(existing, s.key).Some? {
        var _ := t.RawUpdate(s.key, patchOf(s), apply);
      } else {
        var _ := t.Create(s);
      }
    }
    assert samples[..|samples|] == samples;
  }

  datatype Admin = Admin(username: string, passwordHash: string)

  /** The administrator table. */
  class AdminTable {
    var admins: seq<Admin>

    constructor (admins: seq<Admin>)
      ensures this.admins == admins
    {
      this.admins := admins;
    }

    method Create(a: Admin)
      modifies this
      ensures admins == old(admins) + [a]
    {
      admins := admins + [a];
    }
  }

  datatype SetupResult = Initialized(message: string) | TablesMissing(message: string, error: string)

  /** `initializeSystem(clearExisting)`. `probeError` is what the probe query threw, if
      anything; `hash` stands for `bcrypt.hash(_, 10)`. */
  method InitializeSystem(
    models: ModelTable, agents: AgentTable, admins: AdminTable, env: SetupEnv, clearExisting: bool,
    probeError: Option<string>, hash: string -> string)
    returns (result: SetupResult)
    requires models.Valid() && agents.Valid()
    modifies models, agents, admins
    ensures models.Valid() && agents.Valid()
    ensures probeError.Some? ==>
      result == TablesMissing("数据库表不存在，请先运行迁移命令", probeError.value) && unchanged(models, agents, admins)
    ensures probeError.None? ==>
      && result == Initialized("系统初始化完成")
      && models.rows == Seeded(if clearExisting then [] else old(models.rows), SampleModels(env), ModelOverwrite, ApplyModelChanges)
      && agents.rows == Seeded(if clearExisting then [] else old(agents.rows), SampleAgents, AgentOverwrite, ApplyAgentChanges)
      && admins.admins == if old(admins.admins) == [] then [DefaultAdmin(env, hash)] else old(admins.admins)
  {
    result := Initialize(models, agents, admins, SampleModels(env), SampleAgents, DefaultAdmin(env, hash), clearExisting, probeError);
  }

  /** The steps of `initializeSystem` for given sample records and default administrator:
      the probe, the optional clearing (agents first), the two seeding loops and the
      administrator created only when there is none. */
  method Initialize(
    models: ModelTable, agents: AgentTable, admins: AdminTable,
    modelSamples: seq<ModelConfig>, agentSamples: seq<Agent>, admin: Admin, clearExisting: bool, probeError: Option<string>)
    returns (result: SetupResult)
    requires models.Valid() && agents.Valid()
    modifies models, agents, admins
    ensures models.Valid() && agents.Valid()
    ensures probeError.Some? ==>
      result == TablesMissing("数据库表不存在，请先运行迁移命令", probeError.value) && unchanged(models, agents, admins)
    ensures probeError.None? ==>
      && result == Initialized("系统初始化完成")
      && models.rows == Seeded(if clearExisting then [] else old(models.rows), modelSamples, ModelOverwrite, ApplyModelChanges)
      && agents.rows == Seeded(if clearExisting then [] else old(agents.rows), agentSamples, AgentOverwrite, ApplyAgentChanges)
      && admins.admins == if old(admins.admins) == [] then [admin] else old(admins.admins)
  {
    if probeError.Some? {
      return TablesMissing("数据库表不存在，请先运行迁移命令", probeError.value);
    }
    if clearExisting {
      agents.DeleteAll();
      models.DeleteAll();
    }
    SeedTable(models, modelSamples, ModelOverwrite, ApplyModelChanges);
    SeedTable(agents, agentSamples, AgentOverwrite, ApplyAgentChanges);
    if |admins.admins| == 0 {
      admins.Create(admin);
    }
    result := Initialized("系统初始化完成");
  }

  /** `ADMIN_USERNAME || 'admin'` with the hash of `ADMIN_PASSWORD || 'admin123'`. */
  function DefaultAdmin(env: SetupEnv, hash: string -> string): (a: Admin)
    ensures a.username != "" && (Truthy(env.adminUsername) ==> a.username == env.adminUsername.value)
  {
    Admin(Or(env.adminUsername, Some("admin")).value, hash(Or(env.adminPassword, Some("admin123")).value))
  }

  // ---------------------------------------------------------------- properties of seeding

  /** The sample models have distinct keys and one default, "gpt-4". */
  lemma ModelSamplesWellFormed(env: SetupEnv)
    ensures UniqueKeys(SampleModels(env)) && AtMostOneDefault(SampleModels(env))
    ensures FirstDefault(SampleModels(env)) == Some(SampleModels(env)[0])
  {
    var m := SampleModels(env);
    assert m[1].key[0] != m[2].key[0];
  }

  /** The sample agents have distinct keys and one default, "general-assistant". */
  lemma AgentSamplesWellFormed()
    ensures UniqueKeys(SampleAgents) && AtMostOneDefault(SampleAgents)
    ensures FirstDefault(SampleAgents) == Some(SampleAgents[0])
  {
  }

  /** Seeding an empty table stores the samples as given, in order, provided they have
      distinct keys and at most one default. */
  lemma {:induction false} SeededEmpty<T, P>(samples: seq<Row<T>>, patchOf: Row<T> -> Patch<P>, apply: (T, P) -> T)
    requires UniqueKeys(samples) && AtMostOneDefault(samples)
    ensures Seeded([], samples, patchOf, apply) == samples
  {
    if samples != [] {
      var n := |samples|;
      var prefix, last := samples[..n - 1], samples[n - 1];
      SeededEmpty(prefix, patchOf, apply);
      forall i | 0 <= i < |prefix| ensures prefix[i].key != last.key {
        assert samples[i].key != samples[n - 1].key;
      }
      if last.isDefault {
        forall i | 0 <= i < |prefix| ensures DefaultsCleared(prefix, None)[i] == prefix[i] {
          assert !samples[i].isDefault;
        }
      }
      assert prefix + [last] == samples;
    }
  }

  /** Seeding samples that are all stored already, each exactly as its update would leave
      it, changes nothing. */
  lemma {:induction false} ReseedChangesNothing<T, P>(existing: seq<Row<T>>, samples: seq<Row<T>>, patchOf: Row<T> -> Patch<P>, apply: (T, P) -> T)
    requires UniqueKeys(existing)
    requires forall i :: 0 <= i < |samples| ==> samples[i] in existing
    requires forall i :: 0 <= i < |samples| ==> Patched(samples[i], patchOf(samples[i]), apply) == samples[i]
    ensures Seeded(existing, samples, patchOf, apply) == existing
  {
    if samples != [] {
      var n := |samples|;
      var prefix, last := samples[..n - 1], samples[n - 1];
      assert forall i :: 0 <= i < |prefix| ==> prefix[i] == samples[i];
      ReseedChangesNothing(existing, prefix, patchOf, apply);
      assert last in existing && Patched(last, patchOf(last), apply) == last;
      UpdateToSameRecord(existing, last, patchOf(last), apply);
    }
  }

  /** Updating a stored record with a patch that leaves it as it is changes no record. */
  lemma UpdateToSameRecord<T, P>(rows: seq<Row<T>>, row: Row<T>, patch: Patch<P>, apply: (T, P) -> T)
    requires UniqueKeys(rows) && row in rows && Patched(row, patch, apply) == row
    ensures RawUpdated(rows, row.key, patch, apply) == rows
  {
    var j :| 0 <= j < |rows| && rows[j] == row;
    var r := RawUpdated(rows, row.key, patch, apply);
    forall i | 0 <= i < |rows| ensures r[i] == rows[i] {
      if rows[i].key == row.key {
        assert i == j;
      }
    }
  }

  /** `update({ data: m })` on the record `m` itself leaves it as it is. */
  lemma ModelOverwriteKeepsRecord(m: ModelConfig)
    ensures Patched(m, ModelOverwrite(m), ApplyModelChanges) == m
  {
  }

  /** `update({ data: a })` on the record `a` itself leaves it as it is. */
  lemma AgentOverwriteKeepsRecord(a: Agent)
    ensures Patched(a, AgentOverwrite(a), ApplyAgentChanges) == a
  {
  }

  /** Seeding a cleared table stores well-formed samples as given; seeding them again, when
      each update with a sample leaves that sample's record as it is, changes nothing. */
  lemma FreshSeeding<T, P>(samples: seq<Row<T>>, patchOf: Row<T> -> Patch<P>, apply: (T, P) -> T)
    requires UniqueKeys(samples) && AtMostOneDefault(samples)
    requires forall i :: 0 <= i < |samples| ==> Patched(samples[i], patchOf(samples[i]), apply) == samples[i]
    ensures Seeded([], samples, patchOf, apply) == samples
    ensures Seeded(samples, samples, patchOf, apply) == samples
  {
    SeededEmpty(samples, patchOf, apply);
    ReseedChangesNothing(samples, samples, patchOf, apply);
  }

  /** `initializeSystem(true)` leaves exactly the sample models, with "gpt-4" as the
      default; running it again without clearing leaves the model table as it is. */
  lemma FreshSetupStoresModels(env: SetupEnv)
    ensures var models := Seeded([], SampleModels(env), ModelOverwrite, ApplyModelChanges);
      && models == SampleModels(env)
      && Seeded(models, SampleModels(env), ModelOverwrite, ApplyModelChanges) == models
      && DefaultOf(models) == Some(SampleModels(env)[0])
  {
    ModelSamplesWellFormed(env);
    forall m: ModelConfig ensures Patched(m, ModelOverwrite(m), ApplyModelChanges) == m {
      ModelOverwriteKeepsRecord(m);
    }
    FreshSeeding(SampleModels(env), ModelOverwrite, ApplyModelChanges);
  }

  /** `initializeSystem(true)` leaves exactly the sample agents, with "general-assistant" as
      the default; running it again without clearing leaves the agent table as it is. */
  lemma FreshSetupStoresAgents()
    ensures var agents := Seeded([], SampleAgents, AgentOverwrite, ApplyAgentChanges);
      && agents == SampleAgents
      && Seeded(agents, SampleAgents, AgentOverwrite, ApplyAgentChanges) == agents
      && DefaultOf(agents) == Some(SampleAgents[0])
  {
    AgentSamplesWellFormed();
    forall a: Agent ensures Patched(a, AgentOverwrite(a), ApplyAgentChanges) == a {
      AgentOverwriteKeepsRecord(a);
    }
    FreshSeeding(SampleAgents, AgentOverwrite, ApplyAgentChanges);
  }

  /** Updating `r` with `patch` would leave it as it is. */
  ghost predicate Settled<T, P>(r: Row<T>, patch: Patch<P>, apply: (T, P) -> T)
  {
    Patched(r, patch, apply) == r
  }

  /** A second update with `patch` changes nothing the first one did not. */
  ghost predicate Idempotent<T(!new), P>(patch: Patch<P>, apply: (T, P) -> T)
  {
    forall x: Row<T> :: Settled(Patched(x, patch, apply), patch, apply)
  }

  /** Seeding any table leaves every record that has a sample's key settled under that
      sample's update, provided the samples have distinct keys and at most one default, and
      each sample's update is idempotent, names its default flag and leaves the sample
      itself as it is. Existing records need not have distinct keys. */
  lemma {:induction false} SeededSettlesSamples<T(!new), P>(existing: seq<Row<T>>, samples: seq<Row<T>>, patchOf: Row<T> -> Patch<P>, apply: (T, P) -> T)
    requires UniqueKeys(samples) && AtMostOneDefault(samples)
    requires forall i :: 0 <= i < |samples| ==> Settled(samples[i], patchOf(samples[i]), apply)
    requires forall i :: 0 <= i < |samples| ==> Idempotent(patchOf(samples[i]), apply)
    requires forall i :: 0 <= i < |samples| ==> patchOf(samples[i]).isDefault == Some(samples[i].isDefault)
    ensures var r := Seeded(existing, samples, patchOf, apply);
      forall i, j :: 0 <= i < |samples| && 0 <= j < |r| && r[j].key == samples[i].key ==> Settled(r[j], patchOf(samples[i]), apply)
  {
    if samples != [] {
      var n := |samples|;
      var prefix, last := samples[..n - 1], samples[n - 1];
      assert forall i :: 0 <= i < |prefix| ==> prefix[i] == samples[i];
      SeededSettlesSamples(existing, prefix, patchOf, apply);
      SeededKeys(existing, prefix, patchOf, apply);
      var rows := Seeded(existing, prefix, patchOf, apply);
      var r := Seeded(existing, samples, patchOf, apply);
      LastKeyIsNew(samples);
      forall i, j | 0 <= i < n && 0 <= j < |r| && r[j].key == samples[i].key
        ensures Settled(r[j], patchOf(samples[i]), apply)
      {
        var s := samples[i];
        assert s.key == last.key ==> i == n - 1;
        if last.key in Keys(existing) {
          UpdatedSampleSettles(rows, last, s, j, patchOf, apply);
        } else {
          CreatedSampleSettles(rows, last, s, j, patchOf, apply);
        }
      }
    }
  }

  /** With distinct keys, the last sample's key is not among the earlier ones'. */
  lemma LastKeyIsNew<T>(samples: seq<Row<T>>)
    requires samples != [] && UniqueKeys(samples)
    ensures samples[|samples| - 1].key !in Keys(samples[..|samples| - 1])
  {
  }

  /** The step where `last` updates the records with its key: those become settled under its
      update, and the records of the other samples are untouched. */
  lemma UpdatedSampleSettles<T(!new), P>(rows: seq<Row<T>>, last: Row<T>, s: Row<T>, j: int, patchOf: Row<T> -> Patch<P>, apply: (T, P) -> T)
    requires Idempotent(patchOf(last), apply)
    requires s.key == last.key ==> s == last
    requires 0 <= j < |rows| && rows[j].key == s.key
    requires s.key != last.key ==> Settled(rows[j], patchOf(s), apply)
    ensures Settled(RawUpdated(rows, last.key, patchOf(last), apply)[j], patchOf(s), apply)
  {
    if s.key == last.key {
      assert Settled(Patched(rows[j], patchOf(last), apply), patchOf(last), apply);
    }
  }

  /** The step where `last`, a key not yet stored, is created: it is appended settled, and a
      default it brings unflags only records that are not samples'. */
  lemma CreatedSampleSettles<T, P>(rows: seq<Row<T>>, last: Row<T>, s: Row<T>, j: int, patchOf: Row<T> -> Patch<P>, apply: (T, P) -> T)
    requires last.key !in Keys(rows)
    requires Settled(last, patchOf(last), apply)
    requires s.key == last.key ==> s == last
    requires last.isDefault && s.key != last.key ==> !s.isDefault && patchOf(s).isDefault == Some(false)
    requires 0 <= j < |Created(rows, last)| && Created(rows, last)[j].key == s.key
    requires j < |rows| ==> Settled(rows[j], patchOf(s), apply)
    ensures Settled(Created(rows, last)[j], patchOf(s), apply)
  {
    var cleared := if last.isDefault then DefaultsCleared(rows, None) else rows;
    assert Created(rows, last) == cleared + [last];
    if j < |rows| {
      assert cleared[j].key == rows[j].key;
      assert rows[j].key in Keys(rows);
    }
  }

  /** The stored model `r` has every column the sample `s` gives; an API key or prompt the
      sample leaves unset (`undefined`) is the only column that may differ. */
  ghost predicate CarriesModel(r: ModelConfig, s: ModelConfig)
  {
    && r.priority == s.priority && r.isActive == s.isActive && r.isDefault == s.isDefault
    && r.data.name == s.data.name && r.data.description == s.data.description
    && r.data.capabilities == s.data.capabilities && r.data.baseUrl == s.data.baseUrl
    && (s.data.apiKey.Some? ==> r.data.apiKey == s.data.apiKey)
    && (s.data.prompt.Some? ==> r.data.prompt == s.data.prompt)
  }

  /** The stored agent `r` has every column the sample `s` gives. */
  ghost predicate CarriesAgent(r: Agent, s: Agent)
  {
    && r.priority == s.priority && r.isActive == s.isActive && r.isDefault == s.isDefault
    && r.data.name == s.data.name && r.data.description == s.data.description
    && r.data.capabilities == s.data.capabilities
    && (s.data.modelId.Some? ==> r.data.modelId == s.data.modelId)
    && (s.data.apiKey.Some? ==> r.data.apiKey == s.data.apiKey)
    && (s.data.systemPrompt.Some? ==> r.data.systemPrompt == s.data.systemPrompt)
    && (!s.data.temperature.Undefined? ==> r.data.temperature == s.data.temperature)
    && (!s.data.topP.Undefined? ==> r.data.topP == s.data.topP)
    && (!s.data.maxTokens.Undefined? ==> r.data.maxTokens == s.data.maxTokens)
  }

  /** A model record is left as it is by a sample's update exactly when it carries the
      sample's columns, and the update makes any record carry them. */
  lemma ModelOverwriteSettles(x: ModelConfig, s: ModelConfig)
    ensures Settled(x, ModelOverwrite(s), ApplyModelChanges) <==> CarriesModel(x, s)
    ensures CarriesModel(Patched(x, ModelOverwrite(s), ApplyModelChanges), s)
  {
  }

  /** An agent record is left as it is by a sample's update exactly when it carries the
      sample's columns, and the update makes any record carry them. */
  lemma AgentOverwriteSettles(x: Agent, s: Agent)
    ensures Settled(x, AgentOverwrite(s), ApplyAgentChanges) <==> CarriesAgent(x, s)
    ensures CarriesAgent(Patched(x, AgentOverwrite(s), ApplyAgentChanges), s)
  {
  }

  /** `initializeSystem(false)` over any model table: the keys become the old ones plus the
      sample keys, and every record with a sample's key carries that sample's columns. */
  lemma ReseedStoresSampleModels(existing: seq<ModelConfig>, env: SetupEnv)
    ensures var r := Seeded(existing, SampleModels(env), ModelOverwrite, ApplyModelChanges);
      && Keys(r) == Keys(existing) + Keys(SampleModels(env))
      && forall i, j :: 0 <= i < |SampleModels(env)| && 0 <= j < |r| && r[j].key == SampleModels(env)[i].key ==>
           CarriesModel(r[j], SampleModels(env)[i])
  {
    var samples := SampleModels(env);
    ModelSamplesWellFormed(env);
    SeededKeys(existing, samples, ModelOverwrite, ApplyModelChanges);
    forall i | 0 <= i < |samples|
      ensures Settled(samples[i], ModelOverwrite(samples[i]), ApplyModelChanges)
      ensures Idempotent(ModelOverwrite(samples[i]), ApplyModelChanges)
    {
      ModelOverwriteKeepsRecord(samples[i]);
      forall x: ModelConfig ensures Settled(Patched(x, ModelOverwrite(samples[i]), ApplyModelChanges), ModelOverwrite(samples[i]), ApplyModelChanges) {
        ModelOverwriteSettles(x, samples[i]);
        ModelOverwriteSettles(Patched(x, ModelOverwrite(samples[i]), ApplyModelChanges), samples[i]);
      }
    }
    SeededSettlesSamples(existing, samples, ModelOverwrite, ApplyModelChanges);
    var r := Seeded(existing, samples, ModelOverwrite, ApplyModelChanges);
    forall i, j | 0 <= i < |samples| && 0 <= j < |r| && r[j].key == samples[i].key ensures CarriesModel(r[j], samples[i]) {
      ModelOverwriteSettles(r[j], samples[i]);
    }
  }

  /** `initializeSystem(false)` over any agent table: the keys become the old ones plus the
      sample keys, and every record with a sample's key carries that sample's columns. */
  lemma ReseedStoresSampleAgents(existing: seq<Agent>)
    ensures var r := Seeded(existing, SampleAgents, AgentOverwrite, ApplyAgentChanges);
      && Keys(r) == Keys(existing) + Keys(SampleAgents)
      && forall i, j :: 0 <= i < |SampleAgents| && 0 <= j < |r| && r[j].key == SampleAgents[i].key ==>
           CarriesAgent(r[j], SampleAgents[i])
  {
    var samples := SampleAgents;
    AgentSamplesWellFormed();
    SeededKeys(existing, samples, AgentOverwrite, ApplyAgentChanges);
    forall i | 0 <= i < |samples|
      ensures Settled(samples[i], AgentOverwrite(samples[i]), ApplyAgentChanges)
      ensures Idempotent(AgentOverwrite(samples[i]), ApplyAgentChanges)
    {
      AgentOverwriteKeepsRecord(samples[i]);
      forall x: Agent ensures Settled(Patched(x, AgentOverwrite(samples[i]), ApplyAgentChanges), AgentOverwrite(samples[i]), ApplyAgentChanges) {
        AgentOverwriteSettles(x, samples[i]);
        AgentOverwriteSettles(Patched(x, AgentOverwrite(samples[i]), ApplyAgentChanges), samples[i]);
      }
    }
    SeededSettlesSamples(existing, samples, AgentOverwrite, ApplyAgentChanges);
    var r := Seeded(existing, samples, AgentOverwrite, ApplyAgentChanges);
    forall i, j | 0 <= i < |samples| && 0 <= j < |r| && r[j].key == samples[i].key ensures CarriesAgent(r[j], samples[i]) {
      AgentOverwriteSettles(r[j], samples[i]);
    }
  }

  /** Seeding adds exactly the sample keys to the keys already present. */
  lemma {:induction false} SeededKeys<T, P>(existing: seq<Row<T>>, samples: seq<Row<T>>, patchOf: Row<T> -> Patch<P>, apply: (T, P) -> T)
    ensures Keys(Seeded(existing, samples, patchOf, apply)) == Keys(existing) + Keys(samples)
  {
    if samples != [] {
      var n := |samples|;
      var prefix, last := samples[..n - 1], samples[n - 1];
      var rows := Seeded(existing, prefix, patchOf, apply);
      SeededKeys(existing, prefix, patchOf, apply);
      assert samples == prefix + [last];
      KeysAppend(prefix, last);
      if last.key in Keys(existing) {
        RawUpdatedKeys(rows, last.key, patchOf(last), apply);
      } else {
        var cleared := if last.isDefault then DefaultsCleared(rows, None) else rows;
        ClearedDefaults(rows, None);
        KeysAppend(cleared, last);
      }
    }
  }

  /** A sample whose key was already present is written with a plain `update`, which leaves
      every other record alone, default flag included; only a sample that is created
      clears the other defaults. */
  lemma UpsertDefaults<T, P>(existing: seq<Row<T>>, rows: seq<Row<T>>, s: Row<T>, patchOf: Row<T> -> Patch<P>, apply: (T, P) -> T)
    ensures var r := Upsert(existing, rows, s, patchOf, apply);
      s.key in Keys(existing) ==> |r| == |rows| && forall i :: 0 <= i < |rows| && rows[i].key != s.key ==> r[i] == rows[i]
    ensures var r := Upsert(existing, rows, s, patchOf, apply);
      s.key !in Keys(existing) && s.isDefault ==> forall i :: 0 <= i < |r| && r[i].isDefault ==> r[i] == s
  {
    if s.key !in Keys(existing) && s.isDefault {
      ClearedDefaults(rows, None);
    }
  }

  /** Re-seeding without clearing, after an administrator made another agent the default:
      `general-assistant` is updated back to a default, the other default stays, and the
      table has two default agents. */
  lemma ReseedCanLeaveTwoDefaults(mine: AgentFields)
    ensures var existing := [SampleAgents[0].(isDefault := false), Row("mine", 9, true, true, mine)];
      var r := Seeded(existing, SampleAgents[..1], AgentOverwrite, ApplyAgentChanges);
      AtMostOneDefault(existing) && !AtMostOneDefault(r) && r[0] == SampleAgents[0] && r[1] == existing[1]
  {
    var existing := [SampleAgents[0].(isDefault := false), Row("mine", 9, true, true, mine)];
    assert SampleAgents[..1][..0] == [];
    assert SampleAgents[0].key in Keys(existing) by { assert existing[0].key == SampleAgents[0].key; }
    assert existing[1].key != SampleAgents[0].key by { assert |existing[1].key| != |SampleAgents[0].key|; }
  }
}
