/** The declarative models of the tenant API (bridge/bridge/api_models.py), and what
    the writers of a configuration may and may not change in it. */
module TenantModels {
  import opened Options
  import opened Schemas
  import opened TenantConfig

  // ----------------------------------------------------------------- models

  function Optional(schema: Schema, default: Json): Field {
    Field(schema, Some(default))
  }

  function Required(schema: Schema): Field {
    Field(schema, None)
  }

  const FLAG := Scalar(BoolKind)
  const COUNT := Scalar(IntKind)
  const TEXTS := ListOf(Text)
  const NO_ITEMS := Arr([])
  const NO_ENTRIES := Obj(map[])

  function Full(fields: map<string, Field>): Schema {
    Record(fields, false)
  }

  function Patch(fields: map<string, Field>): Schema {
    Record(fields, true)
  }

  /** The value of a section nobody has written: all defaults. */
  function Defaults(fields: map<string, Field>): Json {
    Obj(map key | key in fields && fields[key].default.Some? :: fields[key].default.value)
  }

  function Section(fields: map<string, Field>): Field {
    Optional(Full(fields), Defaults(fields))
  }

  function Catalog(): map<string, Field> {
    map["allowed_tools" := Optional(TEXTS, NO_ITEMS),
        "tool_config" := Optional(MapOf(MapOf(Anything)), NO_ENTRIES)]
  }

  function Byo(): map<string, Field> {
    map["enabled" := Optional(FLAG, Bool(false)),
        "gateway_endpoint" := Optional(Nullable(Text), Null),
        "gateway_auth" := Optional(Nullable(MapOf(Anything)), Null),
        "connected_integrations" := Optional(TEXTS, NO_ITEMS)]
  }

  function MemoryTriggers(): map<string, Field> {
    map["message_count" := Optional(COUNT, Num(6.0)),
        "token_count" := Optional(COUNT, Num(1000.0)),
        "idle_timeout_seconds" := Optional(COUNT, Num(1800.0))]
  }

  function MemoryExtraction(): map<string, Field> {
    map["enabled" := Optional(FLAG, Bool(true)),
        "rules" := Optional(TEXTS, NO_ITEMS)]
  }

  function Memory(): map<string, Field> {
    map["triggers" := Section(MemoryTriggers()),
        "namespace" := Optional(Text, Str("")),
        "extraction" := Section(MemoryExtraction()),
        "shared_across_channels" := Optional(FLAG, Bool(false)),
        "isolated_channels" := Optional(TEXTS, NO_ITEMS)]
  }

  function Heartbeat(): map<string, Field> {
    map["busy_threshold" := Optional(COUNT, Num(1.0)),
        "max_background_seconds" := Optional(COUNT, Num(3600.0))]
  }

  function CostCap(): map<string, Field> {
    map["monthly_limit_dollars" := Optional(Scalar(FloatKind), Num(50.0)),
        "enabled" := Optional(FLAG, Bool(true))]
  }

  function Persona(): map<string, Field> {
    map["system_prompt" := Optional(Nullable(Text), Null),
        "allowed_tools" := Optional(Nullable(TEXTS), Null),
        "memory_rules" := Optional(Nullable(TEXTS), Null)]
  }

  function BotPolicy(): map<string, Field> {
    map["allow_all_bots" := Optional(FLAG, Bool(false)),
        "trusted_bot_ids" := Optional(TEXTS, NO_ITEMS),
        "open_channels" := Optional(TEXTS, NO_ITEMS)]
  }

  function ContextAssembly(): map<string, Field> {
    map["resolve_permalinks" := Optional(FLAG, Bool(true)),
        "inject_thread_history" := Optional(FLAG, Bool(true)),
        "thread_history_depth" := Optional(COUNT, Num(25.0)),
        "max_permalinks" := Optional(COUNT, Num(3.0))]
  }

  function Skill(trigger: Schema): map<string, Field> {
    map["trigger" := Required(trigger),
        "name" := Required(Text),
        "prompt_template" := Required(Text),
        "required_tools" := Optional(TEXTS, NO_ITEMS),
        "channels" := Optional(TEXTS, NO_ITEMS)]
  }

  function Route(): map<string, Field> {
    map["team_name" := Required(Text),
        "channel_id" := Required(Text),
        "description" := Optional(Text, Str("")),
        "contacts" := Optional(TEXTS, NO_ITEMS)]
  }

  function Escalation(): map<string, Field> {
    map["routes" := Optional(ListOf(Full(Route())), NO_ITEMS)]
  }

  function Binding(): map<string, Field> {
    map["repo" := Required(Text),
        "default_branch" := Optional(Text, Str("main")),
        "aliases" := Optional(TEXTS, NO_ITEMS),
        "channels" := Optional(TEXTS, NO_ITEMS)]
  }

  function Codebases(): map<string, Field> {
    map["enabled" := Optional(FLAG, Bool(false)),
        "github_installation_id" := Optional(Nullable(Text), Null),
        "default_repo" := Optional(Nullable(Text), Null),
        "bindings" := Optional(ListOf(Full(Binding())), NO_ITEMS),
        "allow_learning" := Optional(FLAG, Bool(true))]
  }

  /** Both packages have their copy of the model. The agent's differs from the
      bridge's in its fallback prompt and in checking skill triggers. */
  datatype Side = Bridge | Agent(defaultPrompt: string)

  const FALLBACK_PROMPT := "You are a helpful assistant."

  /** The whole configuration. */
  function Tenant(side: Side): map<string, Field> {
    var prompt := if side.Bridge? then FALLBACK_PROMPT else side.defaultPrompt;
    var trigger := if side.Bridge? then Text else Scalar(TriggerKind);
    map["tenant_id" := Required(Text),
        "model_id" := Optional(Text, Str("global.anthropic.claude-sonnet-4-6")),
        "system_prompt" := Optional(Text, Str(prompt)),
        "catalog" := Section(Catalog()),
        "byo" := Section(Byo()),
        "memory" := Section(Memory()),
        "heartbeat" := Section(Heartbeat()),
        "cost_cap" := Section(CostCap()),
        "channels" := Optional(MapOf(Full(Persona())), NO_ENTRIES),
        "admin_user_ids" := Optional(TEXTS, NO_ITEMS),
        "bot_policy" := Section(BotPolicy()),
        "context_assembly" := Section(ContextAssembly()),
        "skills" := Optional(ListOf(Full(Skill(trigger))), NO_ITEMS),
        "escalation" := Section(Escalation()),
        "codebases" := Section(Codebases()),
        "is_internal_testenv" := Optional(FLAG, Bool(false))]
  }

  // ---------------------------------------------------------- patch models

  /** A patchable field: it may be left out, and null is let through here. */
  function Maybe(schema: Schema): Field {
    Optional(Nullable(schema), Null)
  }

  function CatalogPatch(): map<string, Field> {
    map["allowed_tools" := Maybe(TEXTS),
        "tool_config" := Maybe(MapOf(MapOf(Anything)))]
  }

  function MemoryTriggersPatch(): map<string, Field> {
    map["message_count" := Maybe(COUNT), "token_count" := Maybe(COUNT), "idle_timeout_seconds" := Maybe(COUNT)]
  }

  function MemoryExtractionPatch(): map<string, Field> {
    map["enabled" := Maybe(FLAG), "rules" := Maybe(TEXTS)]
  }

  function MemoryPatch(): map<string, Field> {
    map["triggers" := Maybe(Patch(MemoryTriggersPatch())),
        "extraction" := Maybe(Patch(MemoryExtractionPatch())),
        "shared_across_channels" := Maybe(FLAG),
        "isolated_channels" := Maybe(TEXTS)]
  }

  function HeartbeatPatch(): map<string, Field> {
    map["busy_threshold" := Maybe(COUNT), "max_background_seconds" := Maybe(COUNT)]
  }

  function BotPolicyPatch(): map<string, Field> {
    map["allow_all_bots" := Maybe(FLAG), "trusted_bot_ids" := Maybe(TEXTS), "open_channels" := Maybe(TEXTS)]
  }

  function ContextAssemblyPatch(): map<string, Field> {
    map["resolve_permalinks" := Maybe(FLAG),
        "inject_thread_history" := Maybe(FLAG),
        "thread_history_depth" := Maybe(COUNT),
        "max_permalinks" := Maybe(COUNT)]
  }

  function EscalationPatch(): map<string, Field> {
    map["routes" := Maybe(ListOf(Patch(Route())))]
  }

  function CodebasesPatch(): map<string, Field> {
    map["enabled" := Maybe(FLAG),
        "default_repo" := Maybe(Text),
        "bindings" := Maybe(ListOf(Patch(Binding()))),
        "allow_learning" := Maybe(FLAG)]
  }

  function TenantPatch(): map<string, Field> {
    map["model_id" := Maybe(Text),
        "system_prompt" := Maybe(Scalar(NonEmptyTextKind)),
        "catalog" := Maybe(Patch(CatalogPatch())),
        "memory" := Maybe(Patch(MemoryPatch())),
        "heartbeat" := Maybe(Patch(HeartbeatPatch())),
        "channels" := Maybe(MapOf(Patch(Persona()))),
        "bot_policy" := Maybe(Patch(BotPolicyPatch())),
        "context_assembly" := Maybe(Patch(ContextAssemblyPatch())),
        "skills" := Maybe(ListOf(Patch(Skill(Scalar(TriggerKind))))),
        "escalation" := Maybe(Patch(EscalationPatch())),
        "codebases" := Maybe(Patch(CodebasesPatch()))]
  }

  // -------------------------------------------------------------- functions

  function AsDocument(j: Option<Json>): Option<Document> {
    if j.Some? && j.value.Obj? then Some(j.value.fields) else None
  }

  /** The form a configuration takes when the model is read back and written out,
      if the model accepts it. A PATCH stores the bridge's. */
  function Canonical(side: Side, config: Document, coerce: Coerce): Option<Document> {
    AsDocument(Validate(Full(Tenant(side)), Obj(config), coerce))
  }

  /** The sparse patch a request body carries, if the patch model accepts it. */
  function PatchOf(body: Json, coerce: Coerce): Option<Document> {
    AsDocument(Validate(Patch(TenantPatch()), body, coerce))
  }

  /** `after` is `before` with the patch that `body` carries laid over it, in canonical
      form: what a successful PATCH stores. */
  predicate Patches(body: Json, before: Document, after: Document, coerce: Coerce) {
    PatchOf(body, coerce).Some? && Canonical(Bridge, DeepMerge(before, PatchOf(body, coerce).value), coerce) == Some(after)
  }

  // ------------------------------------------- what a PATCH cannot change

  /** Top-level fields only the operator or a connector may write. */
  predicate OperatorOwned(key: string) {
    key in {"tenant_id", "byo", "cost_cap", "admin_user_ids", "is_internal_testenv"}
  }

  /** Such fields inside a section that can otherwise be patched. */
  predicate OperatorOwnedIn(section: string, key: string) {
    (section == "memory" && key == "namespace") || (section == "codebases" && key == "github_installation_id")
  }

  function SectionPatch(section: string): map<string, Field> {
    if section == "memory" then MemoryPatch() else CodebasesPatch()
  }

  lemma PatchModelFields()
    ensures forall key | OperatorOwned(key) :: key !in TenantPatch()
    ensures forall section, key | OperatorOwnedIn(section, key) ::
              section in TenantPatch() && TenantPatch()[section] == Maybe(Patch(SectionPatch(section))) && key !in SectionPatch(section)
  {
    SectionModels();
    TopLevelModels();
    TopLevelSections();
    hide Maybe, Patch, MemoryPatch, CodebasesPatch, TenantPatch, OperatorOwned;
  }

  lemma SectionModels()
    ensures "namespace" !in MemoryPatch() && "github_installation_id" !in CodebasesPatch()
  {
    hide Maybe, Patch, Binding, MemoryTriggersPatch, MemoryExtractionPatch;
  }

  lemma TopLevelModels()
    ensures forall key | OperatorOwned(key) :: key !in TenantPatch()
  {
    hide Maybe, Patch, MemoryPatch, CodebasesPatch, CatalogPatch, HeartbeatPatch, Persona, BotPolicyPatch,
      ContextAssemblyPatch, Skill, EscalationPatch;
  }

  lemma TopLevelSections()
    ensures "memory" in TenantPatch() && TenantPatch()["memory"] == Maybe(Patch(MemoryPatch()))
    ensures "codebases" in TenantPatch() && TenantPatch()["codebases"] == Maybe(Patch(CodebasesPatch()))
  {
    hide Maybe, Patch, MemoryPatch, CodebasesPatch, CatalogPatch, HeartbeatPatch, Persona, BotPolicyPatch,
      ContextAssemblyPatch, Skill, EscalationPatch;
  }

  lemma SectionPatchKeys(section: string, key: string, body: Json, coerce: Coerce)
    requires OperatorOwnedIn(section, key) && Validate(Nullable(Patch(SectionPatch(section))), body, coerce).Some?
    ensures var given := Validate(Nullable(Patch(SectionPatch(section))), body, coerce).value;
            given.Null? || (given.Obj? && key !in given.fields)
  {
    PatchModelFields();
    hide SectionPatch, TenantPatch, OperatorOwnedIn;
    if !body.Null? {
      PatchKeys(SectionPatch(section), body, coerce);
    }
  }

  lemma PatchesCarryNoOperatorFields(body: Json, coerce: Coerce)
    requires PatchOf(body, coerce).Some?
    ensures forall key | OperatorOwned(key) :: key !in PatchOf(body, coerce).value
    ensures forall section, key | OperatorOwnedIn(section, key) && section in PatchOf(body, coerce).value ::
              var given := PatchOf(body, coerce).value[section];
              given.Null? || (given.Obj? && key !in given.fields)
  {
    PatchModelFields();
    PatchKeys(TenantPatch(), body, coerce);
    var patch := PatchOf(body, coerce).value;
    hide TenantPatch, SectionPatch, Validate, OperatorOwned, OperatorOwnedIn;
    forall section, key | OperatorOwnedIn(section, key) && section in patch
      ensures patch[section].Null? || (patch[section].Obj? && key !in patch[section].fields)
    {
      SectionPatchKeys(section, key, body.fields[section], coerce);
    }
  }

  lemma SectionBodyKeys(section: string, key: string, body: Json, coerce: Coerce)
    requires OperatorOwnedIn(section, key) && Validate(Nullable(Patch(SectionPatch(section))), body, coerce).Some?
    ensures body.Obj? ==> key !in body.fields
  {
    PatchModelFields();
    hide SectionPatch, TenantPatch, OperatorOwnedIn;
    if !body.Null? {
      PatchKeys(SectionPatch(section), body, coerce);
    }
  }

  lemma AcceptedBodies(body: Json, coerce: Coerce)
    requires PatchOf(body, coerce).Some?
    ensures body.Obj? && forall key | OperatorOwned(key) :: key !in body.fields
    ensures forall section, key | OperatorOwnedIn(section, key) && section in body.fields && body.fields[section].Obj? ::
              key !in body.fields[section].fields
  {
    hide TenantPatch, SectionPatch, OperatorOwned, OperatorOwnedIn;
    PatchModelFields();
    AcceptedEntries(TenantPatch(), body, coerce);
    hide Validate;
    forall section, key | OperatorOwnedIn(section, key) && section in body.fields && body.fields[section].Obj?
      ensures key !in body.fields[section].fields
    {
      SectionBodyKeys(section, key, body.fields[section], coerce);
    }
  }

  lemma AcceptedEntries(fields: map<string, Field>, body: Json, coerce: Coerce)
    requires Validate(Patch(fields), body, coerce).Some?
    ensures body.Obj? && body.fields.Keys <= fields.Keys
    ensures forall key | key in body.fields :: Validate(fields[key].schema, body.fields[key], coerce).Some?
  {
    PatchKeys(fields, body, coerce);
  }

  /** A body that tries to set one is refused: the gateway settings among them, or
      the installation inside its section. */
  lemma OperatorFieldsAreRefused(body: Json, coerce: Coerce, section: string, key: string)
    requires body.Obj?
    requires (OperatorOwned(key) && key in body.fields) ||
             (OperatorOwnedIn(section, key) && section in body.fields && body.fields[section].Obj? && key in body.fields[section].fields)
    ensures PatchOf(body, coerce) == None
  {
    hide PatchOf, OperatorOwned, OperatorOwnedIn;
    if PatchOf(body, coerce).Some? {
      AcceptedBodies(body, coerce);
    }
  }

  // -------------------------------------- what a PATCH keeps in the stored row

  function SectionModel(section: string): map<string, Field> {
    if section == "memory" then Memory() else Codebases()
  }

  predicate FieldIs(fields: map<string, Field>, key: string, f: Field) {
    key in fields && fields[key] == f
  }

  lemma TopLevelFields(side: Side, key: string)
    ensures OperatorOwned(key) ==> key in Tenant(side)
    ensures OperatorOwned("tenant_id") && FieldIs(Tenant(side), "tenant_id", Required(Text))
    ensures FieldIs(Tenant(side), "memory", Section(Memory()))
    ensures FieldIs(Tenant(side), "codebases", Section(Codebases()))
  {
    hide Section, Catalog, Byo, Memory, Heartbeat, CostCap, Persona, BotPolicy, ContextAssembly, Skill, Escalation,
      Codebases;
  }

  lemma SectionFields()
    ensures FieldIs(Memory(), "namespace", Optional(Text, Str("")))
    ensures FieldIs(Codebases(), "github_installation_id", Optional(Nullable(Text), Null))
  {
    hide Section, MemoryTriggers, MemoryExtraction, Binding;
  }

  lemma TenantFields(side: Side, section: string, key: string)
    ensures OperatorOwned(key) ==> key in Tenant(side)
    ensures OperatorOwnedIn(section, key) ==>
              FieldIs(Tenant(side), section, Section(SectionModel(section))) && key in SectionModel(section)
    ensures OperatorOwned("tenant_id") && FieldIs(Tenant(side), "tenant_id", Required(Text))
    ensures OperatorOwnedIn("memory", "namespace") && FieldIs(SectionModel("memory"), "namespace", Optional(Text, Str("")))
    ensures OperatorOwnedIn("codebases", "github_installation_id")
    ensures FieldIs(SectionModel("codebases"), "github_installation_id", Optional(Nullable(Text), Null))
  {
    TopLevelFields(side, key);
    SectionFields();
    hide Section, Tenant, Memory, Codebases, OperatorOwned;
  }

  /** What a top-level field of a stored configuration validates to by itself. */
  function TopSlot(side: Side, config: Document, key: string, coerce: Coerce): Slot {
    if key in Tenant(side) then SlotOf(Tenant(side)[key], config, key, false, coerce) else Bad
  }

  /** The same for a field of a patchable section. */
  function SectionSlot(section: string, doc: Document, key: string, coerce: Coerce): Slot {
    if key in SectionModel(section) then SlotOf(SectionModel(section)[key], doc, key, false, coerce) else Bad
  }

  /** What is stored of a section, when it is one. */
  function StoredSection(config: Document, section: string): Document {
    if section in config && config[section].Obj? then config[section].fields else map[]
  }

  predicate Holds(slot: Slot, entry: Option<Json>) {
    slot.Filled? && entry == Some(slot.value)
  }

  lemma SlotsByEntry(side: Side, doc: Document, other: Document, section: string, key: string, coerce: Coerce)
    requires Entry(doc, key) == Entry(other, key)
    ensures TopSlot(side, doc, key, coerce) == TopSlot(side, other, key, coerce)
    ensures SectionSlot(section, doc, key, coerce) == SectionSlot(section, other, key, coerce)
  {
    hide Tenant, SectionModel;
  }

  lemma CanonicalSlots(side: Side, config: Document, coerce: Coerce, key: string)
    requires Canonical(side, config, coerce).Some? && key in Tenant(side)
    ensures Holds(TopSlot(side, config, key, coerce), Entry(Canonical(side, config, coerce).value, key))
  {
    FieldsAreIndependent(Tenant(side), config, coerce, key);
    hide Tenant;
  }

  /** A field of a section: validated from what is stored, or its default when
      nothing is. */
  lemma SectionSlots(model: map<string, Field>, config: Document, section: string, key: string, coerce: Coerce)
    requires SlotOf(Section(model), config, section, false, coerce).Filled?
    requires key in model && Entry(Defaults(model).fields, key) == model[key].default && model[key].default.Some?
    ensures section in config ==> config[section].Obj?
    ensures var v := SlotOf(Section(model), config, section, false, coerce).value;
            v.Obj? && Holds(SlotOf(model[key], StoredSection(config, section), key, false, coerce), Entry(v.fields, key))
  {
    if section in config {
      FieldsAreIndependent(model, config[section].fields, coerce, key);
    }
  }

  /** The same in the canonical form of a configuration. */
  lemma CanonicalSectionSlots(side: Side, config: Document, coerce: Coerce, section: string, key: string)
    requires Canonical(side, config, coerce).Some? && OperatorOwnedIn(section, key)
    ensures section in config ==> config[section].Obj?
    ensures Holds(SectionSlot(section, StoredSection(config, section), key, coerce),
                  Entry(StoredSection(Canonical(side, config, coerce).value, section), key))
  {
    TenantFields(side, section, key);
    CanonicalSlots(side, config, coerce, section);
    SectionDefault(section, key);
    hide SectionModel, Tenant, Canonical, OperatorOwnedIn, SlotOf;
    SectionSlots(SectionModel(section), config, section, key, coerce);
    hide Section, Validate;
  }

  lemma SectionDefault(section: string, key: string)
    requires OperatorOwnedIn(section, key)
    ensures key in SectionModel(section) && SectionModel(section)[key].default.Some?
    ensures Entry(Defaults(SectionModel(section)).fields, key) == SectionModel(section)[key].default
  {
    TenantFields(Bridge, section, key);
    hide Memory, Codebases;
  }

  /** Whatever the stored row and the request: a PATCH stores, for a field that is
      the operator's, what that field's stored value alone validates to. */
  lemma PatchKeepsOperatorFields(config: Document, body: Json, coerce: Coerce, key: string)
    requires OperatorOwned(key) && PatchOf(body, coerce).Some?
    requires Canonical(Bridge, DeepMerge(config, PatchOf(body, coerce).value), coerce).Some?
    ensures Holds(TopSlot(Bridge, config, key, coerce),
                  Entry(Canonical(Bridge, DeepMerge(config, PatchOf(body, coerce).value), coerce).value, key))
  {
    var patch := PatchOf(body, coerce).value;
    PatchesCarryNoOperatorFields(body, coerce);
    TenantFields(Bridge, "memory", key);
    hide Tenant, OperatorOwned, OperatorOwnedIn, Canonical, PatchOf, DeepMerge, TopSlot;
    EntryOfMerge(config, patch, key);
    CanonicalSlots(Bridge, DeepMerge(config, patch), coerce, key);
    SlotsByEntry(Bridge, DeepMerge(config, patch), config, "", key, coerce);
  }

  lemma MergeKeepsUnnamed(config: Document, patch: Document, section: string, key: string)
    requires DeepMerges(section)
    requires section in patch ==> patch[section].Null? || (patch[section].Obj? && key !in patch[section].fields)
    requires section in DeepMerge(config, patch) ==> DeepMerge(config, patch)[section].Obj?
    ensures Entry(StoredSection(DeepMerge(config, patch), section), key) == Entry(StoredSection(config, section), key)
  {
    EntryOfMerge(config, patch, section);
    hide DeepMerge, DeepMerges;
  }

  /** The same for the operator's fields inside the patchable sections. */
  lemma PatchKeepsOperatorFieldsIn(config: Document, body: Json, coerce: Coerce, section: string, key: string)
    requires OperatorOwnedIn(section, key) && PatchOf(body, coerce).Some?
    requires Canonical(Bridge, DeepMerge(config, PatchOf(body, coerce).value), coerce).Some?
    ensures Holds(SectionSlot(section, StoredSection(config, section), key, coerce),
                  Entry(StoredSection(Canonical(Bridge, DeepMerge(config, PatchOf(body, coerce).value), coerce).value, section), key))
  {
    var patch := PatchOf(body, coerce).value;
    PatchesCarryNoOperatorFields(body, coerce);
    assert DeepMerges(section);
    hide OperatorOwnedIn, OperatorOwned, Canonical, PatchOf, DeepMerge, DeepMerges, SectionSlot, StoredSection, Holds;
    CanonicalSectionSlots(Bridge, DeepMerge(config, patch), coerce, section, key);
    MergeKeepsUnnamed(config, patch, section, key);
    SlotsByEntry(Bridge, StoredSection(DeepMerge(config, patch), section), StoredSection(config, section), section, key, coerce);
  }

  /** In particular they keep their canonical value when the stored row has one. */
  lemma CanonicalOperatorFieldsKept(config: Document, body: Json, coerce: Coerce)
    requires PatchOf(body, coerce).Some? && Canonical(Bridge, config, coerce).Some?
    requires Canonical(Bridge, DeepMerge(config, PatchOf(body, coerce).value), coerce).Some?
    ensures var was := Canonical(Bridge, config, coerce).value;
            var after := Canonical(Bridge, DeepMerge(config, PatchOf(body, coerce).value), coerce).value;
            && (forall key | OperatorOwned(key) :: Entry(after, key).Some? && Entry(after, key) == Entry(was, key))
            && (forall section, key | OperatorOwnedIn(section, key) ::
                 && Entry(StoredSection(after, section), key).Some?
                 && Entry(StoredSection(after, section), key) == Entry(StoredSection(was, section), key))
  {
    var was := Canonical(Bridge, config, coerce).value;
    var after := Canonical(Bridge, DeepMerge(config, PatchOf(body, coerce).value), coerce).value;
    forall key | OperatorOwned(key) ensures Entry(after, key).Some? && Entry(after, key) == Entry(was, key) {
      PatchKeepsOperatorFields(config, body, coerce, key);
      TenantFields(Bridge, "memory", key);
      CanonicalSlots(Bridge, config, coerce, key);
      hide OperatorOwned, Tenant, Canonical, PatchOf, DeepMerge, TopSlot;
    }
    hide OperatorOwned, OperatorOwnedIn, Tenant, SectionModel, Canonical, PatchOf, DeepMerge, SectionSlot,
      StoredSection;
    forall section, key | OperatorOwnedIn(section, key)
      ensures Entry(StoredSection(after, section), key).Some?
      ensures Entry(StoredSection(after, section), key) == Entry(StoredSection(was, section), key)
    {
      PatchKeepsOperatorFieldsIn(config, body, coerce, section, key);
      CanonicalSectionSlots(Bridge, config, coerce, section, key);
    }
  }
}
