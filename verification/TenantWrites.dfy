/** What each writer stores of a tenant's configuration, given what it read
    (bridge/bridge/tenant_write.py, api.py, github_install.py and the agent's
    manage_config tool). */
module TenantWrites {
  import opened Options
  import opened Schemas
  import opened TenantConfig
  import opened TenantModels

  // ---------------------------------------------------------------- reading

  /** How other values than text print. */
  type Printer = Json -> string

  predicate Falsy(j: Json) {
    match j
    case Null => true
    case Bool(truth) => !truth
    case Num(number) => number == 0.0
    case Str(text) => text == ""
    case Arr(items) => items == []
    case Obj(fields) => fields == map[]
  }

  function Installation(config: Document): Json {
    var codebases := StoredSection(config, "codebases");
    if "github_installation_id" in codebases then codebases["github_installation_id"] else Null
  }

  /** The installation a configuration holds; empty when it holds none. */
  function InstallationText(config: Document, printer: Printer): string {
    var id := Installation(config);
    if Falsy(id) then "" else if id.Str? then id.text else printer(id)
  }

  /** Otherwise reading the installation raises. */
  predicate ReadsCleanly(config: Document) {
    "codebases" !in config || Falsy(config["codebases"]) || config["codebases"].Obj?
  }

  /** Such as here: a stored `codebases` that is a text. */
  lemma TextCodebasesRaise(text: string)
    requires text != ""
    ensures !ReadsCleanly(map["codebases" := Str(text)])
  {
    var config: Document := map["codebases" := Str(text)];
    assert config["codebases"] == Str(text);
  }

  predicate Names(config: Document, tenantId: string) {
    Entry(config, "tenant_id") == Some(Str(tenantId))
  }

  // ---------------------------------------------------------------- writers

  function OptionalText(o: Option<string>): Json {
    if o.Some? then Str(o.value) else Null
  }

  /** An approval. */
  function Approved(current: Document, installation: string): Document {
    DeepMerge(current, map["codebases" := Obj(map["github_installation_id" := Str(installation)])])
  }

  /** The warm start. */
  function WarmStarted(current: Document, installation: string, defaultRepo: Option<string>, bindings: seq<Json>): Document {
    DeepMerge(current, map["codebases" := Obj(map[
      "enabled" := Bool(true),
      "github_installation_id" := Str(installation),
      "default_repo" := OptionalText(defaultRepo),
      "bindings" := Arr(bindings)])])
  }

  /** The connections recorded so far; anything but a list makes a connector raise. */
  function Connections(current: Document): Option<seq<Json>> {
    if "byo" in current && !current["byo"].Obj? then None
    else
      match Entry(StoredSection(current, "byo"), "connected_integrations")
      case None => Some([])
      case Some(was) => if was.Arr? then Some(was.items) else None
  }

  function ConnectionPatch(current: Document, integration: string, gatewayUrl: string): Document
    requires Connections(current).Some?
  {
    var was := Connections(current).value;
    var connected := if Str(integration) in was then was else was + [Str(integration)];
    map["byo" := Obj(map[
      "enabled" := Bool(true),
      "gateway_endpoint" := Str(gatewayUrl),
      "gateway_auth" := Null,
      "connected_integrations" := Arr(connected)])]
  }

  /** A connector. */
  function Connected(current: Document, integration: string, gatewayUrl: string): Option<Document> {
    if Connections(current).None? then None
    else Some(DeepMerge(current, ConnectionPatch(current, integration, gatewayUrl)))
  }

  /** The agent's settings tool: one section of the loaded model is replaced. */
  function AgentSaved(current: Document, defaultPrompt: string, section: string, value: Json, coerce: Coerce): Option<Document> {
    var loaded := Canonical(Agent(defaultPrompt), current, coerce);
    if loaded.None? || !AgentWrites(section) then None else Some(loaded.value[section := value])
  }

  predicate AgentWrites(section: string) {
    section in {"skills", "bot_policy", "escalation", "context_assembly", "catalog", "channels", "system_prompt"}
  }

  const DEFAULT_CATALOG_TOOLS := [
    "echo", "start_background_task", "search_team_history", "read_thread_context", "post_to_channel",
    "escalate", "record_feedback", "ask_codebase_choice", "inspect_codebase_context", "code_search",
    "code_read_file", "code_find_symbol", "code_list_commits", "check_task_status", "render_dashboard"]

  function Texts(texts: seq<string>): Json {
    Arr(seq(|texts|, i requires 0 <= i < |texts| => Str(texts[i])))
  }

  function DefaultCatalog(): Json {
    Obj(map["allowed_tools" := Texts(DEFAULT_CATALOG_TOOLS), "tool_config" := NO_ENTRIES])
  }

  function DefaultExtraction(): Json {
    Obj(map["enabled" := Bool(true), "rules" := Texts(["user_preferences", "facts"])])
  }

  function DefaultTriggers(): Json {
    Obj(map["message_count" := Num(6.0), "token_count" := Num(1000.0), "idle_timeout_seconds" := Num(1800.0)])
  }

  function DefaultByo(): Json {
    Obj(map["enabled" := Bool(false),
            "gateway_endpoint" := Null,
            "gateway_auth" := Null,
            "connected_integrations" := NO_ITEMS])
  }

  function DefaultHeartbeat(): Json {
    Obj(map["busy_threshold" := Num(1.0), "max_background_seconds" := Num(3600.0)])
  }

  function DefaultCostCap(): Json {
    Obj(map["monthly_limit_dollars" := Num(50.0), "enabled" := Bool(true)])
  }

  function DefaultBotPolicy(): Json {
    Obj(map["allow_all_bots" := Bool(false), "trusted_bot_ids" := NO_ITEMS, "open_channels" := NO_ITEMS])
  }

  function DefaultContextAssembly(): Json {
    Obj(map["resolve_permalinks" := Bool(true),
            "inject_thread_history" := Bool(true),
            "thread_history_depth" := Num(25.0),
            "max_permalinks" := Num(3.0)])
  }

  function DefaultEscalation(): Json {
    Obj(map["routes" := NO_ITEMS])
  }

  function DefaultCodebases(): Json {
    Obj(map["enabled" := Bool(false),
            "github_installation_id" := Null,
            "default_repo" := Null,
            "bindings" := NO_ITEMS,
            "allow_learning" := Bool(true)])
  }

  function DefaultMemory(tenantId: string): Json {
    Obj(map["triggers" := DefaultTriggers(),
            "namespace" := Str("tenants/" + tenantId),
            "extraction" := DefaultExtraction(),
            "shared_across_channels" := Bool(false),
            "isolated_channels" := NO_ITEMS])
  }

  /** A new, or a reset, configuration. */
  function DefaultConfig(tenantId: string, prompt: string): Document {
    map["tenant_id" := Str(tenantId),
        "model_id" := Str("global.anthropic.claude-sonnet-4-6"),
        "system_prompt" := Str(prompt),
        "catalog" := DefaultCatalog(),
        "byo" := DefaultByo(),
        "memory" := DefaultMemory(tenantId),
        "heartbeat" := DefaultHeartbeat(),
        "cost_cap" := DefaultCostCap(),
        "channels" := NO_ENTRIES,
        "admin_user_ids" := NO_ITEMS,
        "bot_policy" := DefaultBotPolicy(),
        "context_assembly" := DefaultContextAssembly(),
        "skills" := NO_ITEMS,
        "escalation" := DefaultEscalation(),
        "codebases" := DefaultCodebases(),
        "is_internal_testenv" := Bool(false)]
  }

  // ----------------------------------------- what they keep and what they set

  lemma MergeKeepsOthers(current: Document, patch: Document, printer: Printer, tenantId: string)
    requires "tenant_id" !in patch
    ensures Names(DeepMerge(current, patch), tenantId) <==> Names(current, tenantId)
    ensures "codebases" !in patch ==> InstallationText(DeepMerge(current, patch), printer) == InstallationText(current, printer)
  {
    EntryOfMerge(current, patch, "tenant_id");
    EntryOfMerge(current, patch, "codebases");
    hide DeepMerge;
  }

  lemma MergeSetsInstallation(current: Document, patch: Document, printer: Printer, installation: string)
    requires "codebases" in patch && patch["codebases"].Obj?
    requires Entry(patch["codebases"].fields, "github_installation_id") == Some(Str(installation))
    ensures InstallationText(DeepMerge(current, patch), printer) == installation
  {
    EntryOfMerge(current, patch, "codebases");
    hide DeepMerge, DeepMerges;
  }

  /** Approvals and the warm start give the tenant the installation. */
  lemma InstallingWrites(current: Document, installation: string, defaultRepo: Option<string>, bindings: seq<Json>,
                         printer: Printer, tenantId: string)
    ensures InstallationText(Approved(current, installation), printer) == installation
    ensures InstallationText(WarmStarted(current, installation, defaultRepo, bindings), printer) == installation
    ensures Names(Approved(current, installation), tenantId) <==> Names(current, tenantId)
    ensures Names(WarmStarted(current, installation, defaultRepo, bindings), tenantId) <==> Names(current, tenantId)
  {
    hide DeepMerge, InstallationText, Names;
    var approval: Document := map["codebases" := Obj(map["github_installation_id" := Str(installation)])];
    MergeSetsInstallation(current, approval, printer, installation);
    MergeKeepsOthers(current, approval, printer, tenantId);
    var start: Document := map["codebases" := Obj(map[
      "enabled" := Bool(true),
      "github_installation_id" := Str(installation),
      "default_repo" := OptionalText(defaultRepo),
      "bindings" := Arr(bindings)])];
    MergeSetsInstallation(current, start, printer, installation);
    MergeKeepsOthers(current, start, printer, tenantId);
  }

  /** An approval sets the installation and keeps everything else. */
  lemma ApprovalKeepsOthers(current: Document, installation: string, key: string)
    ensures var after := Approved(current, installation);
            && (key != "codebases" ==> Entry(after, key) == Entry(current, key))
            && Entry(StoredSection(after, "codebases"), key) ==
               if key == "github_installation_id" then Some(Str(installation)) else Entry(StoredSection(current, "codebases"), key)
  {
    var patch: Document := map["codebases" := Obj(map["github_installation_id" := Str(installation)])];
    EntryOfMerge(current, patch, key);
    EntryOfMerge(current, patch, "codebases");
    assert DeepMerges("codebases");
    hide DeepMerge, DeepMerges;
  }

  predicate WarmStartSets(key: string) {
    key in {"enabled", "github_installation_id", "default_repo", "bindings"}
  }

  /** Of what is stored already the warm start keeps everything but four entries of
      `codebases`. A default repository that was set by hand survives if and only if
      it is the one chosen anyway. */
  lemma WarmStartKeepsExactly(current: Document, installation: string, defaultRepo: Option<string>, bindings: seq<Json>, key: string)
    ensures var after := WarmStarted(current, installation, defaultRepo, bindings);
            var was, now := StoredSection(current, "codebases"), StoredSection(after, "codebases");
            && (key != "codebases" ==> Entry(after, key) == Entry(current, key))
            && (!WarmStartSets(key) ==> Entry(now, key) == Entry(was, key))
            && Entry(now, "bindings") == Some(Arr(bindings)) && Entry(now, "enabled") == Some(Bool(true))
            && Entry(now, "default_repo") == Some(OptionalText(defaultRepo))
            && (Entry(now, "default_repo") == Entry(was, "default_repo") <==>
                  Entry(was, "default_repo") == Some(OptionalText(defaultRepo)))
  {
    hide OptionalText;
    var patch: Document := map["codebases" := Obj(map[
      "enabled" := Bool(true),
      "github_installation_id" := Str(installation),
      "default_repo" := OptionalText(defaultRepo),
      "bindings" := Arr(bindings)])];
    EntryOfMerge(current, patch, key);
    EntryOfMerge(current, patch, "codebases");
    assert DeepMerges("codebases");
    hide DeepMerge, DeepMerges;
  }

  /** Such as here it does not: the override `acme/site` gives way to `acme/app`. */
  lemma OverrideIsLost()
    ensures var current: Document := map["codebases" := Obj(map["default_repo" := Str("acme/site")])];
            var after := WarmStarted(current, "1", Some("acme/app"), []);
            Entry(StoredSection(current, "codebases"), "default_repo") == Some(Str("acme/site")) &&
            Entry(StoredSection(after, "codebases"), "default_repo") == Some(Str("acme/app"))
  {
    var current: Document := map["codebases" := Obj(map["default_repo" := Str("acme/site")])];
    hide WarmStarted;
    WarmStartKeepsExactly(current, "1", Some("acme/app"), [], "default_repo");
  }

  /** A connector turns the gateway on at its address, records its connection once,
      after the ones already there, drops any stored gateway credential and leaves
      everything else alone. */
  lemma ConnectingWrites(current: Document, integration: string, gatewayUrl: string, printer: Printer, tenantId: string)
    requires Connected(current, integration, gatewayUrl).Some?
    ensures var after := Connected(current, integration, gatewayUrl).value;
            var byo, byoAfter := StoredSection(current, "byo"), StoredSection(after, "byo");
            && InstallationText(after, printer) == InstallationText(current, printer)
            && (Names(after, tenantId) <==> Names(current, tenantId))
            && (forall key | key != "byo" :: Entry(after, key) == Entry(current, key))
            && Entry(byoAfter, "enabled") == Some(Bool(true)) && Entry(byoAfter, "gateway_endpoint") == Some(Str(gatewayUrl))
            && Entry(byoAfter, "gateway_auth") == Some(Null)
            && ListedOnce(Entry(byo, "connected_integrations"), Entry(byoAfter, "connected_integrations"), Str(integration))
            && (forall key | key !in {"enabled", "gateway_endpoint", "gateway_auth", "connected_integrations"} ::
                  Entry(byoAfter, key) == Entry(byo, key))
  {
    ConnectingKeepsOthers(current, integration, gatewayUrl, printer, tenantId);
    ConnectedSection(current, integration, gatewayUrl);
    hide *;
  }

  lemma ConnectingKeepsOthers(current: Document, integration: string, gatewayUrl: string, printer: Printer, tenantId: string)
    requires Connected(current, integration, gatewayUrl).Some?
    ensures var after := Connected(current, integration, gatewayUrl).value;
            && InstallationText(after, printer) == InstallationText(current, printer)
            && (Names(after, tenantId) <==> Names(current, tenantId))
            && (forall key | key != "byo" :: Entry(after, key) == Entry(current, key))
  {
    var patch := ConnectionPatch(current, integration, gatewayUrl);
    MergeKeepsOthers(current, patch, printer, tenantId);
    hide InstallationText, Names, DeepMerge;
    forall key ensures Entry(DeepMerge(current, patch), key) == Overlaid(current, patch, key) {
      EntryOfMerge(current, patch, key);
    }
  }

  lemma ConnectedSection(current: Document, integration: string, gatewayUrl: string)
    requires Connected(current, integration, gatewayUrl).Some?
    ensures var byo, byoAfter := StoredSection(current, "byo"), StoredSection(Connected(current, integration, gatewayUrl).value, "byo");
            && Entry(byoAfter, "enabled") == Some(Bool(true)) && Entry(byoAfter, "gateway_endpoint") == Some(Str(gatewayUrl))
            && Entry(byoAfter, "gateway_auth") == Some(Null)
            && ListedOnce(Entry(byo, "connected_integrations"), Entry(byoAfter, "connected_integrations"), Str(integration))
            && (forall key | key !in {"enabled", "gateway_endpoint", "gateway_auth", "connected_integrations"} ::
                  Entry(byoAfter, key) == Entry(byo, key))
  {
    EntryOfMerge(current, ConnectionPatch(current, integration, gatewayUrl), "byo");
    assert DeepMerges("byo");
    hide DeepMerge, DeepMerges;
  }

  /** The list after has what the list before had, in order, and the item behind it if it
      was not there; no list before is an empty one. */
  predicate ListedOnce(before: Option<Json>, after: Option<Json>, item: Json) {
    && (before.Some? ==> before.value.Arr?) && after.Some? && after.value.Arr?
    && var was := if before.Some? then before.value.items else [];
       after.value.items == if item in was then was else was + [item]
  }

  /** It fails exactly on a section that is no object or a list of connections that is
      none. */
  lemma ConnectsExactly(current: Document, integration: string, gatewayUrl: string)
    ensures Connected(current, integration, gatewayUrl).Some? <==>
            && ("byo" in current ==>
                  && current["byo"].Obj?
                  && ("connected_integrations" in current["byo"].fields ==> current["byo"].fields["connected_integrations"].Arr?))
  {
  }

  /** The two fields, as either side's model declares them. */
  function TenantSlot(config: Document, coerce: Coerce): Slot {
    SlotOf(Required(Text), config, "tenant_id", false, coerce)
  }

  function InstallationSlot(config: Document, coerce: Coerce): Slot {
    SlotOf(Optional(Nullable(Text), Null), StoredSection(config, "codebases"), "github_installation_id", false, coerce)
  }

  lemma KnownSlots(side: Side, config: Document, coerce: Coerce)
    ensures TopSlot(side, config, "tenant_id", coerce) == TenantSlot(config, coerce)
    ensures SectionSlot("codebases", StoredSection(config, "codebases"), "github_installation_id", coerce) ==
            InstallationSlot(config, coerce)
  {
    hide Tenant, SectionModel, StoredSection, OperatorOwned, OperatorOwnedIn;
    TenantFields(side, "codebases", "tenant_id");
  }

  /** A form that has these fields as they validate keeps the tenant and the
      installation. */
  lemma ReadsTheSame(config: Document, form: Document, coerce: Coerce, printer: Printer, tenantId: string)
    requires Holds(TenantSlot(config, coerce), Entry(form, "tenant_id"))
    requires Holds(InstallationSlot(config, coerce), Entry(StoredSection(form, "codebases"), "github_installation_id"))
    ensures Names(form, tenantId) <==> Names(config, tenantId)
    ensures InstallationText(form, printer) == InstallationText(config, printer)
  {
    hide StoredSection;
  }

  /** A PATCH keeps them whatever it carries. */
  lemma PatchingWrites(config: Document, body: Json, coerce: Coerce, printer: Printer, tenantId: string)
    requires PatchOf(body, coerce).Some?
    requires Canonical(Bridge, DeepMerge(config, PatchOf(body, coerce).value), coerce).Some?
    ensures var after := Canonical(Bridge, DeepMerge(config, PatchOf(body, coerce).value), coerce).value;
            && InstallationText(after, printer) == InstallationText(config, printer)
            && (Names(after, tenantId) <==> Names(config, tenantId))
  {
    TenantFields(Bridge, "codebases", "github_installation_id");
    hide Tenant, SectionModel, StoredSection, OperatorOwned, OperatorOwnedIn, TopSlot, SectionSlot, TenantSlot;
    hide InstallationSlot, Holds,
      Canonical, PatchOf, DeepMerge, InstallationText, Names;
    PatchKeepsOperatorFields(config, body, coerce, "tenant_id");
    PatchKeepsOperatorFieldsIn(config, body, coerce, "codebases", "github_installation_id");
    var after := Canonical(Bridge, DeepMerge(config, PatchOf(body, coerce).value), coerce).value;
    KnownSlots(Bridge, config, coerce);
    ReadsTheSame(config, after, coerce, printer, tenantId);
  }

  /** So does the agent's settings tool. */
  lemma AgentWritesKeep(current: Document, defaultPrompt: string, section: string, value: Json, coerce: Coerce,
                        printer: Printer, tenantId: string)
    requires AgentSaved(current, defaultPrompt, section, value, coerce).Some?
    ensures var after := AgentSaved(current, defaultPrompt, section, value, coerce).value;
            && InstallationText(after, printer) == InstallationText(current, printer)
            && (Names(after, tenantId) <==> Names(current, tenantId))
  {
    var side := Agent(defaultPrompt);
    var form := Canonical(side, current, coerce).value;
    SettingAnother(form, section, value, printer, tenantId);
    TenantFields(side, "codebases", "github_installation_id");
    hide Tenant, SectionModel, OperatorOwned, OperatorOwnedIn, TopSlot, SectionSlot, TenantSlot, InstallationSlot;
    hide Holds, Canonical, AgentWrites,
      Names, InstallationText, StoredSection;
    CanonicalSlots(side, current, coerce, "tenant_id");
    CanonicalSectionSlots(side, current, coerce, "codebases", "github_installation_id");
    KnownSlots(side, current, coerce);
    ReadsTheSame(current, form, coerce, printer, tenantId);
  }

  /** ... and sets its section, beside the canonical form of the rest; only seven
      sections can be set. */
  lemma AgentWritesSet(current: Document, defaultPrompt: string, section: string, value: Json, coerce: Coerce, key: string)
    ensures AgentSaved(current, defaultPrompt, section, value, coerce).Some? <==>
            && Canonical(Agent(defaultPrompt), current, coerce).Some?
            && (|| section == "skills" || section == "bot_policy" || section == "escalation" || section == "context_assembly"
                || section == "catalog" || section == "channels" || section == "system_prompt")
    ensures AgentSaved(current, defaultPrompt, section, value, coerce).Some? ==>
              Entry(AgentSaved(current, defaultPrompt, section, value, coerce).value, key) ==
              if key == section then Some(value) else Entry(Canonical(Agent(defaultPrompt), current, coerce).value, key)
  {
    hide Canonical;
  }

  lemma SettingAnother(config: Document, section: string, value: Json, printer: Printer, tenantId: string)
    requires AgentWrites(section)
    ensures InstallationText(config[section := value], printer) == InstallationText(config, printer)
    ensures Names(config[section := value], tenantId) <==> Names(config, tenantId)
  {
    assert section != "codebases" && section != "tenant_id";
    hide AgentWrites;
  }

  lemma DefaultsWrite(tenantId: string, prompt: string, printer: Printer)
    ensures InstallationText(DefaultConfig(tenantId, prompt), printer) == ""
    ensures Names(DefaultConfig(tenantId, prompt), tenantId)
  {
    hide DefaultByo, DefaultHeartbeat, DefaultCostCap, DefaultBotPolicy, DefaultContextAssembly, DefaultEscalation,
      DefaultMemory, DefaultCatalog;
  }
}
