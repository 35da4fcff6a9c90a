/** What a PATCH does: which bodies are accepted and what of them is stored
    (bridge/bridge/api.py and api_models.py). */
module TenantPatches {
  import opened Options
  import opened Schemas
  import opened TenantConfig
  import opened TenantModels
  import opened TenantCanonical

  // -------------------------------------------------------------- the body

  /** A body is accepted exactly if it is an object of entries that can be patched, each
      in the form its patch model asks for; the patch then has exactly the body's
      entries, as validated, explicit nulls among them. */
  lemma BodiesAccepted(body: Json, coerce: Coerce)
    ensures PatchOf(body, coerce).Some? <==> PatchAccepts(TenantPatch(), body, coerce)
    ensures PatchOf(body, coerce).Some? ==>
              var patch := PatchOf(body, coerce).value;
              && patch.Keys == body.fields.Keys
              && forall key | key in body.fields :: Validate(TenantPatch()[key].schema, body.fields[key], coerce) == Some(patch[key])
  {
    PatchIsWhatWasSent(TenantPatch(), body, coerce);
    hide TenantPatch, Validate;
  }

  /** The entries that can be patched. */
  lemma PatchableEntries(key: string)
    ensures key in TenantPatch() <==>
            || key == "model_id" || key == "system_prompt" || key == "catalog" || key == "memory" || key == "heartbeat"
            || key == "channels" || key == "bot_policy" || key == "context_assembly" || key == "skills"
            || key == "escalation" || key == "codebases"
  {
    hide Patch, CatalogPatch, MemoryPatch, HeartbeatPatch, BotPolicyPatch, ContextAssemblyPatch, EscalationPatch,
      CodebasesPatch, Persona, Skill, Maybe;
  }

  /** ... and inside the sections that have one. */
  lemma PatchableInSections(key: string)
    ensures key in CatalogPatch() <==> key == "allowed_tools" || key == "tool_config"
    ensures key in MemoryPatch() <==>
            key == "triggers" || key == "extraction" || key == "shared_across_channels" || key == "isolated_channels"
    ensures key in HeartbeatPatch() <==> key == "busy_threshold" || key == "max_background_seconds"
    ensures key in BotPolicyPatch() <==> key == "allow_all_bots" || key == "trusted_bot_ids" || key == "open_channels"
    ensures key in ContextAssemblyPatch() <==>
            || key == "resolve_permalinks" || key == "inject_thread_history"
            || key == "thread_history_depth" || key == "max_permalinks"
    ensures key in EscalationPatch() <==> key == "routes"
    ensures key in CodebasesPatch() <==> key == "enabled" || key == "default_repo" || key == "bindings" || key == "allow_learning"
  {
    hide Patch, MemoryTriggersPatch, MemoryExtractionPatch, Binding, Route, Maybe;
  }

  // ----------------------------------------------------------- the sections

  /** The sections a patch is merged into, entry by entry. */
  predicate MergedSection(key: string) {
    || key == "catalog" || key == "byo" || key == "memory" || key == "heartbeat" || key == "cost_cap"
    || key == "channels" || key == "bot_policy" || key == "context_assembly" || key == "escalation" || key == "codebases"
  }

  lemma MergedSections(key: string)
    ensures DeepMerges(key) <==> MergedSection(key)
  {
  }

  /** What one entry of a body makes of the stored one: laid over it where both are
      objects in a merged section, in its place otherwise. */
  function LaidOver(key: string, was: Option<Json>, given: Json): Json {
    if MergedSection(key) && given.Obj? && was.Some? && was.value.Obj? then Obj(was.value.fields + given.fields) else given
  }

  lemma SentEntry(body: Json, before: Document, after: Document, coerce: Coerce, key: string)
    requires Patches(body, before, after, coerce) && key in Tenant(Bridge) && body.Obj? && key in body.fields
    ensures key in TenantPatch()
    ensures var given := Validate(TenantPatch()[key].schema, body.fields[key], coerce);
            && given.Some? && Entry(after, key).Some?
            && Entry(after, key) == Validate(Tenant(Bridge)[key].schema, LaidOver(key, Entry(before, key), given.value), coerce)
  {
    hide Tenant, TenantPatch, Canonical, PatchOf, DeepMerge, DeepMerges, MergedSection, Validate;
    BodiesAccepted(body, coerce);
    var patch := PatchOf(body, coerce).value;
    CanonicalSlots(Bridge, DeepMerge(before, patch), coerce, key);
    EntryOfMerge(before, patch, key);
    MergedSections(key);
  }

  lemma UnsentEntry(body: Json, before: Document, after: Document, coerce: Coerce, key: string)
    requires Patches(body, before, after, coerce) && key in Tenant(Bridge)
    ensures body.Obj?
    ensures key !in body.fields ==> Holds(TopSlot(Bridge, before, key, coerce), Entry(after, key))
  {
    hide Tenant, TenantPatch, Canonical, PatchOf, DeepMerge, Validate, TopSlot, Holds;
    BodiesAccepted(body, coerce);
    var patch := PatchOf(body, coerce).value;
    CanonicalSlots(Bridge, DeepMerge(before, patch), coerce, key);
    EntryOfMerge(before, patch, key);
    if key !in body.fields {
      SlotsByEntry(Bridge, DeepMerge(before, patch), before, "", key, coerce);
    }
  }

  /** Top-level entries. Each one sent is stored as the model validates what it makes of
      the stored one; each other is stored as it validates by itself. */
  lemma PatchedEntry(body: Json, before: Document, after: Document, coerce: Coerce, key: string)
    requires Patches(body, before, after, coerce) && key in Tenant(Bridge)
    ensures body.Obj? && (key in body.fields ==> key in TenantPatch())
    ensures key in body.fields ==>
              var given := Validate(TenantPatch()[key].schema, body.fields[key], coerce);
              && given.Some? && Entry(after, key).Some?
              && Entry(after, key) == Validate(Tenant(Bridge)[key].schema, LaidOver(key, Entry(before, key), given.value), coerce)
    ensures key !in body.fields ==> Holds(TopSlot(Bridge, before, key, coerce), Entry(after, key))
  {
    hide *;
    UnsentEntry(body, before, after, coerce, key);
    if key in body.fields {
      SentEntry(body, before, after, coerce, key);
    }
  }

  /** The patchable sections with fields of their own: their patch and full models. */
  predicate HasFields(section: string) {
    || section == "catalog" || section == "memory" || section == "heartbeat" || section == "bot_policy"
    || section == "context_assembly" || section == "escalation" || section == "codebases"
  }

  function ModelOf(section: string): map<string, Field> {
    if section == "catalog" then Catalog()
    else if section == "memory" then Memory()
    else if section == "heartbeat" then Heartbeat()
    else if section == "bot_policy" then BotPolicy()
    else if section == "context_assembly" then ContextAssembly()
    else if section == "escalation" then Escalation()
    else Codebases()
  }

  function PatchModelOf(section: string): map<string, Field> {
    if section == "catalog" then CatalogPatch()
    else if section == "memory" then MemoryPatch()
    else if section == "heartbeat" then HeartbeatPatch()
    else if section == "bot_policy" then BotPolicyPatch()
    else if section == "context_assembly" then ContextAssemblyPatch()
    else if section == "escalation" then EscalationPatch()
    else CodebasesPatch()
  }

  lemma PatchModels(section: string)
    requires HasFields(section)
    ensures section in TenantPatch() && TenantPatch()[section] == Maybe(Patch(PatchModelOf(section)))
  {
    hide Maybe, Patch, CatalogPatch, MemoryPatch, HeartbeatPatch, BotPolicyPatch, ContextAssemblyPatch, EscalationPatch,
      CodebasesPatch, Persona, Skill;
  }

  lemma FullModels(section: string)
    requires HasFields(section)
    ensures section in Tenant(Bridge) && Tenant(Bridge)[section] == Section(ModelOf(section))
  {
    SectionsDeclared();
    hide Tenant, Section, Catalog, Memory, Heartbeat, BotPolicy, ContextAssembly, Escalation, Codebases;
  }

  /** Entries inside such a section, when the body has an object for it. Each one sent
      is stored as the model validates it; of the others those that were stored stay, as
      they validate, and the rest get their defaults. */
  lemma PatchedSection(body: Json, before: Document, after: Document, coerce: Coerce, section: string, key: string)
    requires Patches(body, before, after, coerce) && HasFields(section) && key in ModelOf(section)
    requires body.Obj? && section in body.fields && body.fields[section].Obj?
    ensures var sent, was, now := body.fields[section].fields, StoredSection(before, section), StoredSection(after, section);
            && (key in sent ==>
                  && key in PatchModelOf(section)
                  && var given := Validate(PatchModelOf(section)[key].schema, sent[key], coerce);
                  && given.Some? && Entry(now, key).Some?
                  && Entry(now, key) == Validate(ModelOf(section)[key].schema, given.value, coerce))
            && (key !in sent && key in was ==>
                  Entry(now, key).Some? && Entry(now, key) == Validate(ModelOf(section)[key].schema, was[key], coerce))
            && (key !in sent && key !in was ==> Entry(now, key) == ModelOf(section)[key].default)
  {
    hide Tenant, TenantPatch, ModelOf, PatchModelOf, MergedSection, HasFields, Patches, Validate;
    PatchModels(section);
    FullModels(section);
    FieldsAreMerged(section);
    PatchedEntry(body, before, after, coerce, section);
    NullableObject(PatchModelOf(section), body.fields[section], coerce);
    PatchIsWhatWasSent(PatchModelOf(section), body.fields[section], coerce);
    var given := Validate(Patch(PatchModelOf(section)), body.fields[section], coerce).value;
    var was := StoredSection(before, section);
    assert was + given.fields == if was == map[] then given.fields else was + given.fields;
    assert LaidOver(section, Entry(before, section), given) == Obj(was + given.fields);
    FilledOver(PatchModelOf(section), ModelOf(section), body.fields[section], was, coerce, key);
  }

  lemma FieldsAreMerged(section: string)
    requires HasFields(section)
    ensures MergedSection(section)
  {
  }

  /** A patch over a document, as the full model fills it in. */
  lemma FilledOver(patchModel: map<string, Field>, model: map<string, Field>, sent: Json, was: Document, coerce: Coerce, key: string)
    requires sent.Obj? && key in model && Validate(Patch(patchModel), sent, coerce).Some?
    requires Validate(Patch(patchModel), sent, coerce).value.Obj?
    requires Validate(Full(model), Obj(was + Validate(Patch(patchModel), sent, coerce).value.fields), coerce).Some?
    ensures var now := Validate(Full(model), Obj(was + Validate(Patch(patchModel), sent, coerce).value.fields), coerce).value;
            && now.Obj?
            && (key in sent.fields ==>
                  && key in patchModel
                  && var given := Validate(patchModel[key].schema, sent.fields[key], coerce);
                  && given.Some? && Entry(now.fields, key).Some?
                  && Entry(now.fields, key) == Validate(model[key].schema, given.value, coerce))
            && (key !in sent.fields && key in was ==>
                  Entry(now.fields, key).Some? && Entry(now.fields, key) == Validate(model[key].schema, was[key], coerce))
            && (key !in sent.fields && key !in was ==> Entry(now.fields, key) == model[key].default)
  {
    PatchIsWhatWasSent(patchModel, sent, coerce);
    FullIsFilledIn(model, Obj(was + Validate(Patch(patchModel), sent, coerce).value.fields), coerce);
    hide Validate;
  }

  lemma NullableObject(fields: map<string, Field>, body: Json, coerce: Coerce)
    requires body.Obj?
    ensures Validate(Nullable(Patch(fields)), body, coerce) == Validate(Patch(fields), body, coerce)
  {
  }

  // ---------------------------------------------------- texts as they are sent

  lemma TopTexts()
    ensures "model_id" in TenantPatch() && TenantPatch()["model_id"].schema == Nullable(Text)
    ensures "model_id" in Tenant(Bridge) && Tenant(Bridge)["model_id"].schema == Text
    ensures !MergedSection("model_id")
  {
    PlainFieldsDeclared();
    hide Tenant, Patch, CatalogPatch, MemoryPatch, HeartbeatPatch, BotPolicyPatch, ContextAssemblyPatch, EscalationPatch,
      CodebasesPatch, Persona, Skill;
  }

  lemma SectionTexts()
    ensures "default_repo" in CodebasesPatch() && CodebasesPatch()["default_repo"].schema == Nullable(Text)
    ensures "default_repo" in Codebases() && Codebases()["default_repo"].schema == Nullable(Text)
    ensures "github_installation_id" in Codebases() && "github_installation_id" !in CodebasesPatch()
  {
    hide Patch, Full, Binding;
  }

  /** A text that was sent is the text that is stored. */
  lemma SentTextIsStored(body: Json, before: Document, after: Document, coerce: Coerce, text: string)
    requires Patches(body, before, after, coerce)
    ensures body.Obj? && (Entry(body.fields, "model_id") == Some(Str(text)) ==> Entry(after, "model_id") == Some(Str(text)))
  {
    hide Tenant, TenantPatch, Patches, Validate, MergedSection, TopSlot;
    TopTexts();
    PatchedEntry(body, before, after, coerce, "model_id");
    TextsComeThrough(Str(text), coerce);
  }

  /** So it is inside a section, an explicit null included, and what the body does not
      name keeps its stored text. */
  lemma SentTextIsStoredIn(body: Json, before: Document, after: Document, coerce: Coerce, text: string)
    requires Patches(body, before, after, coerce)
    requires body.Obj? && "codebases" in body.fields && body.fields["codebases"].Obj?
    ensures var sent := body.fields["codebases"].fields;
            var was, now := StoredSection(before, "codebases"), StoredSection(after, "codebases");
            && (Entry(sent, "default_repo") == Some(Str(text)) ==> Entry(now, "default_repo") == Some(Str(text)))
            && (Entry(sent, "default_repo") == Some(Null) ==> Entry(now, "default_repo") == Some(Null))
            && ("default_repo" !in sent && Entry(was, "default_repo") == Some(Str(text)) ==>
                  Entry(now, "default_repo") == Some(Str(text)))
  {
    assert ModelOf("codebases") == Codebases() && PatchModelOf("codebases") == CodebasesPatch() && HasFields("codebases");
    hide Patches, Codebases, CodebasesPatch, StoredSection, Validate, ModelOf, PatchModelOf, HasFields;
    SectionTexts();
    PatchedSection(body, before, after, coerce, "codebases", "default_repo");
    TextsComeThrough(Str(text), coerce);
    TextsComeThrough(Null, coerce);
  }

  /** Such as here: a body with one text is accepted and carries that text. */
  lemma OneTextIsAccepted(text: string, coerce: Coerce)
    ensures PatchOf(Obj(map["model_id" := Str(text)]), coerce) == Some(map["model_id" := Str(text)])
  {
    hide TenantPatch, PatchOf, Validate;
    var body: Json := Obj(map["model_id" := Str(text)]);
    TopTexts();
    NothingRequired();
    BodiesAccepted(body, coerce);
    TextsComeThrough(Str(text), coerce);
    assert body.fields.Keys == {"model_id"};
    assert PatchOf(body, coerce).value == map["model_id" := Str(text)];
  }

  lemma NothingRequired()
    ensures forall key | key in TenantPatch() :: TenantPatch()[key].default.Some?
  {
    hide Patch, CatalogPatch, MemoryPatch, HeartbeatPatch, BotPolicyPatch, ContextAssemblyPatch, EscalationPatch, CodebasesPatch,
      Persona, Skill;
  }

  /** An explicit null is kept in the patch, and so refused where a text is needed. */
  lemma NullIsNotDropped(before: Document, coerce: Coerce)
    ensures PatchOf(Obj(map["model_id" := Null]), coerce) == Some(map["model_id" := Null])
    ensures forall after :: !Patches(Obj(map["model_id" := Null]), before, after, coerce)
  {
    var body: Json := Obj(map["model_id" := Null]);
    TopTexts();
    NothingRequired();
    BodiesAccepted(body, coerce);
    TextsComeThrough(Null, coerce);
    hide TenantPatch, PatchOf, Validate, Tenant, Patches;
    assert body.fields.Keys == {"model_id"};
    assert PatchOf(body, coerce).value == map["model_id" := Null];
    forall after ensures !Patches(body, before, after, coerce) {
      if Patches(body, before, after, coerce) {
        PatchedEntry(body, before, after, coerce, "model_id");
      }
    }
  }
}
