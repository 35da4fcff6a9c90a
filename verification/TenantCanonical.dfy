/** The canonical form is a fixed point, so a PATCH is idempotent and the bridge's
    default configuration is what the API's model makes of it. */
module TenantCanonical {
  import opened Options
  import opened Schemas
  import opened TenantConfig
  import opened TenantModels
  import opened TenantWrites

  /** The scalar checks accept values of their own kind unchanged. */
  ghost predicate Accepting(coerce: Coerce) {
    && Settles(coerce)
    && (forall b :: coerce(BoolKind, Bool(b)) == Some(Bool(b)))
    && (forall r: real | r.Floor as real == r :: coerce(IntKind, Num(r)) == Some(Num(r)))
    && (forall r: real :: coerce(FloatKind, Num(r)) == Some(Num(r)))
  }

  ghost predicate AllFull(fields: map<string, Field>, coerce: Coerce) {
    forall key | key in fields :: FullField(fields[key], coerce)
  }

  // ------------------------------------------ the models accept their defaults

  lemma FieldsWithDefault(schema: Schema, coerce: Coerce)
    requires FullModel(schema, coerce)
    ensures FullField(Required(schema), coerce)
    ensures FullField(Optional(Nullable(schema), Null), coerce)
    ensures FullField(Optional(ListOf(schema), NO_ITEMS), coerce)
    ensures FullField(Optional(MapOf(schema), NO_ENTRIES), coerce)
  {
    assert Validate(ListOf(schema), NO_ITEMS, coerce).value.items == [];
    assert Validate(MapOf(schema), NO_ENTRIES, coerce).value.fields == map[];
  }

  /** Fields that are lists of texts, or may be null. */
  lemma PlainFields(coerce: Coerce)
    ensures FullField(Optional(TEXTS, NO_ITEMS), coerce)
    ensures FullField(Optional(Nullable(Text), Null), coerce) && FullField(Optional(Nullable(TEXTS), Null), coerce)
    ensures FullField(Optional(Nullable(MapOf(Anything)), Null), coerce)
    ensures FullField(Optional(MapOf(MapOf(Anything)), NO_ENTRIES), coerce)
  {
    FieldsWithDefault(Text, coerce);
    FieldsWithDefault(TEXTS, coerce);
    FieldsWithDefault(MapOf(Anything), coerce);
  }

  lemma FlagFields(coerce: Coerce)
    requires Accepting(coerce)
    ensures FullField(Optional(FLAG, Bool(true)), coerce) && FullField(Optional(FLAG, Bool(false)), coerce)
  {
  }

  lemma TextField(text: string, coerce: Coerce)
    ensures FullField(Optional(Text, Str(text)), coerce)
  {
  }

  lemma CountField(n: int, coerce: Coerce)
    requires Accepting(coerce)
    ensures FullField(Optional(COUNT, Num(n as real)), coerce)
  {
    assert (n as real).Floor as real == n as real;
  }

  /** A section all of whose fields have acceptable defaults. */
  lemma SectionIsFull(fields: map<string, Field>, coerce: Coerce)
    requires AllFull(fields, coerce) && forall key | key in fields :: fields[key].default.Some?
    ensures FullField(Section(fields), coerce)
  {
    var defaults := Defaults(fields).fields;
    forall key | key in fields ensures SlotOf(fields[key], defaults, key, false, coerce) == Filled(defaults[key]) {
      assert FullField(fields[key], coerce);
    }
    assert Validate(Full(fields), Obj(defaults), coerce).value.fields == defaults;
  }

  ghost predicate FullSection(fields: map<string, Field>, coerce: Coerce) {
    AllFull(fields, coerce) && forall key | key in fields :: fields[key].default.Some?
  }

  lemma CatalogIsFull(coerce: Coerce)
    requires Accepting(coerce)
    ensures FullField(Section(Catalog()), coerce)
  {
    PlainFields(coerce);
    assert FullSection(Catalog(), coerce) by {
      hide FullField, Accepting;
    }
    hide Catalog;
    SectionIsFull(Catalog(), coerce);
    hide *;
  }

  lemma ByoIsFull(coerce: Coerce)
    requires Accepting(coerce)
    ensures FullField(Section(Byo()), coerce)
  {
    PlainFields(coerce);
    FlagFields(coerce);
    assert FullSection(Byo(), coerce) by {
      hide FullField, Accepting;
    }
    hide Byo;
    SectionIsFull(Byo(), coerce);
    hide *;
  }

  lemma MemoryTriggersIsFull(coerce: Coerce)
    requires Accepting(coerce)
    ensures FullField(Section(MemoryTriggers()), coerce)
  {
    CountField(6, coerce);
    CountField(1000, coerce);
    CountField(1800, coerce);
    assert FullSection(MemoryTriggers(), coerce) by {
      hide FullField, Accepting;
    }
    hide MemoryTriggers;
    SectionIsFull(MemoryTriggers(), coerce);
    hide *;
  }

  lemma MemoryExtractionIsFull(coerce: Coerce)
    requires Accepting(coerce)
    ensures FullField(Section(MemoryExtraction()), coerce)
  {
    PlainFields(coerce);
    FlagFields(coerce);
    assert FullSection(MemoryExtraction(), coerce) by {
      hide FullField, Accepting;
    }
    hide MemoryExtraction;
    SectionIsFull(MemoryExtraction(), coerce);
    hide *;
  }

  lemma MemoryHasDefaults()
    ensures forall key | key in Memory() :: Memory()[key].default.Some?
  {
    hide Full, Defaults, MemoryTriggers, MemoryExtraction;
  }

  lemma MemoryIsFull(coerce: Coerce)
    requires Accepting(coerce)
    ensures FullField(Section(Memory()), coerce)
  {
    PlainFields(coerce);
    FlagFields(coerce);
    TextField("", coerce);
    MemoryTriggersIsFull(coerce);
    MemoryExtractionIsFull(coerce);
    assert AllFull(Memory(), coerce) by {
      hide FullField, Accepting, Section, Optional, MemoryTriggers, MemoryExtraction;
    }
    MemoryHasDefaults();
    hide Memory;
    SectionIsFull(Memory(), coerce);
    hide *;
  }

  lemma HeartbeatIsFull(coerce: Coerce)
    requires Accepting(coerce)
    ensures FullField(Section(Heartbeat()), coerce)
  {
    CountField(1, coerce);
    CountField(3600, coerce);
    assert FullSection(Heartbeat(), coerce) by {
      hide FullField, Accepting;
    }
    hide Heartbeat;
    SectionIsFull(Heartbeat(), coerce);
    hide *;
  }

  lemma CostCapIsFull(coerce: Coerce)
    requires Accepting(coerce)
    ensures FullField(Section(CostCap()), coerce)
  {
    FlagFields(coerce);
    assert FullField(Optional(Scalar(FloatKind), Num(50.0)), coerce);
    assert FullSection(CostCap(), coerce) by {
      hide FullField, Accepting;
    }
    hide CostCap;
    SectionIsFull(CostCap(), coerce);
    hide *;
  }

  lemma BotPolicyIsFull(coerce: Coerce)
    requires Accepting(coerce)
    ensures FullField(Section(BotPolicy()), coerce)
  {
    PlainFields(coerce);
    FlagFields(coerce);
    assert FullSection(BotPolicy(), coerce) by {
      hide FullField, Accepting;
    }
    hide BotPolicy;
    SectionIsFull(BotPolicy(), coerce);
    hide *;
  }

  lemma ContextAssemblyIsFull(coerce: Coerce)
    requires Accepting(coerce)
    ensures FullField(Section(ContextAssembly()), coerce)
  {
    FlagFields(coerce);
    CountField(25, coerce);
    CountField(3, coerce);
    assert FullSection(ContextAssembly(), coerce) by {
      hide FullField, Accepting;
    }
    hide ContextAssembly;
    SectionIsFull(ContextAssembly(), coerce);
    hide *;
  }

  /** The records kept in lists and maps. */
  lemma ItemsAreFull(coerce: Coerce)
    ensures FullField(Optional(ListOf(Full(Route())), NO_ITEMS), coerce)
    ensures FullField(Optional(ListOf(Full(Binding())), NO_ITEMS), coerce)
    ensures FullField(Optional(ListOf(Full(Skill(Text))), NO_ITEMS), coerce)
    ensures FullField(Optional(MapOf(Full(Persona())), NO_ENTRIES), coerce)
  {
    PlainFields(coerce);
    TextField("", coerce);
    TextField("main", coerce);
    FieldsWithDefault(Text, coerce);
    assert AllFull(Route(), coerce) && AllFull(Binding(), coerce) by { hide FullField; }
    assert AllFull(Skill(Text), coerce) by { hide FullField; }
    assert AllFull(Persona(), coerce) by { hide FullField; }
    hide Route, Binding, Skill, Persona;
    FieldsWithDefault(Full(Route()), coerce);
    FieldsWithDefault(Full(Binding()), coerce);
    FieldsWithDefault(Full(Skill(Text)), coerce);
    FieldsWithDefault(Full(Persona()), coerce);
  }

  lemma EscalationHasDefaults()
    ensures forall key | key in Escalation() :: Escalation()[key].default.Some?
  {
    hide Full, Route;
  }

  lemma EscalationIsFull(coerce: Coerce)
    requires Accepting(coerce)
    ensures FullField(Section(Escalation()), coerce)
  {
    ItemsAreFull(coerce);
    assert AllFull(Escalation(), coerce) by {
      hide FullField, Accepting, Optional, Full, Route;
    }
    EscalationHasDefaults();
    hide Escalation;
    SectionIsFull(Escalation(), coerce);
    hide *;
  }

  lemma CodebasesHasDefaults()
    ensures forall key | key in Codebases() :: Codebases()[key].default.Some?
  {
    hide Full, Binding;
  }

  lemma CodebasesIsFull(coerce: Coerce)
    requires Accepting(coerce)
    ensures FullField(Section(Codebases()), coerce)
  {
    PlainFields(coerce);
    FlagFields(coerce);
    ItemsAreFull(coerce);
    assert AllFull(Codebases(), coerce) by {
      hide FullField, Accepting, Optional, Full, Binding;
    }
    CodebasesHasDefaults();
    hide Codebases;
    SectionIsFull(Codebases(), coerce);
    hide *;
  }

  /** The model as a whole accepts its own defaults. */
  lemma ModelIsFull(coerce: Coerce)
    requires Accepting(coerce)
    ensures AllFull(Tenant(Bridge), coerce)
  {
    hide FullField, Accepting, Optional, Required, Section, Full, Catalog, Byo, Memory, Heartbeat, CostCap,
      BotPolicy, ContextAssembly, Escalation, Codebases, Persona, Skill;
    RequiredTexts(coerce);
    PlainFields(coerce);
    FlagFields(coerce);
    TextField("global.anthropic.claude-sonnet-4-6", coerce);
    TextField(FALLBACK_PROMPT, coerce);
    ItemsAreFull(coerce);
    CatalogIsFull(coerce);
    ByoIsFull(coerce);
    MemoryIsFull(coerce);
    HeartbeatIsFull(coerce);
    CostCapIsFull(coerce);
    BotPolicyIsFull(coerce);
    ContextAssemblyIsFull(coerce);
    EscalationIsFull(coerce);
    CodebasesIsFull(coerce);
  }

  lemma RequiredTexts(coerce: Coerce)
    ensures FullField(Required(Text), coerce)
  {
  }

  /** The canonical form of a canonical form is itself. */
  lemma CanonicalIsFixed(config: Document, coerce: Coerce)
    requires Accepting(coerce) && Canonical(Bridge, config, coerce).Some?
    ensures Canonical(Bridge, Canonical(Bridge, config, coerce).value, coerce) == Canonical(Bridge, config, coerce)
  {
    ModelIsFull(coerce);
    hide Tenant, FullField;
    ValidatedIsFixed(Full(Tenant(Bridge)), Obj(config), coerce);
    hide Validate;
  }

  // ------------------------------------------------------------ PATCH twice

  /** The sections that merge are records or maps in the model. */
  predicate Overlays(schema: Schema) {
    schema.MapOf? || (schema.Record? && !schema.patch)
  }

  lemma MergingFields(key: string)
    requires DeepMerges(key)
    ensures key in Tenant(Bridge)
    ensures Tenant(Bridge)[key] in {
              Section(Catalog()), Section(Byo()), Section(Memory()), Section(Heartbeat()), Section(CostCap()), Section(BotPolicy()),
              Section(ContextAssembly()), Section(Escalation()), Section(Codebases()), Optional(MapOf(Full(Persona())), NO_ENTRIES) }
  {
    hide Section, Optional, Required, Full, Catalog, Byo, Memory, Heartbeat, CostCap, Persona, BotPolicy,
      ContextAssembly, Skill, Escalation, Codebases;
  }

  lemma MergingFieldsOverlay(key: string)
    requires DeepMerges(key)
    ensures key in Tenant(Bridge) && Overlays(Tenant(Bridge)[key].schema)
  {
    MergingFields(key);
    hide Tenant, DeepMerges, Catalog, Byo, Memory, Heartbeat, CostCap, Persona, BotPolicy, ContextAssembly, Skill,
      Escalation, Codebases, Defaults;
  }

  /** Laying the same entries over the validated section again changes nothing. */
  lemma OverlayIsFixed(schema: Schema, merged: Document, patch: Document, valid: Document, coerce: Coerce)
    requires Settles(coerce) && FullModel(schema, coerce) && Overlays(schema)
    requires Validate(schema, Obj(merged), coerce) == Some(Obj(valid))
    requires forall key | key in patch :: Entry(merged, key) == Some(patch[key])
    ensures Validate(schema, Obj(valid + patch), coerce) == Some(Obj(valid))
  {
    ValidatedIsFixed(schema, Obj(merged), coerce);
    hide FullModel, Settles;
    if schema.MapOf? {
      MapOverlay(schema.value, merged, patch, valid, coerce);
    } else {
      RecordOverlay(schema.fields, merged, patch, valid, coerce);
    }
    hide Validate;
  }

  lemma MapEntries(value: Schema, doc: Document, valid: Document, coerce: Coerce)
    requires Validate(MapOf(value), Obj(doc), coerce) == Some(Obj(valid))
    ensures valid.Keys == doc.Keys && forall key | key in doc :: Validate(value, doc[key], coerce) == Some(valid[key])
  {
  }

  lemma MapOverlay(value: Schema, merged: Document, patch: Document, valid: Document, coerce: Coerce)
    requires Validate(MapOf(value), Obj(merged), coerce) == Some(Obj(valid))
    requires Validate(MapOf(value), Obj(valid), coerce) == Some(Obj(valid))
    requires forall key | key in patch :: Entry(merged, key) == Some(patch[key])
    ensures Validate(MapOf(value), Obj(valid + patch), coerce) == Some(Obj(valid))
  {
    hide Validate;
    MapEntries(value, merged, valid, coerce);
    MapEntries(value, valid, valid, coerce);
    var again := valid + patch;
    forall key | key in again ensures key in valid && Validate(value, again[key], coerce) == Some(valid[key]) {
      assert key in patch ==> Entry(merged, key) == Some(patch[key]);
    }
    assert again.Keys == valid.Keys;
    EntriesMakeTheMap(value, valid, again, coerce);
  }

  lemma EntriesMakeTheMap(value: Schema, valid: Document, again: Document, coerce: Coerce)
    requires valid.Keys == again.Keys
    requires forall key | key in again :: Validate(value, again[key], coerce) == Some(valid[key])
    ensures Validate(MapOf(value), Obj(again), coerce) == Some(Obj(valid))
  {
    assert Validate(MapOf(value), Obj(again), coerce).value.fields == valid;
  }

  lemma RecordOverlay(fields: map<string, Field>, merged: Document, patch: Document, valid: Document, coerce: Coerce)
    requires Validate(Full(fields), Obj(merged), coerce) == Some(Obj(valid))
    requires Validate(Full(fields), Obj(valid), coerce) == Some(Obj(valid))
    requires forall key | key in patch :: Entry(merged, key) == Some(patch[key])
    ensures Validate(Full(fields), Obj(valid + patch), coerce) == Some(Obj(valid))
  {
    var again := valid + patch;
    forall key | key in fields ensures SlotOf(fields[key], again, key, false, coerce) == Filled(valid[key]) {
      FieldsAreIndependent(fields, merged, coerce, key);
      FieldsAreIndependent(fields, valid, coerce, key);
      if key in patch {
        assert Entry(merged, key) == Entry(again, key);
      } else {
        assert Entry(valid, key) == Entry(again, key);
      }
      SlotDepends(fields[key], merged, again, key, coerce);
      SlotDepends(fields[key], valid, again, key, coerce);
    }
    SameFields(fields, merged, valid, coerce);
    FieldsMakeTheRecord(fields, valid, again, coerce);
  }

  lemma SlotDepends(f: Field, doc: Document, other: Document, key: string, coerce: Coerce)
    ensures Entry(doc, key) == Entry(other, key) ==> SlotOf(f, doc, key, false, coerce) == SlotOf(f, other, key, false, coerce)
  {
  }

  lemma SameFields(fields: map<string, Field>, doc: Document, valid: Document, coerce: Coerce)
    requires Validate(Full(fields), Obj(doc), coerce) == Some(Obj(valid))
    ensures valid.Keys == fields.Keys
  {
    forall key ensures key in valid <==> key in fields {
      if key in fields {
        FieldsAreIndependent(fields, doc, coerce, key);
      }
    }
  }

  lemma FieldsMakeTheRecord(fields: map<string, Field>, valid: Document, again: Document, coerce: Coerce)
    requires valid.Keys == fields.Keys
    requires forall key | key in fields :: SlotOf(fields[key], again, key, false, coerce) == Filled(valid[key])
    ensures Validate(Full(fields), Obj(again), coerce) == Some(Obj(valid))
  {
    assert Validate(Full(fields), Obj(again), coerce).value.fields == valid;
  }

  /** The value a PATCH stores for one field, patched again. */
  lemma FieldTwice(f: Field, key: string, was: Option<Json>, given: Json, valid: Json, coerce: Coerce)
    requires Settles(coerce) && FullModel(f.schema, coerce)
    requires DeepMerges(key) ==> Overlays(f.schema)
    requires Validate(f.schema, MergedEntry(key, was, given), coerce) == Some(valid)
    ensures Validate(f.schema, MergedEntry(key, Some(valid), given), coerce) == Some(valid)
  {
    hide DeepMerges;
    if DeepMerges(key) && MergesInto(Some(valid), given) {
      var merged := MergedEntry(key, was, given);
      assert merged.Obj? by {
        assert given.Obj?;
      }
      OverlayIsFixed(f.schema, merged.fields, given.fields, valid.fields, coerce);
    } else if DeepMerges(key) && given.Obj? {
      OverlaysGiveObjects(f.schema, MergedEntry(key, was, given), coerce);
      assert false;
    }
  }

  lemma OverlaysGiveObjects(schema: Schema, j: Json, coerce: Coerce)
    requires Overlays(schema) && Validate(schema, j, coerce).Some?
    ensures Validate(schema, j, coerce).value.Obj?
  {
  }

  lemma EntryTwice(f: Field, key: string, config: Document, patch: Document, once: Document, coerce: Coerce)
    requires Settles(coerce) && FullField(f, coerce) && (DeepMerges(key) ==> Overlays(f.schema))
    requires key in once
    requires SlotOf(f, DeepMerge(config, patch), key, false, coerce) == Filled(once[key])
    requires SlotOf(f, once, key, false, coerce) == Filled(once[key])
    ensures SlotOf(f, DeepMerge(once, patch), key, false, coerce) == Filled(once[key])
  {
    EntryOfMerge(config, patch, key);
    EntryOfMerge(once, patch, key);
    if key in patch {
      hide DeepMerge, DeepMerges, MergedEntry, Overlays, Settles, FullModel;
      FieldTwice(f, key, Entry(config, key), patch[key], once[key], coerce);
    } else {
      hide DeepMerge;
      SlotDepends(f, once, DeepMerge(once, patch), key, coerce);
    }
  }

  lemma SlotTwice(config: Document, patch: Document, once: Document, key: string, coerce: Coerce)
    requires Accepting(coerce) && key in Tenant(Bridge)
    requires Validate(Full(Tenant(Bridge)), Obj(DeepMerge(config, patch)), coerce) == Some(Obj(once))
    ensures key in once && SlotOf(Tenant(Bridge)[key], DeepMerge(once, patch), key, false, coerce) == Filled(once[key])
  {
    hide Tenant, Validate, SlotOf, DeepMerge, DeepMerges, FullField, Overlays;
    ModelIsFull(coerce);
    ValidatedIsFixed(Full(Tenant(Bridge)), Obj(DeepMerge(config, patch)), coerce);
    FieldsAreIndependent(Tenant(Bridge), DeepMerge(config, patch), coerce, key);
    FieldsAreIndependent(Tenant(Bridge), once, coerce, key);
    if DeepMerges(key) {
      MergingFieldsOverlay(key);
    }
    EntryTwice(Tenant(Bridge)[key], key, config, patch, once, coerce);
  }

  /** Sending the same PATCH again changes nothing: what the first stored, the second
      stores. */
  lemma PatchIsIdempotent(config: Document, patch: Document, coerce: Coerce)
    requires Accepting(coerce) && Canonical(Bridge, DeepMerge(config, patch), coerce).Some?
    ensures var once := Canonical(Bridge, DeepMerge(config, patch), coerce).value;
            Canonical(Bridge, DeepMerge(once, patch), coerce) == Some(once)
  {
    hide Tenant, Validate, SlotOf, DeepMerge, Accepting;
    var once := Canonical(Bridge, DeepMerge(config, patch), coerce).value;
    forall key | key in Tenant(Bridge)
      ensures key in once && SlotOf(Tenant(Bridge)[key], DeepMerge(once, patch), key, false, coerce) == Filled(once[key]) {
      SlotTwice(config, patch, once, key, coerce);
    }
    SameFields(Tenant(Bridge), DeepMerge(config, patch), once, coerce);
    FieldsMakeTheRecord(Tenant(Bridge), once, DeepMerge(once, patch), coerce);
  }

  // ------------------------------------------------- the default is canonical

  lemma Listed(texts: seq<string>, coerce: Coerce)
    ensures Validate(TEXTS, Texts(texts), coerce) == Some(Texts(texts))
  {
    assert Validate(TEXTS, Texts(texts), coerce).value.items == Texts(texts).items;
  }

  /** Two sections with the same keys and, key by key, the model's default. */
  lemma SameSection(values: Document, fields: map<string, Field>)
    requires values.Keys == fields.Keys && forall key | key in fields :: fields[key].default == Some(values[key])
    ensures Obj(values) == Defaults(fields)
  {
    assert values == Defaults(fields).fields;
  }

  lemma ByoInStep()
    ensures DefaultByo() == Defaults(Byo())
  {
    SameSection(DefaultByo().fields, Byo());
    hide Defaults;
  }

  lemma MemoryTriggersInStep()
    ensures DefaultTriggers() == Defaults(MemoryTriggers())
  {
    SameSection(DefaultTriggers().fields, MemoryTriggers());
    hide Defaults;
  }

  lemma HeartbeatInStep()
    ensures DefaultHeartbeat() == Defaults(Heartbeat())
  {
    SameSection(DefaultHeartbeat().fields, Heartbeat());
    hide Defaults;
  }

  lemma CostCapInStep()
    ensures DefaultCostCap() == Defaults(CostCap())
  {
    SameSection(DefaultCostCap().fields, CostCap());
    hide Defaults;
  }

  lemma BotPolicyInStep()
    ensures DefaultBotPolicy() == Defaults(BotPolicy())
  {
    SameSection(DefaultBotPolicy().fields, BotPolicy());
    hide Defaults;
  }

  lemma ContextAssemblyInStep()
    ensures DefaultContextAssembly() == Defaults(ContextAssembly())
  {
    SameSection(DefaultContextAssembly().fields, ContextAssembly());
    hide Defaults;
  }

  lemma EscalationInStep()
    ensures DefaultEscalation() == Defaults(Escalation())
  {
    hide Full, Route;
    SameSection(DefaultEscalation().fields, Escalation());
    hide Defaults;
  }

  lemma CodebasesInStep()
    ensures DefaultCodebases() == Defaults(Codebases())
  {
    hide Full, Binding;
    SameSection(DefaultCodebases().fields, Codebases());
    hide Defaults;
  }

  /** These sections of a new tenant's configuration are spelled out as what the API's
      model fills in where a section is missing. */
  lemma DefaultsAreInStep()
    ensures DefaultByo() == Defaults(Byo())
    ensures DefaultTriggers() == Defaults(MemoryTriggers())
    ensures DefaultHeartbeat() == Defaults(Heartbeat())
    ensures DefaultCostCap() == Defaults(CostCap())
    ensures DefaultBotPolicy() == Defaults(BotPolicy())
    ensures DefaultContextAssembly() == Defaults(ContextAssembly())
    ensures DefaultEscalation() == Defaults(Escalation())
    ensures DefaultCodebases() == Defaults(Codebases())
  {
    hide DefaultByo, DefaultTriggers, DefaultHeartbeat, DefaultCostCap;
    hide DefaultBotPolicy, DefaultContextAssembly, DefaultEscalation, DefaultCodebases;
    hide Defaults;
    ByoInStep();
    MemoryTriggersInStep();
    HeartbeatInStep();
    CostCapInStep();
    BotPolicyInStep();
    ContextAssemblyInStep();
    EscalationInStep();
    CodebasesInStep();
  }

  /** What the model fills in for a missing field is what the bridge spells out. */
  predicate SameDefault(fields: map<string, Field>, values: Document, key: string) {
    key in fields && key in values && fields[key].default == Some(values[key])
  }

  lemma MemoryDiffers(tenantId: string, key: string)
    requires key in Memory()
    ensures SameDefault(Memory(), DefaultMemory(tenantId).fields, key) <==> key !in {"namespace", "extraction"}
  {
    MemoryTriggersInStep();
    assert Defaults(MemoryExtraction()) != DefaultExtraction() by {
      ExtractionDiffers("rules");
    }
    assert |"tenants/" + tenantId| > 0;
    hide DefaultTriggers, MemoryTriggers, Defaults, DefaultExtraction, MemoryExtraction, Full;
  }

  lemma ExtractionDiffers(key: string)
    requires key in MemoryExtraction()
    ensures SameDefault(MemoryExtraction(), DefaultExtraction().fields, key) <==> key != "rules"
    ensures Entry(Defaults(MemoryExtraction()).fields, key) == MemoryExtraction()[key].default
  {
    assert |Texts(["user_preferences", "facts"]).items| == 2;
  }

  lemma CatalogDiffers(key: string)
    requires key in Catalog()
    ensures SameDefault(Catalog(), DefaultCatalog().fields, key) <==> key != "allowed_tools"
    ensures Defaults(Catalog()) != DefaultCatalog()
  {
    assert |Texts(DEFAULT_CATALOG_TOOLS).items| == |DEFAULT_CATALOG_TOOLS|;
    assert Defaults(Catalog()).fields["allowed_tools"] == NO_ITEMS;
  }

  predicate Stays(f: Field, j: Json, coerce: Coerce) {
    Validate(f.schema, j, coerce) == Some(j)
  }

  lemma DefaultStays(f: Field, coerce: Coerce)
    requires FullField(f, coerce) && f.default.Some?
    ensures Stays(f, f.default.value, coerce)
  {
  }

  lemma SectionStays(fields: map<string, Field>, values: Document, coerce: Coerce)
    requires values.Keys == fields.Keys && forall key | key in fields :: Stays(fields[key], values[key], coerce)
    ensures Stays(Section(fields), Obj(values), coerce)
  {
    FieldsMakeTheRecord(fields, values, values, coerce);
  }

  lemma CatalogStays(coerce: Coerce)
    requires Accepting(coerce)
    ensures Stays(Section(Catalog()), DefaultCatalog(), coerce)
  {
    PlainFields(coerce);
    Listed(DEFAULT_CATALOG_TOOLS, coerce);
    hide Texts;
    SectionStays(Catalog(), DefaultCatalog().fields, coerce);
  }

  lemma ExtractionStays(coerce: Coerce)
    requires Accepting(coerce)
    ensures Stays(Section(MemoryExtraction()), DefaultExtraction(), coerce)
  {
    Listed(["user_preferences", "facts"], coerce);
    hide Texts;
    SectionStays(MemoryExtraction(), DefaultExtraction().fields, coerce);
  }

  lemma MemoryStays(tenantId: string, coerce: Coerce)
    requires Accepting(coerce)
    ensures Stays(Section(Memory()), DefaultMemory(tenantId), coerce)
  {
    hide MemoryTriggers, MemoryExtraction, DefaultTriggers, DefaultExtraction, Defaults, Full;
    ExtractionStays(coerce);
    TriggersStay(coerce);
    PlainFields(coerce);
    SectionStays(Memory(), DefaultMemory(tenantId).fields, coerce);
  }

  lemma TriggersStay(coerce: Coerce)
    requires Accepting(coerce)
    ensures Stays(Section(MemoryTriggers()), DefaultTriggers(), coerce)
  {
    hide MemoryTriggers, DefaultTriggers, Defaults, Accepting;
    MemoryTriggersIsFull(coerce);
    MemoryTriggersInStep();
    DefaultStays(Section(MemoryTriggers()), coerce);
  }

  lemma TextsStay(text: string, coerce: Coerce)
    requires Accepting(coerce)
    ensures Stays(Required(Text), Str(text), coerce)
    ensures Stays(Optional(Text, Str("global.anthropic.claude-sonnet-4-6")), Str("global.anthropic.claude-sonnet-4-6"), coerce)
    ensures Stays(Optional(Text, Str(FALLBACK_PROMPT)), Str(text), coerce)
    ensures Stays(Optional(TEXTS, NO_ITEMS), NO_ITEMS, coerce)
    ensures Stays(Optional(FLAG, Bool(false)), Bool(false), coerce)
  {
    PlainFields(coerce);
  }

  lemma ItemsStay(coerce: Coerce)
    ensures Stays(Optional(ListOf(Full(Skill(Text))), NO_ITEMS), NO_ITEMS, coerce)
    ensures Stays(Optional(MapOf(Full(Persona())), NO_ENTRIES), NO_ENTRIES, coerce)
  {
    ItemsAreFull(coerce);
    hide Skill, Persona, FullModel;
  }

  lemma DefaultSectionsStay(coerce: Coerce)
    requires Accepting(coerce)
    ensures Stays(Section(Byo()), DefaultByo(), coerce) && Stays(Section(Heartbeat()), DefaultHeartbeat(), coerce)
    ensures Stays(Section(CostCap()), DefaultCostCap(), coerce) && Stays(Section(BotPolicy()), DefaultBotPolicy(), coerce)
    ensures Stays(Section(ContextAssembly()), DefaultContextAssembly(), coerce)
    ensures Stays(Section(Escalation()), DefaultEscalation(), coerce) && Stays(Section(Codebases()), DefaultCodebases(), coerce)
  {
    DefaultsAreInStep();
    hide Byo, Heartbeat, CostCap, BotPolicy, ContextAssembly, Escalation, Codebases, Defaults, Stays, FullField,
      Accepting, DefaultByo, DefaultTriggers, DefaultHeartbeat, DefaultCostCap, DefaultBotPolicy,
      DefaultContextAssembly, DefaultEscalation, DefaultCodebases;
    ByoIsFull(coerce);
    DefaultStays(Section(Byo()), coerce);
    HeartbeatIsFull(coerce);
    DefaultStays(Section(Heartbeat()), coerce);
    CostCapIsFull(coerce);
    DefaultStays(Section(CostCap()), coerce);
    BotPolicyIsFull(coerce);
    DefaultStays(Section(BotPolicy()), coerce);
    ContextAssemblyIsFull(coerce);
    DefaultStays(Section(ContextAssembly()), coerce);
    EscalationIsFull(coerce);
    DefaultStays(Section(Escalation()), coerce);
    CodebasesIsFull(coerce);
    DefaultStays(Section(Codebases()), coerce);
  }

  predicate IsField(key: string) {
    || key == "tenant_id" || key == "model_id" || key == "system_prompt" || key == "admin_user_ids"
    || key == "is_internal_testenv" || key == "catalog" || key == "memory" || key == "channels" || key == "skills"
    || key == "byo" || key == "heartbeat" || key == "cost_cap" || key == "bot_policy" || key == "context_assembly"
    || key == "escalation" || key == "codebases"
  }

  lemma OnlyFields(key: string, tenantId: string, prompt: string)
    ensures key in Tenant(Bridge) || key in DefaultConfig(tenantId, prompt) ==> IsField(key)
  {
    hide Section, Optional, Required, Full, Defaults, Catalog, Byo, Memory, Heartbeat, CostCap, BotPolicy;
    hide ContextAssembly, Escalation, Codebases, Persona, Skill, DefaultMemory, DefaultCatalog, DefaultByo,
      DefaultHeartbeat, DefaultCostCap, DefaultBotPolicy, DefaultContextAssembly, DefaultEscalation, DefaultCodebases;
  }

  /** An entry of the model beside the bridge's value for it. */
  predicate Entries(tenantId: string, prompt: string, key: string, f: Field, value: Json) {
    DeclaredAs(key, f) && WrittenAs(tenantId, prompt, key, value)
  }

  predicate DeclaredAs(key: string, f: Field) {
    key in Tenant(Bridge) && Tenant(Bridge)[key] == f
  }

  predicate WrittenAs(tenantId: string, prompt: string, key: string, value: Json) {
    key in DefaultConfig(tenantId, prompt) && DefaultConfig(tenantId, prompt)[key] == value
  }

  lemma PlainFieldsDeclared()
    ensures DeclaredAs("tenant_id", Required(Text))
    ensures DeclaredAs("model_id", Optional(Text, Str("global.anthropic.claude-sonnet-4-6")))
    ensures DeclaredAs("system_prompt", Optional(Text, Str(FALLBACK_PROMPT)))
    ensures DeclaredAs("channels", Optional(MapOf(Full(Persona())), NO_ENTRIES))
    ensures DeclaredAs("admin_user_ids", Optional(TEXTS, NO_ITEMS))
    ensures DeclaredAs("skills", Optional(ListOf(Full(Skill(Text))), NO_ITEMS))
    ensures DeclaredAs("is_internal_testenv", Optional(FLAG, Bool(false)))
  {
    hide Section, Optional, Required, Full, Defaults, Catalog, Byo, Memory, Heartbeat, CostCap, BotPolicy;
    hide ContextAssembly, Escalation, Codebases, Persona, Skill;
  }

  lemma SectionsDeclared()
    ensures DeclaredAs("catalog", Section(Catalog())) && DeclaredAs("byo", Section(Byo()))
    ensures DeclaredAs("memory", Section(Memory())) && DeclaredAs("heartbeat", Section(Heartbeat()))
    ensures DeclaredAs("cost_cap", Section(CostCap())) && DeclaredAs("bot_policy", Section(BotPolicy()))
    ensures DeclaredAs("context_assembly", Section(ContextAssembly())) && DeclaredAs("escalation", Section(Escalation()))
    ensures DeclaredAs("codebases", Section(Codebases()))
  {
    hide Section, Optional, Required, Full, Defaults, Catalog, Byo, Memory, Heartbeat, CostCap, BotPolicy;
    hide ContextAssembly, Escalation, Codebases, Persona, Skill;
  }

  lemma PlainFieldsWritten(tenantId: string, prompt: string)
    ensures WrittenAs(tenantId, prompt, "tenant_id", Str(tenantId)) && WrittenAs(tenantId, prompt, "system_prompt", Str(prompt))
    ensures WrittenAs(tenantId, prompt, "model_id", Str("global.anthropic.claude-sonnet-4-6"))
    ensures WrittenAs(tenantId, prompt, "channels", NO_ENTRIES) && WrittenAs(tenantId, prompt, "admin_user_ids", NO_ITEMS)
    ensures WrittenAs(tenantId, prompt, "skills", NO_ITEMS) && WrittenAs(tenantId, prompt, "is_internal_testenv", Bool(false))
  {
    hide DefaultMemory, DefaultCatalog, DefaultByo, DefaultHeartbeat, DefaultCostCap, DefaultBotPolicy,
      DefaultContextAssembly, DefaultEscalation, DefaultCodebases;
  }

  lemma SectionsWritten(tenantId: string, prompt: string)
    ensures WrittenAs(tenantId, prompt, "catalog", DefaultCatalog()) && WrittenAs(tenantId, prompt, "byo", DefaultByo())
    ensures WrittenAs(tenantId, prompt, "memory", DefaultMemory(tenantId))
    ensures WrittenAs(tenantId, prompt, "heartbeat", DefaultHeartbeat())
    ensures WrittenAs(tenantId, prompt, "cost_cap", DefaultCostCap())
    ensures WrittenAs(tenantId, prompt, "bot_policy", DefaultBotPolicy())
    ensures WrittenAs(tenantId, prompt, "context_assembly", DefaultContextAssembly())
    ensures WrittenAs(tenantId, prompt, "escalation", DefaultEscalation())
    ensures WrittenAs(tenantId, prompt, "codebases", DefaultCodebases())
  {
    hide DefaultMemory, DefaultCatalog, DefaultByo, DefaultHeartbeat, DefaultCostCap, DefaultBotPolicy,
      DefaultContextAssembly, DefaultEscalation, DefaultCodebases;
  }

  /** Field by field, the model reads the default back. */
  lemma EveryFieldStays(tenantId: string, prompt: string, key: string, coerce: Coerce)
    requires Accepting(coerce) && IsField(key)
    ensures exists f, value :: Entries(tenantId, prompt, key, f, value) && Stays(f, value, coerce)
  {
    hide Tenant, DefaultConfig, Stays, Accepting, Section, Optional, Required, Full, Defaults, Persona, Skill;
    hide DefaultMemory, DefaultCatalog, DefaultByo, DefaultHeartbeat, DefaultCostCap, DefaultBotPolicy,
      DefaultContextAssembly, DefaultEscalation, DefaultCodebases;
    PlainFieldsDeclared();
    SectionsDeclared();
    PlainFieldsWritten(tenantId, prompt);
    SectionsWritten(tenantId, prompt);
    TextsStay(tenantId, coerce);
    TextsStay(prompt, coerce);
    CatalogStays(coerce);
    MemoryStays(tenantId, coerce);
    ItemsStay(coerce);
    DefaultSectionsStay(coerce);
  }

  lemma FieldIsFilledIn(tenantId: string, prompt: string, key: string, coerce: Coerce)
    requires Accepting(coerce) && IsField(key)
    ensures key in Tenant(Bridge) && key in DefaultConfig(tenantId, prompt)
    ensures var config := DefaultConfig(tenantId, prompt);
            SlotOf(Tenant(Bridge)[key], config, key, false, coerce) == Filled(config[key])
  {
    EveryFieldStays(tenantId, prompt, key, coerce);
    hide Tenant, DefaultConfig, IsField, Accepting;
    var f, value :| Entries(tenantId, prompt, key, f, value) && Stays(f, value, coerce);
  }

  lemma MemoryDiffersAsAWhole(tenantId: string)
    ensures DefaultMemory(tenantId) != Defaults(Memory())
  {
    MemoryDiffers(tenantId, "namespace");
    assert Defaults(Memory()).fields["namespace"] == Str("");
    assert |"tenants/" + tenantId| > 0;
  }

  /** The default configuration and the API's model part in exactly these entries: the
      required tenant id, the prompt unless it is the fallback, the catalog's tools,
      the memory's namespace and the rules of its extraction. */
  lemma DefaultsPartExactly(tenantId: string, prompt: string, key: string)
    ensures key in Tenant(Bridge) ==>
              (SameDefault(Tenant(Bridge), DefaultConfig(tenantId, prompt), key) <==>
                 key !in {"tenant_id", "catalog", "memory"} && (key == "system_prompt" ==> prompt == FALLBACK_PROMPT))
    ensures key in Catalog() ==>
              (SameDefault(Catalog(), DefaultCatalog().fields, key) <==> key != "allowed_tools")
    ensures key in Memory() ==>
              (SameDefault(Memory(), DefaultMemory(tenantId).fields, key) <==> key !in {"namespace", "extraction"})
    ensures key in MemoryExtraction() ==>
              (SameDefault(MemoryExtraction(), DefaultExtraction().fields, key) <==> key != "rules")
  {
    hide SameDefault, Tenant, Catalog, Memory, MemoryExtraction, DefaultConfig, DefaultCatalog, DefaultMemory, DefaultExtraction;
    if key in Tenant(Bridge) {
      TopDiffers(tenantId, prompt, key);
    }
    if key in Catalog() {
      CatalogDiffers(key);
    }
    if key in Memory() {
      MemoryDiffers(tenantId, key);
    }
    if key in MemoryExtraction() {
      ExtractionDiffers(key);
    }
  }

  /** What a new tenant gets there instead. */
  lemma DefaultsSpelledOut(tenantId: string)
    ensures Entry(DefaultMemory(tenantId).fields, "namespace") == Some(Str("tenants/" + tenantId))
    ensures Entry(DefaultExtraction().fields, "rules") == Some(Arr([Str("user_preferences"), Str("facts")]))
    ensures Entry(DefaultMemory(tenantId).fields, "extraction") == Some(DefaultExtraction())
  {
    assert Texts(["user_preferences", "facts"]).items == [Str("user_preferences"), Str("facts")];
    hide DefaultTriggers;
  }

  lemma TopDiffers(tenantId: string, prompt: string, key: string)
    requires key in Tenant(Bridge)
    ensures SameDefault(Tenant(Bridge), DefaultConfig(tenantId, prompt), key) <==>
            key !in {"tenant_id", "catalog", "memory"} && (key == "system_prompt" ==> prompt == FALLBACK_PROMPT)
  {
    OnlyFields(key, tenantId, prompt);
    PlainFieldsDeclared();
    SectionsDeclared();
    PlainFieldsWritten(tenantId, prompt);
    SectionsWritten(tenantId, prompt);
    DefaultsAreInStep();
    CatalogDiffers("allowed_tools");
    MemoryDiffersAsAWhole(tenantId);
    hide Tenant, DefaultConfig, Defaults, Catalog, Byo, Memory, Heartbeat, CostCap, BotPolicy, ContextAssembly, Escalation,
      Codebases;
    hide Persona, Skill, Full, DefaultMemory, DefaultCatalog, DefaultByo, DefaultHeartbeat, DefaultCostCap, DefaultBotPolicy,
      DefaultContextAssembly, DefaultEscalation, DefaultCodebases, DefaultTriggers, MemoryTriggers;
  }

  /** The configuration the bridge gives a new tenant is complete and canonical: the
      API's model reads it back exactly as it was written. */
  lemma DefaultIsCanonical(tenantId: string, prompt: string, coerce: Coerce)
    requires Accepting(coerce)
    ensures Canonical(Bridge, DefaultConfig(tenantId, prompt), coerce) == Some(DefaultConfig(tenantId, prompt))
  {
    var config := DefaultConfig(tenantId, prompt);
    hide Tenant, DefaultConfig, Accepting, IsField;
    forall key ensures key in Tenant(Bridge) <==> key in config
               ensures key in Tenant(Bridge) ==> SlotOf(Tenant(Bridge)[key], config, key, false, coerce) == Filled(config[key]) {
      OnlyFields(key, tenantId, prompt);
      if IsField(key) {
        FieldIsFilledIn(tenantId, prompt, key, coerce);
      }
    }
    FieldsMakeTheRecord(Tenant(Bridge), config, config, coerce);
  }
}
