/** The tenant configuration: how partial writes are merged into it and what the
    models of the API let through (bridge/bridge/tenant_write.py, api_models.py). */
module TenantConfig {
  import opened Options
  import opened Schemas

  // ------------------------------------------------------------------ merge

  /** The top-level fields that merge one level down. */
  predicate DeepMerges(key: string) {
    key in {
      "catalog", "byo", "memory", "heartbeat", "cost_cap", "channels",
      "bot_policy", "context_assembly", "escalation", "codebases" }
  }

  function Entry(doc: Document, key: string): Option<Json> {
    if key in doc then Some(doc[key]) else None
  }

  predicate MergesInto(was: Option<Json>, given: Json) {
    given.Obj? && was.Some? && was.value.Obj?
  }

  function MergedEntry(key: string, was: Option<Json>, given: Json): Json {
    if DeepMerges(key) && MergesInto(was, given) then Obj(was.value.fields + given.fields) else given
  }

  /** `base` with `patch` laid over it: one level deep in the sections, wholesale
      everywhere else. */
  function DeepMerge(base: Document, patch: Document): Document {
    base + map key | key in patch :: MergedEntry(key, Entry(base, key), patch[key])
  }

  function Overlaid(base: Document, patch: Document, key: string): Option<Json> {
    if key in patch then Some(MergedEntry(key, Entry(base, key), patch[key])) else Entry(base, key)
  }

  lemma EntryOfMerge(base: Document, patch: Document, key: string)
    ensures Entry(DeepMerge(base, patch), key) == Overlaid(base, patch, key)
  {
    hide MergedEntry;
  }

  lemma SameEntries(a: Document, b: Document)
    requires forall key :: Entry(a, key) == Entry(b, key)
    ensures a == b
  {
    forall key ensures key in a <==> key in b
               ensures key in a ==> a[key] == b[key] {
      assert Entry(a, key) == Entry(b, key);
    }
  }

  method MergeDocuments(base: Document, patch: Document) returns (merged: Document)
    ensures merged == DeepMerge(base, patch)
  {
    hide DeepMerges, DeepMerge;
    merged := base;
    var todo := patch.Keys;
    while todo != {}
      invariant todo <= patch.Keys
      invariant forall key :: Entry(merged, key) == if key in todo then Entry(base, key) else Overlaid(base, patch, key)
      decreases |todo|
    {
      var key :| key in todo;
      var patchValue := patch[key];
      assert Entry(merged, key) == Entry(base, key);
      if DeepMerges(key) && patchValue.Obj? && key in merged && merged[key].Obj? {
        var sub := merged[key].fields + patchValue.fields;
        merged := merged[key := Obj(sub)];
      } else {
        merged := merged[key := patchValue];
      }
      todo := todo - {key};
    }
    forall key ensures Entry(merged, key) == Entry(DeepMerge(base, patch), key) {
      EntryOfMerge(base, patch, key);
    }
    SameEntries(merged, DeepMerge(base, patch));
  }

  /** Entry by entry: what the patch does not name survives, inside a merged
      section too. */
  lemma MergeIsLocal(base: Document, patch: Document, key: string)
    ensures key !in patch ==> Entry(DeepMerge(base, patch), key) == Entry(base, key)
    ensures key in patch && !(DeepMerges(key) && MergesInto(Entry(base, key), patch[key])) ==>
            Entry(DeepMerge(base, patch), key) == Some(patch[key])
    ensures key in patch && DeepMerges(key) && MergesInto(Entry(base, key), patch[key]) ==>
            var merged := Entry(DeepMerge(base, patch), key);
            && merged.Some? && merged.value.Obj?
            && forall sub :: Entry(merged.value.fields, sub) ==
                             if sub in patch[key].fields then Entry(patch[key].fields, sub) else Entry(base[key].fields, sub)
  {
  }

  /** A repeated merge changes nothing. */
  lemma MergeTwiceIsMergeOnce(base: Document, patch: Document)
    ensures DeepMerge(DeepMerge(base, patch), patch) == DeepMerge(base, patch)
  {
    var once := DeepMerge(base, patch);
    forall key | key in patch ensures MergedEntry(key, Entry(once, key), patch[key]) == once[key] {
      if MergesInto(Entry(base, key), patch[key]) {
        assert base[key].fields + patch[key].fields + patch[key].fields == base[key].fields + patch[key].fields;
      }
      assert patch[key].Obj? ==> patch[key].fields + patch[key].fields == patch[key].fields;
    }
    assert DeepMerge(once, patch) == once;
  }

  /** A section that the first patch drops and the second sets anew loses the
      entries the base had in it. */
  predicate Drops(base: Document, first: Document, second: Document, key: string) {
    && DeepMerges(key) && key in base && key in first && key in second
    && base[key].Obj? && !first[key].Obj? && second[key].Obj?
    && !(base[key].fields.Keys <= second[key].fields.Keys)
  }

  /** Merging two patches one after the other is merging their merge, exactly when
      no section is dropped in between. */
  lemma PatchesCompose(base: Document, first: Document, second: Document)
    ensures DeepMerge(DeepMerge(base, first), second) == DeepMerge(base, DeepMerge(first, second)) <==>
            forall key :: !Drops(base, first, second, key)
  {
    var left := DeepMerge(DeepMerge(base, first), second);
    var right := DeepMerge(base, DeepMerge(first, second));
    forall key ensures Entry(left, key) == Entry(right, key) <==> !Drops(base, first, second, key) {
      EntriesCompose(base, first, second, key);
    }
    hide DeepMerge, Drops;
    if forall key :: !Drops(base, first, second, key) {
      SameEntries(left, right);
    } else {
      var key :| Drops(base, first, second, key);
      assert Entry(left, key) != Entry(right, key);
    }
  }

  lemma EntriesCompose(base: Document, first: Document, second: Document, key: string)
    ensures Entry(DeepMerge(DeepMerge(base, first), second), key) == Entry(DeepMerge(base, DeepMerge(first, second)), key) <==>
            !Drops(base, first, second, key)
  {
    EntryOfMerge(base, first, key);
    EntryOfMerge(DeepMerge(base, first), second, key);
    EntryOfMerge(first, second, key);
    EntryOfMerge(base, DeepMerge(first, second), key);
    hide DeepMerge, DeepMerges;
    if key in first && key in second && DeepMerges(key) {
      SectionsCompose(Entry(base, key), first[key], second[key]);
    }
  }

  lemma SectionsCompose(base: Option<Json>, first: Json, second: Json)
    ensures base.Some? && base.value.Obj? && first.Obj? && second.Obj? ==>
            base.value.fields + first.fields + second.fields == base.value.fields + (first.fields + second.fields)
    ensures base.Some? && base.value.Obj? && second.Obj? ==>
            (base.value.fields + second.fields == second.fields <==> base.value.fields.Keys <= second.fields.Keys)
  {
    if base.Some? && base.value.Obj? && second.Obj? {
      var sum := base.value.fields + second.fields;
      if sum == second.fields {
        assert base.value.fields.Keys <= sum.Keys;
      }
    }
  }
}
