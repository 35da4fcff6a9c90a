/** Every change of the tenants table is one entry of its log, and a PATCH that
    succeeds is exactly one of them. */
module TenantLog {
  import opened Options
  import opened Schemas
  import opened TenantConfig
  import opened TenantModels
  import opened TenantWrites
  import opened TenantProtocol
  import opened TenantSafety

  // ------------------------------------------------------ the log is faithful

  type Configs = map<string, Document>

  /** The configurations in a table. */
  function ConfigsOf(table: Table): Configs {
    map key | key in table && table[key].config.Some? :: table[key].config.value
  }

  function Replay(configs: Configs, log: seq<Change>): Configs {
    if log == [] then configs
    else
      var was := Replay(configs, log[..|log| - 1]);
      match log[|log| - 1]
      case Stored(_, tenant, _, after) => was[tenant := after]
      case Deleted(tenant) => was - {tenant}
  }

  function At(configs: Configs, key: string): Option<Document> {
    if key in configs then Some(configs[key]) else None
  }

  /** Each entry says what the row had just before it. */
  predicate Faithful(configs: Configs, log: seq<Change>) {
    log == [] ||
    (var was := log[..|log| - 1];
     var last := log[|log| - 1];
     Faithful(configs, was) && (last.Stored? ==> last.before == At(Replay(configs, was), last.tenant)))
  }

  /** From `configs` on, the log has made the table what it is. */
  predicate Logged(configs: Configs, s: State) {
    Replay(configs, s.log) == ConfigsOf(s.table) && Faithful(configs, s.log)
  }

  lemma AtConfigs(table: Table, key: string)
    ensures At(ConfigsOf(table), key) == ConfigOf(table, key)
  {
  }

  lemma LogOneMore(configs: Configs, log: seq<Change>, change: Change)
    ensures Replay(configs, log + [change]) ==
            if change.Stored? then Replay(configs, log)[change.tenant := change.after] else Replay(configs, log) - {change.tenant}
    ensures Faithful(configs, log + [change]) <==>
            Faithful(configs, log) && (change.Stored? ==> change.before == At(Replay(configs, log), change.tenant))
  {
    assert (log + [change])[..|log|] == log;
  }

  lemma StoringConfigs(table: Table, key: string, next: Document)
    ensures ConfigsOf(StoreConfig(table, key, next)) == ConfigsOf(table)[key := next]
  {
  }

  lemma BindingConfigs(table: Table, key: string, owner: string)
    ensures ConfigsOf(BindLock(table, key, owner)) == ConfigsOf(table)
  {
  }

  lemma StoringIsLogged(configs: Configs, s: State, id: nat, key: string, next: Document)
    requires Logged(configs, s)
    ensures Logged(configs, StoreLogged(s, id, key, next))
  {
    LogOneMore(configs, s.log, Stored(id, key, ConfigOf(s.table, key), next));
    StoringConfigs(s.table, key, next);
    AtConfigs(s.table, key);
    hide ConfigsOf, Replay, Faithful;
  }

  /** An accepted write stores and logs; a refused one leaves table and log alone. */
  lemma WriteStep(w: World, s: State, id: nat, answered: bool)
    requires Enabled(w, s, Write(id, answered))
    ensures var after := Apply(w, s, Write(id, answered));
            var op := s.ops[id];
            var key := WriteKey(op.request, op.phase.next);
            if !Accepts(s.table, op.request, op.phase.base) then after.table == s.table && after.log == s.log
            else
              var stored := StoreLogged(s.(table := WithLock(s.table, op.request)), id, key, op.phase.next);
              after.table == stored.table && after.log == stored.log
  {
    hide Accepts, WriteKey, WithLock, StoreConfig;
  }

  lemma LockingIsLogged(configs: Configs, s: State, request: Request)
    requires Logged(configs, s)
    ensures Logged(configs, s.(table := WithLock(s.table, request)))
  {
    if request.Approving? {
      BindingConfigs(s.table, LockId(request.installation), request.tenant);
    }
    hide ConfigsOf, Replay, Faithful, BindLock, LockId;
  }

  lemma WriteIsLogged(w: World, configs: Configs, s: State, id: nat, answered: bool)
    requires Logged(configs, s) && Enabled(w, s, Write(id, answered))
    ensures Logged(configs, Apply(w, s, Write(id, answered)))
  {
    var op := s.ops[id];
    WriteStep(w, s, id, answered);
    LockingIsLogged(configs, s, op.request);
    StoringIsLogged(configs, s.(table := WithLock(s.table, op.request)), id, WriteKey(op.request, op.phase.next), op.phase.next);
    hide Apply, ConfigsOf, Replay, Faithful, Accepts, WriteKey, StoreLogged, WithLock;
  }

  lemma DeleteIsLogged(w: World, configs: Configs, s: State, tenant: string)
    requires Logged(configs, s) && Enabled(w, s, Delete(tenant))
    ensures Logged(configs, Apply(w, s, Delete(tenant)))
  {
    LogOneMore(configs, s.log, Deleted(tenant));
    hide Replay, Faithful;
    assert ConfigsOf(s.table - {tenant}) == ConfigsOf(s.table) - {tenant};
  }

  /** All other steps leave the table and its log alone. */
  lemma QuietStep(w: World, s: State, a: Action)
    requires Enabled(w, s, a) && !a.Write? && !a.Delete?
    ensures var after := Apply(w, s, a);
            after.table == s.table && after.log == s.log && a.id in after.ops && after.ops == s.ops[a.id := after.ops[a.id]]
  {
    hide AfterRead, AfterLookup, OnlyOf, LockId, FirstPhase, WarmStarted, InstallationText, MayRead;
  }

  lemma StepIsLogged(w: World, configs: Configs, s: State, a: Action)
    requires Logged(configs, s) && Enabled(w, s, a)
    ensures Logged(configs, Apply(w, s, a))
  {
    if a.Write? {
      WriteIsLogged(w, configs, s, a.id, a.answered);
    } else if a.Delete? {
      DeleteIsLogged(w, configs, s, a.tenant);
    } else {
      QuietStep(w, s, a);
      hide Apply, Enabled, ConfigsOf, Replay, Faithful;
    }
    hide *;
  }

  // ------------------------------------------------- one entry per success

  predicate By(change: Change, id: nat) {
    change.Stored? && change.writer == id
  }

  /** The entries of one request. */
  function EntriesOf(log: seq<Change>, id: nat): seq<Change> {
    if log == [] then []
    else
      var last := log[|log| - 1];
      EntriesOf(log[..|log| - 1], id) + if By(last, id) then [last] else []
  }

  lemma EntriesOneMore(log: seq<Change>, change: Change, id: nat)
    ensures EntriesOf(log + [change], id) == EntriesOf(log, id) + if By(change, id) then [change] else []
  {
    assert (log + [change])[..|log|] == log;
  }

  predicate IsPatched(w: World, body: Json, before: Document, after: Document) {
    Patches(body, before, after, w.coerce)
  }

  predicate PatchEntry(w: World, request: Request, change: Change) {
    request.Patching? ==>
      change.Stored? && change.tenant == request.tenant && change.before.Some? &&
      IsPatched(w, request.body, change.before.value, change.after)
  }

  /** A request has one entry if it succeeded, at most one if it failed without an
      answer from the store, and none otherwise. */
  predicate Accounted(w: World, op: Op, entries: seq<Change>) {
    && |entries| <= 1 && (entries != [] ==> PatchEntry(w, op.request, entries[0]))
    && (op.phase == Finished(Done) ==> entries != [])
    && (op.phase != Finished(Done) && op.phase != Finished(Failed) ==> entries == [])
    && (op.request.Patching? && op.phase.Writing? && op.phase.base.Some? ==>
          IsPatched(w, op.request.body, op.phase.base.value, op.phase.next))
  }

  ghost predicate AllAccounted(w: World, s: State) {
    && (forall id | id in s.ops :: Accounted(w, s.ops[id], EntriesOf(s.log, id)))
    && (forall id: nat | id !in s.ops :: EntriesOf(s.log, id) == [])
  }

  lemma PhaseIsAccounted(w: World, s: State, id: nat, op: Op)
    requires AllAccounted(w, s) && Accounted(w, op, []) && EntriesOf(s.log, id) == []
    ensures AllAccounted(w, s.(ops := s.ops[id := op]))
  {
    hide Accounted, EntriesOf;
  }

  lemma ReadIsAccounted(w: World, op: Op, seen: Option<Document>)
    requires Accounted(w, op, []) && op.phase.Reading?
    ensures Accounted(w, op.(phase := AfterRead(w, op.request, seen)), [])
  {
    hide Canonical, PatchOf, DeepMerge, Connected, AgentSaved, Approved, InstallationText, ReadsCleanly;
  }

  /** The entry an accepted write leaves. */
  lemma WriteLeavesEntry(w: World, s: State, id: nat, answered: bool)
    requires Enabled(w, s, Write(id, answered)) && Accounted(w, s.ops[id], [])
    requires Accepts(s.table, s.ops[id].request, s.ops[id].phase.base)
    ensures var after := Apply(w, s, Write(id, answered));
            && after.ops == s.ops[id := s.ops[id].(phase := Finished(if answered then Done else Failed))]
            && |after.log| == |s.log| + 1 && after.log == s.log + [after.log[|s.log|]]
            && By(after.log[|s.log|], id) && PatchEntry(w, s.ops[id].request, after.log[|s.log|])
  {
    hide IsPatched, LockId, StoreConfig, BindLock, BindingIsFree, LockIsFree;
    assert !s.ops[id].request.Patching? || WriteKey(s.ops[id].request, s.ops[id].phase.next) == s.ops[id].request.tenant;
    hide WriteKey;
  }

  lemma EntryIsAccounted(w: World, s: State, after: State, id: nat, change: Change)
    requires AllAccounted(w, s) && id in s.ops && EntriesOf(s.log, id) == []
    requires after.ops in {s.ops[id := s.ops[id].(phase := Finished(Done))], s.ops[id := s.ops[id].(phase := Finished(Failed))]}
    requires after.log == s.log + [change]
    requires By(change, id) && PatchEntry(w, s.ops[id].request, change)
    ensures AllAccounted(w, after)
  {
    hide IsPatched, PatchEntry, EntriesOf;
    forall other: nat ensures EntriesOf(after.log, other) == EntriesOf(s.log, other) + if other == id then [change] else [] {
      EntriesOneMore(s.log, change, other);
    }
  }

  lemma WriteIsAccounted(w: World, s: State, id: nat, answered: bool)
    requires AllAccounted(w, s) && Enabled(w, s, Write(id, answered))
    ensures AllAccounted(w, Apply(w, s, Write(id, answered)))
  {
    var op := s.ops[id];
    var after := Apply(w, s, Write(id, answered));
    assert Accounted(w, op, EntriesOf(s.log, id));
    if Accepts(s.table, op.request, op.phase.base) {
      WriteLeavesEntry(w, s, id, answered);
      hide Accepts, Apply, PatchEntry, EntriesOf, AllAccounted, By;
      EntryIsAccounted(w, s, after, id, after.log[|s.log|]);
    } else {
      hide Accepts, IsPatched, PatchEntry, EntriesOf;
      PhaseIsAccounted(w, s, id, after.ops[id]);
    }
  }

  lemma DeleteIsAccounted(w: World, s: State, tenant: string)
    requires AllAccounted(w, s) && Enabled(w, s, Delete(tenant))
    ensures AllAccounted(w, Apply(w, s, Delete(tenant)))
  {
    hide Accounted, EntriesOf;
    var after := Apply(w, s, Delete(tenant));
    forall id: nat ensures EntriesOf(after.log, id) == EntriesOf(s.log, id) {
      EntriesOneMore(s.log, Deleted(tenant), id);
    }
  }

  lemma QuietOpIsAccounted(w: World, s: State, a: Action, entries: seq<Change>)
    requires Enabled(w, s, a) && !a.Write? && !a.Delete?
    requires if a.id in s.ops then Accounted(w, s.ops[a.id], entries) else entries == []
    ensures entries == [] && a.id in Apply(w, s, a).ops && Accounted(w, Apply(w, s, a).ops[a.id], [])
  {
    hide LockId, OnlyOf, WarmStarted, IsPatched, InstallationText, MayRead, PatchEntry, PatchOf, DefaultConfig;
    if a.Read? {
      ReadIsAccounted(w, s.ops[a.id], a.seen);
      hide AfterRead;
    }
  }

  lemma QuietStepIsAccounted(w: World, s: State, a: Action)
    requires AllAccounted(w, s) && Enabled(w, s, a) && !a.Write? && !a.Delete?
    ensures AllAccounted(w, Apply(w, s, a))
  {
    QuietStep(w, s, a);
    hide Apply, Enabled, Accounted, EntriesOf;
    QuietOpIsAccounted(w, s, a, EntriesOf(s.log, a.id));
  }

  lemma StepIsAccounted(w: World, s: State, a: Action)
    requires AllAccounted(w, s) && Enabled(w, s, a)
    ensures AllAccounted(w, Apply(w, s, a))
  {
    if a.Write? {
      WriteIsAccounted(w, s, a.id, a.answered);
    } else if a.Delete? {
      DeleteIsAccounted(w, s, a.tenant);
    } else {
      QuietStepIsAccounted(w, s, a);
    }
    hide *;
  }

  // ------------------------------------------------------------- whole runs

  lemma {:induction false} RunIsLogged(w: World, configs: Configs, s: State, run: seq<Action>)
    requires Logged(configs, s) && AllAccounted(w, s) && Possible(w, s, run)
    ensures Logged(configs, After(w, s, run)) && AllAccounted(w, After(w, s, run))
    decreases |run|
  {
    hide Logged, AllAccounted, Apply, Enabled;
    if run != [] {
      StepIsLogged(w, configs, s, run[0]);
      StepIsAccounted(w, s, run[0]);
      RunIsLogged(w, configs, Apply(w, s, run[0]), run[1..]);
    }
  }

  lemma StartIsLogged(w: World, s: State)
    requires Start(w, s)
    ensures Logged(ConfigsOf(s.table), s) && AllAccounted(w, s)
  {
    hide ConfigsOf;
  }

  /** A PATCH under arbitrary other writers and stale reads: success is one step of
      the table's history, from the value `before` the row then has to the canonical
      form of `before` with the patch laid over it; a 404, 409 or 422 is no step. When
      the request fails without an answer it may have been that one step. */
  lemma PatchIsOneStep(w: World, s: State, run: seq<Action>, id: nat)
    requires Start(w, s) && Possible(w, s, run)
    requires id in After(w, s, run).ops && After(w, s, run).ops[id].request.Patching?
    ensures var end := After(w, s, run);
            var request := end.ops[id].request;
            var phase := end.ops[id].phase;
            var entries := EntriesOf(end.log, id);
            && Replay(ConfigsOf(s.table), end.log) == ConfigsOf(end.table)
            && Faithful(ConfigsOf(s.table), end.log)
            && (phase in {Finished(NotFound), Finished(Conflict), Finished(Invalid)} || !phase.Finished? ==> entries == [])
            && (phase == Finished(Done) ==> |entries| == 1)
            && |entries| <= 1
            && (entries != [] ==>
                  entries[0].Stored? && entries[0].tenant == request.tenant && entries[0].before.Some? &&
                  IsPatched(w, request.body, entries[0].before.value, entries[0].after))
  {
    hide After, Possible, Replay, Faithful, ConfigsOf, EntriesOf, IsPatched, Start;
    StartIsLogged(w, s);
    RunIsLogged(w, ConfigsOf(s.table), s, run);
    var end := After(w, s, run);
    assert Accounted(w, end.ops[id], EntriesOf(end.log, id));
  }

  /** ... and that step leaves every operator field as it was: what is stored is what
      the value before validates to, field by field. */
  lemma PatchedKeepsOperatorFields(w: World, body: Json, before: Document, after: Document)
    requires IsPatched(w, body, before, after)
    ensures forall key | OperatorOwned(key) :: Holds(TopSlot(Bridge, before, key, w.coerce), Entry(after, key))
    ensures forall section, key | OperatorOwnedIn(section, key) ::
              Holds(SectionSlot(section, StoredSection(before, section), key, w.coerce), Entry(StoredSection(after, section), key))
  {
    hide OperatorOwned, OperatorOwnedIn, Holds, TopSlot, SectionSlot, StoredSection, Canonical, PatchOf, DeepMerge;
    forall key | OperatorOwned(key) ensures Holds(TopSlot(Bridge, before, key, w.coerce), Entry(after, key)) {
      PatchKeepsOperatorFields(before, body, w.coerce, key);
    }
    forall section, key | OperatorOwnedIn(section, key)
      ensures Holds(SectionSlot(section, StoredSection(before, section), key, w.coerce), Entry(StoredSection(after, section), key))
    {
      PatchKeepsOperatorFieldsIn(before, body, w.coerce, section, key);
    }
  }
}
