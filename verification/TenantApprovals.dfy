/** When the store takes a write, and that approvals go through
    (bridge/bridge/tenant_write.py). */
module TenantApprovals {
  import opened Options
  import opened Schemas
  import opened TenantConfig
  import opened TenantModels
  import opened TenantWrites
  import opened TenantProtocol
  import opened TenantSafety
  import opened TenantBindings

  // ------------------------------------------------------- conditions on rows

  /** The stored value of the installation, if there is one at all. */
  function StoredInstallation(config: Document): Option<Json> {
    if "codebases" in config && config["codebases"].Obj? then Entry(config["codebases"].fields, "github_installation_id") else None
  }

  /** The tenant's row exists and holds no other installation. */
  predicate RowAllows(table: Table, tenant: string, installation: string) {
    tenant in table &&
    (table[tenant].config.Some? ==>
       StoredInstallation(table[tenant].config.value) in {None, Some(Null), Some(Str(installation))})
  }

  /** The lock row is absent, has no owner, or is the tenant's already. */
  predicate LockAllows(table: Table, tenant: string, installation: string) {
    var lock := "__github_installation__#" + installation;
    lock in table ==> table[lock].owner in {None, Some(tenant)}
  }

  /** What the store asks of each kind of write, row by row. */
  predicate StoreTakes(table: Table, request: Request, base: Option<Document>) {
    match request
    case Patching(tenant, _) => base.Some? && tenant in table && table[tenant].config == base
    case Connecting(tenant, _, _) => tenant in table
    case WarmStarting(tenant, _) => tenant in table
    case Resetting(_) => true
    case AgentSaving(_, _, _) => true
    case Approving(tenant, installation) =>
      && tenant != "__github_installation__#" + installation
      && RowAllows(table, tenant, installation) && LockAllows(table, tenant, installation)
  }

  /** A write commits, leaving one more entry in the history, if and only if the rows are
      as the store asks; its request then succeeds if it is answered. A write that does
      not commit changes nothing, and an answered PATCH goes on to ask why. */
  lemma CommitsExactly(w: World, s: State, id: nat, answered: bool)
    requires Enabled(w, s, Write(id, answered))
    ensures var op := s.ops[id];
            var after := Apply(w, s, Write(id, answered));
            if StoreTakes(s.table, op.request, op.phase.base) then
              |after.log| == |s.log| + 1 && after.ops[id].phase == Finished(if answered then Done else Failed)
            else
              && after.table == s.table && after.log == s.log
              && after.ops[id].phase == if answered && op.request.Patching? then Rechecking else Finished(Failed)
  {
    var op := s.ops[id];
    AcceptsExactly(s.table, op.request, op.phase.base);
    hide Accepts, StoreTakes, WithLock, WriteKey, StoreConfig;
  }

  lemma AcceptsExactly(table: Table, request: Request, base: Option<Document>)
    ensures Accepts(table, request, base) <==> StoreTakes(table, request, base)
  {
  }

  /** Where the lock row leads, row by row. An approval goes on to read exactly if the
      lock is the tenant's own, a warm start goes on to list exactly then; without a lock
      both scan; a lock of another tenant ends them, and so does one without an owner. */
  lemma LockLeads(w: World, s: State, id: nat)
    requires Enabled(w, s, LookUpLock(id))
    ensures var op := s.ops[id];
            var phase := Apply(w, s, LookUpLock(id)).ops[id].phase;
            var lock := "__github_installation__#" + op.request.installation;
            var own := lock in s.table && s.table[lock].owner == Some(op.request.tenant) && op.request.tenant != "";
            && (phase.Scanning? <==> lock !in s.table)
            && (phase.Reading? <==> own && op.request.Approving?)
            && (phase.Listing? <==> own && op.request.WarmStarting? && op.phase.held.Some?)
            && (phase.Finished? <==> lock in s.table && !(own && (op.request.Approving? || op.phase.held.Some?)))
  {
  }

  // --------------------------------------------------- how often a PATCH tries

  /** How often a request found its write refused and looked why. */
  function Rechecks(run: seq<Action>, id: nat): nat {
    if run == [] then 0 else (if run[0] == Recheck(id) then 1 else 0) + Rechecks(run[1..], id)
  }

  ghost predicate Trying(s: State, id: nat) {
    id in s.ops ==> s.ops[id].attempt <= 2 && (s.ops[id].phase == Finished(Conflict) ==> !s.ops[id].request.Patching?)
  }

  function Tried(s: State, id: nat): nat {
    if id in s.ops then s.ops[id].attempt else 0
  }

  /** One step of a PATCH that has not given up: only looking why counts, and only the
      third time gives up. */
  lemma TryStep(w: World, s: State, a: Action, id: nat)
    requires Enabled(w, s, a) && Trying(s, id)
    ensures var after := Apply(w, s, a);
            && (id in s.ops ==> id in after.ops && after.ops[id].request == s.ops[id].request)
            && (Trying(after, id) ==>
                  Tried(after, id) == Tried(s, id) + (if a == Recheck(id) && !after.ops[id].phase.Finished? then 1 else 0))
            && (!Trying(after, id) ==> a == Recheck(id) && Tried(s, id) == 2 && after.ops[id].phase.Finished?)
            && (a == Recheck(id) ==> id in after.ops && (after.ops[id].phase.Finished? || Trying(after, id)))
  {
    hide AfterRead, FirstPhase, Accepts, StoreConfig, WithLock, WriteKey, LockSays, OnlyOf, WarmStarted, InstallationText,
      MayRead, LockId;
    if a.Read? && a.id == id && s.ops[id].request.Patching? {
      PatchReads(w, s.ops[id].request, a.seen);
    }
    if a.Begin? && a.id == id {
      PatchBegins(w, a.request);
    }
  }

  lemma PatchReads(w: World, request: Request, seen: Option<Document>)
    requires request.Patching?
    ensures AfterRead(w, request, seen) != Finished(Conflict)
  {
    hide PatchOf, Canonical, DeepMerge;
  }

  lemma PatchBegins(w: World, request: Request)
    ensures FirstPhase(w, request) != Finished(Conflict)
  {
    hide PatchOf, DefaultConfig;
  }

  lemma FinishedStep(w: World, s: State, a: Action, id: nat)
    requires Enabled(w, s, a) && id in s.ops && s.ops[id].phase.Finished?
    ensures id in Apply(w, s, a).ops && Apply(w, s, a).ops[id] == s.ops[id] && a != Recheck(id)
  {
    hide AfterRead, FirstPhase, Accepts, StoreConfig, WithLock, WriteKey, LockSays, OnlyOf, WarmStarted, InstallationText,
      MayRead, LockId;
  }

  lemma {:induction false} FinishedStays(w: World, s: State, run: seq<Action>, id: nat)
    requires Possible(w, s, run) && id in s.ops && s.ops[id].phase.Finished?
    ensures id in After(w, s, run).ops && After(w, s, run).ops[id] == s.ops[id] && Rechecks(run, id) == 0
    decreases |run|
  {
    hide Apply, Enabled;
    if run != [] {
      FinishedStep(w, s, run[0], id);
      FinishedStays(w, Apply(w, s, run[0]), run[1..], id);
    }
  }

  /** A PATCH that ends with 409 has found its write refused three times. */
  lemma {:induction false} GivesUpTheThirdTime(w: World, s: State, run: seq<Action>, id: nat)
    requires Possible(w, s, run) && Trying(s, id)
    ensures var ops := After(w, s, run).ops;
            id in ops && ops[id].request.Patching? && ops[id].phase == Finished(Conflict) ==>
              Rechecks(run, id) == 3 - Tried(s, id)
    decreases |run|
  {
    hide Apply, Enabled;
    if run != [] {
      var after := Apply(w, s, run[0]);
      TryStep(w, s, run[0], id);
      if Trying(after, id) {
        GivesUpTheThirdTime(w, after, run[1..], id);
      }
      if run[0] == Recheck(id) && after.ops[id].phase.Finished? {
        FinishedStays(w, after, run[1..], id);
      }
    }
  }

  // ------------------------------------------------------------ runs that do

  /** The run is possible and at its end the request has succeeded, the row holds the
      installation and the lock is the tenant's. */
  ghost predicate Binds(w: World, s: State, run: seq<Action>, id: nat, tenant: string, installation: string) {
    Possible(w, s, run) && IsBound(w, After(w, s, run), id, tenant, installation)
  }

  predicate IsBound(w: World, s: State, id: nat, tenant: string, installation: string) {
    && id in s.ops && s.ops[id].phase == Finished(Done)
    && HeldBy(w, s.table, tenant) == Some(installation)
    && OwnerOf(s.table, LockId(installation)) == Some(tenant)
  }

  lemma StepFirst(w: World, s: State, a: Action, rest: seq<Action>, id: nat, tenant: string, installation: string)
    requires Enabled(w, s, a) && Binds(w, Apply(w, s, a), rest, id, tenant, installation)
    ensures Binds(w, s, [a] + rest, id, tenant, installation)
  {
    hide Apply, Enabled, IsBound;
    assert ([a] + rest)[1..] == rest;
  }

  lemma LastStep(w: World, s: State, a: Action, id: nat, tenant: string, installation: string)
    requires Enabled(w, s, a) && IsBound(w, Apply(w, s, a), id, tenant, installation)
    ensures Binds(w, s, [a], id, tenant, installation)
  {
    hide Apply, Enabled, IsBound;
    assert [a][1..] == [];
    assert After(w, Apply(w, s, a), []) == Apply(w, s, a);
  }

  /** The tenant's row can be read, and holds no other installation. */
  predicate Approvable(s: State, tenant: string, installation: string, config: Document) {
    && tenant != "" && installation != "" && tenant != LockId(installation)
    && ConfigOf(s.table, tenant) == Some(config) && (tenant, config) in s.past && ReadsCleanly(config)
    && StoredInstallation(config) in {None, Some(Null), Some(Str(installation))}
  }

  lemma HeldIsSame(config: Document, installation: string, printer: Printer)
    requires StoredInstallation(config) in {None, Some(Null), Some(Str(installation))}
    ensures InstallationText(config, printer) in {"", installation}
  {
  }

  /** The last step. */
  lemma WriteBinds(w: World, s: State, id: nat, tenant: string, installation: string, config: Document)
    requires id in s.ops && s.ops[id].request == Approving(tenant, installation)
    requires s.ops[id].phase == Writing(Some(config), Approved(config, installation))
    requires Approvable(s, tenant, installation, config) && LockAllows(s.table, tenant, installation)
    ensures Binds(w, s, [Write(id, true)], id, tenant, installation)
  {
    InstallingWrites(config, installation, None, [], w.printer, tenant);
    hide Approved, WarmStarted, InstallationText, ReadsCleanly, StoredInstallation;
    AcceptsExactly(s.table, s.ops[id].request, s.ops[id].phase.base);
    hide Accepts, LockId, LockAllows;
    assert IsBound(w, Apply(w, s, Write(id, true)), id, tenant, installation);
    LastStep(w, s, Write(id, true), id, tenant, installation);
  }

  /** The last two steps, once the lookup has found nobody else. */
  lemma ReadingBinds(w: World, s: State, id: nat, tenant: string, installation: string, config: Document)
    requires id in s.ops && s.ops[id].request == Approving(tenant, installation) && s.ops[id].phase == Reading
    requires Approvable(s, tenant, installation, config) && LockAllows(s.table, tenant, installation)
    ensures Binds(w, s, [Read(id, Some(config)), Write(id, true)], id, tenant, installation)
  {
    HeldIsSame(config, installation, w.printer);
    hide Approved, InstallationText, ReadsCleanly, StoredInstallation, LockAllows, Binds;
    var read := Apply(w, s, Read(id, Some(config)));
    assert read.ops[id].phase == Writing(Some(config), Approved(config, installation)) && read.table == s.table;
    WriteBinds(w, read, id, tenant, installation, config);
    StepFirst(w, s, Read(id, Some(config)), [Write(id, true)], id, tenant, installation);
    assert [Read(id, Some(config))] + [Write(id, true)] == [Read(id, Some(config)), Write(id, true)];
  }

  /** An approval whose lock is the tenant's already goes through. */
  lemma LockedApproval(w: World, s: State, id: nat, tenant: string, installation: string, config: Document)
    requires id !in s.ops && Approvable(s, tenant, installation, config)
    requires OwnerOf(s.table, LockId(installation)) == Some(tenant)
    ensures Binds(w, s, [Begin(id, Approving(tenant, installation)), LookUpLock(id), Read(id, Some(config)), Write(id, true)],
                  id, tenant, installation)
  {
    hide StoredInstallation, ReadsCleanly, Binds;
    var request := Approving(tenant, installation);
    var begun := Apply(w, s, Begin(id, request));
    var found := Apply(w, begun, LookUpLock(id));
    assert found.ops[id].phase == Reading && found.table == s.table && found.past == s.past;
    var last := [Read(id, Some(config)), Write(id, true)];
    ReadingBinds(w, found, id, tenant, installation, config);
    hide LockId, Apply;
    StepFirst(w, begun, LookUpLock(id), last, id, tenant, installation);
    StepFirst(w, s, Begin(id, request), [LookUpLock(id)] + last, id, tenant, installation);
    assert [Begin(id, request)] + ([LookUpLock(id)] + last) ==
           [Begin(id, request), LookUpLock(id), Read(id, Some(config)), Write(id, true)];
  }

  /** So does the first approval of an installation that nobody has. */
  lemma FirstApproval(w: World, s: State, id: nat, tenant: string, installation: string, config: Document)
    requires id !in s.ops && Approvable(s, tenant, installation, config)
    requires LockId(installation) !in s.table
    ensures Binds(w, s, [Begin(id, Approving(tenant, installation)), LookUpLock(id), Scan(id, {}), Read(id, Some(config)),
                         Write(id, true)], id, tenant, installation)
  {
    hide StoredInstallation, ReadsCleanly, Binds, InstallationText;
    var request := Approving(tenant, installation);
    var begun := Apply(w, s, Begin(id, request));
    var looked := Apply(w, begun, LookUpLock(id));
    var none: set<string> := {};
    var found := Apply(w, looked, Scan(id, none));
    assert OnlyOf(none) == None;
    assert found.ops[id].phase == Reading && found.table == s.table && found.past == s.past;
    var last := [Read(id, Some(config)), Write(id, true)];
    ReadingBinds(w, found, id, tenant, installation, config);
    hide LockId, Apply, OnlyOf;
    StepFirst(w, looked, Scan(id, none), last, id, tenant, installation);
    StepFirst(w, begun, LookUpLock(id), [Scan(id, none)] + last, id, tenant, installation);
    StepFirst(w, s, Begin(id, request), [LookUpLock(id)] + ([Scan(id, none)] + last), id, tenant, installation);
    assert [Begin(id, request)] + ([LookUpLock(id)] + ([Scan(id, none)] + last)) ==
           [Begin(id, request), LookUpLock(id), Scan(id, {}), Read(id, Some(config)), Write(id, true)];
  }

  /** After a reinstall has reset the row of a tenant that has an installation's lock,
      approving that installation again puts it back. */
  lemma ReapprovalAfterReset(w: World, s: State, reset: nat, id: nat, tenant: string, installation: string)
    requires reset !in s.ops && id !in s.ops && reset != id
    requires tenant != "" && installation != "" && tenant != LockId(installation)
    requires OwnerOf(s.table, LockId(installation)) == Some(tenant)
    ensures Binds(w, s, [Begin(reset, Resetting(tenant)), Write(reset, true)] +
                        [Begin(id, Approving(tenant, installation)), LookUpLock(id),
                         Read(id, Some(DefaultConfig(tenant, w.prompt))), Write(id, true)], id, tenant, installation)
  {
    DefaultIsApprovable(tenant, w.prompt);
    hide Binds, DefaultConfig, ReadsCleanly, StoredInstallation, InstallationText;
    var config := DefaultConfig(tenant, w.prompt);
    var begun := Apply(w, s, Begin(reset, Resetting(tenant)));
    var left := Apply(w, begun, Write(reset, true));
    assert left.table == StoreConfig(s.table, tenant, config) && (tenant, config) in left.past && id !in left.ops;
    hide LockId;
    LockedApproval(w, left, id, tenant, installation, config);
    var rest := [Begin(id, Approving(tenant, installation)), LookUpLock(id), Read(id, Some(config)), Write(id, true)];
    hide Apply;
    StepFirst(w, begun, Write(reset, true), rest, id, tenant, installation);
    StepFirst(w, s, Begin(reset, Resetting(tenant)), [Write(reset, true)] + rest, id, tenant, installation);
    assert [Begin(reset, Resetting(tenant))] + ([Write(reset, true)] + rest) ==
           [Begin(reset, Resetting(tenant)), Write(reset, true)] + rest;
  }

  lemma DefaultIsApprovable(tenant: string, prompt: string)
    ensures ReadsCleanly(DefaultConfig(tenant, prompt))
    ensures StoredInstallation(DefaultConfig(tenant, prompt)) == Some(Null)
  {
    hide DefaultMemory, DefaultCatalog, DefaultByo, DefaultHeartbeat, DefaultCostCap, DefaultBotPolicy,
      DefaultContextAssembly, DefaultEscalation;
  }
}
