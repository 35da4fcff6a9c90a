/** What becomes of a tenant's installation after it was approved: which later steps
    take it out of the configuration again. */
module TenantBindings {
  import opened Options
  import opened Schemas
  import opened TenantConfig
  import opened TenantModels
  import opened TenantWrites
  import opened TenantProtocol
  import opened TenantSafety

  /** The installation a tenant's row holds. */
  function HeldBy(w: World, table: Table, tenant: string): Option<string> {
    match ConfigOf(table, tenant)
    case None => None
    case Some(config) => Some(InstallationText(config, w.printer))
  }

  /** What a request has ready to write holds: the installation it is for, that of the
      value it was made of, or none. */
  predicate Prepared(w: World, op: Op) {
    op.phase.Writing? ==>
      var held := InstallationText(op.phase.next, w.printer);
      match op.request
      case WarmStarting(_, installation) => held == installation
      case Approving(_, installation) => held == installation
      case Resetting(_) => held == ""
      case _ => op.phase.base.Some? && held == InstallationText(op.phase.base.value, w.printer)
  }

  ghost predicate AllPrepared(w: World, s: State) {
    forall id | id in s.ops :: Prepared(w, s.ops[id])
  }

  lemma ReadIsPrepared(w: World, request: Request, seen: Option<Document>, attempt: nat)
    ensures Prepared(w, Op(request, AfterRead(w, request, seen), attempt))
  {
    var phase := AfterRead(w, request, seen);
    hide InstallationText, PatchOf, Canonical, DeepMerge, Connected, AgentSaved, Approved, ReadsCleanly;
    if phase.Writing? && seen.Some? {
      match request {
        case Patching(tenant, body) => PatchingWrites(seen.value, body, w.coerce, w.printer, tenant);
        case Connecting(tenant, integration, gatewayUrl) =>
          ConnectingKeeps(seen.value, integration, gatewayUrl, w.printer, tenant);
        case AgentSaving(tenant, section, value) =>
          AgentWritesKeep(seen.value, w.agentPrompt, section, value, w.coerce, w.printer, tenant);
        case Approving(tenant, installation) => InstallingWrites(seen.value, installation, None, [], w.printer, tenant);
        case _ =>
      }
    }
  }

  lemma ListingIsPrepared(w: World, op: Op, defaultRepo: Option<string>, bindings: seq<Json>)
    requires op.phase.Listing? && op.request.WarmStarting?
    ensures Prepared(w, op.(phase :=
              Writing(Some(op.phase.read), WarmStarted(op.phase.read, op.request.installation, defaultRepo, bindings))))
  {
    InstallingWrites(op.phase.read, op.request.installation, defaultRepo, bindings, w.printer, op.request.tenant);
    hide InstallationText, WarmStarted, Approved;
  }

  lemma BeginIsPrepared(w: World, request: Request)
    ensures Prepared(w, Op(request, FirstPhase(w, request), 0))
  {
    if request.Resetting? {
      DefaultsWrite(request.tenant, w.prompt, w.printer);
    }
    hide InstallationText, DefaultConfig, PatchOf;
  }

  lemma StepKeepsPrepared(w: World, s: State, a: Action)
    requires AllPrepared(w, s) && Enabled(w, s, a)
    ensures AllPrepared(w, Apply(w, s, a))
  {
    hide AfterRead, FirstPhase, WarmStarted, InstallationText, LockId, OnlyOf, MayRead, Accepts, StoreConfig, WithLock, WriteKey;
    match a
    case Begin(_, request) => BeginIsPrepared(w, request);
    case Read(id, seen) => ReadIsPrepared(w, s.ops[id].request, seen, s.ops[id].attempt);
    case ListRepos(id, defaultRepo, bindings) => ListingIsPrepared(w, s.ops[id], defaultRepo, bindings);
    case _ =>
  }

  lemma {:induction false} RunKeepsPrepared(w: World, s: State, run: seq<Action>)
    requires AllPrepared(w, s) && Possible(w, s, run)
    ensures AllPrepared(w, After(w, s, run))
    decreases |run|
  {
    hide AllPrepared, Apply, Enabled;
    if run != [] {
      StepKeepsPrepared(w, s, run[0]);
      RunKeepsPrepared(w, Apply(w, s, run[0]), run[1..]);
    }
  }

  /** The writers that take an installation out of a row: a reset, a connector or the
      agent with a value read that does not hold it, a warm start for another one. */
  predicate Unbinds(w: World, op: Op, installation: string)
    requires op.phase.Writing?
  {
    match op.request
    case Patching(_, _) => false
    case Approving(_, _) => false
    case Resetting(_) => true
    case WarmStarting(_, other) => other != installation
    case _ => op.phase.base.Some? && InstallationText(op.phase.base.value, w.printer) != installation
  }

  /** The steps that do: such a write, once the store accepts it, and a delete. */
  predicate Removes(w: World, s: State, a: Action, tenant: string, installation: string)
    requires Enabled(w, s, a)
  {
    match a
    case Write(id, _) =>
      var op := s.ops[id];
      Accepts(s.table, op.request, op.phase.base) && op.request.tenant == tenant && Unbinds(w, op, installation)
    case Delete(deleted) => deleted == tenant
    case _ => false
  }

  /** What an accepted write makes a tenant's row hold. */
  lemma WriteHolds(w: World, s: State, id: nat, answered: bool, tenant: string)
    requires Inv(w, s) && Enabled(w, s, Write(id, answered))
    requires Accepts(s.table, s.ops[id].request, s.ops[id].phase.base)
    ensures HeldBy(w, Apply(w, s, Write(id, answered)).table, tenant) ==
            if tenant == s.ops[id].request.tenant then Some(InstallationText(s.ops[id].phase.next, w.printer))
            else HeldBy(w, s.table, tenant)
  {
    WrittenIsSettled(w, s, id, answered);
    hide Inv, Accepts, InstallationText, LockId, Settled, WriteKey;
  }

  /** An accepted PATCH or approval never finds another installation in the row. */
  lemma NeverUnbinds(w: World, s: State, id: nat, tenant: string, installation: string)
    requires id in s.ops && s.ops[id].phase.Writing? && Prepared(w, s.ops[id])
    requires Accepts(s.table, s.ops[id].request, s.ops[id].phase.base) && s.ops[id].request.tenant == tenant
    requires HeldBy(w, s.table, tenant) == Some(installation) && installation != ""
    ensures InstallationText(s.ops[id].phase.next, w.printer) == installation <==> !Unbinds(w, s.ops[id], installation)
  {
    var request := s.ops[id].request;
    if request.Approving? {
      FreeBindings(s.table, tenant, request.installation, w.printer);
    }
    hide InstallationText, LockId, BindingIsFree, LockIsFree;
  }

  /** An installation that a tenant's row holds, from an approval or otherwise, stays
      there through a step of any request if and only if the step is none of those;
      the lock stays the tenant's in any case. */
  lemma StaysBoundExactly(w: World, s: State, run: seq<Action>, a: Action, tenant: string, installation: string)
    requires Start(w, s) && Possible(w, s, run) && Enabled(w, After(w, s, run), a)
    requires HeldBy(w, After(w, s, run).table, tenant) == Some(installation) && installation != ""
    ensures var now := After(w, s, run);
            var after := Apply(w, now, a).table;
            && (HeldBy(w, after, tenant) == Some(installation) <==> !Removes(w, now, a, tenant, installation))
            && OwnerOf(after, LockId(installation)) == Some(tenant)
  {
    var now := After(w, s, run);
    RunKeepsInv(w, s, run);
    RunKeepsPrepared(w, s, run);
    hide Possible, After, Start;
    LockStays(w, now, a, tenant);
    StepHolds(w, now, a, tenant, installation);
  }

  lemma LockStays(w: World, s: State, a: Action, tenant: string)
    requires Inv(w, s) && Enabled(w, s, a)
    requires HeldBy(w, s.table, tenant).Some? && HeldBy(w, s.table, tenant) != Some("")
    ensures OwnerOf(Apply(w, s, a).table, LockId(HeldBy(w, s.table, tenant).value)) == Some(tenant)
  {
    StepKeepsOwners(w, s, a);
    hide Apply, Enabled, InstallationText, LockId, OpsSettled;
    assert (tenant, ConfigOf(s.table, tenant).value) in s.past;
    assert Settled(w, s.table, tenant, ConfigOf(s.table, tenant).value);
  }

  lemma StepHolds(w: World, s: State, a: Action, tenant: string, installation: string)
    requires Inv(w, s) && AllPrepared(w, s) && Enabled(w, s, a)
    requires HeldBy(w, s.table, tenant) == Some(installation) && installation != ""
    ensures HeldBy(w, Apply(w, s, a).table, tenant) == Some(installation) <==> !Removes(w, s, a, tenant, installation)
  {
    hide InstallationText, AfterRead, AfterLookup, FirstPhase, WarmStarted, LockId, OnlyOf, Accepts, MayRead;
    if a.Write? {
      if Accepts(s.table, s.ops[a.id].request, s.ops[a.id].phase.base) {
        WriteHolds(w, s, a.id, a.answered, tenant);
        if s.ops[a.id].request.tenant == tenant {
          NeverUnbinds(w, s, a.id, tenant, installation);
        }
        hide Apply, Inv;
      } else {
        hide Inv;
      }
    } else {
      hide Inv;
    }
  }

  /** Such as here: a connector that has read any earlier value of the row, from before
      the approval, takes the approved installation out of it. */
  lemma StaleConnectorUnbinds(w: World, s: State, id: nat, tenant: string, earlier: Document, integration: string,
                              gatewayUrl: string)
    requires id !in s.ops && tenant in s.table && (tenant, earlier) in s.past
    requires InstallationText(earlier, w.printer) == "" && Connected(earlier, integration, gatewayUrl).Some?
    ensures var run := [Begin(id, Connecting(tenant, integration, gatewayUrl)), Read(id, Some(earlier)), Write(id, true)];
            Possible(w, s, run) && HeldBy(w, After(w, s, run).table, tenant) == Some("")
  {
    var request := Connecting(tenant, integration, gatewayUrl);
    var begun := Apply(w, s, Begin(id, request));
    var read := Apply(w, begun, Read(id, Some(earlier)));
    var stored := Apply(w, read, Write(id, true));
    ConnectingKeeps(earlier, integration, gatewayUrl, w.printer, tenant);
    hide InstallationText, Connected, PatchOf, DefaultConfig, Canonical, DeepMerge, Approved, LockId, ReadsCleanly, AgentSaved;
    assert read.ops[id].phase == Writing(Some(earlier), Connected(earlier, integration, gatewayUrl).value);
    assert ConfigOf(stored.table, tenant) == Some(read.ops[id].phase.next);
    ThreeSteps(w, s, Begin(id, request), Read(id, Some(earlier)), Write(id, true));
  }

  lemma ThreeSteps(w: World, s: State, a: Action, b: Action, c: Action)
    requires Enabled(w, s, a) && Enabled(w, Apply(w, s, a), b) && Enabled(w, Apply(w, Apply(w, s, a), b), c)
    ensures Possible(w, s, [a, b, c]) && After(w, s, [a, b, c]) == Apply(w, Apply(w, Apply(w, s, a), b), c)
  {
    hide Apply, Enabled;
    var s1 := Apply(w, s, a);
    var s2 := Apply(w, s1, b);
    assert [a, b, c][1..] == [b, c] && [b, c][1..] == [c] && [c][1..] == [];
    assert Possible(w, s2, [c]) && After(w, s2, [c]) == Apply(w, s2, c);
    assert Possible(w, s1, [b, c]) && After(w, s1, [b, c]) == Apply(w, s2, c);
  }
}
