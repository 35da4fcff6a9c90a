/** What every interleaving of the tenants table's writers keeps. */
module TenantSafety {
  import opened Options
  import opened Schemas
  import opened TenantConfig
  import opened TenantModels
  import opened TenantWrites
  import opened TenantProtocol

  // -------------------------------------------------------------- invariant

  /** The configuration names its own tenant, and the installation it holds, if any,
      is locked for that tenant. */
  predicate Settled(w: World, table: Table, tenant: string, config: Document) {
    && Names(config, tenant)
    && var held := InstallationText(config, w.printer);
       held == "" || OwnerOf(table, LockId(held)) == Some(tenant)
  }

  /** ... for every configuration there is or ever was. */
  ghost predicate PastSettled(w: World, s: State) {
    forall entry | entry in s.past :: Settled(w, s.table, entry.0, entry.1)
  }

  ghost predicate StoredIsPast(s: State) {
    forall key | key in s.table && s.table[key].config.Some? :: (key, s.table[key].config.value) in s.past
  }

  /** What the warm start has read holds the installation it asks for. */
  predicate HeldSettled(w: World, table: Table, request: Request, held: Document)
    requires request.WarmStarting?
  {
    Settled(w, table, request.tenant, held) && InstallationText(held, w.printer) == request.installation
  }

  /** ... and for what is on its way into the table. An approval's document only has
      to be for the installation that its own transaction locks. */
  predicate OpSettled(w: World, table: Table, op: Op) {
    match op.phase
    case Looking(held) => op.request.WarmStarting? ==> held.Some? && HeldSettled(w, table, op.request, held.value)
    case Scanning(held) => op.request.WarmStarting? ==> held.Some? && HeldSettled(w, table, op.request, held.value)
    case Listing(read) => op.request.WarmStarting? ==> HeldSettled(w, table, op.request, read)
    case Writing(_, next) =>
      if op.request.Approving? then
        Names(next, op.request.tenant) && InstallationText(next, w.printer) == op.request.installation
      else Settled(w, table, op.request.tenant, next)
    case _ => true
  }

  ghost predicate OpsSettled(w: World, s: State) {
    forall id | id in s.ops :: OpSettled(w, s.table, s.ops[id])
  }

  ghost predicate Inv(w: World, s: State) {
    PastSettled(w, s) && StoredIsPast(s) && OpsSettled(w, s)
  }

  // ------------------------------------------------------------ lock owners

  ghost predicate OwnersKept(was: Table, table: Table) {
    forall key :: OwnerOf(was, key).Some? ==> OwnerOf(table, key) == OwnerOf(was, key)
  }

  /** A lock's owner never changes: no step replaces or removes it. */
  lemma StepKeepsOwners(w: World, s: State, a: Action)
    requires Enabled(w, s, a)
    ensures OwnersKept(s.table, Apply(w, s, a).table)
  {
    hide AfterRead, AfterLookup, FirstPhase, WarmStarted, BindingIsFree, LockId;
  }

  lemma SettledStays(w: World, was: Table, table: Table, tenant: string, config: Document)
    requires OwnersKept(was, table) && Settled(w, was, tenant, config)
    ensures Settled(w, table, tenant, config)
  {
    hide InstallationText, Names, LockId;
  }

  lemma OpSettledStays(w: World, was: Table, table: Table, op: Op)
    requires OwnersKept(was, table) && OpSettled(w, was, op)
    ensures OpSettled(w, table, op)
  {
    hide InstallationText, Names, LockId, OwnersKept, Settled;
    match op.phase
    case Looking(held) =>
      if op.request.WarmStarting? { SettledStays(w, was, table, op.request.tenant, held.value); }
    case Scanning(held) =>
      if op.request.WarmStarting? { SettledStays(w, was, table, op.request.tenant, held.value); }
    case Listing(read) =>
      if op.request.WarmStarting? { SettledStays(w, was, table, op.request.tenant, read); }
    case Writing(_, next) =>
      if !op.request.Approving? { SettledStays(w, was, table, op.request.tenant, next); }
    case _ =>
  }

  // ------------------------------------------------------------ single steps

  /** Whatever past value a request reads, what it prepares to write is settled. */
  lemma ReadingSettles(w: World, s: State, op: Op, seen: Option<Document>)
    requires PastSettled(w, s) && MayRead(s, op.request, seen)
    ensures OpSettled(w, s.table, op.(phase := AfterRead(w, op.request, seen)))
  {
    if seen.Some? {
      ReadIsSettled(w, s, op.request, seen.value);
      hide PastSettled, MayRead, Settled;
      if op.request.Patching? || op.request.Connecting? || op.request.AgentSaving? {
        PreparedIsSettled(w, s.table, op.request, seen.value);
        hide AfterRead;
      } else if op.request.Approving? {
        InstallingWrites(seen.value, op.request.installation, None, [], w.printer, op.request.tenant);
        hide Approved, WarmStarted, InstallationText, Names;
        assert Names(seen.value, op.request.tenant) by { NamesItself(w, s.table, op.request.tenant, seen.value); }
      }
    }
  }

  lemma NamesItself(w: World, table: Table, tenant: string, config: Document)
    requires Settled(w, table, tenant, config)
    ensures Names(config, tenant)
  {
  }

  lemma SettledLike(w: World, table: Table, tenant: string, config: Document, next: Document)
    requires Settled(w, table, tenant, config)
    requires InstallationText(next, w.printer) == InstallationText(config, w.printer)
    requires Names(next, tenant) <==> Names(config, tenant)
    ensures Settled(w, table, tenant, next)
  {
    hide InstallationText, Names, LockId, OwnerOf;
  }

  /** The writers that may not touch the installation do not. */
  lemma PreparedIsSettled(w: World, table: Table, request: Request, read: Document)
    requires Settled(w, table, request.tenant, read)
    requires request.Patching? || request.Connecting? || request.AgentSaving?
    ensures var phase := AfterRead(w, request, Some(read));
            phase.Finished? || (phase.Writing? && Settled(w, table, request.tenant, phase.next))
  {
    var phase := AfterRead(w, request, Some(read));
    hide Settled, PatchOf, Canonical, DeepMerge, Connected, AgentSaved;
    if phase.Writing? {
      match request {
      case Patching(_, body) => PatchingWrites(read, body, w.coerce, w.printer, request.tenant);
      case Connecting(_, integration, gatewayUrl) => ConnectingKeeps(read, integration, gatewayUrl, w.printer, request.tenant);
      case AgentSaving(_, section, value) => AgentWritesKeep(read, w.agentPrompt, section, value, w.coerce, w.printer, request.tenant);
      }
      hide AfterRead, InstallationText, Names;
      SettledLike(w, table, request.tenant, read, phase.next);
    }
  }

  lemma ReadIsSettled(w: World, s: State, request: Request, read: Document)
    requires PastSettled(w, s) && MayRead(s, request, Some(read))
    ensures Settled(w, s.table, request.tenant, read)
  {
    if (request.tenant, read) in s.past {
      hide InstallationText, Names, LockId, OwnerOf;
    } else {
      hide LockId, OwnerOf;
    }
  }

  lemma ConnectingKeeps(current: Document, integration: string, gatewayUrl: string, printer: Printer, tenantId: string)
    requires Connected(current, integration, gatewayUrl).Some?
    ensures var after := Connected(current, integration, gatewayUrl).value;
            && InstallationText(after, printer) == InstallationText(current, printer)
            && (Names(after, tenantId) <==> Names(current, tenantId))
  {
    ConnectingWrites(current, integration, gatewayUrl, printer, tenantId);
    hide *;
  }

  lemma LookupSettles(w: World, table: Table, op: Op, owner: Option<string>)
    requires OpSettled(w, table, op) && (op.phase.Looking? || op.phase.Scanning?) && Installs(op.request)
    ensures OpSettled(w, table, op.(phase := AfterLookup(op.request, op.phase.held, owner)))
  {
    hide Settled, InstallationText;
  }

  lemma ListingSettles(w: World, table: Table, op: Op, defaultRepo: Option<string>, bindings: seq<Json>)
    requires OpSettled(w, table, op) && op.phase.Listing? && op.request.WarmStarting?
    ensures OpSettled(w, table, op.(phase :=
              Writing(Some(op.phase.read), WarmStarted(op.phase.read, op.request.installation, defaultRepo, bindings))))
  {
    InstallingWrites(op.phase.read, op.request.installation, defaultRepo, bindings, w.printer, op.request.tenant);
    hide InstallationText, Names, LockId, OwnerOf, WarmStarted, Approved;
  }

  lemma StartingSettles(w: World, table: Table, request: Request)
    ensures OpSettled(w, table, Op(request, FirstPhase(w, request), 0))
  {
    if request.Resetting? {
      DefaultsWrite(request.tenant, w.prompt, w.printer);
    }
    hide InstallationText, Names, LockId, OwnerOf, DefaultConfig, PatchOf;
  }

  lemma PhaseKeepsInv(w: World, s: State, id: nat, op: Op)
    requires Inv(w, s) && OpSettled(w, s.table, op)
    ensures Inv(w, s.(ops := s.ops[id := op]))
  {
    hide OpSettled, Settled;
  }

  /** Storing what a request has ready, when the store accepts it. */
  lemma WritingKeepsInv(w: World, s: State, id: nat, answered: bool)
    requires Inv(w, s) && Enabled(w, s, Write(id, answered))
    ensures Inv(w, Apply(w, s, Write(id, answered)))
  {
    StepKeepsOwners(w, s, Write(id, answered));
    var op := s.ops[id];
    var after := Apply(w, s, Write(id, answered));
    var next := op.phase.next;
    if !Accepts(s.table, op.request, op.phase.base) {
      hide Accepts;
      PhaseKeepsInv(w, s, id, after.ops[id]);
    } else {
      WrittenIsSettled(w, s, id, answered);
      hide Accepts, Settled, OpSettled, LockId;
      forall entry | entry in after.past ensures Settled(w, after.table, entry.0, entry.1) {
        if entry in s.past {
          SettledStays(w, s.table, after.table, entry.0, entry.1);
        }
      }
      forall other | other in after.ops ensures OpSettled(w, after.table, after.ops[other]) {
        if other == id {
          DoneIsSettled(w, after.table, after.ops[id]);
        } else {
          OpSettledStays(w, s.table, after.table, s.ops[other]);
        }
      }
    }
  }

  lemma DoneIsSettled(w: World, table: Table, op: Op)
    requires op.phase.Finished?
    ensures OpSettled(w, table, op)
  {
  }

  /** What is stored is settled in the table it is stored into, under its own key. */
  lemma WrittenIsSettled(w: World, s: State, id: nat, answered: bool)
    requires Inv(w, s) && Enabled(w, s, Write(id, answered))
    requires Accepts(s.table, s.ops[id].request, s.ops[id].phase.base)
    ensures WriteKey(s.ops[id].request, s.ops[id].phase.next) == s.ops[id].request.tenant
    ensures Settled(w, Apply(w, s, Write(id, answered)).table, s.ops[id].request.tenant, s.ops[id].phase.next)
  {
    StepKeepsOwners(w, s, Write(id, answered));
    var op := s.ops[id];
    assert OpSettled(w, s.table, op);
    hide PastSettled, StoredIsPast, OpsSettled, InstallationText, LockId, BindingIsFree, OwnersKept;
    if !op.request.Approving? {
      SettledStays(w, s.table, Apply(w, s, Write(id, answered)).table, op.request.tenant, op.phase.next);
    }
  }

  /** Every step of every request keeps the invariant. */
  lemma StepKeepsInv(w: World, s: State, a: Action)
    requires Inv(w, s) && Enabled(w, s, a)
    ensures Inv(w, Apply(w, s, a))
  {
    match a
    case Begin(id, request) =>
      StartingSettles(w, s.table, request);
      PhaseKeepsInv(w, s, id, Op(request, FirstPhase(w, request), 0));
    case Read(id, seen) =>
      ReadingSettles(w, s, s.ops[id], seen);
      PhaseKeepsInv(w, s, id, s.ops[id].(phase := AfterRead(w, s.ops[id].request, seen)));
    case LookUpLock(id) =>
      LookingKeepsInv(w, s, id);
    case Scan(id, found) =>
      hide OnlyOf, AfterLookup;
      if ScanSays(found).Ok? {
        LookupSettles(w, s.table, s.ops[id], ScanSays(found).value);
      }
      PhaseKeepsInv(w, s, id, Apply(w, s, a).ops[id]);
    case ListRepos(id, defaultRepo, bindings) =>
      ListingSettles(w, s.table, s.ops[id], defaultRepo, bindings);
      PhaseKeepsInv(w, s, id, Apply(w, s, a).ops[id]);
    case Write(id, answered) =>
      WritingKeepsInv(w, s, id, answered);
    case Recheck(id) =>
      PhaseKeepsInv(w, s, id, Apply(w, s, a).ops[id]);
    case Crash(id) =>
      PhaseKeepsInv(w, s, id, Apply(w, s, a).ops[id]);
    case Delete(tenant) =>
      DeletingKeepsInv(w, s, tenant);
  }

  lemma LookingKeepsInv(w: World, s: State, id: nat)
    requires Inv(w, s) && Enabled(w, s, LookUpLock(id))
    ensures Inv(w, Apply(w, s, LookUpLock(id)))
  {
    var op := s.ops[id];
    var says := LockSays(s.table, op.request.installation);
    hide LockSays;
    if says.Ok? {
      LookupSettles(w, s.table, op, says.value);
    }
    PhaseKeepsInv(w, s, id, Apply(w, s, LookUpLock(id)).ops[id]);
  }

  lemma DeletingKeepsInv(w: World, s: State, tenant: string)
    requires Inv(w, s) && Enabled(w, s, Delete(tenant))
    ensures Inv(w, Apply(w, s, Delete(tenant)))
  {
    var after := Apply(w, s, Delete(tenant));
    StepKeepsOwners(w, s, Delete(tenant));
    hide OwnersKept, Settled, OpSettled;
    forall entry | entry in after.past ensures Settled(w, after.table, entry.0, entry.1) {
      SettledStays(w, s.table, after.table, entry.0, entry.1);
    }
    forall id | id in after.ops ensures OpSettled(w, after.table, after.ops[id]) {
      OpSettledStays(w, s.table, after.table, s.ops[id]);
    }
  }

  // ------------------------------------------------------------- whole runs

  /** The steps of a run, each possible where it is taken. */
  ghost predicate Possible(w: World, s: State, run: seq<Action>)
    decreases |run|
  {
    run == [] || (Enabled(w, s, run[0]) && Possible(w, Apply(w, s, run[0]), run[1..]))
  }

  ghost function After(w: World, s: State, run: seq<Action>): State
    requires Possible(w, s, run)
    decreases |run|
  {
    if run == [] then s else After(w, Apply(w, s, run[0]), run[1..])
  }

  /** A start: no requests, no history but the stored rows', and no configuration
      that holds an installation without its lock or names another tenant. */
  ghost predicate Start(w: World, s: State) {
    && s.ops == map[] && s.log == []
    && StoredIsPast(s) && PastSettled(w, s)
  }

  lemma {:induction false} RunKeepsInv(w: World, s: State, run: seq<Action>)
    requires Inv(w, s) && Possible(w, s, run)
    ensures Inv(w, After(w, s, run)) && OwnersKept(s.table, After(w, s, run).table)
    decreases |run|
  {
    hide Inv, Apply, Enabled, OwnerOf;
    if run != [] {
      StepKeepsInv(w, s, run[0]);
      StepKeepsOwners(w, s, run[0]);
      RunKeepsInv(w, Apply(w, s, run[0]), run[1..]);
    }
  }

  /** In every interleaving no installation is held by two tenants, now or in any
      value a stale reader may still see; its lock names the holder; and lock owners
      are for ever. */
  lemma NoInstallationIsShared(w: World, s: State, run: seq<Action>)
    requires Start(w, s) && Possible(w, s, run)
    ensures var end := After(w, s, run);
            && OwnersKept(s.table, end.table)
            && (forall t, c | (t, c) in end.past && InstallationText(c, w.printer) != "" ::
                  OwnerOf(end.table, LockId(InstallationText(c, w.printer))) == Some(t))
            && (forall t, u | t in end.table && u in end.table && end.table[t].config.Some? && end.table[u].config.Some? ::
                  var held := InstallationText(end.table[t].config.value, w.printer);
                  held != "" && held == InstallationText(end.table[u].config.value, w.printer) ==> t == u)
  {
    RunKeepsInv(w, s, run);
    var end := After(w, s, run);
    hide After, Possible, Start, OpsSettled, InstallationText, LockId, OwnerOf, Names;
    forall t, c | (t, c) in end.past && InstallationText(c, w.printer) != ""
      ensures OwnerOf(end.table, LockId(InstallationText(c, w.printer))) == Some(t)
    {
      assert Settled(w, end.table, (t, c).0, (t, c).1);
    }
  }

  /** Once an installation is locked for a tenant, no other tenant's approval of it
      is accepted in any later state. */
  lemma OthersAreLockedOut(w: World, s: State, run: seq<Action>, installation: string, other: string, base: Option<Document>)
    requires Inv(w, s) && Possible(w, s, run)
    requires OwnerOf(s.table, LockId(installation)).Some? && OwnerOf(s.table, LockId(installation)).value != other
    ensures !Accepts(After(w, s, run).table, Approving(other, installation), base)
  {
    RunKeepsInv(w, s, run);
    hide LockId, OwnerOf, Inv, After, Possible;
  }

  lemma FreeBindings(table: Table, tenant: string, installation: string, printer: Printer)
    requires BindingIsFree(table, tenant, installation) && ConfigOf(table, tenant).Some?
    ensures InstallationText(ConfigOf(table, tenant).value, printer) in {"", installation}
  {
    hide Installation;
  }

  /** An approval's transaction writes both rows or neither: afterwards the lock is
      the tenant's and its configuration holds the installation, in place of none or
      of the same one, or the table is as it was. */
  lemma ApprovalIsAtomic(w: World, s: State, id: nat, answered: bool)
    requires Inv(w, s) && Enabled(w, s, Write(id, answered)) && s.ops[id].request.Approving?
    ensures var request := s.ops[id].request;
            var after := Apply(w, s, Write(id, answered));
            if Accepts(s.table, request, s.ops[id].phase.base) then
              && after.ops[id].phase == Finished(if answered then Done else Failed)
              && OwnerOf(after.table, LockId(request.installation)) == Some(request.tenant)
              && (ConfigOf(s.table, request.tenant).Some? ==>
                    InstallationText(ConfigOf(s.table, request.tenant).value, w.printer) in {"", request.installation})
              && ConfigOf(after.table, request.tenant).Some?
              && InstallationText(ConfigOf(after.table, request.tenant).value, w.printer) == request.installation
            else after.ops[id].phase == Finished(Failed) && after.table == s.table && after.log == s.log
  {
    assert OpSettled(w, s.table, s.ops[id]);
    if BindingIsFree(s.table, s.ops[id].request.tenant, s.ops[id].request.installation) &&
       ConfigOf(s.table, s.ops[id].request.tenant).Some? {
      FreeBindings(s.table, s.ops[id].request.tenant, s.ops[id].request.installation, w.printer);
    }
    hide Inv, InstallationText, LockId, BindingIsFree;
  }
}
