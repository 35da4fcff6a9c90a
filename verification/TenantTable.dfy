/** The bridge's writers of the tenants table as they run, each call finding whatever
    the other writers have made of the table by then (bridge/bridge/tenant_write.py,
    api.py, github_install.py). */
module TenantTable {
  import opened Options
  import opened Schemas
  import opened TenantConfig
  import opened TenantModels
  import opened TenantWrites
  import opened TenantProtocol
  import opened Text
  import InstallationIds
  import RepoWarmStart

  /** One accepted write: the table it found and the table it left. */
  datatype Written = Written(found: Table, left: Table)

  datatype WriteError = RowMissing | ConfigChanged

  /** The condition of an update. */
  predicate MayUpdate(found: Table, tenantId: string, expected: Option<Document>) {
    tenantId in found && (expected.Some? ==> ConfigOf(found, tenantId) == expected)
  }

  /** The table as one client meets it: call number `k` finds `others(k)`, which the
      other writers are free to choose. */
  class TenantsTable {
    const others: nat -> Table
    var calls: nat
    var writes: seq<Written>

    constructor (others: nat -> Table)
      ensures this.others == others && calls == 0 && writes == []
    {
      this.others := others;
      calls := 0;
      writes := [];
    }

    /** A call on the table; the table as the call finds it. */
    method Call() returns (found: Table)
      modifies this`calls
      ensures calls == old(calls) + 1 && found == others(old(calls))
    {
      found := others(calls);
      calls := calls + 1;
    }

    method Store(found: Table, left: Table)
      modifies this`writes
      ensures writes == old(writes) + [Written(found, left)]
    {
      writes := writes + [Written(found, left)];
    }

    /** Overwrite a tenant's configuration; never creates a row. With `expected`, only
        over exactly that configuration. */
    method UpdateTenantRow(tenantId: string, fullConfig: Document, expected: Option<Document>) returns (failed: Option<WriteError>)
      modifies this
      ensures failed == None <==> MayUpdate(others(old(calls)), tenantId, expected)
      ensures failed == None ==>
                && calls == old(calls) + 1
                && writes == old(writes) + [Written(others(old(calls)), StoreConfig(others(old(calls)), tenantId, fullConfig))]
      ensures failed != None ==>
                && calls == old(calls) + 2 && writes == old(writes)
                && failed == Some(if tenantId in others(old(calls) + 1) then ConfigChanged else RowMissing)
    {
      var found := Call();
      if tenantId in found && (expected.None? || ConfigOf(found, tenantId) == expected) {
        Store(found, StoreConfig(found, tenantId, fullConfig));
        return None;
      }
      var existing := Call();
      if tenantId !in existing {
        return Some(RowMissing);
      }
      return Some(ConfigChanged);
    }

    /** Create or reset a tenant's row. */
    method UpsertDefaultTenantRow(tenantId: string, prompt: string) returns (ghost written: Written)
      modifies this
      ensures calls == old(calls) + 1 && writes == old(writes) + [written]
      ensures written.found == others(old(calls)) && Resets(written, tenantId, prompt)
    {
      var found := Call();
      written := Written(found, StoreConfig(found, tenantId, DefaultConfig(tenantId, prompt)));
      Store(found, StoreConfig(found, tenantId, DefaultConfig(tenantId, prompt)));
      hide DefaultConfig;
    }
  }

  /** The tenant has the default configuration, existing locks keep their owners and
      no other row is touched. */
  ghost predicate Resets(written: Written, tenantId: string, prompt: string) {
    && ConfigOf(written.left, tenantId) == Some(DefaultConfig(tenantId, prompt))
    && (forall key :: OwnerOf(written.left, key) == OwnerOf(written.found, key))
    && written.left.Keys == written.found.Keys + {tenantId}
    && (forall key | key in written.found && key != tenantId :: written.left[key] == written.found[key])
  }

  /** A reset leaves a tenant's configuration as it was if and only if it was the
      default; a second reset changes nothing. */
  lemma ResetKeepsExactly(first: Written, second: Written, tenantId: string, prompt: string)
    requires Resets(first, tenantId, prompt) && Resets(second, tenantId, prompt) && second.found == first.left
    ensures ConfigOf(first.left, tenantId) == ConfigOf(first.found, tenantId) <==>
            ConfigOf(first.found, tenantId) == Some(DefaultConfig(tenantId, prompt))
    ensures second.left == first.left
  {
    hide DefaultConfig;
    assert OwnerOf(second.left, tenantId) == OwnerOf(first.left, tenantId);
    assert second.left[tenantId] == first.left[tenantId];
    forall key | key in second.left ensures second.left[key] == first.left[key] {
    }
  }

  // ------------------------------------------------- the protocol's steps

  /** The write is the one the protocol makes of a request that is ready to write. */
  predicate IsWrite(request: Request, phase: Phase, written: Written) {
    phase.Writing? && Accepts(written.found, request, phase.base) && written.left == Left(written.found, request, phase.next)
  }

  /** Such a write is a step of the protocol, whatever else is under way. */
  lemma WriteIsStep(w: World, s: State, id: nat, written: Written)
    requires id in s.ops && s.table == written.found && IsWrite(s.ops[id].request, s.ops[id].phase, written)
    ensures Enabled(w, s, Write(id, true))
    ensures var after := Apply(w, s, Write(id, true));
            after.table == written.left && after.ops[id].phase == Finished(Done)
  {
    hide Accepts, WithLock, WriteKey;
  }

  // ------------------------------------------------------------------ PATCH

  /** A PATCH request, and what each of its plain reads sees: any value at all,
      however stale. */
  datatype PatchRequest = PatchRequest(tenant: string, body: Json, seen: nat -> Option<Document>)

  datatype HttpReply = Updated(config: Document) | NotFound404 | Conflict409 | Invalid422

  /** What attempt `k` would store. */
  function Attempt(request: PatchRequest, k: nat, coerce: Coerce): Option<Document> {
    var patch := PatchOf(request.body, coerce);
    match request.seen(k)
    case None => None
    case Some(current) => if patch.None? then None else Canonical(Bridge, DeepMerge(current, patch.value), coerce)
  }

  /** The write of a successful PATCH: `config` is the canonical form of the value it
      replaces with the patch laid over that very value. */
  predicate PatchesInPlace(w: World, request: PatchRequest, config: Document, written: Written) {
    && ConfigOf(written.found, request.tenant).Some?
    && Patches(request.body, ConfigOf(written.found, request.tenant).value, config, w.coerce)
    && written.left == StoreConfig(written.found, request.tenant, config)
  }

  /** ... made of read `k` as the protocol makes it. */
  predicate PatchStep(w: World, request: PatchRequest, k: nat, written: Written) {
    var protocol := Patching(request.tenant, request.body);
    IsWrite(protocol, AfterRead(w, protocol, request.seen(k)), written)
  }

  lemma PatchWrites(w: World, request: PatchRequest, k: nat, found: Table)
    requires PatchOf(request.body, w.coerce).Some? && Attempt(request, k, w.coerce).Some?
    requires MayUpdate(found, request.tenant, request.seen(k))
    ensures var config := Attempt(request, k, w.coerce).value;
            var written := Written(found, StoreConfig(found, request.tenant, config));
            PatchStep(w, request, k, written) && PatchesInPlace(w, request, config, written)
  {
    hide DeepMerge, Canonical, StoreConfig, PatchOf;
  }

  method PatchTenant(store: TenantsTable, request: PatchRequest, w: World) returns (reply: HttpReply)
    modifies store
    ensures reply.Updated? ==>
              && |store.writes| == |old(store.writes)| + 1 && store.writes[..|old(store.writes)|] == old(store.writes)
              && PatchesInPlace(w, request, reply.config, store.writes[|old(store.writes)|])
              && exists k: nat | k < 3 :: PatchStep(w, request, k, store.writes[|old(store.writes)|])
    ensures !reply.Updated? ==> store.writes == old(store.writes)
    ensures reply.Invalid422? ==>
              || PatchOf(request.body, w.coerce).None?
              || exists k: nat | k < 3 :: request.seen(k).Some? && Attempt(request, k, w.coerce).None?
    ensures reply.NotFound404? ==> exists k: nat | k < 3 ::
              request.seen(k).None? || request.tenant !in store.others(old(store.calls) + 2 * k + 1)
    ensures reply.Conflict409? ==>
              forall k: nat | k < 3 ::
                request.seen(k).Some? && ConfigOf(store.others(old(store.calls) + 2 * k), request.tenant) != request.seen(k)
  {
    hide DeepMerge, Canonical, StoreConfig, PatchStep, PatchesInPlace, PatchOf;
    var patch := PatchOf(request.body, w.coerce);
    if patch.None? {
      return Invalid422;
    }
    for attempt := 0 to PATCH_WRITE_ATTEMPTS
      invariant store.writes == old(store.writes) && store.calls == old(store.calls) + 2 * attempt
      invariant attempt == PATCH_WRITE_ATTEMPTS ==> false
      invariant forall k: nat | k < attempt ::
        request.seen(k).Some? && ConfigOf(store.others(old(store.calls) + 2 * k), request.tenant) != request.seen(k)
    {
      var current := request.seen(attempt);
      if current.None? {
        assert request.seen(attempt).None?;
        return NotFound404;
      }
      var merged := MergeDocuments(current.value, patch.value);
      var canonical := Canonical(Bridge, merged, w.coerce);
      if canonical.None? {
        assert Attempt(request, attempt, w.coerce).None?;
        return Invalid422;
      }
      ghost var found := store.others(store.calls);
      var failed := store.UpdateTenantRow(request.tenant, canonical.value, current);
      if failed == Some(RowMissing) {
        assert request.tenant !in store.others(old(store.calls) + 2 * attempt + 1) && request.seen(attempt).Some?;
        return NotFound404;
      }
      if failed == Some(ConfigChanged) {
        assert ConfigOf(store.others(old(store.calls) + 2 * attempt), request.tenant) != request.seen(attempt);
        if attempt + 1 == PATCH_WRITE_ATTEMPTS {
          return Conflict409;
        }
        continue;
      }
      PatchWrites(w, request, attempt, found);
      assert PatchStep(w, request, attempt, store.writes[|old(store.writes)|]);
      return Updated(canonical.value);
    }
    assert false;
  }

  // -------------------------------------------------- connectors, approvals

  /** A connector, after it has provisioned its integration: an unconditional write of
      what it made of the value it read. */
  method EnableByoForIntegration(store: TenantsTable, tenantId: string, integration: string, gatewayUrl: string,
                                 seen: Option<Document>, ghost w: World)
    returns (ok: bool)
    modifies store
    ensures ok <==> seen.Some? && Connected(seen.value, integration, gatewayUrl).Some? && tenantId in store.others(old(store.calls))
    ensures !ok ==> store.writes == old(store.writes)
    ensures ok ==>
              var found := store.others(old(store.calls));
              var written := Written(found, StoreConfig(found, tenantId, Connected(seen.value, integration, gatewayUrl).value));
              var request := Connecting(tenantId, integration, gatewayUrl);
              store.writes == old(store.writes) + [written] && IsWrite(request, AfterRead(w, request, seen), written)
  {
    hide DeepMerge, StoreConfig;
    if seen.None? {
      return false;
    }
    var current := seen.value;
    var was := Connections(current);
    if was.None? {
      return false;
    }
    var connected := was.value;
    if Str(integration) !in connected {
      connected := connected + [Str(integration)];
    }
    var byoPatch: Document := map[
      "enabled" := Bool(true),
      "gateway_endpoint" := Str(gatewayUrl),
      "gateway_auth" := Null,
      "connected_integrations" := Arr(connected)];
    var merged := MergeDocuments(current, map["byo" := Obj(byoPatch)]);
    var failed := store.UpdateTenantRow(tenantId, merged, None);
    return failed.None?;
  }

  /** An item as the scan projects it. */
  type Scanned = (string, Document)

  /** The tenants whose scanned configuration holds the installation. */
  function Holders(items: seq<Scanned>, installation: string, printer: Printer): set<string> {
    set i | 0 <= i < |items| && InstallationText(items[i].1, printer) == installation :: items[i].0
  }

  function Flat(pages: seq<seq<Scanned>>): seq<Scanned> {
    if pages == [] then [] else Flat(pages[..|pages| - 1]) + pages[|pages| - 1]
  }

  /** Scan the table page by page; `pages` is what the scan returns. */
  method TenantsWithInstallation(pages: seq<seq<Scanned>>, installation: string, printer: Printer) returns (matches: set<string>)
    ensures matches == Holders(Flat(pages), installation, printer)
  {
    hide InstallationText;
    matches := {};
    for p := 0 to |pages|
      invariant matches == Holders(Flat(pages[..p]), installation, printer)
    {
      var page := pages[p];
      ghost var before := Flat(pages[..p]);
      assert pages[..p + 1][..p] == pages[..p] && before + page[..0] == before;
      for i := 0 to |page|
        invariant matches == Holders(before + page[..i], installation, printer)
      {
        OneMoreHolder(before + page[..i], page[i], installation, printer);
        assert before + page[..i + 1] == before + page[..i] + [page[i]];
        if InstallationText(page[i].1, printer) == installation {
          matches := matches + {page[i].0};
        }
      }
      assert page[..|page|] == page;
    }
    assert pages[..|pages|] == pages;
  }

  lemma OneMoreHolder(items: seq<Scanned>, item: Scanned, installation: string, printer: Printer)
    ensures Holders(items + [item], installation, printer) ==
            Holders(items, installation, printer) + if InstallationText(item.1, printer) == installation then {item.0} else {}
  {
    hide InstallationText;
    var all := items + [item];
    forall t | t in Holders(items, installation, printer) ensures t in Holders(all, installation, printer) {
      var i :| 0 <= i < |items| && InstallationText(items[i].1, printer) == installation && items[i].0 == t;
      assert all[i] == items[i];
    }
    assert all[|items|] == item;
  }

  /** A lookup that tells nothing: the bindings contradict each other, or the store
      does not answer. */
  datatype FindError = NotUnique(lookup: LookupError) | StoreFailed

  /** How the store serves a lookup: whether it answers for the lock row, and what
      pages a scan gets if it gets any. */
  datatype Served = Served(lock: bool, pages: Option<seq<seq<Scanned>>>)

  /** Whom an installation is found to be bound to, in the protocol's terms. */
  function BoundTo(found: Table, installation: string, served: Served, printer: Printer): Result<Option<string>, FindError> {
    if !served.lock then Err(StoreFailed)
    else
      match LockSays(found, installation)
      case Err(e) => Err(NotUnique(e))
      case Ok(Some(owner)) => Ok(Some(owner))
      case Ok(None) =>
        if served.pages.None? then Err(StoreFailed)
        else
          match ScanSays(Holders(Flat(served.pages.value), installation, printer))
          case Err(e) => Err(NotUnique(e))
          case Ok(owner) => Ok(owner)
  }

  /** What that means: a lock's owner decides whatever a scan would find; without a
      lock the scan does; and it is an error when the lock has no owner or the store
      fails. */
  ghost predicate Decides(found: Table, installation: string, served: Served, printer: Printer,
                          owner: Result<Option<string>, FindError>)
  {
    var lock := LockId(installation);
    if !served.lock then owner == Err(StoreFailed)
    else if lock in found then
      if OwnerOf(found, lock) in {None, Some("")} then owner == Err(NotUnique(MalformedLock)) else owner == Ok(OwnerOf(found, lock))
    else if served.pages.None? then owner == Err(StoreFailed)
    else ScanDecides(Flat(served.pages.value), installation, printer, owner)
  }

  /** The only holder is the owner, there is none without any, and several holders are
      an error. */
  ghost predicate ScanDecides(items: seq<Scanned>, installation: string, printer: Printer,
                              owner: Result<Option<string>, FindError>)
  {
    && (forall t :: owner == Ok(Some(t)) <==> IsHolder(items, t, installation, printer) && OnlyHolder(items, t, installation, printer))
    && (owner == Ok(None) <==> forall t :: !IsHolder(items, t, installation, printer))
    && (owner == Err(NotUnique(SeveralHolders)) <==>
          exists t, u :: t != u && IsHolder(items, t, installation, printer) && IsHolder(items, u, installation, printer))
  }

  ghost predicate IsHolder(items: seq<Scanned>, tenant: string, installation: string, printer: Printer) {
    exists i :: 0 <= i < |items| && items[i].0 == tenant && InstallationText(items[i].1, printer) == installation
  }

  ghost predicate OnlyHolder(items: seq<Scanned>, tenant: string, installation: string, printer: Printer) {
    forall i | 0 <= i < |items| && InstallationText(items[i].1, printer) == installation :: items[i].0 == tenant
  }

  lemma HoldersAre(items: seq<Scanned>, tenant: string, installation: string, printer: Printer)
    ensures tenant in Holders(items, installation, printer) <==> IsHolder(items, tenant, installation, printer)
    ensures Holders(items, installation, printer) <= {tenant} <==> OnlyHolder(items, tenant, installation, printer)
  {
    hide InstallationText;
    var holders := Holders(items, installation, printer);
    forall i | 0 <= i < |items| && InstallationText(items[i].1, printer) == installation ensures items[i].0 in holders {
    }
  }

  /** A set has more than one element if and only if it has two different ones. */
  lemma SeveralMeans(found: set<string>)
    ensures |found| > 1 <==> exists t, u :: t in found && u in found && t != u
    ensures |found| <= 1 && found != {} ==> exists t :: t in found && found == {t}
  {
    if t, u :| t in found && u in found && t != u {
      assert |found - {t} - {u}| == |found| - 2;
    } else if found != {} {
      var t :| t in found;
      assert found == {t};
    }
  }

  lemma OnlyOfMeans(found: set<string>, t: string)
    requires |found| <= 1
    ensures OnlyOf(found) == Some(t) <==> t in found && found <= {t}
    ensures OnlyOf(found) == None <==> found == {}
  {
    SeveralMeans(found);
  }

  lemma ScanIsDecided(items: seq<Scanned>, installation: string, printer: Printer, owner: Result<Option<string>, FindError>)
    requires var says := ScanSays(Holders(items, installation, printer));
             owner == match says case Err(e) => Err(NotUnique(e)) case Ok(o) => Ok(o)
    ensures ScanDecides(items, installation, printer, owner)
  {
    hide InstallationText, Holders, IsHolder, OnlyHolder, OnlyOf;
    var holders := Holders(items, installation, printer);
    SeveralMeans(holders);
    if |holders| <= 1 {
      OnlyOfMeans(holders, "");
    }
    forall t ensures t in holders <==> IsHolder(items, t, installation, printer)
             ensures owner == Ok(Some(t)) <==>
                     IsHolder(items, t, installation, printer) && OnlyHolder(items, t, installation, printer) {
      HoldersAre(items, t, installation, printer);
      if |holders| <= 1 {
        OnlyOfMeans(holders, t);
      }
    }
  }

  lemma BoundToDecides(found: Table, installation: string, served: Served, printer: Printer)
    ensures Decides(found, installation, served, printer, BoundTo(found, installation, served, printer))
  {
    hide LockId, InstallationText, Holders, ScanDecides, Flat, OnlyOf;
    if served.lock && LockId(installation) !in found && served.pages.Some? {
      ScanIsDecided(Flat(served.pages.value), installation, printer, BoundTo(found, installation, served, printer));
    }
  }

  method FindTenantByInstallation(store: TenantsTable, installation: string, served: Served, printer: Printer)
    returns (owner: Result<Option<string>, FindError>)
    modifies store
    ensures store.calls == old(store.calls) + 1 && store.writes == old(store.writes)
    ensures owner == BoundTo(store.others(old(store.calls)), installation, served, printer)
    ensures Decides(store.others(old(store.calls)), installation, served, printer, owner)
  {
    hide InstallationText, LockId, OnlyOf, Decides;
    var found := store.Call();
    BoundToDecides(found, installation, served, printer);
    if !served.lock {
      return Err(StoreFailed);
    }
    var lock := LockId(installation);
    if lock in found {
      if found[lock].owner in {None, Some("")} {
        return Err(NotUnique(MalformedLock));
      }
      return Ok(found[lock].owner);
    }
    if served.pages.None? {
      return Err(StoreFailed);
    }
    var matches := TenantsWithInstallation(served.pages.value, installation, printer);
    if |matches| > 1 {
      return Err(NotUnique(SeveralHolders));
    }
    return Ok(OnlyOf(matches));
  }

  /** A lookup is the protocol's one or two lookup steps: the phase after them is the
      one the owner found leads to. */
  lemma LookupIsStep(w: World, s: State, t: State, id: nat, served: Served, printer: Printer, scanned: set<string>)
    requires id in s.ops && s.ops[id].phase.Looking? && Installs(s.ops[id].request) && served.lock
    requires BoundTo(s.table, s.ops[id].request.installation, served, printer).Ok?
    requires served.pages.Some? && scanned == Holders(Flat(served.pages.value), s.ops[id].request.installation, printer)
    requires id in t.ops && t.ops[id] == Apply(w, s, LookUpLock(id)).ops[id] && Enabled(w, t, Scan(id, scanned))
    ensures var op := s.ops[id];
            Apply(w, t, Scan(id, scanned)).ops[id].phase ==
            AfterLookup(op.request, op.phase.held, BoundTo(s.table, op.request.installation, served, printer).value)
  {
    hide LockId, Holders, Flat, OnlyOf, InstallationText;
  }

  lemma LockedLookupIsStep(w: World, s: State, id: nat, served: Served, printer: Printer)
    requires id in s.ops && s.ops[id].phase.Looking? && Installs(s.ops[id].request) && served.lock
    requires LockId(s.ops[id].request.installation) in s.table
    requires BoundTo(s.table, s.ops[id].request.installation, served, printer).Ok?
    ensures var op := s.ops[id];
            Apply(w, s, LookUpLock(id)).ops[id].phase ==
            AfterLookup(op.request, op.phase.held, BoundTo(s.table, op.request.installation, served, printer).value)
  {
    hide LockId, Holders, Flat, OnlyOf, InstallationText;
  }

  datatype ApprovalError = LookupFailed(error: FindError) | BoundElsewhere | NoTenant | Unreadable | OtherBinding | NotCommitted

  /** Bind an installation to a tenant: both rows in one transaction, or neither. */
  method ApproveGithubInstallation(store: TenantsTable, tenantId: string, installation: string,
                                   seen: Option<Document>, served: Served, w: World)
    returns (failed: Option<ApprovalError>)
    modifies store
    ensures var owner := BoundTo(store.others(old(store.calls)), installation, served, w.printer);
            && (failed == None <==>
                  && owner.Ok? && owner.value in {None, Some(tenantId)}
                  && seen.Some? && ReadsCleanly(seen.value) && InstallationText(seen.value, w.printer) in {"", installation}
                  && Accepts(store.others(old(store.calls) + 1), Approving(tenantId, installation), seen))
            && (failed == Some(BoundElsewhere) <==> owner.Ok? && owner.value !in {None, Some(tenantId)})
            && (forall e :: failed == Some(LookupFailed(e)) <==> owner == Err(e))
    ensures failed == Some(NoTenant) ==> seen.None?
    ensures failed == Some(Unreadable) ==> seen.Some? && !ReadsCleanly(seen.value)
    ensures failed == Some(OtherBinding) ==> seen.Some? && InstallationText(seen.value, w.printer) !in {"", installation}
    ensures failed == Some(NotCommitted) ==> !Accepts(store.others(old(store.calls) + 1), Approving(tenantId, installation), seen)
    ensures failed != None ==> store.writes == old(store.writes)
    ensures failed == None ==>
              var found := store.others(old(store.calls) + 1);
              var request := Approving(tenantId, installation);
              var written := Written(found, StoreConfig(BindLock(found, LockId(installation), tenantId), tenantId,
                                                        Approved(seen.value, installation)));
              && store.writes == old(store.writes) + [written]
              && IsWrite(request, AfterRead(w, request, seen), written)
  {
    hide InstallationText, DeepMerge, StoreConfig, BindLock, BoundTo, Decides, Accepts, LockId, ReadsCleanly;
    var owner := FindTenantByInstallation(store, installation, served, w.printer);
    if owner.Err? {
      return Some(LookupFailed(owner.error));
    }
    if owner.value.Some? && owner.value != Some(tenantId) {
      return Some(BoundElsewhere);
    }
    if seen.None? {
      return Some(NoTenant);
    }
    var current := seen.value;
    if !ReadsCleanly(current) {
      return Some(Unreadable);
    }
    var prior := InstallationText(current, w.printer);
    if prior != "" && prior != installation {
      return Some(OtherBinding);
    }
    var merged := MergeDocuments(current, map["codebases" := Obj(map["github_installation_id" := Str(installation)])]);
    var found := store.Call();
    if !Accepts(found, Approving(tenantId, installation), seen) {
      return Some(NotCommitted);
    }
    store.Store(found, StoreConfig(BindLock(found, LockId(installation), tenantId), tenantId, merged));
    return None;
  }

  // -------------------------------------------------------------- warm start

  datatype WarmStartError =
    | BadId | TenantMissing | PendingApproval | NotApproved | BindingNotUnique
    | TokenFailed | ListingFailed(error: RepoWarmStart.ListError) | WriteFailed

  /** What the source does not catch. */
  datatype Uncaught = RowUnreadable | IdNotAscii | LookupUnanswered | ListingUnreadable

  datatype WarmStart = WarmStart(defaultRepo: Option<string>, bindings: seq<RepoWarmStart.Binding>, totalAvailable: nat)

  datatype WarmStartEnd = Started(result: WarmStart) | Refuses(error: WarmStartError) | Raises(cause: Uncaught)

  function BindingDocument(b: RepoWarmStart.Binding): Json {
    Obj(map["repo" := Str(b.repo),
            "default_branch" := Str(b.defaultBranch),
            "aliases" := Texts(b.aliases),
            "channels" := Texts(b.channels)])
  }

  function BindingDocuments(bindings: seq<RepoWarmStart.Binding>): seq<Json> {
    seq(|bindings|, i requires 0 <= i < |bindings| => BindingDocument(bindings[i]))
  }

  /** The entries an installation's warm start gets to look at. */
  function Listed(token: string, respond: nat -> RepoWarmStart.Reply): Result<seq<RepoWarmStart.Item>, RepoWarmStart.ListError> {
    if token == "" then Err(RepoWarmStart.TokenRequired)
    else RepoWarmStart.ListedFrom(respond, RepoWarmStart.REPOS_PER_PAGE, RepoWarmStart.MAX_REPOS_TO_FETCH, 1, [])
  }

  /** Against a server that pages a fixed list by a hundred, these are its first five
      hundred entries, if all the pages they are on are served. */
  lemma ListsFiveHundred(token: string, respond: nat -> RepoWarmStart.Reply, all: seq<RepoWarmStart.Item>)
    requires token != "" && RepoWarmStart.Pages(respond, all, 100)
    ensures Listed(token, respond).Ok? ==> Listed(token, respond).value == if |all| <= 500 then all else all[..500]
    ensures (forall page: nat | 1 <= page <= 5 && (page - 1) * 100 <= |all| :: respond(page).Page?) ==> Listed(token, respond).Ok?
  {
    RepoWarmStart.ListingIsExact(respond, all, 100, 500);
    hide RepoWarmStart.ListedFrom;
  }

  /** The installation a readable row holds. */
  function HeldId(w: World, requested: string, seen: Option<Document>): Option<string> {
    if InstallationIds.Normalize(requested).Some? && seen.Some? && ReadsCleanly(seen.value)
    then Some(InstallationText(seen.value, w.printer)) else None
  }

  /** The row holds the requested installation. */
  predicate Matches(w: World, requested: string, seen: Option<Document>) {
    HeldId(w, requested, seen).Some? && HeldId(w, requested, seen) == InstallationIds.Normalize(requested)
  }

  function Lookup(w: World, requested: string, found: Table, served: Served): Result<Option<string>, FindError> {
    match InstallationIds.Normalize(requested)
    case None => Ok(None)
    case Some(id) => BoundTo(found, id, served, w.printer)
  }

  /** ... and the lookup finds it bound to the tenant. */
  predicate Bound(w: World, tenantId: string, requested: string, seen: Option<Document>, found: Table, served: Served) {
    Matches(w, requested, seen) && Lookup(w, requested, found, served) == Ok(Some(tenantId))
  }

  /** The row holds another installation, or the lookup finds another tenant's or none. */
  predicate NotTheirs(w: World, tenantId: string, requested: string, seen: Option<Document>, found: Table, served: Served) {
    && HeldId(w, requested, seen).Some? && HeldId(w, requested, seen).value != "" && IsAscii(HeldId(w, requested, seen).value)
    && (Matches(w, requested, seen) ==>
          var owner := Lookup(w, requested, found, served);
          owner.Ok? && owner.value != Some(tenantId))
  }

  lemma MatchingIdIsPlain(w: World, requested: string, seen: Option<Document>)
    requires Matches(w, requested, seen)
    ensures HeldId(w, requested, seen).value != "" && IsAscii(HeldId(w, requested, seen).value)
  {
    InstallationIds.CanonicalIdIsFixed(requested);
    hide *;
  }

  /** The checks before anything is listed: they pass exactly if the row holds the
      requested installation and the lookup finds it bound to the tenant. */
  method CheckApproval(store: TenantsTable, w: World, tenantId: string, requested: string, seen: Option<Document>, served: Served)
    returns (stop: Option<WarmStartEnd>)
    modifies store
    ensures store.writes == old(store.writes)
    ensures stop == None <==> Bound(w, tenantId, requested, seen, store.others(old(store.calls)), served)
    ensures stop == None ==> store.calls == old(store.calls) + 1
    ensures stop == Some(Raises(RowUnreadable)) <==>
              InstallationIds.Normalize(requested).Some? && seen.Some? && !ReadsCleanly(seen.value)
    ensures stop == Some(Raises(IdNotAscii)) <==> HeldId(w, requested, seen).Some? && !IsAscii(HeldId(w, requested, seen).value)
    ensures stop == Some(Raises(LookupUnanswered)) <==>
              Matches(w, requested, seen) && Lookup(w, requested, store.others(old(store.calls)), served) == Err(StoreFailed)
    ensures stop == Some(Refuses(BadId)) <==> InstallationIds.Normalize(requested).None?
    ensures stop == Some(Refuses(TenantMissing)) <==> InstallationIds.Normalize(requested).Some? && seen.None?
    ensures stop == Some(Refuses(PendingApproval)) <==> HeldId(w, requested, seen) == Some("")
    ensures stop == Some(Refuses(NotApproved)) <==>
              NotTheirs(w, tenantId, requested, seen, store.others(old(store.calls)), served)
    ensures stop == Some(Refuses(BindingNotUnique)) <==>
              Matches(w, requested, seen) && Lookup(w, requested, store.others(old(store.calls)), served).Err? &&
              Lookup(w, requested, store.others(old(store.calls)), served) != Err(StoreFailed)
    ensures stop.Some? ==> stop.value in {
              Raises(RowUnreadable), Raises(IdNotAscii), Raises(LookupUnanswered), Refuses(BadId), Refuses(TenantMissing),
              Refuses(PendingApproval), Refuses(NotApproved), Refuses(BindingNotUnique) }
  {
    hide InstallationText, BoundTo, Decides, LockId, InstallationIds.Normalize, ReadsCleanly, IsAscii;
    var id := InstallationIds.Normalize(requested);
    if id.None? {
      return Some(Refuses(BadId));
    }
    if seen.None? {
      return Some(Refuses(TenantMissing));
    }
    var current := seen.value;
    if !ReadsCleanly(current) {
      return Some(Raises(RowUnreadable));
    }
    var approved := InstallationText(current, w.printer);
    if Matches(w, requested, seen) {
      MatchingIdIsPlain(w, requested, seen);
    }
    if approved == "" {
      EmptyIsAscii();
      return Some(Refuses(PendingApproval));
    }
    if !IsAscii(approved) {
      return Some(Raises(IdNotAscii));
    }
    if approved != id.value {
      return Some(Refuses(NotApproved));
    }
    var owner := FindTenantByInstallation(store, id.value, served, w.printer);
    if owner == Err(StoreFailed) {
      return Some(Raises(LookupUnanswered));
    }
    if owner.Err? {
      return Some(Refuses(BindingNotUnique));
    }
    if owner.value != Some(tenantId) {
      return Some(Refuses(NotApproved));
    }
    return None;
  }

  /** Seed a tenant's repositories from an installation that is approved for it. In
      spite of its promise it raises: exactly when one of the checks does, or when an
      entry of the list cannot be ranked. `token` is the minted installation token, if
      minting it works. */
  method RunInstallWarmStart(store: TenantsTable, w: World, tenantId: string, requested: string, seen: Option<Document>,
                             served: Served, token: Option<string>, respond: nat -> RepoWarmStart.Reply)
    returns (end: WarmStartEnd)
    modifies store
    ensures end == Raises(RowUnreadable) <==>
              InstallationIds.Normalize(requested).Some? && seen.Some? && !ReadsCleanly(seen.value)
    ensures end == Raises(IdNotAscii) <==> HeldId(w, requested, seen).Some? && !IsAscii(HeldId(w, requested, seen).value)
    ensures end == Raises(LookupUnanswered) <==>
              Matches(w, requested, seen) && Lookup(w, requested, store.others(old(store.calls)), served) == Err(StoreFailed)
    ensures end == Refuses(BadId) <==> InstallationIds.Normalize(requested).None?
    ensures end == Refuses(TenantMissing) <==> InstallationIds.Normalize(requested).Some? && seen.None?
    ensures end == Refuses(PendingApproval) <==> HeldId(w, requested, seen) == Some("")
    ensures end == Refuses(NotApproved) <==>
              NotTheirs(w, tenantId, requested, seen, store.others(old(store.calls)), served)
    ensures end == Refuses(BindingNotUnique) <==>
              Matches(w, requested, seen) && Lookup(w, requested, store.others(old(store.calls)), served).Err? &&
              Lookup(w, requested, store.others(old(store.calls)), served) != Err(StoreFailed)
    ensures Bound(w, tenantId, requested, seen, store.others(old(store.calls)), served) <==>
              Selects(token, respond, tenantId in store.others(old(store.calls) + 1), end)
    ensures !end.Started? ==> store.writes == old(store.writes)
    ensures end.Started? ==>
              var found := store.others(old(store.calls) + 1);
              InstallationIds.Normalize(requested).Some? && seen.Some? &&
              var request := WarmStarting(tenantId, InstallationIds.Normalize(requested).value);
              var next := WarmStarted(seen.value, request.installation, end.result.defaultRepo, BindingDocuments(end.result.bindings));
              var written := Written(found, StoreConfig(found, tenantId, next));
              && store.writes == old(store.writes) + [written] && IsWrite(request, Writing(seen, next), written)
              && AfterRead(w, request, seen) == Looking(seen) && AfterLookup(request, seen, Some(tenantId)) == Listing(seen.value)
  {
    SelectionEnds(token, respond);
    hide DeepMerge, StoreConfig, BindingDocuments, Lookup, HeldId, ReadsCleanly, Bound, Matches, NotTheirs;
    hide InstallationIds.Normalize, InstallationText, AfterRead, IsWrite, IsAscii, Selection;
    var stop := CheckApproval(store, w, tenantId, requested, seen, served);
    if stop.Some? {
      return stop.value;
    }
    BoundRequest(w, tenantId, requested, seen, store.others(old(store.calls)), served);
    ghost var id := InstallationIds.Normalize(requested).value;
    var selection := SelectRepos(token, respond);
    if selection.Err? {
      return selection.error;
    }
    var result := selection.value;
    var merged := MergeDocuments(seen.value, map["codebases" := Obj(map[
      "enabled" := Bool(true),
      "github_installation_id" := Str(InstallationIds.Normalize(requested).value),
      "default_repo" := OptionalText(result.defaultRepo),
      "bindings" := Arr(BindingDocuments(result.bindings))])]);
    var failed := store.UpdateTenantRow(tenantId, merged, None);
    if failed.Some? {
      return Refuses(WriteFailed);
    }
    WarmWrites(tenantId, id, seen, merged, store.others(old(store.calls) + 1));
    return Started(result);
  }

  /** The bindings as they are stored: name, branch, and no aliases or channels yet. */
  lemma BindingsAreStored(bindings: seq<RepoWarmStart.Binding>, i: nat)
    requires i < |bindings|
    ensures |BindingDocuments(bindings)| == |bindings| && BindingDocuments(bindings)[i].Obj?
    ensures var stored := BindingDocuments(bindings)[i].fields;
            && Entry(stored, "repo") == Some(Str(bindings[i].repo))
            && Entry(stored, "default_branch") == Some(Str(bindings[i].defaultBranch))
            && (bindings[i].aliases == [] ==> Entry(stored, "aliases") == Some(Arr([])))
            && (bindings[i].channels == [] ==> Entry(stored, "channels") == Some(Arr([])))
  {
    assert Texts([]) == Arr([]);
  }

  lemma WarmWrites(tenantId: string, id: string, seen: Option<Document>, next: Document, found: Table)
    requires tenantId in found
    ensures IsWrite(WarmStarting(tenantId, id), Writing(seen, next), Written(found, StoreConfig(found, tenantId, next)))
  {
  }

  /** What follows the checks: the selection fails, or the row is gone, or what was
      selected has been stored. */
  predicate Selects(token: Option<string>, respond: nat -> RepoWarmStart.Reply, rowExists: bool, end: WarmStartEnd) {
    match Selection(token, respond)
    case Err(e) => end == e
    case Ok(result) => end == if rowExists then Started(result) else Refuses(WriteFailed)
  }

  /** No token, no listing, an entry that cannot be ranked, or the bindings and default
      of what was listed. */
  function Selection(token: Option<string>, respond: nat -> RepoWarmStart.Reply): Result<WarmStart, WarmStartEnd> {
    if token.None? then Err(Refuses(TokenFailed))
    else
      match Listed(token.value, respond)
      case Err(e) => Err(Refuses(ListingFailed(e)))
      case Ok(items) =>
        match RepoWarmStart.ReposOf(items)
        case None => Err(Raises(ListingUnreadable))
        case Some(repos) =>
          var bindings := RepoWarmStart.Bound(RepoWarmStart.Top(repos));
          Ok(WarmStart(if bindings == [] then None else Some(bindings[0].repo), bindings, |repos|))
  }

  method SelectRepos(token: Option<string>, respond: nat -> RepoWarmStart.Reply)
    returns (selection: Result<WarmStart, WarmStartEnd>)
    ensures selection == Selection(token, respond)
    ensures selection == Err(Raises(ListingUnreadable)) <==>
              token.Some? && Listed(token.value, respond).Ok? && RepoWarmStart.Unreadable in Listed(token.value, respond).value
    ensures selection.Ok? ==>
              && token.Some? && Listed(token.value, respond).Ok?
              && selection.value.totalAvailable == |Listed(token.value, respond).value|
              && (selection.value.defaultRepo.Some? ==> exists repos, i ::
                    RepoWarmStart.ReposOf(Listed(token.value, respond).value) == Some(repos) &&
                    RepoWarmStart.BestNamed(repos, i, selection.value.defaultRepo.value))
  {
    hide RepoWarmStart.Top, RepoWarmStart.Bound, RepoWarmStart.ListedFrom, RepoWarmStart.BestNamed;
    if token.None? {
      return Err(Refuses(TokenFailed));
    }
    var listed := RepoWarmStart.ListInstallationRepos(
      token.value, respond, RepoWarmStart.REPOS_PER_PAGE, RepoWarmStart.MAX_REPOS_TO_FETCH);
    if listed.Err? {
      return Err(Refuses(ListingFailed(listed.error)));
    }
    var repos := RepoWarmStart.ReposOf(listed.value);
    if repos.None? {
      return Err(Raises(ListingUnreadable));
    }
    var defaultRepo, bindings := RepoWarmStart.ChooseRepos(repos.value);
    return Ok(WarmStart(defaultRepo, bindings, |repos.value|));
  }

  lemma SelectionEnds(token: Option<string>, respond: nat -> RepoWarmStart.Reply)
    ensures Selection(token, respond).Err? ==>
              var end := Selection(token, respond).error;
              end in {Refuses(TokenFailed), Raises(ListingUnreadable)} || (end.Refuses? && end.error.ListingFailed?)
  {
  }

  lemma BoundRequest(w: World, tenantId: string, requested: string, seen: Option<Document>, found: Table, served: Served)
    requires Bound(w, tenantId, requested, seen, found, served)
    ensures InstallationIds.Normalize(requested).Some? && seen.Some?
    ensures var request := WarmStarting(tenantId, InstallationIds.Normalize(requested).value);
            AfterRead(w, request, seen) == Looking(seen)
  {
    MatchingIdIsPlain(w, requested, seen);
    hide InstallationText, InstallationIds.Normalize, ReadsCleanly, BoundTo;
  }

  lemma EmptyIsAscii()
    ensures IsAscii("")
  {
  }
}
