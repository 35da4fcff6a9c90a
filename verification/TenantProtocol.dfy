/** The tenants table under all its writers at once: PATCH requests, connectors, the
    warm start, OAuth reinstalls, GitHub approvals and the agent's settings tool. Each
    call on the table is one step; a request's plain reads may return any value its
    row ever had. */
module TenantProtocol {
  import opened Options
  import opened Schemas
  import opened TenantConfig
  import opened TenantModels
  import opened TenantWrites

  // ------------------------------------------------------------------ state

  /** An item: a tenant's configuration, or an installation's lock. */
  datatype Row = Row(config: Option<Document>, owner: Option<string>)

  type Table = map<string, Row>

  function LockId(installation: string): string {
    "__github_installation__#" + installation
  }

  function OwnerOf(table: Table, key: string): Option<string> {
    if key in table then table[key].owner else None
  }

  function ConfigOf(table: Table, key: string): Option<Document> {
    if key in table then table[key].config else None
  }

  datatype Request =
    | Patching(tenant: string, body: Json)
    | Connecting(tenant: string, integration: string, gatewayUrl: string)
    | WarmStarting(tenant: string, installation: string)
    | Resetting(tenant: string)
    | Approving(tenant: string, installation: string)
    | AgentSaving(tenant: string, section: string, value: Json)

  datatype Outcome = Done | NotFound | Conflict | Invalid | Failed

  /** How far a request has come. */
  datatype Phase =
    | Reading
    | Looking(held: Option<Document>)
    | Scanning(held: Option<Document>)
    | Listing(read: Document)
    | Writing(base: Option<Document>, next: Document)
    | Rechecking
    | Finished(outcome: Outcome)

  datatype Op = Op(request: Request, phase: Phase, attempt: nat)

  /** One change of the table's configurations. */
  datatype Change =
    | Stored(writer: nat, tenant: string, before: Option<Document>, after: Document)
    | Deleted(tenant: string)

  /** `past` has every configuration a row ever had, `log` every change in order. */
  datatype State = State(table: Table, ops: map<nat, Op>, past: set<(string, Document)>, log: seq<Change>)

  /** The parts of the environment that are left open. */
  datatype World = World(coerce: Coerce, printer: Printer, prompt: string, agentPrompt: string)

  const PATCH_WRITE_ATTEMPTS := 3

  // ------------------------------------------------------------------ steps

  datatype Action =
    | Begin(id: nat, request: Request)
    | Read(id: nat, seen: Option<Document>)
    | LookUpLock(id: nat)
    | Scan(id: nat, found: set<string>)
    | ListRepos(id: nat, defaultRepo: Option<string>, bindings: seq<Json>)
    | Write(id: nat, answered: bool)
    | Recheck(id: nat)
    | Crash(id: nat)
    | Delete(tenant: string)

  function FirstPhase(w: World, request: Request): Phase {
    match request
    case Patching(_, body) => if PatchOf(body, w.coerce).None? then Finished(Invalid) else Reading
    case Resetting(tenant) => Writing(None, DefaultConfig(tenant, w.prompt))
    case Approving(_, _) => Looking(None)
    case _ => Reading
  }

  /** What a request does with the row it has read. */
  function AfterRead(w: World, request: Request, seen: Option<Document>): Phase {
    match request
    case Patching(_, body) =>
      if seen.None? then Finished(NotFound)
      else if PatchOf(body, w.coerce).None? then Finished(Invalid)
      else
        var next := Canonical(Bridge, DeepMerge(seen.value, PatchOf(body, w.coerce).value), w.coerce);
        if next.None? then Finished(Invalid) else Writing(seen, next.value)
    case Connecting(_, integration, gatewayUrl) =>
      if seen.None? || Connected(seen.value, integration, gatewayUrl).None? then Finished(Failed)
      else Writing(seen, Connected(seen.value, integration, gatewayUrl).value)
    case WarmStarting(_, installation) =>
      if seen.None? || !ReadsCleanly(seen.value) then Finished(Failed)
      else
        var approved := InstallationText(seen.value, w.printer);
        if approved == "" || approved != installation then Finished(Failed) else Looking(seen)
    case Approving(_, installation) =>
      if seen.None? then Finished(NotFound)
      else if !ReadsCleanly(seen.value) then Finished(Failed)
      else
        var prior := InstallationText(seen.value, w.printer);
        if prior != "" && prior != installation then Finished(Conflict)
        else Writing(seen, Approved(seen.value, installation))
    case AgentSaving(_, section, value) =>
      if seen.None? then Finished(Failed)
      else
        var next := AgentSaved(seen.value, w.agentPrompt, section, value, w.coerce);
        if next.None? then Finished(Failed) else Writing(seen, next.value)
    case Resetting(_) => Finished(Failed)
  }

  /** What a request does once it knows whom the installation is bound to. */
  function AfterLookup(request: Request, held: Option<Document>, owner: Option<string>): Phase {
    if request.Approving? then
      if owner.Some? && owner.value != request.tenant then Finished(Conflict) else Reading
    else if held.None? || owner != Some(request.tenant) then Finished(Failed)
    else Listing(held.value)
  }

  datatype LookupError = MalformedLock | SeveralHolders

  /** Whom the lock row says an installation is bound to, if there is one. */
  function LockSays(table: Table, installation: string): Result<Option<string>, LookupError> {
    var lock := LockId(installation);
    if lock !in table then Ok(None)
    else if table[lock].owner in {None, Some("")} then Err(MalformedLock)
    else Ok(table[lock].owner)
  }

  /** The unique element of a set of at most one. */
  function OnlyOf(found: set<string>): Option<string> {
    if exists t | t in found :: found == {t} then var t :| t in found && found == {t}; Some(t) else None
  }

  /** Whom a scan that found these tenants says it is bound to. */
  function ScanSays(found: set<string>): Result<Option<string>, LookupError> {
    if |found| > 1 then Err(SeveralHolders) else Ok(OnlyOf(found))
  }

  function StoreConfig(table: Table, key: string, config: Document): Table {
    table[key := Row(Some(config), OwnerOf(table, key))]
  }

  function BindLock(table: Table, key: string, owner: string): Table {
    table[key := Row(ConfigOf(table, key), Some(owner))]
  }

  /** The condition of the approval's transaction on the tenant's row. */
  predicate BindingIsFree(table: Table, tenant: string, installation: string) {
    tenant in table &&
    match ConfigOf(table, tenant)
    case None => true
    case Some(config) => Installation(config) in {Null, Str(installation)}
  }

  /** ... and on the lock row. */
  predicate LockIsFree(table: Table, tenant: string, installation: string) {
    OwnerOf(table, LockId(installation)) in {None, Some(tenant)}
  }

  /** The row a write goes to: the agent's store uses the id inside the document. */
  function WriteKey(request: Request, next: Document): string {
    if request.AgentSaving? && "tenant_id" in next && next["tenant_id"].Str? then next["tenant_id"].text else request.tenant
  }

  /** Whether the store accepts the write. */
  predicate Accepts(table: Table, request: Request, base: Option<Document>) {
    match request
    case Patching(tenant, _) => tenant in table && base.Some? && ConfigOf(table, tenant) == base
    case Connecting(tenant, _, _) => tenant in table
    case WarmStarting(tenant, _) => tenant in table
    case Resetting(_) => true
    case AgentSaving(_, _, _) => true
    case Approving(tenant, installation) =>
      && tenant != LockId(installation)
      && LockIsFree(table, tenant, installation)
      && BindingIsFree(table, tenant, installation)
  }

  function SetPhase(s: State, id: nat, phase: Phase): State
    requires id in s.ops
  {
    s.(ops := s.ops[id := s.ops[id].(phase := phase)])
  }

  function StoreLogged(s: State, id: nat, key: string, next: Document): State {
    s.(table := StoreConfig(s.table, key, next),
       past := s.past + {(key, next)},
       log := s.log + [Stored(id, key, ConfigOf(s.table, key), next)])
  }

  /** The table with the lock row an approval writes beside the configuration. */
  function WithLock(table: Table, request: Request): Table {
    if request.Approving? then BindLock(table, LockId(request.installation), request.tenant) else table
  }

  /** What an accepted write leaves. */
  function Left(table: Table, request: Request, next: Document): Table {
    StoreConfig(WithLock(table, request), WriteKey(request, next), next)
  }

  /** The store takes the write or refuses it, and the request hears of it or not:
      a write may be stored although its request then fails. */
  function ApplyWrite(s: State, id: nat, answered: bool): State
    requires id in s.ops && s.ops[id].phase.Writing?
  {
    var op := s.ops[id];
    var next := op.phase.next;
    if !Accepts(s.table, op.request, op.phase.base) then
      SetPhase(s, id, if answered && op.request.Patching? then Rechecking else Finished(Failed))
    else
      var bound := s.(table := WithLock(s.table, op.request));
      SetPhase(StoreLogged(bound, id, WriteKey(op.request, next), next), id, Finished(if answered then Done else Failed))
  }

  function ApplyRecheck(s: State, id: nat): State
    requires id in s.ops && s.ops[id].phase.Rechecking?
  {
    var op := s.ops[id];
    if op.request.tenant !in s.table then SetPhase(s, id, Finished(NotFound))
    else if op.attempt + 1 == PATCH_WRITE_ATTEMPTS then SetPhase(s, id, Finished(Conflict))
    else s.(ops := s.ops[id := Op(op.request, Reading, op.attempt + 1)])
  }

  /** What a plain read of a row may return: nothing, or any of its past values. The
      agent reads an item without configuration as one that only has its id. */
  predicate MayRead(s: State, request: Request, seen: Option<Document>) {
    seen.Some? ==>
      || (request.tenant, seen.value) in s.past
      || (request.AgentSaving? && seen.value == map["tenant_id" := Str(request.tenant)])
  }

  predicate Installs(request: Request) {
    request.WarmStarting? || request.Approving?
  }

  predicate Enabled(w: World, s: State, a: Action) {
    match a
    case Begin(id, _) => id !in s.ops
    case Read(id, seen) => id in s.ops && s.ops[id].phase.Reading? && MayRead(s, s.ops[id].request, seen)
    case LookUpLock(id) => id in s.ops && s.ops[id].phase.Looking? && Installs(s.ops[id].request)
    case Scan(id, found) =>
      && id in s.ops && s.ops[id].phase.Scanning? && Installs(s.ops[id].request)
      && forall t | t in found ::
           exists entry | entry in s.past :: entry.0 == t && InstallationText(entry.1, w.printer) == s.ops[id].request.installation
    case ListRepos(id, _, _) => id in s.ops && s.ops[id].phase.Listing? && s.ops[id].request.WarmStarting?
    case Write(id, _) => id in s.ops && s.ops[id].phase.Writing?
    case Recheck(id) => id in s.ops && s.ops[id].phase.Rechecking?
    case Crash(id) => id in s.ops && !s.ops[id].phase.Finished?
    case Delete(tenant) => tenant in s.table && s.table[tenant].owner.None?
  }

  function AfterLock(op: Op, says: Result<Option<string>, LookupError>): Phase
    requires op.phase.Looking?
  {
    match says
    case Err(_) => Finished(Conflict)
    case Ok(None) => Scanning(op.phase.held)
    case Ok(owner) => AfterLookup(op.request, op.phase.held, owner)
  }

  function AfterScan(op: Op, says: Result<Option<string>, LookupError>): Phase
    requires op.phase.Scanning?
  {
    match says
    case Err(_) => Finished(Conflict)
    case Ok(owner) => AfterLookup(op.request, op.phase.held, owner)
  }

  function Apply(w: World, s: State, a: Action): State
    requires Enabled(w, s, a)
  {
    match a
    case Begin(id, request) => s.(ops := s.ops[id := Op(request, FirstPhase(w, request), 0)])
    case Read(id, seen) => SetPhase(s, id, AfterRead(w, s.ops[id].request, seen))
    case LookUpLock(id) => SetPhase(s, id, AfterLock(s.ops[id], LockSays(s.table, s.ops[id].request.installation)))
    case Scan(id, found) => SetPhase(s, id, AfterScan(s.ops[id], ScanSays(found)))
    case ListRepos(id, defaultRepo, bindings) =>
      var op := s.ops[id];
      SetPhase(s, id, Writing(Some(op.phase.read), WarmStarted(op.phase.read, op.request.installation, defaultRepo, bindings)))
    case Write(id, answered) => ApplyWrite(s, id, answered)
    case Recheck(id) => ApplyRecheck(s, id)
    case Crash(id) => SetPhase(s, id, Finished(Failed))
    case Delete(tenant) => s.(table := s.table - {tenant}, log := s.log + [Deleted(tenant)])
  }
}
