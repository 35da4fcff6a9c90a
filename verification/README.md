# A verified model of the bridge and the sandbox agent

This project models the parts of the system where concurrent state, real
arithmetic or exact text decide correctness, and proves what they promise.
`dafny verify dfyconfig.toml` checks all of it.

- **Tenants table** (`TenantProtocol`, `TenantSafety`, `TenantLog`, `TenantBindings`,
  `TenantApprovals`, `TenantTable`).
  PATCH requests, connectors, the GitHub warm start, OAuth reinstalls, GitHub
  approvals and the agent's settings tool share one DynamoDB row per tenant. The
  protocol interleaves their calls; a plain read may return any value its row ever
  had. `TenantTable` has the same writers as methods, each call finding whatever the
  others have made of the table. `Schemas`, `TenantConfig`, `TenantModels`,
  `TenantWrites`, `TenantPatches` and `TenantCanonical` hold the configuration itself:
  the API's declarative models, the one-level merge, what every writer keeps and sets;
  `InstallationIds` has the canonical form of a GitHub installation id.
- **Streaming reply** (`SlackStream`, `SlackProtocol`, `SlackSafety`). Producer, tick
  loop and sender with their two queues, over a Slack that may refuse a call or
  accept it and lose the reply. `SlackStream` has the loops as methods, the protocol
  interleaves the tasks.
- **Token bucket** (`RateLimiter`). The pruning limiter against one that never
  forgets.
- **Codecs and text** (`BitPacking`, `TargetNames`, `JwtNumbers`, `SseFrames`,
  `AuditText`, `SkillTriggers`, `EditTool`, `PrMetadata`, on top of `Text`).
  Base32 is that of section 6 of RFC 4648, Base64urlUInt that of sections 2 and
  6.3.1 of RFC 7518, UTF-8 that of section 3 of RFC 3629; event streams follow
  section 9.2 of the WHATWG HTML Standard only as leniently as the code does.
- **Sandbox agent loop** (`AgentLoop`). A budgeted conversation with an arbitrary
  model: transcripts, spending, and what the final error means.
- **Repository warm start** (`RepoWarmStart`). Pagination, ranking and selection.

Starting points that are assumed: in the tenants table no stored configuration holds
an installation without its lock row or names another tenant (`TenantSafety.Start`);
the limiter's clock values do not decrease (`RateLimiter.Ordered`).

Where the code and what is promised for it part, the model follows the code and the
exact condition is proved, mostly with a concrete input that fails:

- A reply that returns normally is shown as it was produced, and its stream stopped,
  exactly when some start call was answered with a timestamp. Without one the whole
  text is posted behind what was streamed, so Slack shows it twice; an empty reply is
  shown as a stand-in (`SlackSafety.NormalCompletion`, `SlackSafety.StoppedExactly`,
  `SlackSafety.MissingTimestampRepeatsTheReply`). A second stream is started exactly
  when the first start call is answered without a timestamp and there is more to send
  (`SlackSafety.OneStartExactly`, `SlackSafety.MissingTimestampStartsTwice`).
- `run_install_warm_start` promises never to raise. It raises exactly when the row's
  `codebases` cannot be read, the stored id is not ASCII, the lookup gets no answer, or
  a listed repository cannot be ranked (`TenantTable.RunInstallWarmStart`,
  `TenantTable.SelectRepos`, `TenantWrites.TextCodebasesRaise`).
- `upsert_default_tenant_row` is called idempotent and compared to `if_not_exists`.
  Repeating it changes nothing, but it keeps a configuration exactly when that is the
  default already (`TenantTable.ResetKeepsExactly`).
- `patch_tenant` speaks of patching `byo`; a body with that field, or any other
  operator-owned one, is refused (`TenantModels.OperatorFieldsAreRefused`).
- The skill-trigger scanner agrees with the engine about repeated groups exactly when
  a group is repeated in its sight, or when stretches of text that mislead it and
  groups repeated out of its sight occur both or neither
  (`SkillTriggers.ScannerIsExact`). Out of sight are a quantifier behind an optional
  one, which repeats the "optional groups" the source lets pass
  (`SkillTriggers.OptionalGroupIsMissed`), one behind white space in verbose mode
  (`SkillTriggers.SpacedGroupIsMissed`) and whatever follows a bracket in a comment or
  a name (`SkillTriggers.CommentBlinds`); a class can mislead it
  (`SkillTriggers.ClassIsTakenForGroup`).
- `edit_file` keeps the rest of the file exactly when the file has no carriage return
  (`EditTool.EditIsLocalExactly`, `EditTool.CarriageReturnIsLost`), and a count of one
  means a single occurrence exactly for border-free texts
  (`EditTool.CountDecidesUniqueness`). An edit that does not succeed leaves the file
  alone exactly unless it fails after the file was opened, which empties it; an edit
  let through whose replacement holds a lone surrogate fails there
  (`EditTool.EditReplacesLeftmost`, `EditTool.SurrogateEmptiesTheFile`).
- The warm start promises that a default repository set by hand survives; it does
  exactly when it is the one chosen anyway (`TenantWrites.WarmStartKeepsExactly`,
  `TenantWrites.OverrideIsLost`).
- An approved installation stays in the tenant's row exactly until a delete, a reset, a
  warm start for another one, or a connector's or the agent's write of a value read
  without it; its lock stays in any case (`TenantBindings.StaysBoundExactly`,
  `TenantBindings.StaleConnectorUnbinds`).
- A tenant reaches all its tools under exactly the delimiters that never start inside a
  target name, as the default of three underscores never does
  (`TargetNames.DelimitersExactly`).
- A truncated audit field fits its limit exactly when it fitted before or the limit is
  at least 3 (`AuditText.FitsExactly`).
- Printed pull-request metadata parses back exactly when no marker stands where the
  parser looks first (`PrMetadata.RoundTripsExactly`).
- Two PATCH bodies one after the other are their merge exactly when the first does
  not drop a section that the second sets anew (`TenantConfig.PatchesCompose`).
- The agent's loop sends an empty user message exactly when an earlier reply stopped
  for tools without asking for one and no budget warning followed
  (`AgentLoop.NothingEmptyExactly`).

## Model

| member | source | states |
|---|---|---|
| TenantSafety.NoInstallationIsShared | bridge/bridge/tenant_write.py:707-793 | In every interleaving of all writers with stale reads, no installation is held by two tenants, every value a reader may still see is covered by its lock, and lock owners never change |
| TenantSafety.StepKeepsInv | bridge/bridge/tenant_write.py:424-793 | Every single step of every writer keeps the invariant, including what requests in flight hold ready to write |
| TenantSafety.StepKeepsOwners | bridge/bridge/tenant_write.py:743-766 | No step replaces or removes the owner of a lock row |
| TenantSafety.ReadingSettles | bridge/bridge/api.py:304-328 | Whatever past value a request has read, what it prepares to write holds only an installation locked for its tenant, or the one its own transaction will lock |
| TenantSafety.ApprovalIsAtomic | bridge/bridge/tenant_write.py:743-793 | An approval writes both rows, after which the lock is the tenant's and its configuration holds the installation in place of none or of the same one, or changes nothing |
| TenantSafety.OthersAreLockedOut | bridge/bridge/tenant_write.py:755-758 | Once an installation is locked for a tenant no later approval of it for another tenant is accepted |
| TenantBindings.StaysBoundExactly | bridge/bridge/tenant_write.py:743-793 | After any run, a step takes a held installation out of a tenant's row if and only if it is a delete, a reset, a warm start for another, or a connector's or agent's write of a value read without it; the lock stays |
| TenantBindings.StaleConnectorUnbinds | bridge/bridge/api.py:304-328 | A connector that read any earlier value without the installation removes it |
| TenantApprovals.CommitsExactly | bridge/bridge/tenant_write.py:500-793 | Row by row, when the store takes each kind of write, an approval's transaction among them, and how its request then ends |
| TenantApprovals.LockedApproval | bridge/bridge/tenant_write.py:707-793 | The approval of an installation whose lock is the tenant's already succeeds and is stored |
| TenantApprovals.FirstApproval | bridge/bridge/tenant_write.py:707-793 | The first approval of an installation nobody has succeeds and is stored |
| TenantApprovals.ReapprovalAfterReset | bridge/bridge/tenant_write.py:424-793 | After a reinstall reset a row whose tenant has the lock, approving again puts the installation back |
| TenantApprovals.LockLeads | bridge/bridge/tenant_write.py:617-659 | Row by row where the lock leads an approval and a warm start: on, to the scan, or to an end |
| TenantApprovals.GivesUpTheThirdTime | bridge/bridge/api.py:170-212 | In any run a PATCH that ends with 409 has found its write refused exactly three times |
| TenantLog.PatchIsOneStep | bridge/bridge/api.py:170-212 | A successful PATCH is exactly one entry of the table's history, taking the value stored at that moment to the canonical form of that value with the patch merged in; a 404, 409, 422 or unfinished request has no entry; one that failed unanswered has at most that one |
| TenantLog.RunIsLogged | bridge/bridge/tenant_write.py:500-552 | The log of all writes replays to the table, each entry records the value it replaced, and a request has one entry if it succeeded, at most one if it failed without an answer, none otherwise |
| TenantLog.PatchedKeepsOperatorFields | bridge/bridge/api_models.py:329-358 | That step leaves tenant id, gateway settings, cost cap, admins, test marker, memory namespace and installation as their stored values validate |
| TenantTable.PatchTenant | bridge/bridge/api.py:170-212 | The retry loop, under any other writers and any reads: success is one in-place write of the merged value found, as the protocol's step makes it; failure writes nothing, 422 means a merge was invalid, 409 that all three reads differed from the stored value |
| TenantTable.TenantsTable.UpdateTenantRow | bridge/bridge/tenant_write.py:500-552 | The write happens exactly if the row exists and equals the expected value; otherwise a second read tells a missing row from a changed one |
| TenantTable.TenantsTable.UpsertDefaultTenantRow | bridge/bridge/tenant_write.py:424-452 | A reinstall leaves the tenant with the default configuration, every lock with its owner and every other row as it was |
| TenantTable.ResetKeepsExactly | bridge/bridge/tenant_write.py:424-452 | A reset keeps the configuration if and only if it was the default; a second one changes nothing |
| TenantTable.EnableByoForIntegration | bridge/bridge/api.py:304-328 | The connector's unconditional write of what it made of the value it read, exactly when the row exists and could be read, as the protocol's step makes it |
| TenantTable.WriteIsStep | bridge/bridge/tenant_write.py:424-552 | Every write the methods make is an enabled step of the protocol and leaves its table |
| TenantTable.TenantsWithInstallation | bridge/bridge/tenant_write.py:576-608 | The paged scan collects exactly the tenants whose scanned configuration holds the installation |
| TenantTable.FindTenantByInstallation | bridge/bridge/tenant_write.py:635-659 | A lock with an owner decides whatever a scan would find; without a lock a tenant is found if and only if it is the only holder, none if nobody holds it, an error if two do; a lock without owner or a store that does not answer is an error |
| TenantTable.BoundToDecides | bridge/bridge/tenant_write.py:635-659 | The protocol's lock and scan steps come to just that |
| TenantTable.LookupIsStep | bridge/bridge/tenant_write.py:635-659 | A lookup without a lock row leads a request where the protocol's two lookup steps lead it |
| TenantTable.LockedLookupIsStep | bridge/bridge/tenant_write.py:635-659 | A lookup with a lock row leads it where the one lookup step does |
| TenantTable.ApproveGithubInstallation | bridge/bridge/tenant_write.py:707-813 | An approval goes through exactly if lookup, prior binding and the transaction's conditions allow it, and then writes both rows at once, as the protocol's step does; otherwise it writes nothing |
| TenantTable.RunInstallWarmStart | bridge/bridge/github_install.py:242-389 | Exactly which condition makes the warm start raise or refuse; past the checks, which pass exactly if row and lookup bind the installation to the tenant, it stores the selected bindings and default or fails with the listing, and a failure writes nothing |
| TenantTable.CheckApproval | bridge/bridge/github_install.py:264-324 | The checks pass exactly if the row holds the requested installation and the lookup finds it bound to the tenant; each other end has its exact condition |
| TenantTable.SelectRepos | bridge/bridge/github_install.py:326-347 | What is selected from the listing; it raises exactly when the listing holds an entry that cannot be ranked |
| TenantTable.ListsFiveHundred | bridge/bridge/github_install.py:104-170 | The warm start sees the first five hundred entries of a list paged by a hundred |
| TenantTable.BindingsAreStored | bridge/bridge/github_install.py:222-235 | The stored form of the bindings |
| InstallationIds.NormalizesExactly | bridge/bridge/github_app.py:105-120 | Exactly the spellings of the numbers from 1 to 2 to the 63rd minus 1 are accepted, each number with one canonical id |
| InstallationIds.CanonicalIdIsFixed | bridge/bridge/github_app.py:105-120 | A canonical id is its own canonical form, plain ASCII digits without a leading zero |
| InstallationIds.FortyTwo | bridge/bridge/github_app.py:105-120 | One spelling and its canonical id |
| TenantConfig.MergeDocuments | bridge/bridge/tenant_write.py:267-293 | The loop over the patch computes the merge, in whatever order the keys come |
| TenantConfig.MergeIsLocal | bridge/bridge/tenant_write.py:267-293 | Keys the patch does not name survive, at the top and inside merged sections; other entries are replaced wholesale |
| TenantConfig.MergeTwiceIsMergeOnce | bridge/bridge/tenant_write.py:267-293 | Merging the same patch again changes nothing |
| TenantConfig.PatchesCompose | bridge/bridge/tenant_write.py:267-293 | Merging two patches in turn equals merging their merge, if and only if no section is dropped in between |
| TenantModels.PatchesCarryNoOperatorFields | bridge/bridge/api_models.py:238-358 | No accepted request body carries an operator-owned field, at the top or inside a patchable section |
| TenantModels.OperatorFieldsAreRefused | bridge/bridge/api_models.py:238-358 | A body with an operator-owned field, at the top or inside its section, is no patch at all |
| TenantModels.PatchKeepsOperatorFields | bridge/bridge/api.py:178-192 | For any stored row and any body, the stored result of a PATCH has in each operator-owned field what that field's own stored value validates to |
| TenantModels.PatchKeepsOperatorFieldsIn | bridge/bridge/api_models.py:238-326 | The same for the memory namespace and the GitHub installation |
| TenantModels.CanonicalOperatorFieldsKept | bridge/bridge/api.py:178-192 | When the stored row has a canonical form, operator-owned fields keep their canonical values |
| TenantPatches.BodiesAccepted | bridge/bridge/api.py:170-170 | A body is accepted exactly if it is an object of patchable entries in their forms; the patch has exactly its entries as validated, explicit nulls included |
| TenantPatches.PatchableEntries | bridge/bridge/api_models.py:329-358 | The entries that can be patched |
| TenantPatches.PatchableInSections | bridge/bridge/api_models.py:238-328 | The entries that can be patched inside each section |
| TenantPatches.PatchedEntry | bridge/bridge/api.py:178-192 | A successful PATCH stores each sent entry as the model validates it, laid over the stored one in the ten named sections, and each other as it validates by itself |
| TenantPatches.PatchedSection | bridge/bridge/api.py:178-192 | Inside a section each sent entry is stored as validated, each unsent one stays as it validates, a missing one gets its default |
| TenantPatches.SentTextIsStored | bridge/bridge/api.py:178-192 | A text sent at the top is the text stored |
| TenantPatches.SentTextIsStoredIn | bridge/bridge/api.py:178-192 | A text or null sent inside a section is stored, and an unsent text there stays |
| TenantPatches.OneTextIsAccepted | bridge/bridge/api.py:170-170 | A body with one text is accepted and carries that text |
| TenantPatches.NullIsNotDropped | bridge/bridge/api.py:170-190 | An explicit null is kept, and refused where a text is needed |
| Schemas.PatchIsWhatWasSent | bridge/bridge/api_models.py:238-358 | Any patch model accepts exactly bodies of known entries in their forms and keeps exactly those |
| Schemas.FullIsFilledIn | bridge/bridge/api_models.py:182-212 | Any full model accepts exactly documents whose entries have their forms, ignores others and fills in defaults |
| Schemas.ItemsComeThrough | bridge/bridge/api_models.py:182-358 | Lists and maps are validated item by item and keep length, order and keys |
| TenantCanonical.CanonicalIsFixed | bridge/bridge/api_models.py:182-212 | Validating and dumping a configuration a second time changes nothing |
| TenantCanonical.PatchIsIdempotent | bridge/bridge/api.py:170-199 | Sending the same PATCH again stores what the first one stored |
| TenantCanonical.DefaultIsCanonical | bridge/bridge/tenant_write.py:175-250 | The model reads the default configuration, its literals as the bridge spells them out, back unchanged |
| TenantCanonical.DefaultsAreInStep | bridge/bridge/tenant_write.py:175-250 | Gateway settings, memory triggers, heartbeat, cost cap, bot policy, context assembly, escalation and codebases are spelled out as the API model's own defaults, key for key |
| TenantCanonical.DefaultsPartExactly | bridge/bridge/tenant_write.py:175-250 | Entry by entry the two differ in exactly the tenant id, a prompt other than the fallback, the catalog's tools, the memory's namespace and its extraction's rules |
| TenantCanonical.DefaultsSpelledOut | bridge/bridge/tenant_write.py:175-250 | The namespace and extraction rules a new tenant gets there |
| TenantWrites.InstallingWrites | bridge/bridge/tenant_write.py:729-732 | Approval and warm start make the configuration hold the installation and keep its tenant |
| TenantWrites.ApprovalKeepsOthers | bridge/bridge/tenant_write.py:729-732 | An approval sets the installation and keeps every other entry |
| TenantWrites.WarmStartKeepsExactly | bridge/bridge/github_install.py:349-363 | The warm start keeps every stored entry but four of codebases; a default repository set by hand survives if and only if it is the one chosen |
| TenantWrites.OverrideIsLost | bridge/bridge/github_install.py:349-363 | A default repository set by hand that is overwritten |
| TenantWrites.ConnectingWrites | bridge/bridge/api.py:311-328 | A connector turns the gateway on at its address, records its integration once behind the earlier ones, drops stored credentials and changes no other entry |
| TenantWrites.ConnectsExactly | bridge/bridge/api.py:311-328 | It fails exactly on a section that is no object or a connection list that is none |
| TenantWrites.PatchingWrites | bridge/bridge/api.py:178-192 | A PATCH keeps the tenant and the installation whatever it carries |
| TenantWrites.AgentWritesKeep | coreAgent/app/coreAgent/tools.py:2010-2076 | The agent's settings tool keeps the tenant and the installation |
| TenantWrites.AgentWritesSet | coreAgent/app/coreAgent/tools.py:2010-2076 | The settings tool sets exactly its section, one of seven, in the canonical form of the row |
| TenantWrites.DefaultsWrite | bridge/bridge/tenant_write.py:175-250 | The default configuration names its tenant and holds no installation |
| TenantWrites.TextCodebasesRaise | bridge/bridge/github_install.py:285-287 | A stored codebases that is a text cannot be read |
| SlackProtocol.StepConserves | bridge/bridge/adapters/slack.py:292-417 | Every step of producer, tick loop and sender keeps taken, send queue, pending and queue equal to the produced text |
| SlackSafety.AlwaysConserved | bridge/bridge/adapters/slack.py:292-417 | In every interleaving nothing is lost, doubled or reordered |
| SlackSafety.StepKeepsInv | bridge/bridge/adapters/slack.py:349-466 | The end markers, the stages, the slices and the calls made stay consistent through every step |
| SlackSafety.NormalCompletion | bridge/bridge/adapters/slack.py:412-447 | On a normal return with all the produced text: Slack shows just it, and the stream is stopped, if and only if some start gave a timestamp; it was one start, appends and a stop if and only if the first did; with text and no timestamp Slack shows it twice; without text only the stand-in is posted |
| SlackSafety.MissingTimestampRepeatsTheReply | bridge/bridge/adapters/slack.py:320-331 | A run that returns normally and shows the reply twice |
| SlackSafety.EveryExit | bridge/bridge/adapters/slack.py:412-466 | At any point what Slack shows is a beginning of the agent's text if and only if nothing was posted, and what it streamed always is, in slices of 1 to 60 characters; nothing is sent after a stop, and the sender has finished before any exit |
| SlackSafety.ReturnsExactly | bridge/bridge/adapters/slack.py:412-466 | A finished reply has returned, rather than raised, if and only if the chunks ended without error and every call was answered; an agent error is never taken for the end of a reply |
| SlackSafety.StoppedExactly | bridge/bridge/adapters/slack.py:425-466 | At any exit, normal or not, a stop was attempted if and only if some start gave a timestamp; unless the first gave none, exactly when sending got past its first call |
| SlackSafety.OneStartExactly | bridge/bridge/adapters/slack.py:320-337 | At most one stream is started, if and only if the first start was not answered without a timestamp or nothing more was sent |
| SlackSafety.MissingTimestampStartsTwice | bridge/bridge/adapters/slack.py:320-331 | A run in which start calls without a timestamp start two streams |
| SlackSafety.LostStartIsNeverStopped | bridge/bridge/adapters/slack.py:320-331 | A run in which Slack starts a stream, the reply is lost and no stop follows |
| SlackSafety.NeverStuck | bridge/bridge/adapters/slack.py:375-447 | Until it has returned or raised, some task other than the producer can go on |
| SlackStream.PickRelease | bridge/bridge/adapters/slack.py:339-347 | A release takes ten characters, or all when there are fewer; past a hundred pending it takes a tenth, at most sixty |
| SlackStream.Releaser.DrainQueue | bridge/bridge/adapters/slack.py:390-396 | The non-blocking drain takes every text up to an end marker |
| SlackStream.Releaser.Tick | bridge/bridge/adapters/slack.py:380-410 | A tick moves everything queued to pending and one slice of it to the sender unless it is too soon |
| SlackStream.Releaser.DrainPending | bridge/bridge/adapters/slack.py:412-417 | What is left goes out whole, in at most a tenth as many slices as characters, rounded up |
| RateLimiter.PruningIsInvisible | bridge/bridge/rate_limit.py:44-78 | Every answer but a table-full one is that of an unbounded bucket that never forgets; table-full happens if and only if the key is idle and as many others as fit are busy; the table never exceeds its bound |
| RateLimiter.CallIsFaithful | bridge/bridge/rate_limit.py:44-78 | One call from a state that agrees with the reference answers as the reference does and leaves such a state |
| RateLimiter.WindowBound | bridge/bridge/rate_limit.py:36-69 | In any window a key is admitted at most capacity plus rate times length, whatever other keys do |
| RateLimiter.BurstIsAdmitted | bridge/bridge/rate_limit.py:55-69 | A call that finds room is admitted whenever fewer than capacity calls of its key were admitted in the refill period before it |
| RateLimiter.TurnedAwayWait | bridge/bridge/rate_limit.py:49-54 | A call that finds no room is told the least whole number of seconds that refills one token |
| RateLimiter.RetryAfterIsExact | bridge/bridge/rate_limit.py:55-69 | The wait told on a denial is the least whole number of seconds after which a retry is admitted, and probes in between do not postpone it |
| RateLimiter.TokenBucketRateLimiter.Create | bridge/bridge/rate_limit.py:26-42 | A limiter exists exactly for positive bounds and starts empty |
| RateLimiter.TokenBucketRateLimiter.RetryAfter | bridge/bridge/rate_limit.py:44-69 | The mutable limiter computes the specified call on its table |
| RateLimiter.TokenBucketRateLimiter.PruneIdle | bridge/bridge/rate_limit.py:71-78 | Pruning removes exactly the buckets idle for a whole period and touches no other |
| RateLimiter.TokenBucketRateLimiter.Reset | bridge/bridge/rate_limit.py:80-83 | Reset leaves an empty table |
| RateLimiter.Bucket.Draw | bridge/bridge/rate_limit.py:55-69 | Refill and draw on one bucket, or the wait |
| TargetNames.DecodesExactly | workers/gateway_interceptor/gateway_interceptor/handler.py:237-281 | A name decodes to a tenant and an integration if and only if it is the name encoded for them |
| TargetNames.NamesAreInjective | bridge/bridge/gateway_provisioner.py:157-166 | Target and credential names identify tenant and integration, and no tenant's prefix starts another's name |
| TargetNames.NameLength | bridge/bridge/gateway_provisioner.py:130-166 | The exact length of a target name, at most 99 characters |
| TargetNames.AllowedExactly | workers/gateway_interceptor/gateway_interceptor/handler.py:284-322 | A tool call is allowed only to a target of the claimed tenant; when the delimiter has a character that no name has, or two hyphens in a row, every such tool is allowed |
| TargetNames.DelimitersExactly | workers/gateway_interceptor/gateway_interceptor/handler.py:284-322 | All own tools are allowed if and only if the delimiter is not empty and never starts inside a name; below 24 characters that is if and only if it has a character no name has or two hyphens in a row |
| TargetNames.RefusedExactly | workers/gateway_interceptor/gateway_interceptor/handler.py:298-322 | Which reason a refused call gets: no name, no valid claim, no delimiter |
| TargetNames.RefusedTarget | workers/gateway_interceptor/gateway_interceptor/handler.py:315-321 | ... and whether its target is no name at all or another tenant's |
| TargetNames.ValidNames | bridge/bridge/gateway_provisioner.py:112-166 | A name exists exactly for a slug of at most 40 and one of at most 24 characters |
| TargetNames.NamesOfF | bridge/bridge/gateway_provisioner.py:143-166 | The names of one tenant, character by character |
| TargetNames.Base32Alphabet | bridge/bridge/gateway_provisioner.py:143-145 | The digits' characters are those of RFC 4648 in lower case |
| TargetNames.SlugMeans | bridge/bridge/gateway_provisioner.py:112-127 | The slug pattern means name characters with single hyphens only between others |
| TargetNames.AllowedIsOwn | workers/gateway_interceptor/gateway_interceptor/handler.py:284-322 | Whatever the delimiter, an allowed call is to one of the claimed tenant's own targets |
| TargetNames.Base32RoundTrip | bridge/bridge/gateway_provisioner.py:143-145 | The unpadded lower-case Base32 text decodes to the same text, with the length it must have |
| TargetNames.ValidateResourceComponent | bridge/bridge/gateway_provisioner.py:112-127 | Accepts exactly the non-empty slugs within the limit, unchanged |
| JwtNumbers.Base64UrlUInt | bridge/bridge/gateway_jwt.py:64-68 | For every number the text decodes to it, without a leading zero octet unless it is zero |
| JwtNumbers.Base64UrlAlphabet | bridge/bridge/gateway_jwt.py:64-68 | The digits' characters are the URL-safe ones of RFC 4648 |
| JwtNumbers.ThreeOctets | bridge/bridge/gateway_jwt.py:64-68 | The text of one number, character by character |
| BitPacking.DecodeEncode | bridge/bridge/gateway_jwt.py:64-68 | Regrouping octets into digits is lossless and as short as it can be |
| BitPacking.EncodeKeepsNumber | bridge/bridge/gateway_jwt.py:64-68 | Read most significant first the digits are the octets' number, times two for each filling bit |
| SseFrames.ReadStream | bridge/bridge/client.py:361-377 | However a body is cut into chunks, the queue receives the frames of the whole body |
| SseFrames.ParseSseText | bridge/bridge/client.py:116-145 | The buffered parser gives the concatenation of those frames |
| SseFrames.CarryOn | bridge/bridge/client.py:363-373 | One chunk with the carried line in front emits the frames it completes and carries the rest |
| SseFrames.EmitLines | bridge/bridge/client.py:368-373 | Emitting complete lines appends exactly their frames |
| SseFrames.FrameMeans | bridge/bridge/client.py:93-115 | A data line yields its JSON string, its object's data text, or undecodable text as it stands; other JSON is dropped |
| SseFrames.OtherLinesAreNone | bridge/bridge/client.py:101-105 | Lines without the prefix or with nothing behind it yield nothing |
| AuditText.CutKeepsWholeCharacters | coreAgent/app/coreAgent/audit.py:128-132 | Cutting the octets anywhere and decoding what is left keeps the longest prefix of whole characters |
| AuditText.TruncatesToLongestPrefix | coreAgent/app/coreAgent/audit.py:122-132 | For every limit, a negative one included, a text over it becomes its longest prefix of whole characters within the octets the slice keeps, and the ellipsis |
| AuditText.FitsExactly | coreAgent/app/coreAgent/audit.py:122-132 | The result fits the limit if and only if the text did or the limit is at least 3 |
| AuditText.KeepsWhatFits | coreAgent/app/coreAgent/audit.py:125-130 | No value gives the empty text and a text within the limit stays as it is |
| AuditText.OneOfEachLength | coreAgent/app/coreAgent/audit.py:128-128 | The octets of one character of each length |
| SkillTriggers.HasRepeatedSkillGroup | bridge/bridge/api_models.py:37-57 | The loop computes the scanner's recursive reading of the pattern |
| SkillTriggers.ScannerIsExact | bridge/bridge/api_models.py:37-57 | For any trigger the engine compiles, the scanner tells whether the engine repeats a group if and only if one is repeated in sight, or misleading stretches and groups repeated out of sight occur both or neither |
| SkillTriggers.ScannerFinds | bridge/bridge/api_models.py:37-57 | On the text of any expression, stacked quantifiers, comments and names included, the scanner is true if and only if a group is repeated in its sight or some stretch of text misleads it |
| SkillTriggers.BlindedMeans | bridge/bridge/api_models.py:45-51 | The scanner takes itself to be inside a class exactly when the last bracket it read was an opening one |
| SkillTriggers.ScansCompiled | bridge/bridge/api_models.py:66-73 | Wrapping a trigger for the engine makes no difference to the scanner |
| SkillTriggers.CompiledTree | bridge/bridge/api_models.py:66-73 | A trigger that is an expression by itself repeats the same groups once wrapped |
| SkillTriggers.OptionalGroupIsMissed | coreAgent/app/coreAgent/tenant.py:54-59 | A repeated optional group, which the scanner does not see |
| SkillTriggers.CommentBlinds | bridge/bridge/api_models.py:37-57 | A repeated group behind a bracket in a comment, which the scanner does not see |
| SkillTriggers.SpacedGroupIsMissed | bridge/bridge/api_models.py:37-57 | A group repeated across a space in verbose mode, which the scanner does not see |
| SkillTriggers.ClassIsTakenForGroup | bridge/bridge/api_models.py:37-57 | A class opening with a bracket, which the scanner takes for a repeated group |
| EditTool.WorkFile.EditFile | infra/sandbox/agent.py:337-370 | The tool's effect on the file and its answer, for every state of the file and fate of the write |
| EditTool.EditReplacesLeftmost | infra/sandbox/agent.py:354-370 | An edit succeeds exactly on a count of one, a write let through and a replacement that can be encoded, and then replaces the leftmost occurrence in the text as read; any other answer leaves the file alone exactly unless the edit failed after the file was opened, when it is empty |
| EditTool.AnswersExactly | infra/sandbox/agent.py:342-364 | Which answer an edit gives before it comes to a write, and that an ambiguous one means two occurrences without overlap |
| EditTool.NewlinesMean | infra/sandbox/agent.py:349-350 | Reading turns each CRLF and each lone CR into one LF and changes nothing else |
| EditTool.SurrogateEmptiesTheFile | infra/sandbox/agent.py:366-368 | An edit whose replacement is a lone surrogate empties the file |
| EditTool.EditIsLocalExactly | infra/sandbox/agent.py:348-368 | The file outside the replaced text is kept if and only if it has no carriage return |
| EditTool.CarriageReturnIsLost | infra/sandbox/agent.py:349-368 | A one-letter edit that changes a line ending elsewhere |
| EditTool.CountDecidesUniqueness | infra/sandbox/agent.py:354-364 | A count of one means a single occurrence in every text if and only if the searched text has no border |
| PrMetadata.ParsePrMetadata | infra/sandbox/agent.py:756-788 | On arbitrary text the parser gives three non-empty fields, the specified ones |
| PrMetadata.RoundTripsExactly | infra/sandbox/agent.py:702-713 | Printing and parsing gives three trimmed fields back if and only if no marker stands in the way |
| PrMetadata.OneLineField | infra/sandbox/agent.py:760-775 | Without the next marker a field is the first line of what follows its own |
| PrMetadata.ShortReplies | infra/sandbox/agent.py:760-775 | Replies that stop after the title or the commit message |
| PrMetadata.MissingMarkers | infra/sandbox/agent.py:781-787 | The texts that stand in for missing fields |
| AgentLoop.RunAgentLoop | infra/sandbox/agent.py:537-673 | For every model: at most the turn limit's requests, each sent below 95% of the budget with a transcript on which it is the model's turn; usage is the sum of all replies; the error is empty exactly when the last reply submitted, and otherwise says why the loop ended |
| AgentLoop.TakeReply | infra/sandbox/agent.py:573-669 | One reply either ends the run with the result it explains or continues the transcript with its answers |
| AgentLoop.ConversationIsReady | infra/sandbox/agent.py:537-666 | Whatever model and tools do, every transcript alternates from the user and answers each tool request once, in order, in the next message, warnings included |
| AgentLoop.NothingEmptyExactly | infra/sandbox/agent.py:559-666 | A transcript has no empty user message if and only if after each reply without a tool request a warning went in |
| AgentLoop.RunTools | infra/sandbox/agent.py:617-663 | The answers to a reply's tool requests: by position the tool's output, its error or that the tool is unknown, each under its request's id; and the submission of the last submit_changes block |
| AgentLoop.ResultsTell | infra/sandbox/agent.py:617-663 | The answer at each position says what its tool run came to, and is flagged exactly for an unknown tool |
| AgentLoop.TranscriptTells | infra/sandbox/agent.py:559-666 | The next request ends with those answers, behind the warning if there is one |
| AgentLoop.TranscriptQuotes | infra/sandbox/agent.py:537-666 | Every request begins with the start instruction and quotes each reply as it came |
| AgentLoop.LastIsTaken | infra/sandbox/agent.py:625-635 | The submission taken is that of the last submit_changes block |
| AgentLoop.PricesAre | infra/sandbox/agent.py:40-80 | Dollars per million tokens of each kind |
| AgentLoop.TextOfAll | infra/sandbox/agent.py:596-608 | The final message is the texts of the reply's parts put together |
| AgentLoop.TextOfOne | infra/sandbox/agent.py:596-608 | ... and a text block counts with its text, any other with none |
| AgentLoop.ResultsAnswerAll | infra/sandbox/agent.py:617-663 | Those answers carry exactly the requested ids |
| AgentLoop.Warn | infra/sandbox/agent.py:559-571 | The warning goes into the last user message exactly when it is due |
| AgentLoop.OneMoreRequest | infra/sandbox/agent.py:545-586 | A request sent below the cap keeps the total below the cap plus the last reply's cost |
| AgentLoop.TokenBudget.Update | infra/sandbox/agent.py:99-103 | The counters add up the reply's usage |
| RepoWarmStart.ListInstallationRepos | bridge/bridge/github_install.py:104-170 | The pagination loop computes the listing for every server, failures included |
| RepoWarmStart.ListingIsExact | bridge/bridge/github_install.py:104-170 | Against a server that pages a fixed list the listing is exactly its first items up to the cap, and fails exactly when a needed page fails |
| RepoWarmStart.RankingIsStable | bridge/bridge/github_install.py:177-201 | The ranking is a stable descending permutation |
| RepoWarmStart.RankingIsUnique | bridge/bridge/github_install.py:189-201 | Only one ranking is |
| RepoWarmStart.RankedByPush | bridge/bridge/github_install.py:177-201 | Nothing is ranked above something pushed to later, nor above something with the same push time and more stars |
| RepoWarmStart.ReposToBindings | bridge/bridge/github_install.py:204-235 | The bindings are those of the named repositories among the first ones, in order |
| RepoWarmStart.BoundInOrder | bridge/bridge/github_install.py:222-235 | Each named repository is bound in its place by name and default branch, main when it has none |
| RepoWarmStart.BoundCount | bridge/bridge/github_install.py:222-235 | ... and nothing else is bound |
| RepoWarmStart.ChooseRepos | bridge/bridge/github_install.py:345-347 | The default is the first binding; there is none exactly when the five best are all nameless |
| RepoWarmStart.DefaultIsBest | bridge/bridge/github_install.py:345-347 | The default is the first named repository of the whole ranking and among its first five: all before it, equals included, lack a name |
| RepoWarmStart.TopIsFive | bridge/bridge/github_install.py:345-347 | Only the first five of the ranking are looked at |

## Left out

- AWS, Slack, GitHub, Anthropic and CloudWatch calls: steps that may succeed, fail or return any value. The SDK's own retries of a write whose reply was lost are not modelled: a call is one step.
- The LOCAL_DEV file backend of the tenant store and the LOCAL_DEV path of the streaming reply.
- Legacy GitHub bindings without a lock row: the start has none. The compatibility scan may find any tenant that ever held the installation.
- TenantProtocol.Apply: a cancelled approval transaction ends as failed; which of its errors a further read makes of it is not modelled.
- TenantTable.RunInstallWarmStart: failures of reading and writing the row that the source catches and reports are not told apart from a missing row; the requested id is a text; a push time that is neither empty nor a text counts as an entry that cannot be ranked.
- TenantTable.TenantsTable: its calls are always answered, except lookups; writes whose answer is lost are steps of the protocol.
- InstallationIds.Normalize: the source's numeral parser gives up above 4300 digits, which is out of range here too.
- TenantWrites.Connected: rows whose list of connections is a text or an object, which the source would take apart, make the connector fail here.
- Schemas.Validate: the scalar checks (what counts as a flag, a number, a safe trigger) are an arbitrary function; for the fixed-point results it is assumed to accept its own results.
- Row attributes beside the configuration and the lock owner (timestamps, spend counters), the conversion of floats to decimals, and the session view of a reply.
- SlackProtocol.Apply: cancellation from outside, and the race between the wait's timeout and an arriving item.
- RateLimiter.TokenBucketRateLimiter.RetryAfter: reals instead of floats; clock readings come in the order of the calls.
- SseFrames.ReadStream: characters split across network chunks and bodies that bring their own line iterator; JSON decoding is an arbitrary function.
- AuditText.TruncatesToLongestPrefix: redaction before the truncation is not modelled; the text is the redacted one.
- SkillTriggers.ScannerIsExact: the engine is not part of the repository; its grammar is that of its documented syntax, verbose mode ignoring the white space of Unicode's Pattern_White_Space. Trees it would refuse, such as an unknown flag, are included.
- EditTool.WorkFile.EditFile: a write that fails after the file was opened leaves it empty; how much of a large text a failing disk may keep is not modelled.
- AgentLoop.RunAgentLoop: reals instead of floats; prompts, the figures in the warning's text, progress callbacks and the logged cost are left out.
- Path resolution, shell commands and the other tools of the sandbox; the model call that writes pull-request metadata.
- Key signing and token minting, gateway provisioning calls, dashboards, onboarding, deduplication and caches are out of scope.
