# Verified model of omnistat

omnistat is an exporter that runs on many hosts and talks to a platform it does
not control. This project models the protocols it runs there, and the parts of
the host side they rest on, and proves what the repository's comments promise of
them:

- **Schema reconciliation.** Manifests and overrides resolve to a desired
  schema; a diff turns the project's current schema into an additive plan; apply
  executes the plan while other hosts do the same, reads lag, creates are refused
  and answers get lost. `Schema*.dfy` model the diff, one host as a state machine
  (`SchemaHost`), the imperative executor that runs it (`SchemaApply`), and any
  number of hosts on one platform (`SchemaFleet`), or one by itself
  (`SchemaAlone`). `Manifest*.dfy` model
  validation and resolution and connect them to the planner.
- **Buffering and publishing.** `Collect`, `Buffer`, `Publish` and `Samples` model
  one collection, one entity's buffer and one publish; `Delivery*` prove what every run of add,
  snapshot, publish, acknowledge and drop-report delivers; `Buffers` models
  routing, and `Entities*` the publish of the host and every module-owned entity
  through one id cache, one registry and one API, and what isolates them.
- **Entity identity.** `Identity*` model lookup by key, adoption, the conditional
  key write and the bounded upsert, run by any number of processes at once.
- **The service on systemd.** `EnvFile*` model the environment-file printer and
  parser, `Settings` the merge of settings, `Install*` and `UninstallRecovery`
  the step plans and what an interrupted one leaves.
- **Disk counters.** `Disk` models the retained baseline and the deltas.

`Ordering` and `Text` hold what Go's `sort`, `strings` and `unicode` provide.

How the models are built. Code that changes state is a class or a method with
loops, proved equal to a function of its inputs; the theorems are about those
functions. A remote API is an object that answers by an arbitrary script (any
answer at any instant) and remembers its calls, so a theorem about all scripts is
a theorem about all platforms; where a claim needs a truthful platform, the
interleaving models (`SchemaFleet`, `IdentityFleet`, `DeliveryRuns`) say what it
may answer and do. In the schema model a write that was refused or failed may
have taken effect, and in the identity model one that failed; in the delivery
model an errored request has none.

Places where the code does not do what it seems to promise, each stated exactly:

- After one list option of an attribute was found to exist already, a re-plan drops
  the attribute's other options (`SchemaGaps`): a run can succeed with an option
  missing. No other refusal costs an option
  (`SchemaOptions.OptionsKnownUnlessTaken`).
- An uninstall interrupted between removing the unit file and the daemon-reload
  leaves the unit loaded, and running it again finds nothing to do
  (`UninstallRecovery.UninstallResumesExactly`).
- A dimension added after the snapshot with the very stamp of the older sample
  is dropped with it (`DeliveryDims.NewerSurvivesExactly`).
- A plain template declared before an entity template of the same slug hides it
  without a report (`ManifestTheorems.EntityTemplateKeptExactly`, and
  `PlainHidesEntity` for manifests where it happens).
- An observation of a host attribute that names a key but no template is not
  refused: the host never gets it, and it takes one of the module's 256 entities
  for an entity without a template (`Collect.HostAttributeRoutesExactly`). Two
  modules that do so with one key share a place in the id cache
  (`EntitiesTheorems.OwnPlacesExactly`).
- An uninstall whose reset-failed fails goes on, and leaves a service that had
  failed marked as failed (`InstallCode.UnresetExactly`).
- A bind takes its attribute away from templates without a slug, which omnistat
  cannot see (`SchemaExtension.BindKeepsHiddenExactly`); additivity is over the
  visible ones.

Why the collector validates: were a value to be buffered that cannot be rendered, a
publish could acknowledge a sample the platform never got
(`DeliveryGaps.UnsentSampleForgotten`). The batches that are safe whatever the
platform answers are exactly those without such a value behind a good one
(`DeliveryGaps.AckIsPrefixExactly`), and the collector makes no others
(`DeliveryGaps.CollectedAckIsPrefix`).

`dafny verify dfyconfig.toml` verifies the whole project.

## Model

| member | source | states |
|---|---|---|
| Ordering.SortCanonical | internal/schema/diff.go:110-120 | a stable sort over elements that never tie gives the same sequence for every order of the input |
| Ordering.SortedListing | internal/collect/buffer.go:143-149 | collecting a map's keys in any order and sorting them gives one sequence, the keys ascending |
| Ordering.ByKeyExactly | internal/manifest/resolve.go:304-313 | collecting a map's values sorted by key lists every value and nothing else |
| SchemaDiff.Diff | internal/schema/diff.go:13-122 | the nested loops over slices and maps compute the plan: creates, references, options, binds, each group in slug order, and the conflicts |
| SchemaDiff.PlanAttribute | internal/schema/diff.go:37-108 | what one desired attribute contributes to each group, whether it is missing, matching or in conflict |
| SchemaPlan.PlanIsExactlyMissing | internal/schema/diff.go:13-122 | without conflicts the plan provides an object if and only if it is desired and absent |
| SchemaPlan.PlanEmptyExactly | internal/schema/diff.go:13-122 | the plan is empty if and only if the project already satisfies the desired schema |
| SchemaPlan.ConflictsExact | internal/schema/diff.go:48-76 | conflicts are reported if and only if a desired attribute exists with another type or target |
| SchemaPlan.PlanDeterministic | internal/schema/diff.go:13-122 | the plan does not depend on the order in which templates and attributes are listed |
| SchemaHostLaws.PlanPhased | internal/schema/diff.go:110-120 | templates come before attributes, attributes before references, creates before options and binds |
| SchemaHostLaws.PlanNoRepeats | internal/schema/diff.go:13-122 | no two actions of a plan are about the same object |
| SchemaApply.Execute | internal/schema/apply.go:186-253 | one action makes exactly the prepared request and learns the answered id, or makes none when an id it needs is unknown |
| SchemaApply.DropDone | internal/schema/apply.go:150-162 | a re-plan keeps binds and drops whatever shares type and slug with a completed action |
| SchemaApply.Merge | internal/schema/apply.go:168-184 | ids this run learned win over the read's, list items slug by slug |
| SchemaApply.Until | internal/settle/settle.go:63-83 | reads until the object shows, the delays are spent or the pause is cut short; an error ends it at once |
| SchemaApply.SkipAndReplan | internal/schema/apply.go:98-118 | a refused create settles, is skipped and re-planned, or stops the run with the reason |
| SchemaApply.ApplyWith | internal/schema/apply.go:70-144 | against any answers the executor runs the machine of one host step for step and makes exactly its calls |
| SchemaApply.Verify | internal/schema/apply.go:132-141 | the verification pass redoes what is missing and takes a refusal for presence |
| SchemaApply.Apply | internal/schema/apply.go:49-51 | on a well-formed schema no order violation, every id known on success, and bounded writes and reads, whatever the answers |
| SchemaRuns.FirstIsReady | internal/schema/diff.go:110-120 | in a plan ordered by phase the first action's ids are always known |
| SchemaRuns.PlanOrderNeverViolated | internal/schema/apply.go:186-253 | no run, after any re-plan and in the verification pass, stops at a plan order error, and a success knows every id |
| SchemaLearning.RunRemembers | internal/schema/apply.go:168-184 | ids learned at one point of a run are unchanged at every later point, whatever stale reads show |
| SchemaLearning.LearnedIdsAreWriteOnce | internal/schema/apply.go:53-69 | an id a write answered stays as it is and its object is never created again |
| SchemaLearning.DoneIsNeverRepeated | internal/schema/apply.go:116-162 | an object this run created, or found there and skipped, is never asked for again |
| SchemaOptions.OptionsContiguous | internal/schema/diff.go:108-120 | in a plan the options of one attribute stand together |
| SchemaOptions.OptionsKnownUnlessTaken | internal/schema/apply.go:146-162 | whatever is refused and re-planned, a success holds the item id of every option of an attribute, unless an option of that very attribute was found there and skipped |
| SchemaGaps.ReplanKeepsUndoneExactly | internal/schema/apply.go:146-162 | a re-plan keeps everything not yet done if and only if no attribute has one option done and another missing |
| SchemaGaps.OptionsAbandonedAfterRefusal | internal/schema/apply.go:146-162 | once an option of an attribute was refused, that attribute's later options are never sent again in the run |
| SchemaGaps.SuccessWithAnOptionMissing | internal/schema/apply.go:146-162 | a concrete run that reports success having added neither of two options |
| SchemaBounds.PlanSize | internal/schema/diff.go:13-122 | every plan of a desired schema is at most one action per template, attribute, option and binding |
| SchemaBounds.CallsAreBounded | internal/schema/apply.go:86-143 | at most seven plans of writes, and per re-read at most one read more than there are delays |
| SchemaTermination.EveryRunEnds | internal/schema/apply.go:86-143 | whatever the platform answers, a run is over after a fixed number of answers |
| SchemaTermination.SmoothRunsSucceed | internal/schema/apply.go:86-143 | without conflicts, a run that is never refused and never fails succeeds within that number |
| SchemaFleetSafety.BindEffect | internal/omni/omnitest/server.go:595-621 | a replacing bind by a host keeps every visible binding, because the ids sent contain those the platform holds |
| SchemaFleetSafety.AcceptedWrite | internal/schema/apply.go:186-253 | an accepted write keeps the platform growing and what every other host relies on |
| SchemaFleetTheorems.BehaviorKeeps | internal/schema/apply.go:70-144 | the fleet invariant holds after every step of every interleaving |
| SchemaFleetTheorems.FleetIsAdditive | internal/schema/apply.go:70-144 | in every interleaving of any number of hosts and of others adding things, nothing visible is ever removed or changed |
| SchemaFleetTheorems.SuccessMeansConverged | internal/schema/apply.go:70-144 | whenever a host reports success every desired template, attribute and binding exists as desired and its ids are the platform's |
| SchemaExtension.FleetAddsOnlyDesired | internal/schema/diff.go:84-108 | the fleet alone adds nothing that is not desired |
| SchemaExtension.SuccessHasOptions | internal/schema/apply.go:146-162 | in a fleet, a success leaves every option of an attribute on the platform unless the host skipped one of that attribute |
| SchemaExtension.UnrefusedSuccessSatisfies | internal/schema/apply.go:70-144 | a host that succeeds without a refusal leaves the project satisfying the desired schema in full |
| SchemaExtension.UnrefusedSuccessExtends | internal/schema/diff.go:13-122 | the project then holds exactly what it held before and what is desired, if only the fleet was at work |
| SchemaAlone.EveryRequestAcceptable | internal/omni/omnitest/server.go:479-621 | at every point of a run by itself on a project without conflicts the platform can accept the host's next write, with any id it has not used |
| SchemaAlone.LeastExtension | internal/schema/diff.go:13-122 | a host by itself, on a platform that refuses only what it cannot accept, takes boundedly many steps and stops exactly when it has succeeded without a refusal; the project then satisfies the desired schema and holds exactly what it held before and what is desired |
| SchemaAlone.RunToSuccess | internal/schema/apply.go:70-144 | from any project without conflicts every such run can be continued to success |
| SchemaExtension.BindKeepsHiddenExactly | internal/omni/client.go:84-89 | a bind leaves the templates without a slug alone if and only if none of them held the attribute |
| ManifestValidate.Validate | internal/manifest/validate.go:11-121 | accepts exactly the manifests with valid names, slugs, kinds, options, targets and platforms, unique modules, keys and slugs, and one host link per entity template |
| ManifestValidate.CheckAttribute | internal/manifest/validate.go:51-112 | one attribute passes if and only if each of its declared properties is valid |
| ManifestValidate.CountLinks | internal/manifest/validate.go:95-118 | the links counted per entity template are the reference attributes on it |
| ManifestCode.Resolve | internal/manifest/resolve.go:99-315 | fails exactly when there is something to report, else returns the one resolution of the manifests and overrides |
| ManifestCode.CheckOverrides | internal/manifest/resolve.go:104-141 | reports exactly an override for an unknown module or attribute or with an invalid slug |
| ManifestCode.PlaceAllEntities | internal/manifest/resolve.go:147-189 | finds every entity template's resolved slug and reports exactly misplaced, unmovable or shared ones |
| ManifestCode.PlaceOf | internal/manifest/resolve.go:233-253 | an attribute's template by the stated precedence, and whether it may be there |
| ManifestCode.ResolveAttributes | internal/manifest/resolve.go:208-270 | every attribute under its slug on its template, a template declared where it was not, slug collisions reported |
| ManifestCode.FindDisplay | internal/manifest/resolve.go:271-287 | the best label on the host template, or none if there is none |
| ManifestSound.AttributesExactly | internal/manifest/resolve.go:208-313 | the resolved attributes are exactly the declared ones, their slugs unique and ascending |
| ManifestSound.ResolutionIsWellFormed | internal/manifest/resolve.go:208-298 | from validated manifests a resolution is what planning relies on: unique slugs, one declared template each, references showing a declared plain attribute |
| ManifestTheorems.PlanOrderHoldsEndToEnd | internal/manifest/validate.go:95-118 | if validation passes and resolution succeeds, no run of apply stops at a plan order error |
| ManifestTheorems.AttributePlacedExactly | internal/manifest/resolve.go:233-253 | each declared attribute appears once, where precedence puts it, and no host attribute lands on an entity template |
| ManifestTheorems.EntityKeepsOneLink | internal/manifest/resolve.go:254-257 | every entity template keeps exactly one host link after any overrides |
| ManifestTheorems.LinksShowTheBestLabel | internal/manifest/resolve.go:271-298 | every host link points at the host template and shows its highest-ranked label, the smaller slug of equals |
| ManifestTheorems.ResolutionIgnoresOrder | internal/manifest/resolve.go:208-313 | neither the order of manifests nor that of any map shows in the resolved attributes or in the schema that planning sees |
| ManifestTheorems.EntityTemplateKeptExactly | internal/manifest/resolve.go:191-206 | the schema has one template of an entity template's slug and describes it as one if and only if no plain template of the slug is declared before every entity template of it |
| ManifestTheorems.PlainHidesEntity | internal/manifest/resolve.go:191-206 | two valid manifests that resolve with nothing to report, the entity template of one hidden by the plain one of the other |
| Samples.CollectedRenders | internal/publish/publish.go:255-294 | a validated sample renders unless it is a list option without an item; metrics always render to a finite decimal string |
| Collect.CollectOne | internal/collect/scheduler.go:219-271 | a failed reading adds nothing; otherwise the keepable observations, and no others, are routed in order |
| Collect.KeptRenders | internal/collect/scheduler.go:229-264 | every kept sample is of a declared attribute the core does not set, stamped with the collection, and renders unless its list option has no item |
| Collect.KeptTarget | internal/collect/scheduler.go:246-257 | a kept sample is the host's or carries a valid key on its attribute's template |
| Collect.HostAttributeRoutesExactly | internal/collect/scheduler.go:229-264 | what a valid observation of a host attribute does to the buffers, wherever in a reading it stands: the host's if it names no entity, refused if it names a template or a bad key, and else the buffer of an entity without a template, if that has one or the module is under its cap |
| Collect.HostGetsTheUnnamed | internal/collect/scheduler.go:325-335 | over any readings the host's buffer is what the observations that name no entity leave there |
| Buffer.Buffer.constructor | internal/collect/buffer.go:89-94 | an empty buffer with the given bound, or the default one |
| Buffer.Buffer.Add | internal/collect/buffer.go:98-116 | the latest dimension wins; a metric is appended and at the bound the oldest is dropped and counted |
| Buffer.Buffer.Empty | internal/collect/buffer.go:119-131 | true if and only if no dimension is held and no metric is pending |
| Buffer.Buffer.Snapshot | internal/collect/buffer.go:135-156 | dimensions and pending metrics in slug order with each metric's absolute start; the buffer is unchanged |
| Buffer.Buffer.AckBatch | internal/collect/buffer.go:162-191 | forgets exactly the acknowledged dimensions with the snapshotted stamp and the acknowledged metrics still there |
| Buffer.Buffer.Drops | internal/collect/buffer.go:195-201 | hands out the drop counters and resets them, nothing else |
| Publish.RejectedSlugs | internal/publish/publish.go:237-250 | exactly the sent attributes a rejection names |
| Publish.UpdateDims | internal/publish/publish.go:200-233 | at most two updates, the second without what the first's rejection named; settles exactly what was taken or named |
| Publish.SendMetrics | internal/publish/publish.go:145-165 | consecutive chunks of a thousand until one fails; acknowledges per metric exactly the settled chunks' samples |
| Publish.RenderMetrics | internal/publish/publish.go:109-121 | the renderable metrics in order, and per metric how many were not |
| Publish.Publish | internal/publish/publish.go:63-167 | one publish as a whole: requests, acknowledgement, error and counters in terms of the answers received |
| DeliverySeries.ChunksKeep | internal/publish/publish.go:145-165 | of one metric the platform records exactly the settled prefix less what lay in refused chunks |
| DeliveryRuns.SnapshotHolds | internal/collect/buffer.go:135-156 | a snapshot holds per metric exactly what is pending, in order, starting at its absolute index |
| DeliveryRuns.AckRemovesBelow | internal/collect/buffer.go:174-190 | acknowledging n samples from a start removes exactly those still there, whatever was dropped meanwhile; once more, or by an older batch, removes nothing |
| DeliveryRuns.PublishedSlug | internal/publish/publish.go:145-165 | the acknowledged count of a metric is the number of its samples settled, and what was recorded is the log at the delivered indexes |
| DeliveryTheorems.DeliveredOnceInOrder | internal/collect/buffer.go:98-191 | at every moment of every run a metric's series is the added samples at strictly increasing indexes, and every other sample was refused, dropped or is pending; the queue is the log without its first removed samples |
| DeliveryTheorems.DropsAreConserved | internal/collect/buffer.go:110-114 | drops reported and still counted are exactly the samples dropped at the bound; all else gone was recorded or refused |
| DeliveryTheorems.EmptiedMeansAllDelivered | internal/collect/buffer.go:133-134 | with nothing dropped or refused, an emptied queue means the platform has exactly what was added |
| DeliveryTheorems.RequestsAreBounded | internal/publish/publish.go:145-147 | a publish makes at most two updates and one request per started thousand metrics |
| DeliveryDims.LatestIsNeverLost | internal/collect/buffer.go:165-173 | with fresh stamps the latest value of a dimension is buffered until a publish of that very sample was taken, named in a rejection or could not be rendered |
| DeliveryDims.NewerSurvivesExactly | internal/collect/buffer.go:165-173 | a sample added after the snapshot survives the acknowledgement of the older one if and only if their stamps differ |
| DeliveryGaps.AckIsPrefixExactly | internal/publish/publish.go:109-165 | the acknowledged prefix of a metric is settled for all answers of the platform if and only if no unrenderable sample of it lies behind a renderable one |
| DeliveryGaps.CollectedAckIsPrefix | internal/publish/publish.go:109-165 | for what the collector buffers, every acknowledged sample was recorded or refused |
| DeliveryGaps.UnsentSampleForgotten | internal/publish/publish.go:111-121 | a batch with a value that was never validated, whose failed publish forgets a good sample |
| Buffers.RunsRoute | internal/collect/buffers.go:40-64 | over every run each sample is in its entity's buffer only, and a module's counter is the number of its entities, never over 256 |
| Buffers.EachAlone | internal/collect/buffers.go:40-64 | an entity's buffer is what its own samples alone would have left; one has none only because the cap was reached |
| Buffers.Buffers.Add | internal/collect/buffers.go:40-64 | routes to the host, to the entity's own buffer object, or drops beyond the cap; no other buffer changes |
| Buffers.Buffers.Targets | internal/collect/buffers.go:71-89 | lists exactly the entities with a buffer, ordered by module, template and key |
| PublishReplies.PublishedDecided | internal/publish/publish.go:63-167 | two publishes of one batch to one entity, answered alike, send the same requests, meet the same error and acknowledge and count the same |
| Entities.PublishEntity | internal/publish/entities.go:57-90 | one entity's turn: its record by the cache or the registry, whatever that answers, its requests to that record alone, its own buffer acknowledged by what those settled and unchanged when unresolved, no other buffer touched |
| Entities.PublishAll | internal/publish/entities.go:38-92 | the host, then one turn for each entity in order unless the host is gone; the host's error; the counters summed; the shared log of requests is the turns' in order; the cache as each turn leaves it to the next |
| EntitiesTheorems.CollectedOnlyMetrics | internal/publish/publish.go:111-121 | whatever is collected, every metric of a batch renders to a string, so a publish may begin |
| EntitiesTheorems.OwnPlacesExactly | internal/identity/keyed.go:29 | no two entities share a place in the id cache if and only if no two modules feed one template and key |
| EntitiesTheorems.MemoryIsOwn | internal/publish/entities.go:63-86 | a turn finds and leaves its entity's id whatever the other turns do: written entities are remembered, a gone one is looked up again |
| EntitiesTheorems.EntitiesAreIsolated | internal/publish/entities.go:57-91 | two publishes that differ in one entity, its buffer, its record, its requests or its absence, and are otherwise answered alike agree on every other entity's requests, error, buffer and remembered id, and on the host |
| EntitiesTheorems.EachCountedOnce | internal/publish/entities.go:63-88 | every entity with something to send is counted once, as written or as failed |
| EntitiesTheorems.RequestsCounted | internal/publish/entities.go:94-99 | the requests counted are the requests sent, those of failed entities included |
| Text.TrimmedExactly | internal/identity/resolve.go:27-28 | trimming changes nothing if and only if neither end is white space |
| Identity.ValidKeyExactly | internal/identity/resolve.go:23-35 | a key is valid if and only if it is non-empty, at most 128 characters, trimmed and free of control characters |
| Identity.CallsAreBounded | internal/identity/resolve.go:100-200 | a resolution ends after at most six calls |
| Identity.DryRunWritesNothing | internal/identity/resolve.go:136-165 | a dry run makes lookups and searches only |
| IdentityApi.UpsertRecord | internal/identity/resolve.go:180-200 | three upserts at most, then a lookup; runs the machine against any answers |
| IdentityApi.ResolveHost | internal/identity/resolve.go:84-176 | refuses an invalid key or target without a call, otherwise runs the machine and ends as it ends |
| IdentityApi.Adopt | internal/identity/resolve.go:116-159 | decides on the oldest candidate: found, another's key, would adopt, or writes the key |
| IdentityApi.CacheKeysDiffer | internal/identity/keyed.go:29 | different entities have different cache keys |
| IdentityApi.Keyed.Resolve | internal/identity/keyed.go:34-76 | a remembered id costs no call; any other resolution runs the machine and only a found or created id is remembered; no other entity's id is touched |
| IdentityApi.Keyed.Forget | internal/identity/keyed.go:80-84 | the entity is looked up again next time, and every other entity, whatever its template and key, is remembered as before |
| IdentityFleet.AdoptionPicks | internal/identity/resolve.go:116-139 | adoption takes a candidate none of the others is older than, and writes a key only to one that has none |
| IdentityFleet.KeyWriteEvolves | internal/identity/resolve.go:140-144 | a key write by an entitled process never changes a non-empty key, though the platform would let it |
| IdentityFleet.StepKeeps | internal/identity/resolve.go:100-200 | the invariant over records, history and processes holds after any step of any process or outsider |
| IdentityTheorems.KeysNeverChange | internal/identity/resolve.go:116-158 | over every interleaving of any identities a record's non-empty key never changes |
| IdentityTheorems.KeysAreIdentities | internal/identity/resolve.go:110-144 | a record without a key is only ever given the identity it carries |
| IdentityTheorems.AllAgree | internal/identity/resolve.go:100-175 | all processes of one identity that found, adopted or created got the same record, which holds the key for good, whatever their searches returned |
| IdentityTheorems.SettledHolds | internal/identity/resolve.go:100-175 | what a process was told it keeps: its record holds its key from then on |
| IdentityTheorems.OtherKeyIsLeftAlone | internal/identity/resolve.go:131-135 | a record with someone else's key is used as it is and keeps that key |
| IdentityTheorems.AtMostOneCreates | internal/identity/resolve.go:166-174 | of all processes of one identity at most one is told it created the record |
| EnvFileCode.FormatEnv | internal/systemd/envfile.go:25-44 | prints the settings sorted under the header, or names the first one that cannot be held |
| EnvFileCode.ParseEnv | internal/systemd/envfile.go:50-64 | reads the lines in order, ignoring comments and blanks, or names the first unreadable line's number |
| EnvFileCode.ParseAssignment | internal/systemd/envfile.go:66-77 | the trimmed name and the parsed value, or why there is none |
| EnvFileCode.ParseValue | internal/systemd/envfile.go:85-132 | the index loop reads a value as the recursive reading does, quotes, escapes and trailing blanks included |
| EnvFileRoundTrip.QuotedPart | internal/systemd/envfile.go:94-114 | a printed value is read back whole wherever a part may open, whatever surrounds it |
| EnvFileRoundTrip.PartsConcatenate | internal/systemd/envfile.go:79-84 | quoted parts concatenate; blanks between and behind them are skipped |
| EnvFileRoundTrip.UnquotedReadsBare | internal/systemd/envfile.go:79-84 | an unquoted value without backslashes reads as itself less trailing blanks, inner quotes literal |
| EnvFileRoundTrip.RoundTrip | internal/systemd/envfile.go:25-64 | parsing what was printed gives the settings back |
| EnvFileRoundTrip.PrintedExactlyWhenValid | internal/systemd/envfile.go:28-35 | printing succeeds and reads back if and only if every name is valid and no value holds a line break, carriage return or NUL; a failure is about the first offender |
| EnvFileCode.StoreAndLoad | internal/systemd/envfile.go:25-64 | for every map: stored and loaded unchanged, or refused |
| Settings.ResolveSettings | internal/service/settings.go:56-88 | stored settings, overridden by the environment, completed by the project and token prompts, or the reason there are none |
| Settings.ProjectAskedExactly | internal/service/settings.go:90-112 | the project prompt shows in what is stored if and only if neither the settings nor a configuration that loads set the project |
| Settings.OriginOfEach | internal/service/settings.go:50-88 | every stored value is the environment's, else what a prompt gave for a missing or replaced token or an unset project, else what was stored; there always is a token |
| Settings.CapturedExactly | internal/service/settings.go:65-69 | a set variable replaces the stored value, an absent one keeps it |
| Settings.ResolveSettles | internal/service/settings.go:56-112 | resolving again from what was stored, with the same environment and answers, stores the same, token replacement included |
| UninstallRecovery.OursThroughout | internal/systemd/install.go:109-150 | neither install nor uninstall plans anything for a unit that is not omnistat's own, and after any prefix of either the unit is still its own or gone |
| InstallRecovery.StoredThroughout | internal/systemd/install.go:152-168 | after any prefix of an install the stored settings read as they were or as resolved |
| InstallCode.PlanConfig | internal/systemd/install.go:198-246 | creates what is missing and fixes what is loose, never rewrites a configuration |
| InstallCode.PlanInstall | internal/systemd/install.go:33-110 | decides all steps, or the refusal, without changing the host |
| InstallCode.PlanUninstall | internal/systemd/uninstall.go:14-61 | decides all steps, settings and binary before the unit |
| InstallCode.Apply | internal/service/plan.go:63-78 | runs the steps in order and stops at the first failure: a prefix of the plan has happened, less a reset-failed that failed and was forgiven |
| InstallCode.UnresetExactly | internal/systemd/uninstall.go:35-40 | an uninstall whose reset-failed failed ends like any other if and only if the service had not failed |
| InstallCode.InstallRetried | internal/systemd/install.go:33-110 | an install that fails at any steps, run again, leaves the host as if nothing had failed once a run succeeds |
| InstallRecovery.InstallReachesGoal | internal/systemd/install.go:66-105 | an uninterrupted install: every path's final entry, the unit loaded, enabled and started |
| InstallRecovery.PrefixBetween | internal/systemd/install.go:66-105 | after any prefix every path is as it was or as it will be |
| InstallRecovery.InstallResumes | internal/systemd/install.go:33-110 | any prefix followed by a full install ends in exactly the host of an uninterrupted one: files, modes, owners, settings, unit |
| InstallRecovery.InstallAlwaysFinishes | internal/systemd/install.go:33-110 | the same after any number of interrupted runs |
| InstallRecovery.InstallIsIdempotent | internal/systemd/install.go:33-110 | installing again changes nothing |
| InstallRecovery.InstallSecures | internal/systemd/install.go:230-246 | afterwards nothing the service reads is loose, the settings are root's alone and are those resolved, an existing configuration has its text |
| UninstallRecovery.UninstallReaches | internal/systemd/uninstall.go:26-50 | an uninterrupted uninstall removes settings, binary and unit, stops, disables and forgets the service, and leaves the rest |
| UninstallRecovery.UnitGoesLast | internal/systemd/uninstall.go:41-47 | in every prefix the unit file is gone only after the settings and the binary |
| UninstallRecovery.UninstallResumesExactly | internal/systemd/uninstall.go:9-13 | running it again after a prefix ends like an uninterrupted one if and only if the prefix did not stop between removing a loaded unit's file and the reload |
| Disk.DeltaOf | internal/module/disk/io.go:115-126 | one counter's increase over the devices in both readings, or none if one went backwards |
| Disk.RatesOf | internal/module/disk/io.go:99-162 | what an interval yields: an error, nothing, or the increases and the busiest device |
| Disk.Module.Io | internal/module/disk/io.go:56-90 | the retained reading and the interval reported, on every path of a collection |
| Disk.ReportsTelescope | internal/module/disk/io.go:53-90 | the reported increases of any devices add up to the last reading less the first, whichever reads failed |
| Disk.PublishedTelescopes | internal/module/disk/io.go:56-126 | on a steady set of devices what is published adds up to the last reading less the first |

## Left out

- Names, descriptions and modules of schema actions, and the plan's text and JSON: they never decide anything.
- The order of the template ids in a bind: the ids are a set, as the platform treats them.
- Settling delays as durations: a pause either ends or is cut short.
- SchemaFleetTheorems.SuccessMeansConverged: speaks of templates, attributes and bindings; what holds of list options is SchemaExtension.SuccessHasOptions.
- Deletions on the platform, and others changing the desired attributes or identity values: assumed not to happen.
- A re-read older than a host's first read: assumed not to happen.
- The dry run's printer and pending options in a publish.
- The 64-bit wrap-around of a queue's removed counter and of counter sums: counters are unbounded.
- Locks and goroutines of the buffers: each operation is one atomic step.
- DeliveryRuns.PublishHolds: a publish is one step of a run; adds during it touch other state and may come before or after.
- Log messages, and the warning once per module at the key cap.
- The collection schedule, deadlines, and platform gating of attributes.
- Entities.PublishAll: the dry run, whose resolver creates nothing and whose publisher prints, is not modelled.
- The attributes an upsert sets on a record it creates.
- ManifestCode.Resolve: the list of problems is kept as whether it is empty; names, descriptions and platforms of attributes are not carried through.
- The text of the settings file's header, of the unit and of the starter configuration: parameters with what matters of them (comment lines; the marker; that the starter reads like no file).
- The YAML loader and the install pre-check: functions of the settings and the configuration.
- InstallCode.Machine.Perform: a failing change has no effect and a file is written or created in one piece.
- The watch after the start, prompts beyond their answer, and drop-ins, which are only listed.
- Environment files that are not valid UTF-8.
- Windows services, upgrades and version ordering, the module readers other than disk counters, HTTP, JSON and the SDK.
- Rounding of rates: increases are exact, before they are scaled.
