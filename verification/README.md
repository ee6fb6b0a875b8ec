# Proofstorm protocols and algorithms in Dafny

Proofstorm drives disposable cells in a Kubernetes cluster from clients that share a durable
store. This project models its crash-safe and concurrent protocols, its configuration
compiler and its paging and round-trip algorithms, and proves what they promise.

Check everything with `dafny verify dfyconfig.toml`.

How it is organised:

| file | modules | about |
|---|---|---|
| Updates.dfy | Updates, Reconcile | edits of a cell reaching the cluster object: store edits, reconciling clients with compare-and-set replaces, controller reports |
| Lifecycle.dfy | Lifecycle | purging records of cells that are gone, under the lifecycle guard |
| Receipts.dfy | Receipts | removing a cell's receipts and snapshots while others still write them |
| PrivateAccess.dfy | AccessRegistry, PrivateAccessClient | the private-access registry in an annotation, under compare-and-set patches |
| Reset.dfy | Reset | the write-ahead journal of a developer reset, interrupted after any file operation |
| Campaign.dfy | CampaignJournal, Campaign | the journal of a benchmark campaign, replayed on resume |
| Installer.dfy | Bundles, InstallerSteps, Installer, InstallerPrefix, InstallerOperations, InstallerCode | verified activation of bundles by concurrent installers |
| Config.dfy | Json, JsonSchema, Config | one contract compiled to a JSON Schema, a validator and default resolution |
| Mounts.dfy | Ordering, Mounts | execution mounts, credentials and link order |
| Preservation.dfy | Preservation, PreservationCode | inventories compared up to excluded lifecycle fields |
| Paging.dfy | Lexicographic, Sections, EnvironmentPaging, Text, CatalogPaging | byte-bounded pages and the cursors between them |
| Sweep.dfy | Sweep, PendingUpdates | the background recovery: the cursor-driven sweep, and the pending updates listed without a cursor |
| Document.dfy | Pointer, DocumentServer, DocumentClient | rebuilding a document from scans and slices |
| Encoding.dfy | Base64, ShellQuoting | Base64 decoding and shell quoting |

Protocols are transition systems: a world, one event for every call or file operation, and
`Run` over any sequence of events, so that every interleaving and every crash point is a
run. Beside each stands the client's code as methods on a shared object. Between any two
of its calls a tape lets the other actors do whatever they can do, and each method is proved
to take exactly its own steps of the transition system. The theorems about runs therefore
apply to what the code leaves behind.

Taken as given: compare-and-set on a resource version that never repeats; a lock with one
holder that is released when its holder stops; atomic rename, atomic single-file save;
digests that tell apart the documents actually served; a namespace that is created only while
its cell exists; receipts of a campaign attempt that only a child which has ended has written, so that one still
running is never found safe to retry; serialized sizes, image references and release policies as arbitrary functions.

## Findings

Five places where the code does less than its comments or its neighbours suggest. The code is
modelled as it is; each is shown by a concrete run or value, with its exact condition.

- `reconcile_once` reads the instance and the update state in two calls. An edit between the
  two lets a pass write the old revision under the new generation, undo a newer revision, or mark
  an update applied on a Ready that was reported for the previous one. A mark counts a report on its own
  generation if and only if the two reads were of one generation
  (Updates.AppliedCountsTheMarkedGenerationIffReadsAgree, Updates.TornPassMarksUnseenUpdate). A replace undoes
  a settled cluster if and only if its resource version still matches, and only with an instance read older than
  the state read (Updates.OnlyTornReadsUnsettle, Updates.TornPassUndoesNewerRevision). The generation in the
  annotation still never decreases, and a pass begun after the last edit repairs the cluster.
- `reconcile_name` may purge the record of a closing intent while a create call that was never answered is
  still on its way; the cell it creates then has no record. The purge leaves no orphan if and only if no such
  create is outstanding (Lifecycle.PurgeOrphansIffCreateUnanswered, Lifecycle.ClosedIntentCanBeOrphaned), and
  in no other way does a cell lose its record (Lifecycle.PurgeIsSafe).
- The emitted schema and the validator disagree in two directions. The schema accepts a value the validator refuses
  if and only if, within the bounds, it is an integer written as a double (1.0) in an integer field, or a member of the
  enumeration written differently (Config.FieldSchemaAgrees, Config.IntegralFloatsDisagree). The schema refuses what
  the validator accepts if and only if a conversion to a double rounds an integer beyond 2^53 onto a bound
  (Config.AcceptedSatisfiesSchema, Config.OnlyLargeIntegersAreRounded; Config.RoundedIntegersDisagree shows
  2^53 + 1), or a rule that requires a path when a field equals 1 meets 1.0 (Config.RuleAgrees,
  Config.RequiredWhenDisagrees, Config.ResolvedSatisfiesSchemaIff). No built-in contract has such a rule on a
  number; this last case concerns contracts that a registry may hold.
- An installer takes a bundle's id before copying and does not compare it with the copied manifest, so a bundle
  swapped in between is installed under the wrong id. Over every run it is misnamed if and only if the bundle's
  manifest when it was copied was not the one hashed before (Installer.MisnamedIffManifestChanged,
  Installer.SwappedBundleIsMisnamed), and installing the hashed bundle is refused from then on
  (Installer.MisnamedStaysRefused).
- The recovery loop lists at most fifty pending updates, without a cursor and in no promised order. An update is
  certain to be tried at a tick if and only if at most fifty are pending, and fifty that never settle can keep
  another one waiting for ever (PendingUpdates.TriedForCertainIff, PendingUpdates.StuckUpdatesStarveOthers).

## Model

| member | source | states |
|---|---|---|
| Updates.Reachable | crates/proofstorm-app/src/updates.rs:55-176 | every run of edits, clients, crashes and controller writes keeps the invariant that ties reads, pending replaces, marks and the cluster object to the store's history |
| Updates.DesiredGenerationNeverDecreases | crates/proofstorm-app/src/updates.rs:81-166 | the desired generation of one incarnation never decreases between any two moments of any run |
| Updates.ReplaceIsNeverStale | crates/proofstorm-app/src/updates.rs:111-164 | a replace that changes the object found it exactly as fetched and at no newer generation than the one it writes |
| Updates.AppliedCountsTheMarkedGenerationIffReadsAgree | crates/proofstorm-app/src/updates.rs:167-175 | a mark counts a Ready the controller reported; it was a report on the marked generation and revision if and only if both store reads were of one generation |
| Updates.FreshPassSettles | crates/proofstorm-app/src/updates.rs:88-166 | the completing step of a pass built from current reads leaves the object at exactly the store's revision and generation |
| Updates.PassConverges | crates/proofstorm-app/src/updates.rs:55-176 | once edits stop, a pass begun afterwards that succeeds has settled the cluster at some moment of it, from every reachable world and under every interleaving |
| Updates.SettledStays | crates/proofstorm-app/src/updates.rs:81-166 | a settled incarnation stays settled once no pass holds reads from before the last edit |
| Updates.PassLeavesSettled | crates/proofstorm-app/src/updates.rs:55-176 | if moreover no pass holds reads from before the last edit, the incarnation it settled is still settled when the run ends |
| Updates.ClosingPassOnlyLooks | crates/proofstorm-app/src/updates.rs:91-93 | a pass that ends because the cell is closing changes neither the object nor the mark |
| Updates.OnlyTornReadsUnsettle | crates/proofstorm-app/src/updates.rs:89-90 | a replace undoes a settled cluster exactly when its version still matches, and then its instance read is older than its state read |
| Updates.AtMostFourAttempts | crates/proofstorm-app/src/updates.rs:62-78 | one call restarts at most three times, and each restart forgets what was read |
| Updates.TornPassMarksUnseenUpdate | crates/proofstorm-app/src/updates.rs:89-90 | from every settled and Ready cluster, an edit between the two reads is marked applied without any controller report on it |
| Updates.TornPassUndoesNewerRevision | crates/proofstorm-app/src/updates.rs:89-90 | a torn pass puts the old revision back over a newer one that was already settled |
| Updates.TornPassIsReachable | crates/proofstorm-app/src/updates.rs:88-176 | the worlds in which this happens are reachable from the start |
| Reconcile.ReadDesired | crates/proofstorm-app/src/updates.rs:88-93 | two reads in separate transactions, or an end because the cell is closing |
| Reconcile.FetchCell | crates/proofstorm-app/src/updates.rs:96-121 | a missing, closing or newer object ends the pass; otherwise the pass goes on with exactly what it fetched |
| Reconcile.Overwrite | crates/proofstorm-app/src/updates.rs:122-166 | the replace goes through, conflicts or fails, and the pass continues accordingly |
| Reconcile.Publish | crates/proofstorm-app/src/updates.rs:96-176 | from the two reads to the reported phase: the pass ends with the result, or restarts after a conflict |
| Reconcile.ReconcileOnce | crates/proofstorm-app/src/updates.rs:81-176 | one attempt ends the pass with its result or restarts it after a conflict |
| Reconcile.Reconcile | crates/proofstorm-app/src/updates.rs:55-79 | the retry loop, against any interference: if edits stopped and it reports success, the cluster was at exactly the desired revision and generation, and still is when no pass holds older reads; a status for a closing cell is only given when it is closing |
| Lifecycle.Reachable | crates/proofstorm-app/src/lifecycle.rs:68-143 | every run of the guard holder, crashes, answered and unanswered creates, cluster changes and store writes keeps the invariant |
| Lifecycle.PurgeIsSafe | crates/proofstorm-app/src/lifecycle.rs:68-120 | over every run with any crashes: no kept intent is purged; a purge meets its cell or namespace only if a create was on its way when it read the cell; every live cell and every cell still to come has its bound record unless purged in just that situation |
| Lifecycle.PurgeOrphansIffCreateUnanswered | crates/proofstorm-app/src/lifecycle.rs:109-119 | after the two absence reads, a purge can leave a cell without a record if and only if a create for that key is unanswered or landed in between |
| Lifecycle.ClosedIntentCanBeOrphaned | crates/proofstorm-app/src/lifecycle.rs:108-118 | a run from the start in which a closing intent is purged and its cell appears afterwards |
| Lifecycle.RunGrows | crates/proofstorm-store/src/lifecycle.rs:74-131 | bindings and the closing flag of a record never revert, and instance keys are never reused |
| Lifecycle.Examine | crates/proofstorm-app/src/lifecycle.rs:76-115 | the record is left as it was but for a binding found and filled in, or it is untouched and a candidate for purging |
| Lifecycle.VerifyAndPurge | crates/proofstorm-app/src/lifecycle.rs:116-119 | the record goes only after cell and namespace were both read absent for its key; any other outcome leaves record and purges exactly as they were |
| Lifecycle.ReconcileName | crates/proofstorm-app/src/lifecycle.rs:68-120 | it reports a purge exactly when it purged its record, after both absence reads for that key; it does purge when all calls are answered, cell and namespace are gone, no create lands and the intent is not kept; after an error the record is unchanged, and otherwise only its missing binding may be filled in |
| Receipts.RemoveOne | crates/proofstorm-app/src/lifecycle.rs:243-277 | one listed object: after a conflict it is judged again; only a version judged removable is deleted, and on success the listed version is gone |
| Receipts.RemoveReceipts | crates/proofstorm-app/src/lifecycle.rs:220-279 | against any interference only objects removable at the very version deleted are deleted and no listed removable version is left on success; undisturbed, exactly the removable objects go |
| AccessRegistry.Serializable | crates/proofstorm-app/src/runtime.rs:91-141 | over every interleaving the commits form a legal sequential history, and each object's registry is exactly what that history leaves |
| AccessRegistry.GrantsAreKept | crates/proofstorm-app/src/runtime.rs:117-138 | between any two moments of an incarnation no grant is lost, none changes scope, principal or instance, and no revocation is undone |
| AccessRegistry.Linearizable | crates/proofstorm-app/src/runtime.rs:74-141 | a finished call took effect, or was refused, at one step between its start and end as the sequential registry would have decided there, and changed nothing at any other step |
| AccessRegistry.AtMostFiveListings | crates/proofstorm-app/src/runtime.rs:75-89 | one call lists at most five times |
| PrivateAccessClient.Choose | crates/proofstorm-app/src/runtime.rs:93-138 | the checks in the code's order decide exactly as the sequential registry does on the listed cells |
| PrivateAccessClient.Once | crates/proofstorm-app/src/runtime.rs:91-141 | one attempt ends with its answer or, after a conflict, leaves the call at its next attempt |
| PrivateAccessClient.PrivateAccess | crates/proofstorm-app/src/runtime.rs:74-89 | the whole call is linearizable against any interference and lists at most five times |
| Reset.InterruptedResetLosesNothing | crates/proofstorm-app/src/dev_reset.rs:226-337 | in every interrupted state the previous installation is in exactly one of home and archive with all its content, its tools are in exactly one place, and archiving came after runtime removal was recorded |
| Reset.Disk.Write | crates/proofstorm-app/src/dev_reset.rs:163-172 | one atomic file operation: it happens entirely, or the session ends there |
| Reset.Archive | crates/proofstorm-app/src/dev_reset.rs:280-305 | moving home into the archive by steps, each of which loses nothing |
| Reset.MoveTools | crates/proofstorm-app/src/dev_reset.rs:322-330 | the archived tools move to the new home unless they are there already |
| Reset.HandOver | crates/proofstorm-app/src/dev_reset.rs:322-333 | tools and registration end at the replacement, each moved once over any number of reruns |
| Reset.Activate | crates/proofstorm-app/src/installation.rs:119-131 | the recorded replacement is created and filled, whatever part of it existed already |
| Reset.Build | crates/proofstorm-app/src/dev_reset.rs:314-337 | from a recorded replacement to the finished state, or to an interrupted state in between |
| Reset.Finish | crates/proofstorm-app/src/dev_reset.rs:270-337 | the journal drives the remaining steps from wherever it was interrupted |
| Reset.Run | crates/proofstorm-app/src/dev_reset.rs:226-268 | one session begins or resumes a reset and loses nothing on any disk it meets; without a journal it touches nothing unless the home holds the confirmed installation, registered for this source under this id |
| Reset.Rerun | crates/proofstorm-app/src/dev_reset.rs:226-337 | over any sequence of interrupted sessions the reset is never refused; when it completes, the result is the state an uninterrupted run with that replacement leaves, and one long enough session completes it |
| CampaignJournal.LaunchesAreBounded | crates/proofstorm-acceptance/src/campaign.rs:348-438 | at most runs times `max_setup_attempts` launches |
| Campaign.ReplayEntry | crates/proofstorm-acceptance/src/campaign.rs:359-383 | a journalled attempt leads to the next run exactly if it is the expected one and is found to be a model result, to another setup exactly if it is found to be a setup failure safe to retry, and otherwise nowhere |
| Campaign.WalksThroughIff | crates/proofstorm-acceptance/src/campaign.rs:354-383 | while no left-over child acts, the replay goes through if and only if every attempt is found to be what the journal did after it: a model result before the next run, a safe setup failure before another setup |
| Campaign.Replay | crates/proofstorm-acceptance/src/campaign.rs:354-383 | the loop launches nothing and ends exactly where the entries, inspected in order, lead: every earlier run then has a verified model result, and no earlier attempt of this run can start a model |
| Campaign.Execute | crates/proofstorm-acceptance/src/campaign.rs:286-346 | an attempt launched before is refused and changes nothing; otherwise it is launched at most once, and success means exactly that it was spawned, its exit is known and nothing interrupted |
| Campaign.Record | crates/proofstorm-acceptance/src/campaign.rs:394-406 | the journal names an attempt before it can be launched, and never one that was launched before |
| Campaign.Conclude | crates/proofstorm-acceptance/src/campaign.rs:409-429 | it succeeds exactly on a verified model result whose exit is known and without cancellation, and otherwise stops the campaign |
| Campaign.LaunchRecorded | crates/proofstorm-acceptance/src/campaign.rs:407-429 | the journalled attempt is launched at most once; success means a verified model result, and comes exactly with a clean launch that nothing interrupts |
| Campaign.LaunchRun | crates/proofstorm-acceptance/src/campaign.rs:384-432 | after a cancellation, past the setup limit or with changed sources nothing is recorded or launched; success means a verified model result and puts the position at the next run |
| Campaign.Drive | crates/proofstorm-acceptance/src/campaign.rs:348-438 | a session keeps the journal's invariant wherever it stops, and it completes the campaign if and only if the replay goes through, every run left may be launched and gives a verified model result, and nothing interrupts it |
| Campaign.RunSession | crates/proofstorm-acceptance/src/campaign.rs:225-284 | the same, and whatever else ends the session early is recorded as a stop |
| Campaign.Resume | crates/proofstorm-acceptance/src/campaign.rs:225-284 | over any sessions with crashes and orphaned children: every attempt is launched at most once, no run is launched again after an attempt that started a model, no run has two such attempts; the journal goes on to the next run only after a verified model result and to another setup only after a safe setup failure; completion means every run has a verified model result |
| Bundles.ManifestDeterminesTree | crates/proofstorm-app/src/installer.rs:136-232 | two verified trees with one manifest hold the same files |
| Installer.Reachable | crates/proofstorm-app/src/installer.rs:376-506 | at every crash point of every run `current` names a version that some installer verified by its own policy before renaming it into place, and activations form a chain in which each checked one replaced exactly what it expected |
| Installer.CurrentIsVerified | crates/proofstorm-app/src/installer.rs:376-506 | the same from an empty prefix with the real verification, each installer with its own policy; version names are manifest digests while bundles are left alone |
| Installer.VersionsAreImmutable | crates/proofstorm-app/src/installer.rs:470-491 | a placed version is never changed or removed, and activations are never forgotten |
| Installer.LockProtects | crates/proofstorm-app/src/installer.rs:428-428 | whoever else runs, versions and `current` change under the lock only by its holder |
| Installer.StillBundlesNameVersions | crates/proofstorm-app/src/installer.rs:470-484 | while no bundle changes, every version is named by its own manifest |
| Installer.MisnamedIffManifestChanged | crates/proofstorm-app/src/installer.rs:470-491 | over every run from taking the lock to placing a version, the version is misnamed if and only if the bundle had another manifest when it was copied than when it was hashed |
| Installer.MisnamedStaysRefused | crates/proofstorm-app/src/installer.rs:485-491 | over every later run a misnamed version stays, and whoever then hashes a bundle of that id is refused |
| Installer.SwappedBundleIsMisnamed | crates/proofstorm-app/src/installer.rs:470-484 | the run in which a swapped bundle is installed under the other's id |
| InstallerPrefix.VerifyTree | crates/proofstorm-app/src/installer.rs:136-232 | the loop over receipts accepts exactly the trees whose inventory and files are what the manifest lists |
| InstallerOperations.LookUp | crates/proofstorm-app/src/installer.rs:470-491 | an installed version is reused only if it verifies and carries the manifest it is named by |
| InstallerOperations.ActivateVersion | crates/proofstorm-app/src/installer.rs:548-559 | one rename makes a verified version current; a checked activation replaces what it expected |
| InstallerCode.StageCopy | crates/proofstorm-app/src/installer.rs:473-484 | copying while the bundle may change ends in a verified stage or in refusal |
| InstallerCode.Install | crates/proofstorm-app/src/installer.rs:376-506 | success means the named version is active, verified by this installer's own policy, and replaced exactly the expected one |
| Json.PlainSame | crates/proofstorm-core/src/backend.rs:1437-1438 | without integral doubles, JSON Schema equality and structural equality coincide at every depth |
| Config.FieldSchemaAgrees | crates/proofstorm-core/src/backend.rs:1280-1327 | for every field contract and every value: it satisfies the emitted schema if and only if the validator accepts it without rounding it onto a bound, or it is an integral double in an integer field or an enumeration member written differently, within the bounds; those the validator refuses |
| Config.AcceptedSatisfiesSchema | crates/proofstorm-core/src/backend.rs:1392-1462 | every accepted value satisfies the schema, exactly unless it was rounded onto a bound |
| Config.NumberFieldsAgree | crates/proofstorm-core/src/backend.rs:1280-1327 | a number field without enumeration agrees on every value that is not rounded, 1.0 included |
| Config.IntegralFloatsDisagree | crates/proofstorm-core/src/backend.rs:1398-1398 | 1.0 satisfies an integer field's schema and is the wrong type for the validator |
| Config.RoundedIntegersDisagree | crates/proofstorm-core/src/backend.rs:1446-1449 | 2^53 + 1 passes a maximum of 2^53 in the validator but not in the schema |
| Config.OnlyLargeIntegersAreRounded | crates/proofstorm-core/src/backend.rs:1446-1449 | with a conversion exact up to 2^53 only larger integers are rounded onto a bound |
| Config.PairsAgree | crates/proofstorm-core/src/backend.rs:1347-1356 | forbidding every pair of exclusive fields is forbidding more than one |
| Config.RuleAgrees | crates/proofstorm-core/src/backend.rs:1345-1367 | for every configuration a rule's schemas hold exactly when the rule does and its condition is not met by an equal value written differently; order rules have none |
| Config.SchemaAgrees | crates/proofstorm-core/src/backend.rs:1157-1201 | for every contract and authored configuration: the schema accepts it if and only if each value is accepted unrounded or leniently, the expressible rules hold and none is stricter in the schema, and required fields without defaults are authored |
| Config.PlainConfigurationsAgree | crates/proofstorm-core/src/backend.rs:1157-1201 | where no number is written as an integral double, the schema is neither lenient nor stricter |
| Config.AcceptsIffSchemaAccepts | crates/proofstorm-core/src/backend.rs:708-733 | for every contract and component: it resolves with nothing rounded and no stricter rule if and only if the schema accepts it without leniency, the order rules and built-in checks hold, and the defaults fit |
| Config.ResolvedSatisfiesSchemaIff | crates/proofstorm-core/src/backend.rs:708-733 | the schema accepts what resolved, exactly unless a value was rounded or a rule is stricter in the schema |
| Config.RequiredWhenDisagrees | crates/proofstorm-core/src/backend.rs:1357-1364 | a component with mode 1.0 resolves while the schema of its contract, which requires a path when the mode is 1, refuses it |
| Config.ResolutionIsClosure | crates/proofstorm-core/src/backend.rs:718-732 | resolution keeps authored values, adds only authorable defaults, passes effective validation with every required field present, and is idempotent |
| Config.ResolutionIsLeast | crates/proofstorm-core/src/backend.rs:719-730 | every completed configuration that agrees with the authored one and its defaults contains the result |
| Config.CheckValues | crates/proofstorm-core/src/backend.rs:1204-1223 | the loop accepts exactly configurations of declared, authorable and valid fields, and otherwise reports the first bad field in name order with what is wrong with it |
| Config.CheckRequired | crates/proofstorm-core/src/backend.rs:1255-1268 | it finds the first required authorable field that is missing, if there is one |
| Config.ViolatedRules | crates/proofstorm-core/src/backend.rs:1473-1520 | every violated rule is reported and no other |
| Config.ValidateConfig | crates/proofstorm-core/src/backend.rs:1203-1271 | it accepts exactly the valid configurations, and otherwise reports the first violation in the order of its checks and of the field names |
| Config.AddDefaults | crates/proofstorm-core/src/backend.rs:719-730 | the loop adds exactly the missing authorable defaults |
| Config.ResolveEffectiveComponent | crates/proofstorm-core/src/backend.rs:708-733 | it succeeds exactly on accepted components of registered backends of their kind, with the default closure as result; an error is the first one of the authored and then of the completed configuration |
| Ordering.SortedUnique | crates/proofstorm-core/src/backend.rs:781-782 | a multiset has one sorted arrangement under a total order |
| Mounts.FindLinks | crates/proofstorm-core/src/backend.rs:1582-1592 | the filter yields the links matching kind, binding and implementation |
| Mounts.ResolveExecutionMounts | crates/proofstorm-core/src/backend.rs:1538-1641 | the counting loop computes the first failing template's error, a missing group, or the mounts of the used templates |
| Mounts.FailsIff | crates/proofstorm-core/src/backend.rs:1593-1616 | a template fails exactly when its link is ambiguous, or absent where one is required |
| Mounts.SkippedIff | crates/proofstorm-core/src/backend.rs:1549-1602 | a template is left out exactly when a payment processor makes it inapplicable or nothing links to an alternative |
| Mounts.ResolveIff | crates/proofstorm-core/src/backend.rs:1538-1641 | resolution succeeds exactly when no template fails and every active group has a used template; the mounts are then a subsequence of the templates, each linked one naming its unique link |
| Mounts.ValidateMounts | crates/proofstorm-core/src/backend.rs:1756-1814 | accepts exactly templates with distinct names and paths and well-formed groups and selectors |
| Mounts.MountsAreDistinct | crates/proofstorm-core/src/backend.rs:1756-1766 | under a validated contract resolved mounts have distinct names and paths |
| Mounts.CompileCredentials | crates/proofstorm-core/src/backend.rs:1643-1681 | the loop computes the specified credentials or the first error |
| Mounts.OneCredentialPerLinkedMount | crates/proofstorm-core/src/backend.rs:1643-1681 | it succeeds exactly when every linked mount has one storage claim; each then has exactly one credential, sorted by identity |
| Mounts.CompileIgnoresLinkOrder | crates/proofstorm-core/src/backend.rs:781-818 | permuting the input links changes neither the plan nor the error |
| Mounts.CompileContract | crates/proofstorm-core/src/backend.rs:745-864 | the link-dependent part of compilation, as specified |
| Preservation.NormalizedAgrees | crates/proofstorm-acceptance/src/preservation.rs:199-226 | blanked inventories are equal exactly when the originals agree everywhere but in excluded values, field presence included |
| Preservation.SameButIsEquivalence | crates/proofstorm-acceptance/src/preservation.rs:198-226 | for fixed exclusions the comparison is an equivalence |
| Preservation.SameButIsMonotone | crates/proofstorm-acceptance/src/preservation.rs:198-226 | excluding more never makes the comparison stricter |
| Preservation.RunProtectsPreexisting | crates/proofstorm-acceptance/src/preservation.rs:228-261 | a run passes exactly when both inventories are of the ownership-aware format, only lifecycle fields are excluded, every preexisting resource is still there and the same but for excluded values, and every addition is unowned |
| Preservation.ExclusionsAreLeast | crates/proofstorm-acceptance/src/preservation.rs:165-196 | `exclusions` succeeds exactly when some set of lifecycle fields passes, and a set passes exactly when it contains the result |
| Preservation.JustifiedSnoc | crates/proofstorm-acceptance/src/preservation.rs:38-47 | accumulating what moved keeps every observation valid and excludes nothing that was not seen moving |
| PreservationCode.Normalize | crates/proofstorm-acceptance/src/preservation.rs:199-224 | the nested loops blank exactly the excluded fields that exist, or refuse a field outside the lifecycle |
| PreservationCode.VerifyWithExclusions | crates/proofstorm-acceptance/src/preservation.rs:198-226 | it passes exactly on inventories that agree but for excluded lifecycle values |
| PreservationCode.FindExclusions | crates/proofstorm-acceptance/src/preservation.rs:165-196 | the loop collects exactly the moved lifecycle fields of containers in both inventories that are not the run's own |
| PreservationCode.DropAdditions | crates/proofstorm-acceptance/src/preservation.rs:236-258 | additions are counted and dropped exactly when all are unowned |
| PreservationCode.VerifyRun | crates/proofstorm-acceptance/src/preservation.rs:228-261 | the number of additions of each kind, or why the run is not clean |
| PreservationCode.Baseline | crates/proofstorm-acceptance/src/preservation.rs:25-56 | the loop stops at the first observation awaiting no restart, with exclusions that validate every observation and hold exactly what was seen moving |
| Lexicographic.Trichotomy | crates/proofstorm-app/src/environment.rs:369-370 | the order of ids is total |
| Sections.PastPosition | crates/proofstorm-app/src/environment.rs:363-375 | the items past the k-th id are those after position k |
| Sections.CutKeepsPage | crates/proofstorm-app/src/environment.rs:386-393 | shortening a page keeps its cursor at the last item kept |
| Sections.NextPageContinues | crates/proofstorm-app/src/environment.rs:363-393 | what lies past a page's cursor is what the page left out |
| Sections.WalkYieldsInventory | crates/proofstorm-app/src/environment.rs:363-393 | following section cursors with any limits and budgets yields every item exactly once, in id order |
| Sections.WalkIsShort | crates/proofstorm-app/src/environment.rs:363-393 | the walk ends after at most one page per item |
| Sections.EmptyIdIsNeverListed | crates/proofstorm-app/src/environment.rs:370-370 | an item with an empty id is on no page |
| EnvironmentPaging.SectionPage | crates/proofstorm-app/src/environment.rs:363-375 | the page is the first `limit` items past the cursor, with a cursor exactly when more remain |
| EnvironmentPaging.CellsPage | crates/proofstorm-app/src/environment.rs:49-66 | the same for live cells that have a record |
| EnvironmentPaging.Shorten | crates/proofstorm-app/src/environment.rs:386-393 | drops the last of at least two items and moves the cursor to the one before |
| EnvironmentPaging.KeepTwice | crates/proofstorm-app/src/environment.rs:376-385 | filtering demand again by fewer components is filtering once by the fewer |
| EnvironmentPaging.BoundPageBytes | crates/proofstorm-app/src/environment.rs:399-424 | it terminates for any size measure with a view that fits or has no cells, or an error when a first cell no longer shortenable is still too large; pages only lose items from the end, no cell is dropped that could have stayed, and a view that fits is untouched |
| EnvironmentPaging.ReadComponents | crates/proofstorm-app/src/environment.rs:363-424 | end to end, pages built by `section_page` and cut by `bound_page_bytes` with whatever else the answer holds: what is read is the whole section once, in id order, and it is read unless some answer cannot be cut until it fits |
| EnvironmentPaging.ReadCells | crates/proofstorm-app/src/environment.rs:49-66 | the same for the cells: every live cell with a record is read once, in id order, unless one cannot be cut until it fits |
| Text.ParseInvertsPrint | crates/proofstorm-app/src/catalog.rs:119-119 | printing and parsing an offset |
| CatalogPaging.CatalogPage.PushBounded | crates/proofstorm-app/src/query/page.rs:9-26 | on acceptance item and continuation are added; otherwise the page is as before |
| CatalogPaging.EmittedCursorIsAccepted | crates/proofstorm-app/src/catalog.rs:114-126 | the same query accepts every cursor it emits |
| CatalogPaging.ForeignCursorIsRefused | crates/proofstorm-app/src/catalog.rs:115-118 | a cursor bound to another identity is refused |
| CatalogPaging.List | crates/proofstorm-app/src/catalog.rs:96-174 | a page is a nonempty run of entries from the cursor's offset with a cursor to the first left out, cut short only where one more entry did not fit, or an error |
| CatalogPaging.WalkYieldsCatalog | crates/proofstorm-app/src/catalog.rs:96-174 | following cursors enumerates the selected entries exactly once, in sorted order, for any limits and budgets |
| Sweep.EveryRecordIsVisited | crates/proofstorm-app/src/updates.rs:181-219 | no record starves: once the sweeping ticks, at a page each, outnumber the records in between and those added in any tick, a record that stays has been visited, whatever is skipped, failed or removed |
| Sweep.SteadyAdditionsAreKeptUpWith | crates/proofstorm-app/src/updates.rs:181-219 | steady additions, fewer than a page for each sweep on average, keep no record waiting for longer than a bounded number of sweeps |
| Sweep.SteadyInventoryIsCovered | crates/proofstorm-app/src/lifecycle.rs:173-218 | with a fixed set of records a bounded number of sweeps visits them all |
| Sweep.SweepPage | crates/proofstorm-app/src/lifecycle.rs:173-218 | every record of the page is tried, the first failure is reported, and the cursor moves on all the same |
| PendingUpdates.TriedForCertainIff | crates/proofstorm-store/src/updates.rs:52-59 | an update is in every list a tick may get if and only if at most fifty are pending |
| PendingUpdates.PendingIsReached | crates/proofstorm-app/src/updates.rs:211-219 | while tried updates settle, one that stays pending has been tried once the lists have counted as many as were pending and were added |
| PendingUpdates.StuckUpdatesStarveOthers | crates/proofstorm-app/src/updates.rs:211-219 | with more than fifty pending, fifty that never settle can keep any other one from being tried for any number of ticks |
| Pointer.UnescapeInvertsEscape | crates/proofstorm-acceptance/src/cell.rs:258-263 | the client's unescaping inverts the server's escaping for every key |
| Pointer.TildesFirstWouldNot | crates/proofstorm-acceptance/src/cell.rs:262-263 | undoing the escapes in the other order would not |
| Pointer.ValidatePointer | crates/proofstorm-app/src/query.rs:40-51 | the character loop accepts exactly short, rooted pointers whose tildes are all escapes |
| Pointer.ChildPathEscaped | crates/proofstorm-mcp/src/cell_read.rs:266-266 | paths handed out by a scan are well escaped |
| Pointer.ChildPathResolves | crates/proofstorm-mcp/src/cell_read.rs:266-266 | a child path leads to that child, and its last segment is that key again |
| DocumentServer.ReadValue | crates/proofstorm-mcp/src/cell_read.rs:165-296 | every reply is a nonempty piece from the offset on with the next offset; every error has its reason, and a value is too large only if not even one item from this offset fits |
| DocumentServer.Shrink | crates/proofstorm-mcp/src/cell_read.rs:236-295 | the halving loop replies with a piece that fits, or fails only when the smallest one at this offset does not |
| DocumentServer.IndexPathResolves | crates/proofstorm-mcp/src/cell_read.rs:246-266 | a path handed out by an explicit scan of an array leads to its item |
| DocumentClient.ScanPage | crates/proofstorm-acceptance/src/cell.rs:256-265 | one page adds exactly the members it lists |
| DocumentClient.ReadScan | crates/proofstorm-acceptance/src/cell.rs:253-273 | following a scan rebuilds the object |
| DocumentClient.ReadSlices | crates/proofstorm-acceptance/src/cell.rs:274-285 | following slices rebuilds the string or array |
| DocumentClient.Portion | crates/proofstorm-acceptance/src/cell.rs:235-286 | the value at a pointer of the document a digest names |
| DocumentClient.ReadDocument | crates/proofstorm-acceptance/src/cell.rs:229-288 | what comes back is exactly the value in the document of the first call, however the server splits it and the document changes; it does come back if nothing changes or fails and the smallest replies of the document fit |
| Base64.TableSymbol | crates/proofstorm-acceptance/src/postgres.rs:251-251 | the table is the alphabet of RFC 4648 section 4 |
| Base64.RegisterStep | crates/proofstorm-acceptance/src/postgres.rs:263-268 | what the 32-bit shift loses is never needed: masked byte and remaining bits are exact |
| Base64.Decode | crates/proofstorm-acceptance/src/postgres.rs:250-270 | the register loop computes what decoding with unbounded numbers does |
| Base64.DecodeInvertsEncode | crates/proofstorm-acceptance/src/postgres.rs:250-270 | decoding undoes encoding for every byte string |
| Base64.DecodeIgnoresWhitespace | crates/proofstorm-acceptance/src/postgres.rs:255-255 | also with whitespace inserted anywhere |
| Base64.FailsOnlyOnForeignSymbols | crates/proofstorm-acceptance/src/postgres.rs:256-267 | it fails exactly on a foreign symbol before the first padding, and every output is a byte |
| ShellQuoting.QuotedReadsBack | crates/proofstorm-acceptance/src/native.rs:14-16 | quoted text contributes exactly its value to the word it stands in |
| ShellQuoting.QuoteRoundTrip | crates/proofstorm-acceptance/src/native.rs:14-16 | the shell reads a quoted value back as one word equal to it |
| ShellQuoting.ShellQuoteRoundTrip | crates/proofstorm-app/src/installer.rs:264-271 | the same for paths, which are refused exactly when they contain a line break |

## Left out

- Campaign.Resume: what makes receipts verify is left to the evidence of an inspection; reports are output.
- Lifecycle.ReconcileName: removing receipts between the absence reads and the purge is modelled on its own (Receipts); creation appears only as events of the guard holder; removing the handle of a missing instance (`purge_unmaterialized_handle`).
- Reset.Rerun: assumes that a fresh random installation id differs from the previous one.
- AccessRegistry.GrantsAreKept: nobody but clients writes the annotation after an object exists; an object may be created with any annotation, also an unreadable one.
- Mounts.CompileContract: only the part that depends on links; ports, probes, images and digests are copied by the source without a decision about links. Which empty group an error names is not modelled.
- PreservationCode.VerifyRun: an unreadable addition is reported like one that may be owned.
- Inventories whose sections are not objects: capturing never produces them.
- CatalogPaging.List: filters and searchable fields of an entry are one arbitrary predicate.
- EnvironmentPaging.BoundPageBytes: views are values here; the source changes the page it is given in place.
- Base64.Decode: the final UTF-8 check of the decoded bytes.
- InstallerCode.Install: launchers, the short command, and the shape check of an existing `current` link.
- Deadlines and sleeps are arbitrary numbers of iterations; regular expressions, hashing and serialization are arbitrary functions.
- HTTP, events, command line and terminal output: transport and presentation only.
- Docker, kubectl, helm, process and signal handling: foreign calls without state of their own.
- Built-in contract tables, stage and reason tables, platform selection: the results here hold for every contract.
- Action submission and observation (`apply_action`, `terminal_action_observation`, `vanished_action_outcome`), the directory search and the telemetry quantities.
