# Platform engineering scripts: a verified model

This project models the stateful parts of the platform-engineering scripts and proves what they
promise, in Dafny 4.11. `dafny verify dfyconfig.toml` checks all of it. Line numbers below are those of
the Python files.

**Source-intent credentials** (`SourceIntent*.dfy`). A Landing Unit has one durable record, beside a
write-once alias table, a history of superseded intents, a projected credential and a suspension flag; a
provider holds the live tokens. `SourceIntent` is a state machine with one step for each durable write or
provider call, a crash that forgets the process at any point, and a clock that only moves forward.
`SourceIntentInvariant` states the inductive invariant, `SourceIntentSteps` proves that each step keeps it,
and `SourceIntentTheorems` draws the consequences over all runs; `SourceIntentPolicy` and
`SourceIntentReceipts` say what admission, suspension, rotation and receipts mean on the raw records. `SourceIntentProvider` has the code's own
shape: a class whose methods write the files one at a time, each proved to leave the recorded run a run of
the machine, so that every theorem about runs is a theorem about those methods. Timing is explicit: without
any assumption two tokens of one unit overlap by less than the older one's mint delay plus its lifetime
excess; under the assumption `Timely` (no token outlives its recorded `started_at` plus the maximum) there
is at most one. `SourceIntentOverlap` exhibits, for every
contract, the runs that show the assumption is needed and the bound attained.

**Runtime compositions** (`Composition*.dfy`). The depth-first ordering of the dependency graph, the
projection-target table that makes environment construction independent of declaration order, the values
that the environments end up with, and the recorded lifecycle with write-ahead intent, rollback and concurrent
`status` runs.

**OCI layer replay** (`Layer*.dfy`, `ImageIncident.dfy`). The two-phase replay of a layer's tar members over
an inventory, compared with the layer semantics of the OCI Image Format Specification, "Image Layer
Filesystem Changeset", sections "Whiteouts" and "Opaque Whiteout", and the once-per-incident repair record.
`LayerMeaning` reads replay and reference path by path and member by member.

**Model-profile mutation** (`ModelProfile*.dfy`). The three governed documents, the validator's
cross-document rules, the six intents with capability inheritance, and the apply/restore round trip;
`ModelProfileMeaning` reads effect and rules field by field.

**Smaller pieces**: the byte stream that the working-tree digest hashes (`DigestStream.dfy`), the systemd
command-line printer against a reader of systemd.syntax(7) "Quoting" and systemd.service(5) "Command lines"
(`SystemdUnit.dfy`, `SystemdCommand.dfy`, `SystemdUnitFile.dfy`), repository admission
(`RepositoryAdmission.dfy`), and the drill ledgers
(`DrillLedger.dfy`, with `DrillMeaning.dfy` on what each command refuses and writes).

Some promises turn out to hold only under a condition that the code does not enforce. In each case the model
keeps the code as it is and the theorem is an if-and-only-if, or has a counterexample beside it:

- the one-token promise needs `Timely`; token verification accepts a lifetime up to the maximum plus a
  minute (`scripts/repository_provider_identity.py:545`), and the mint follows `started_at` by any delay;
- layer replay equals the OCI semantics exactly when the layer covers only what hangs below surviving
  directory entries; a lower directory without an entry of its own is not cleared by a file put over it;
- a mutation of consistent documents is consistent exactly when the decision is acceptable for the documents
  as they stand; among other things the flat active selection of the access plane, which is never updated,
  must survive, and that can fail for an amendment, an activation and even a suspension;
- straight after an apply, restore refuses exactly when the baseline is not itself a valid candidate, and an
  interrupted restore is refused ever after unless it had changed nothing yet;
- an `ExecStart` line reads back as the original arguments exactly when none of them holds a form that
  systemd substitutes, and a unit reads back as the intended lines exactly when its target id holds no newline
  and neither that id nor the working directory ends in a backslash;
- the drill's exception register agrees with the verification and restore ledgers exactly when the last
  command that reached the ledger and the last one that completed agree on whether the id is exceptional; one
  completed command on the same id repairs it. With the evidence file's own records it agrees always.

## Model

| member | source | states |
|---|---|---|
| SourceIntentSteps.StepKeeps | scripts/agent_source_intent.py:182-348 | every step of the protocol, crash and clock tick included, keeps the invariant that ties records, aliases, history, credentials and tokens together |
| SourceIntentSteps.RunKeeps | scripts/agent_source_intent.py:182-348 | the invariant holds in every world of every run from an empty installation |
| SourceIntentTheorems.OverlapBounded | scripts/agent_source_intent.py:256-330 | with no timing assumption, two live tokens of one Landing Unit coexist for less than the older one's mint delay plus lifetime excess |
| SourceIntentTheorems.AtMostOneLiveToken | scripts/agent_source_intent.py:256-330 | if no token outlives its started_at plus the maximum lifetime, no Landing Unit ever has two live tokens, in any run with crashes, rotation, suspension and succession |
| SourceIntentOverlap.DelayOrExcessOverlaps | scripts/agent_source_identity.py:914-922 | for every contract and every positive sum of mint delay and lifetime excess (of a token with a positive lifetime) there is a run with two live tokens of one intent, the second without delay: the timing assumption is needed, and for delays up to the maximum lifetime the bound of the overlap theorem is attained |
| SourceIntentTheorems.MintsOnlyForCurrent | scripts/agent_source_intent.py:232-233 | every token a step mints is for an intent that is current and not tombstoned at that moment |
| SourceIntentTheorems.TombstonesArePermanent | scripts/agent_source_intent.py:195-218 | a tombstoned intent stays tombstoned in every later world and nothing is ever minted under it; a superseded one never becomes current again |
| SourceIntentTheorems.RevokedMeansNoLiveToken | scripts/agent_source_intent.py:276-286 | once a revocation receipt is recorded or a successor admitted, every token of the intent, lost mints included, has settled, and under the timing assumption none is live |
| SourceIntentTheorems.LostTokensAreBounded | scripts/agent_source_intent.py:283-285 | under the timing assumption a live token is the projected one, or belongs to an issuance that the record still names and expires by that issuance's deadline |
| SourceIntentTheorems.ReceiptsArePermanent | scripts/agent_source_intent.py:345-347 | a recorded receipt stays where its command finds it, unchanged, in every later world, also through succession into the history |
| SourceIntentTheorems.ReplayIsExact | scripts/agent_source_intent.py:197-202 | re-running a recorded command at any later time changes nothing at all, answers with the identical receipt for the identical input, and refuses any other input |
| SourceIntentReceipts.ReceiptsAreTruthful | scripts/agent_source_intent.py:329-347 | in every run every recorded receipt belongs to its command, intent and session, with an outcome of its action; an issue or renew receipt names the expiry of a token really minted for that intent, outside the rotation window if it says current; a revoke receipt names none |
| SourceIntentReceipts.NewEntries | scripts/agent_source_intent.py:345-347 | only the last write of a command adds a ledger entry, and only its own; every other step, archiving included, leaves each intent's entries as they were |
| SourceIntentTheorems.IdentityIsNeverRebound | scripts/agent_source_intent.py:184-188 | one intent id names one intent over a whole run and across all Landing Units |
| SourceIntentTheorems.AliasesPersist | scripts/agent_source_intent.py:254-255 | an alias, once written, is never changed or removed |
| SourceIntentTheorems.SessionIsNeverRebound | scripts/agent_source_intent.py:234-237 | an intent bound to a session stays bound to it, in the record and later in the history |
| SourceIntentTheorems.RevocationCanComplete | scripts/agent_source_intent.py:160-166 | from every reachable rest state, suspended or expired or not, the run can be continued to a recorded revocation of the current intent once a possible lost mint has expired |
| SourceIntentPolicy.MintsArePermitted | scripts/agent_source_intent.py:238-242 | in every run a token is minted only while issuance is not suspended, under an announcement made before the intent expired, for the untombstoned current intent of a unit without a projected credential |
| SourceIntentPolicy.SuspendedRunsMintNothing | scripts/agent_source_intent.py:241-242 | from a suspension until issuance is resumed no step of any run adds a token or a projected credential |
| SourceIntentPolicy.WhoIsAdmitted | scripts/agent_source_intent.py:184-231 | spelled out in the raw records: exactly the unrecorded commands of a current intent, a first issue or revocation on a free unit, and those of a proper successor of a settled tombstone get past the lookup |
| SourceIntentPolicy.UnitsKeepTheirParties | scripts/agent_source_intent.py:207-218 | over any run, through every succession, a Landing Unit keeps its subject kind and key, caller, operator, repository, installation and reviewer |
| SourceIntentPolicy.CredentialsAreBound | scripts/agent_source_intent.py:243-253 | in every world of a run a projected credential holds a token of its unit's current intent, with that token's expiry and each coordinate of the intent |
| SourceIntentPolicy.ChoiceIsJustified | scripts/agent_source_intent.py:256-304 | a new mint is prepared only with no credential left outside the rotation window, never by an issue of an issued intent, and after an uncertain mint only by its own command once the first can neither have landed nor be valid |
| SourceIntentPolicy.WindowDecides | scripts/agent_source_intent.py:288-325 | outside the rotation window a command is answered current; inside it a renewal prepares a mint and a repeated issue is denied |
| SourceIntentProvider.Provider.Find | scripts/agent_source_intent.py:184-231 | alias check, history replay, succession with its archive write, and recorded commands give exactly the lookup verdict, and only a succession writes |
| SourceIntentProvider.Provider.Gate | scripts/agent_source_intent.py:232-253 | passes exactly when tombstone, session, expiry, suspension and each coordinate of a projected credential allow the command |
| SourceIntentProvider.Provider.BindIntent | scripts/agent_source_intent.py:236-255 | binds the session and makes the alias durable as one step of the machine |
| SourceIntentProvider.Provider.Recover | scripts/agent_source_intent.py:256-275 | refuses only what the decision rules deny; otherwise reports exactly the still uncertain mint |
| SourceIntentProvider.Provider.Retire | scripts/agent_source_intent.py:276-286 | the tombstone is durable before the token is touched and in place however the revocation ends; never mints; ends ready to record a revocation, or stopped at a step boundary |
| SourceIntentProvider.Provider.BeforeIssue | scripts/agent_source_intent.py:305-321 | makes the issuing stage and a fresh started_at durable before any mint |
| SourceIntentProvider.Provider.DeliverLocked | scripts/agent_source_identity.py:886-942 | revokes and removes the old credential, announces, then mints at most one token and projects it, or stops at a step boundary |
| SourceIntentProvider.Provider.Admit | scripts/agent_source_intent.py:287-330 | issue and renew mint at most one token and conclude with the outcome the decision rules give |
| SourceIntentProvider.Provider.Close | scripts/agent_source_intent.py:329-348 | records the receipt under the command id of the current intent |
| SourceIntentProvider.Provider.Operate | scripts/agent_source_intent.py:137-348 | whatever fails on the way, the files are at the end of a run; an answer is the receipt now in the ledger for this very input; a replay changes nothing; at most one token is minted, and none for a revocation or while suspended; a refusal is justified by lookup, gate or decision |
| SourceIntentProvider.Provider.StopSession | scripts/agent_source_identity.py:945-950 | revokes at the provider before removing the projection, and removes only that unit's |
| SourceIntentProvider.Provider.RevokeUnit | scripts/agent_source_identity.py:953-992 | the operator's revoke of one projected unit is a run of the machine and leaves the others projected |
| SourceIntentProvider.Provider.Suspend | scripts/agent_source_identity.py:1013-1034 | the suspension flag is durable first, and a completed suspension leaves no projected credential |
| CompositionGraph.Ordering.Visit | scripts/dev_integration_compositions.py:472-484 | the depth-first visit terminates, appends the profile after everything below it, adds only what it reaches, and reports a cycle only when there is one |
| CompositionGraph.OrderExcludesCycles | scripts/dev_integration_compositions.py:472-484 | a provider-first order holds everything its members reach and admits no cycle through them |
| CompositionGraph.Order | scripts/dev_integration_compositions.py:468-494 | succeeds exactly when the graph is acyclic and the root reaches every participant; the order is then a duplicate-free permutation, providers first, root last |
| CompositionContract.Claims.Claim | scripts/dev_integration_compositions.py:37-64 | accepts a target exactly when profile and variable are valid and no earlier declaration of any kind claimed it |
| CompositionContract.CheckTables | scripts/dev_integration_compositions.py:325-466 | the four declaration tables pass exactly when every entry is valid and every target has one writer across all of them; otherwise the first table with an invalid entry is blamed, or a target that is invalid or claimed twice |
| CompositionContract.Resolve | scripts/dev_integration_compositions.py:277-494 | succeeds exactly on a contracted composition with an acyclic graph that the root reaches in full, with every dependency's provider before its consumer; each error says truly what is wrong, and that what is checked before it is in order |
| CompositionContract.ContractedInOrder | scripts/dev_integration_compositions.py:277-466 | the contract rules, spelled out field by field for every table: over known profiles, distinct labels, service references and bindings |
| CompositionContract.EdgesAreDependencies | scripts/dev_integration_compositions.py:468-484 | the graph has exactly the edges that the dependencies declare, from consumer to provider |
| CompositionContract.ServiceNamesAreLabels | scripts/dev_integration_compositions.py:21-23 | a service name is exactly labels of lower-case letters, digits and inner hyphens with single dots between them |
| CompositionContract.VariablesGrow | scripts/dev_integration_compositions.py:20 | a variable name begins with an upper-case letter and goes on with upper-case letters, digits and underscores |
| CompositionEnvironment.BuildEnvironments | scripts/dev_integration_compositions.py:497-545 | of a validated composition: each endpoint variable of a consumer holds the service's address in its provider's namespace, both ends of a caller binding hold its caller id, each projection of a credential its value where there is one, each profile binding what its kind of source gives; nothing else is projected; and it fails exactly when a namespace that is needed is missing |
| CompositionEnvironment.EveryWriteSurvives | scripts/dev_integration_compositions.py:497-545 | with one writer for each target, every projected value is in the final environments: none lost, none overwritten |
| CompositionEnvironment.OrderIndependent | scripts/dev_integration_compositions.py:497-545 | the same slots in any other order render too and leave the same values |
| CompositionEnvironment.BuildPermuted | scripts/dev_integration_compositions.py:497-545 | permuting the four declaration tables of a validated composition changes nothing: the builder succeeds on both or on neither, with equal environments |
| CompositionEnvironment.ChildSeesOnlyItsOwn | scripts/dev_integration_compositions.py:548-582 | whatever the parent environment held, a child sees a declared variable only when its own profile projects one there, and every other variable as the parent had it |
| CompositionEnvironment.DeclaredVariablesAre | scripts/dev_integration_compositions.py:548-579 | the variables withheld from a child are exactly those that some endpoint, caller, credential or profile binding declares |
| CompositionEnvironment.BoundedStandalone | scripts/dev_integration_compositions.py:585-600 | a standalone run keeps exactly the variables that no composition declares and that are not one of the three composition context variables |
| CompositionLifecycle.ActiveMeansGoodUp | scripts/dev_integration_compositions.py:856-870 | in every interleaving of one up or down with status runs and crashes, recorded active means that the last action begun was an up that completed successfully and that none is running |
| CompositionLifecycle.InterruptedIsNotActive | scripts/dev_integration_compositions.py:938-958 | after an action begins, no status run or crash makes the record read active before a later up succeeds |
| CompositionLifecycle.CleanStatusRecovers | scripts/dev_integration_compositions.py:943-953 | failing health checks do not cost the record its history: a clean one after a good up reads active again |
| CompositionLifecycle.RollbackStopsConsumersFirst | scripts/dev_integration_compositions.py:884-891 | a failed up stops each profile it started exactly once, every consumer before its providers |
| CompositionLifecycle.UpRecordTells | scripts/dev_integration_compositions.py:915-956 | the record an up leaves is active exactly when nothing failed, names exactly what was reached, and accounts once for the stop of each reached profile of a failed up |
| CompositionLifecycle.DownRecordTells | scripts/dev_integration_compositions.py:915-956 | the record a down leaves is suspended exactly when nothing failed, and accounts once for every profile |
| CompositionLifecycle.IntentWriteTells | scripts/dev_integration_compositions.py:856-870 | before an up or down calls anything, the record says partial and unfinished, for this action |
| CompositionLifecycle.StatusWriteTells | scripts/dev_integration_compositions.py:938-958 | what a status run records, case by case of running action, suspension, earlier result and failures |
| CompositionLifecycle.UpCallAt | scripts/dev_integration_compositions.py:871-893 | the call at each place of an up: the profiles in order until one fails, then the same ones backwards |
| CompositionLifecycle.RolledBackMeans | scripts/dev_integration_compositions.py:883-893 | a rolled-back up, which alone gives its new credentials back, is one in which some profile failed and every reached one could be stopped |
| CompositionLifecycle.Composition.CreateSecrets | scripts/dev_integration_compositions.py:603-656 | only missing credentials are created, and the flag says exactly whether any was |
| CompositionLifecycle.Composition.RemoveSecrets | scripts/dev_integration_compositions.py:777-795 | removes the credentials of all bindings and nothing else, also when it is interrupted |
| CompositionLifecycle.Composition.Dispatch | scripts/dev_integration_compositions.py:871-881 | up stops at the first failure, status and down go through the whole order; completed and failures are exactly the called profiles that passed and failed, in order |
| CompositionLifecycle.Composition.RollBackUp | scripts/dev_integration_compositions.py:883-893 | a completed rollback stops exactly what was started, in the opposite order, and drops credentials exactly when this up created some and every stop worked |
| CompositionLifecycle.Composition.ExecuteUp | scripts/dev_integration_compositions.py:798-967 | for any dispatch outcomes the calls are the ups until the first failure and then those same profiles down in reverse; exit code, record and remaining credentials are determined by which calls fail |
| CompositionLifecycle.Composition.ExecuteDown | scripts/dev_integration_compositions.py:798-967 | visits every profile in reverse order despite failures, and removes credentials exactly after a stop without failures |
| CompositionLifecycle.Composition.ExecuteStatus | scripts/dev_integration_compositions.py:938-966 | never disturbs a running action, records exactly who passed and failed, exits with failure and records degraded exactly when some did, and leaves the record active exactly over a good up |
| LayerPaths.KeyIsNormal | scripts/runtime_artifact_integrity.py:95-101 | a key is a fixed point of path_key, so component lists and string keys correspond |
| LayerPaths.StartsWithIsBelow | scripts/runtime_artifact_integrity.py:119-124 | comparing string keys by prefix plus slash is comparing component lists by proper prefix |
| LayerReplay.ReplayIsOci | scripts/runtime_artifact_integrity.py:143-150 | for a layer without updates below its own non-directories, the replay equals the OCI changeset semantics exactly when every surviving lower entry it covers hangs below a surviving directory entry |
| LayerInventory.ImplicitDirectorySurvives | scripts/runtime_artifact_integrity.py:145-149 | a readable layer whose one member is a file with the name of a lower directory that has no entry of its own: the replay keeps the directory's contents, against the OCI semantics; for every path and content |
| LayerReplay.WhiteoutPositionIsIrrelevant | scripts/runtime_artifact_integrity.py:119-125 | a whiteout hides the same lower entries wherever it stands in the archive, and never an entry of its own layer |
| LayerReplay.TreeLikeExactly | scripts/runtime_artifact_integrity.py:143-150 | over a tree-like image the outcome is tree-like exactly when the layer finds the directories of all its entries; a put below a surviving lower file is the other case |
| LayerMeaning.VisibleMeans | scripts/runtime_artifact_integrity.py:119-125 | a lower entry stays visible exactly when no whiteout names it or a directory above it and no opaque directory lies properly above it |
| LayerMeaning.ReplayMeans | scripts/runtime_artifact_integrity.py:104-150 | the replayed inventory path by path: the layer's own last put, or else the lower entry unless it is whited out, below an opaque directory, or below a file of the layer |
| LayerMeaning.OciMeans | scripts/runtime_artifact_integrity.py:104-150 | the same reading of the reference semantics, without conditions on layer and lower inventory |
| LayerMeaning.CoveringMeans | scripts/runtime_artifact_integrity.py:143-150 | the condition of the comparison, spelled out: what a file of the layer covers of the surviving lower entries, it covers as a surviving lower directory |
| LayerMeaning.NestingMeans | scripts/runtime_artifact_integrity.py:145-150 | the other condition, spelled out: nothing that the layer puts lies below a file that it keeps |
| LayerMeaning.RemovalsMean | scripts/runtime_artifact_integrity.py:119-125 | the removals that the reading loop collects are exactly the lower entries whited out or below an opaque directory |
| LayerMeaning.WhiteoutMember | scripts/runtime_artifact_integrity.py:116-125 | an archive member dir/.wh.name asks for the removal of dir/name |
| LayerMeaning.OpaqueMember | scripts/runtime_artifact_integrity.py:116-121 | an archive member dir/.wh..wh..opq marks dir opaque |
| LayerMeaning.OtherMember | scripts/runtime_artifact_integrity.py:126-142 | any other member puts the item that its type stands for, with the permission bits of its mode |
| LayerMeaning.UnsafeNames | scripts/runtime_artifact_integrity.py:95-101 | absolute names, names with a parent reference and names with a NUL are refused; a leading ./ does not matter |
| LayerMeaning.RefusalMeans | scripts/runtime_artifact_integrity.py:108-115 | a member is refused exactly for an unsafe name, or when an entry above it is a link at that moment |
| LayerMeaning.WhiteoutRemoves | scripts/runtime_artifact_integrity.py:116-144 | a readable layer with a member dir/.wh.name removes dir/name and everything below it that the layer does not put itself |
| LayerMeaning.OpaqueRemoves | scripts/runtime_artifact_integrity.py:116-144 | one with an opaque marker removes what lies below the directory, but not the directory |
| LayerMeaning.PlacesStay | scripts/runtime_artifact_integrity.py:145-150 | installing an entry keeps the dictionary places of all entries that stay, and puts a new one last |
| LayerInventory.ResolutionIsUnique | scripts/runtime_artifact_integrity.py:151-156 | whatever order the hard links are resolved in, a success gives the same inventory |
| LayerInventory.ResolvedLinksEqualTheirTargets | scripts/runtime_artifact_integrity.py:151-156 | after a success no hard link is left, and each equals its target, which is a regular file |
| LayerInventory.Entries.ReadLayer | scripts/runtime_artifact_integrity.py:106-142 | refuses exactly unsafe names and entries below a link, and collects exactly the last update of each path in first-put order and the lower entries some whiteout hides |
| LayerInventory.Entries.InstallUpdates | scripts/runtime_artifact_integrity.py:145-150 | installs the updates one by one as the replay function says, and keeps the dictionary's insertion order |
| LayerInventory.Entries.ResolveLinks | scripts/runtime_artifact_integrity.py:151-156 | in dictionary order, succeeds exactly when each link points at a regular file or at a link visited before it; then every link is the file its chain ends at and nothing else changed |
| LayerInventory.Entries.Replay | scripts/runtime_artifact_integrity.py:104-156 | succeeds exactly when the members can be read and the links of the replayed inventory resolve in dictionary order, and then leaves that inventory resolved |
| LayerInventory.ResolvedIsOci | scripts/runtime_artifact_integrity.py:143-156 | with hard links resolved too, a layer without updates below its own non-directories gives the OCI layer exactly when it covers only what hangs below surviving directory entries |
| LayerInventory.TrustedInventory | scripts/runtime_artifact_integrity.py:245-250 | over all layers, succeeds exactly when each can be read and its links resolved over what the layers below leave, with that outcome; every stage is the OCI image of its layer over the stage below exactly under the condition above; while each layer carries its directories, the condition holds and the stages stay tree-like; the result holds no hard link |
| ImageIncident.RemovalsAreBounded | scripts/runtime_artifact_integrity.py:423-457 | in every sequence of runs and crashes, destructive removals number at most one more than closed incidents |
| ImageIncident.RemovalFollowsAttempt | scripts/runtime_artifact_integrity.py:445-448 | in every run every removal directly follows the attempt its own repair made durable, when no incident was open |
| ImageIncident.RemovalsNeedConfirmation | scripts/runtime_artifact_integrity.py:424-425 | between any two removals of one artifact an incident was confirmed |
| ImageIncident.RepairIsPossible | scripts/runtime_artifact_integrity.py:423-457 | from every run at rest, a first repair and one after a closed incident can go through to restored |
| ImageIncident.Artifact.Repair | scripts/runtime_artifact_integrity.py:423-457 | refuses an open incident without any effect; otherwise removes at most once and reports success only with the restored phase written |
| ImageIncident.Artifact.Check | scripts/runtime_artifact_integrity.py:490-497 | resumes an interrupted attempt over proven bytes without removing anything |
| ImageIncident.Artifact.Confirm | scripts/runtime_artifact_integrity.py:498-505 | closes an incident only over good bytes and ready consumers, without removing anything |
| ModelProfileConsistency.MutationIsConsistent | scripts/model_profile_lifecycle.py:332-435 | for all six intents, a successful mutation of consistent documents is consistent exactly when the decision is acceptable for the documents before the call: complete terms over live routes of the right provider, an active binding where it activates, no caller that another base merely registers, no direct access fed to an active variant, and the flat active selection kept |
| ModelProfileConsistency.WithdrawalIsConsistent | scripts/model_profile_lifecycle.py:349-368 | a suspension or retirement keeps consistency exactly when nothing stays live on a retired profile's retired routes, no active variant inherits direct access, and the flat selection does not rest on a variant that selects otherwise than its base |
| ModelProfileConsistency.PlainWithdrawalIsConsistent | scripts/model_profile_lifecycle.py:349-357 | a profile in service that nothing inherits from can always be suspended or retired |
| ModelProfileConsistency.FitKeepsConsistency | scripts/validate_ai_model_profiles.py:517-606 | fit rebuilt profiles, disjoint caller lists and a kept selection keep every cross-document rule, for the named profile, its variants and every untouched profile |
| ModelProfileConsistency.ConsistencyNeedsFit | scripts/validate_ai_model_profiles.py:725-792 | whatever the documents were before, consistent documents after a mutation mean that every rebuilt profile is fit |
| ModelProfileExamples.AmendmentMovesSelection | scripts/validate_ai_model_profiles.py:767-792 | a concrete amendment that the code carries out on consistent documents and the validator rejects: it moves the binding under the flat active selection |
| ModelProfileExamples.SuspensionMovesSelection | scripts/model_profile_lifecycle.py:365-368 | a concrete suspension that does the same by overwriting a variant's selection |
| ModelProfileApply.ApplyDecision | scripts/model_profile_lifecycle.py:560-566 | over documents with a meaning, an apply from consistent sources writes anything only for an acceptable decision, refuses every other one unchanged, and leaves consistent sources when it completes |
| ModelProfiles.WithdrawalTakesEffect | scripts/model_profile_lifecycle.py:349-357 | after a suspension or retirement neither the profile nor any binding nor the activation is active; after a retirement no grant of any kind is left |
| ModelProfiles.VariantsFollowTheirBase | scripts/model_profile_lifecycle.py:359-418 | whatever is decided on a base, its variants share its terms and routes, keep their own status, are never granted to callers directly, and none becomes activated that was not |
| ModelProfileMeaning.NamedMeans | scripts/model_profile_lifecycle.py:347-357 | the named profile becomes the target, or keeps every field but its status and those of its bindings |
| ModelProfileMeaning.HeirMeans | scripts/model_profile_lifecycle.py:359-370 | a variant takes each capability field from its base, keeps its own status and remainder, and its bindings follow that status |
| ModelProfileMeaning.OthersMean | scripts/model_profile_lifecycle.py:347-370 | no profile disappears, only the named one may appear, and one that is neither named nor a variant of it is untouched |
| ModelProfileMeaning.PlaneMeans | scripts/model_profile_lifecycle.py:380-384 | exactly the rebuilt profiles in service and the others as before are allowed in the plane |
| ModelProfileMeaning.RoutesMean | scripts/model_profile_lifecycle.py:378-392 | routes keep provider, models and retirement; a rebuilt profile in service is allowed on exactly the routes one of its bindings names, any other profile where it was |
| ModelProfileMeaning.BindingsAreReviewed | scripts/model_profile_lifecycle.py:385-391 | every binding of a rebuilt profile in service names a route that lists its model |
| ModelProfileMeaning.GrantMeans | scripts/model_profile_lifecycle.py:316-329 | every grant of a rebuilt profile has that profile's purpose, tasks, output reference and record reference, each under its own name, for a caller it lists |
| ModelProfileMeaning.CallersAreGranted | scripts/model_profile_lifecycle.py:393-397 | every caller that a rebuilt base in service lists has such a grant, as often as it is listed |
| ModelProfileMeaning.OtherGrantsStay | scripts/model_profile_lifecycle.py:375-377 | the grants of all other profiles stay, each as often as before |
| ModelProfileMeaning.NamedActivationMeans | scripts/model_profile_lifecycle.py:403-418 | the named profile's activation is allowed exactly when it is active, for the decision's environment or else one it selects in, with the binding selected there |
| ModelProfileMeaning.ReasonMeans | scripts/model_profile_lifecycle.py:413-417 | the reason of the named profile's activation tells status and decision |
| ModelProfileMeaning.HeirActivationMeans | scripts/model_profile_lifecycle.py:407-418 | a variant's activation is allowed exactly if it was and the variant is active, and keeps its reason |
| ModelProfileMeaning.FirstEnvironment | scripts/model_profile_lifecycle.py:403-405 | an environment that the decision does not give is the alphabetically first of those selected |
| ModelProfileMeaning.OtherActivationsStay | scripts/model_profile_lifecycle.py:407-418 | activations of other profiles and the flat selection stay as they were |
| ModelProfileMeaning.ContractMeans | scripts/model_profile_lifecycle.py:420-434 | the contract names every profile, and as callers exactly those that an active base, or one selected but not active, lists |
| ModelProfileMeaning.RefusedMeans | scripts/model_profile_lifecycle.py:343-406 | the decisions that are not carried out, spelled out: wrong existence, a reference missing for a variant, an unreviewed route or model, no environment to choose |
| ModelProfileMeaning.ConsistentMeans | scripts/validate_ai_model_profiles.py:420-800 | documents are consistent exactly when registry, routes, access, activations and contract satisfy the rules as listed by document |
| ModelProfileMutation.Sources.EditRegistry | scripts/model_profile_lifecycle.py:343-371 | fails exactly on a wrong existence or a missing optional reference that variants must copy, and otherwise leaves the decided profile and its inheriting variants, all others untouched |
| ModelProfileMutation.Sources.Regrant | scripts/model_profile_lifecycle.py:375-401 | fails exactly on an unreviewed route or model; otherwise the profile is granted in the plane, on exactly the routes it binds and to its callers as often as it lists them when not retired, nowhere when retired, and other profiles' grants are unchanged |
| ModelProfileMutation.Sources.Reactivate | scripts/model_profile_lifecycle.py:403-418 | the activation entry names the decision's environment or the first in sorted order and the binding selected there, is allowed only for an active profile, and never becomes allowed by inheritance |
| ModelProfileMutation.Sources.Mutate | scripts/model_profile_lifecycle.py:332-435 | succeeds exactly on the mutable decisions and then has exactly the described effect on all three documents |
| ModelProfileReceipts.Workspace.Apply | scripts/model_profile_lifecycle.py:521-631 | a repeated apply answers with the prior receipt and changes nothing, exactly for the same request and decision over the sources it left; a first one is complete with bundle and receipt field by field, or leaves the sources as they were, or was interrupted after a prefix of the three writes with the originals in the bundle |
| ModelProfileReceipts.Workspace.Restore | scripts/model_profile_lifecycle.py:915-959 | refuses exactly when bundle, receipt, current sources or baseline do not match, then changes nothing; when it completes the sources are the receipt's baseline; interrupted, the access plane and perhaps the registry are, in the bundle's sorted order |
| ModelProfileReceipts.Workspace.RestoreAgain | scripts/model_profile_lifecycle.py:923-925 | after an interrupted restore the next restore, and any apply, is refused and the mixed sources stay, exactly when they differ from the applied result |
| ModelProfileReceipts.Workspace.ApplyThenRestore | scripts/model_profile_lifecycle.py:915-947 | restore after apply gives back the three original documents, and refuses exactly when the baseline is not a valid candidate |
| ModelProfileReceipts.Workspace.ApplyTwice | scripts/model_profile_lifecycle.py:532-552 | applying the same decision twice gives the same receipt and the same files as applying it once |
| DigestStream.DecodeEncode | scripts/dev_integration.py:114-118 | decoding inverts the length-prefixed encoding for every list of fields within the four- and eight-byte bounds |
| DigestStream.TreeParses | scripts/dev_integration.py:157-194 | the field order of a path record determines the record: parsing inverts the record grammar |
| DigestStream.LinesDiffer | scripts/dev_integration.py:157-194 | the labels and kinds as bytes tell any two different fields apart |
| DigestStream.StreamIsInjective | scripts/dev_integration.py:149-195 | different lists of path records give different byte streams |
| DigestStream.RecordMeans | scripts/dev_integration.py:149-194 | the fields of a path in each of its states, label by label in order |
| DigestStream.LabelsAreText | scripts/dev_integration.py:151-186 | the labels are the bytes of path, kind, mode, target, content_sha256 and submodule_head |
| DigestStream.KindsAreText | scripts/dev_integration.py:155-185 | the kinds are the bytes of missing, file, symlink and submodule |
| DigestStream.LongLabelIsText | scripts/dev_integration.py:188-192 | the label of a dirty submodule is the bytes of submodule_working_tree_sha256 |
| DigestStream.FieldMeans | scripts/dev_integration.py:114-118 | the layout of a field: label length, label, value length, value |
| DigestStream.ValueLengthMeans | scripts/dev_integration.py:114-118 | a value's length prefix has eight bytes, the most significant first |
| DigestStream.DigestWriter.AddField | scripts/dev_integration.py:114-118 | appends exactly the encoded field, and fails exactly when a length does not fit its prefix |
| DigestStream.WorkingTree | scripts/dev_integration.py:149-195 | the loop over the paths feeds exactly the stream of the records, or fails exactly when some field does not fit |
| SystemdUnit.ChainIsPerCharacter | scripts/dev_integration_auto_resume.py:40-43 | the four chained replacements equal one replacement of each character: none touches what an earlier one wrote |
| SystemdUnit.NoRawNewline | scripts/dev_integration_auto_resume.py:150 | no rendered line holds a raw newline |
| SystemdUnit.EnvironmentRoundTrip | scripts/dev_integration_auto_resume.py:40-43 | quoted items read back exactly under the systemd quoting and specifier rules |
| SystemdCommand.CommandRoundTrip | scripts/dev_integration_auto_resume.py:150 | a command line reads back as the original arguments in every environment exactly when no argument is a $NAME word or holds $$ or ${NAME} |
| SystemdCommand.SubstitutesMeans | scripts/dev_integration_auto_resume.py:40-43 | the condition spelled out: an argument that is a dollar sign and a name, or that holds two dollar signs in a row or a name in braces behind a dollar sign |
| SystemdCommand.NoDollarNoSubstitution | scripts/dev_integration_auto_resume.py:40-43 | arguments without a dollar sign always survive |
| SystemdCommand.RenderExecStart | scripts/dev_integration_auto_resume.py:138-150 | the extended, quoted and joined command line reads back as the command under exactly that condition |
| SystemdUnitFile.LinesReadBack | scripts/dev_integration_auto_resume.py:152-174 | a unit text reads back, after splitting and backslash continuation, as the lines it was joined from exactly when none holds a newline and none but the last ends in a backslash |
| SystemdUnitFile.ResolvePath | scripts/dev_integration_auto_resume.py:56-72 | refuses exactly a PATH with an empty, relative or multi-line entry, and otherwise keeps each entry where it first stands |
| SystemdUnitFile.RenderUnit | scripts/dev_integration_auto_resume.py:96-180 | the unit is refused exactly where the code raises: resume policy, profile and operator without letters or digits, missing python, blank or multi-line composition id, PATH entries, relative or multi-line directory; a unit that is written reads back as the intended lines exactly when the target id holds no newline and neither it nor the directory ends in a backslash |
| SystemdUnitFile.RenderableMeans | scripts/dev_integration_auto_resume.py:96-130 | the conditions under which a unit is written, spelled out in the request |
| SystemdUnitFile.UnitMeans | scripts/dev_integration_auto_resume.py:152-174 | the unit line by line: description by kind of target, start limit, restart settings, install section |
| SystemdUnitFile.CommandMeans | scripts/dev_integration_auto_resume.py:131-149 | the command word by word: python, runner, the verb up, the target under its own flag, operator, workspace root, one path for each repository |
| SystemdUnitFile.DirectoryReadsBack | scripts/dev_integration_auto_resume.py:161 | the working directory reads back under percent specifiers |
| SystemdUnitFile.PathReadsBack | scripts/dev_integration_auto_resume.py:56-72 | the PATH value has exactly the kept entries between its colons |
| SystemdUnitFile.FirstOfInOrder | scripts/dev_integration_auto_resume.py:65-66 | of two kept PATH entries the one that first stood earlier comes first |
| RepositoryAdmission.Admit | scripts/agent_source_identity.py:323-369 | succeeds exactly on an admissible inventory and then yields its active repositories in document order |
| RepositoryAdmission.AdmissibleMeans | scripts/agent_source_identity.py:323-368 | the admissible inventories, spelled out over rows: sound bindings, promotion lineage of active entries without legacy identity, no id and no name up to case used twice or held in Intake |
| RepositoryAdmission.AdmittedMeans | scripts/agent_source_identity.py:355-369 | admitted are exactly the repositories of the rows that are not retired and have lifecycle and posture active, in document order |
| RepositoryAdmission.FoldMeans | scripts/agent_source_identity.py:331-350 | folding identifies exactly the names that differ in case only |
| RepositoryAdmission.FullNameMeans | scripts/agent_source_identity.py:343-345 | the form of a full name, owner and name apart |
| RepositoryAdmission.AdmittedAreDistinct | scripts/agent_source_identity.py:349-353 | admitted repositories differ pairwise in numeric id and in case-folded name, and from every Intake binding |
| RepositoryAdmission.AdmittedAvoidsRetired | scripts/agent_source_identity.py:332-355 | no admitted repository shares its id or folded name with a retired or inactive row |
| RepositoryAdmission.AdmittedHasProvenance | scripts/agent_source_identity.py:346-368 | every admitted repository is a legacy identity with its id unchanged, or an active entry promoted from Intake |
| DrillLedger.Upsert | scripts/platform_drill.py:1128-1166 | keeps the register free of two entries for one scope and id |
| DrillLedger.UpsertEntries | scripts/platform_drill.py:1142-1166 | afterwards the entry found for that scope and id is the new one, and every other lookup is unchanged |
| DrillLedger.Remove | scripts/platform_drill.py:1116-1125 | keeps exactly the entries of other scopes and ids |
| DrillLedger.RegisterMatchesEvidence | scripts/platform_drill.py:1693-1831 | at every moment of every run, also between file writes, the register holds exactly one entry for each blocked or excepted record of the evidence file, repeating what it says, and none else |
| DrillMeaning.RegisterInRuns | scripts/platform_drill.py:1693-1831 | at every moment of every run the register has exactly one entry for each check that the evidence file shows as blocked and each surface it shows as excepted, and none for any other id |
| DrillMeaning.EntriesRepeatRecords | scripts/platform_drill.py:1730-1744 | each entry repeats status, decision, justification, owner, review date, note and actor of its record, and none of the four required fields is empty |
| DrillMeaning.VerificationDenied | scripts/platform_drill.py:1696-1722 | the exact denials of verify: an unknown check, a blocked status with a blank decision, justification, owner or review date, a check missing from the evidence file |
| DrillMeaning.RestoreDenied | scripts/platform_drill.py:1777-1802 | the exact denials of restore, where an exception needs the four fields |
| DrillMeaning.VerificationWrites | scripts/platform_drill.py:1710-1750 | what a verify writes, field by field: check, copy and entry hold the stripped report; only a blocked check has an entry; the phase says whether anything is pending |
| DrillMeaning.VerificationLeaves | scripts/platform_drill.py:1710-1750 | a verify leaves baseline, restore ledger, activation and the rest of run and evidence file as they were |
| DrillMeaning.RestoreWrites | scripts/platform_drill.py:1791-1829 | what a restore writes, likewise, with an entry only for an exception |
| DrillMeaning.RestoreLeaves | scripts/platform_drill.py:1791-1829 | a restore leaves everything but its ledger, copy, phase and the register as it was |
| DrillMeaning.CompleteMeans | scripts/platform_drill.py:1457-1482 | a baseline is complete exactly when neither list is empty or has a blank id, both have the same ids, and what counts for each id is attested with evidence on either side |
| DrillMeaning.AttestationDenied | scripts/platform_drill.py:1587-1616 | the denials of an attestation, in their order |
| DrillMeaning.AttestationWrites | scripts/platform_drill.py:1602-1630 | surface and copy become attested with the stripped texts, nothing else in them changes, and both phases say whether the baseline is complete |
| DrillMeaning.ActivationDenied | scripts/platform_drill.py:1639-1666 | an activation needs an actor, a captured and complete baseline, and only surfaces of that baseline |
| DrillMeaning.ActivationWrites | scripts/platform_drill.py:1656-1688 | an activation records actor, note, time and the named surfaces, or else all surfaces of the baseline in order, in run and evidence file alike |
| DrillLedger.RegisterMatchesLedger | scripts/platform_drill.py:1693-1831 | in every run, crashes included, the register has exactly the entry the verification or restore ledger calls for if and only if the last command whose ledger write happened and the last one that completed agree on whether the id is exceptional |
| DrillLedger.UntornRunsMatch | scripts/platform_drill.py:1693-1831 | in particular while no command on the id dies between its ledger write and its evidence write |
| DrillLedger.TornRecordingMismatches | scripts/platform_drill.py:1438-1454 | one command breaks a match exactly when it dies between those two writes and changes whether the id is exceptional: a new exception misses its entry, an ended one keeps it |
| DrillLedger.RecordingHeals | scripts/platform_drill.py:1693-1831 | after any history of crashes, one completed command on an id makes ledger, evidence copy and register agree about it again |
| DrillLedger.ActivationFreezesBaseline | scripts/platform_drill.py:1584-1690 | once activation is recorded, no later command or crash takes it back or changes the baseline, its attestation or the capture status |
| DrillLedger.ActivationIsAttested | scripts/platform_drill.py:1636-1690 | a recorded activation has a complete baseline attestation behind it at every later moment, names an actor, and covers only surfaces of that baseline |
| DrillMeaning.ActivationInRuns | scripts/platform_drill.py:1636-1690 | spelled out: in every run a recorded activation names an actor and known surfaces, and whatever counts for an id of the baseline is attested with evidence on both sides |
| DrillLedger.PhasesTellTheTruth | scripts/platform_drill.py:1746-1749 | while no command was cut short, the recorded phases say exactly whether checks, restore surfaces and baseline attestation are complete |
| DrillMeaning.PhasesMean | scripts/platform_drill.py:1746-1749 | that is: recorded means that nothing is pending, in progress that something is, captured that the baseline is complete |
| DrillLedger.TornRecordingPhase | scripts/platform_drill.py:1746-1750 | a recording that dies after the run file and before its ledger leaves a false phase exactly when it would have settled the last pending record or reopened a settled ledger |
| DrillLedger.Drill.WriteRun | scripts/platform_drill.py:1438-1454 | a crash leaves exactly a prefix of the five files written |
| DrillLedger.Drill.AttestSurface | scripts/platform_drill.py:1584-1633 | denied with the first failing check and no change, or the attestation up to the crash point; never after activation |
| DrillLedger.Drill.RecordActivation | scripts/platform_drill.py:1636-1690 | denied unless both phases and the attestation itself are complete and every scoped surface is known |
| DrillLedger.Drill.RecordVerification | scripts/platform_drill.py:1693-1752 | denied for an unknown check, a blocked status without its four fields, or a missing evidence record, without change; otherwise ledger, copy and register change together up to the crash point |
| DrillLedger.Drill.RecordRestore | scripts/platform_drill.py:1774-1831 | the same for restore surfaces and exceptions |

## Left out

- SHA-256 as an algorithm: digests are symbolic, so equal digests mean equal content; the check that a stored intent matches its stored digest then always holds.
- Field shapes of requests (`validate_input`), contract loading and the admission recheck before a mint: a mint may stop there for any reason at any time.
- The command-line `deliver` on a Landing Unit that already has an intent: it does not consult intent state, and is no step of the protocol.
- The commissioning command's own short mint and revoke, and the receipt files of the command line.
- Concurrency below the projection lock: the lock serialises operations, so one process acts at a time; in the composition model, two simultaneous `up` or `down` runs of one composition.
- The sorted order of providers, credentials and bindings: these loops take any order, which the results do not depend on.
- The slug of the operator in composition values is given; the value of a credential is any text.
- Credential files of bindings whose slugs collide: binding ids stand for their files. Removing credentials after a rolled-back `up` removes those of all bindings, also ones that existed before.
- The order of error checks within one contract table row, apart from which table is blamed.
- Layers that put an entry below one of their own non-directories are outside the OCI comparison. A put below a surviving lower file leaves both entries, in the code and in the reference function; `TreeLikeExactly` says when the outcome is a file tree.
- Blob download and verification, manifest and platform selection, mounting, comparison of mounted bytes: the repair model takes their outcomes as given, for one artifact at a time.
- Order of caller grants and the final sorts of the three documents: lists without duplicates are sets, and a missing output or record reference of a base with variants counts as a refusal.
- The rules of the validator that concern one field of one document and that a mutation copies or leaves alone, and the runtime resolver's own reading of a candidate.
- Apply's rollback after a failed write is assumed to complete.
- Numeric escapes and specifiers other than `%%` in the systemd reader, which rejects them and which the printer never emits; special executable prefixes; specifiers in the Description line; carriage returns as line ends and white space around a line; the unit's file name; a dollar sign outside the three documented forms, which the reader takes literally.
- Case folding and white space beyond ASCII, wherever names, slugs or texts are folded or stripped; names in the inventory schema; inventory revisions and digests.
- The supplemental-evidence command of the drill (it touches no ledger), and the permit-bound controlled-proof commands. Each drill file write is one step, and one command runs at a time.
- File permissions, symbolic-link checks, fsync, temporary files, YAML and JSON syntax, argument parsing and printing.
- The host-service supervisor, sibling identity tools, and the documentation, structure and readiness validators.
