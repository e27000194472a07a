# Verification models of Kubespaces

Dafny models of the parts of Kubespaces whose correctness is not visible in one function body, and
proofs about them: the Tenant operator as a step machine over an API server that fails, the shared
apps Gateway edited by many passes at once, the tenancy tables and the acceptance of invitations, the
migration runner, the two-store creation of a tenant, the portal's optimistic list, and the login poll.

| File | What it holds |
|---|---|
| `Names.dfy` | object names, the rule for tenant names, and which wildcard hostnames overlap |
| `GatewayListeners.dfy`, `GatewayProtocol.dfy` | the listener list as array code, and as a versioned get/update protocol |
| `HelmValues.dfy` | the chart values: generated values merged under the user's overrides |
| `Cluster.dfy`, `Operator.dfy` | the cluster's objects, and a reconcile pass as steps with a fault each |
| `Reconciler.dfy` | the reconciler as it is written, proved to be a pass of the step machine |
| `Convergence.dfy` | what an undisturbed pass achieves, and where it changes nothing |
| `Teardown.dfy`, `DeletionRuns.dfy` | teardown passes under failures, and their termination, alone and in any run |
| `NonInterference.dfy` | what a pass of one tenant can touch |
| `Outcomes.dfy` | what a pass leaves to be seen: phase, release, listener, failure record |
| `OperatorRuns.dfy`, `Isolation.dfy` | all interleaved runs: nothing leaks, one status story, one tenant a host |
| `TenancyModel.dfy`, `TenancyStore.dfy` | the tenancy tables, every store call, and the transactional methods |
| `TenancyHistory.dfy`, `TenancyRows.dfy` | the tables and the store's answers as the log of effective calls gives them |
| `AcceptProtocol.dfy` | acceptance of invitations, statement by statement under a row lock |
| `Migrations.dfy`, `MigrationNames.dfy` | the crash-resumable migration runner, and the versions in file names |
| `TenantRequests.dfy` | create and delete of a tenant over Postgres and the cluster |
| `TenantList.dfy` | the portal's list under interleaved creates and polls |
| `DevicePoll.dfy` | the device login's poll loop |

A reconcile pass is a list of steps. A step is the reads of one helper of the reconciler and its one
write. It works, is refused without effect, takes effect with its reply lost, or is cut by a crash.
`Operator.Pass` is one pass under any plan of such faults, `OperatorRuns` interleaves the steps of
passes over any number of tenants with users' edits and the cluster's own collection of namespaces.

## Assumptions

- Reads of the API server are fresh, and passes over one tenant do not overlap.
- The API server accepts an update of the Tenant or of the Gateway only at the version that was read
  (Kubernetes' optimistic concurrency). In `Operator` a stale Gateway write is a step that is refused.
- The operator's configuration and a Tenant's `spec.targetNamespace` do not change.
- Nobody but the operator touches its finalizer, puts the tenant label on a namespace, or writes
  listeners and Secrets under tenants' names. `OperatorRuns.Possible` says this exactly.
- Store calls outside `AcceptProtocol` run one after another.
- React runs the state updaters of the list in the order they are issued, before the next event.

## Model

| member | source | states |
|---|---|---|
| Names.NamesInjective | operator/internal/controller/networking_apps.go:78-88 | distinct tenants never share a route, listener, certificate, quota, limit range, kubeconfig Secret or default namespace name, nor an API hostname |
| Names.LabelIsTheRegex | api/internal/server/validate.go:11 | the label predicate accepts exactly the language of the regular expression, with its usual meaning |
| Names.AcceptedNames | api/internal/server/validate.go:9-25 | a name is accepted exactly if it has at most 40 bytes and matches the expression |
| Names.DefaultNamespaceIsLabel | operator/api/v1alpha1/tenant_types.go:175-180 | an accepted name gives a default namespace that is a label of at most 58 bytes |
| Names.WildcardsOverlap | operator/internal/controller/networking_apps.go:78-80 | for names of any form, two wildcards share a host exactly if the names are equal or one is a dotted extension of the other |
| Names.HostnameIsolation | docs/concepts/networking.md:70-81 | a host under the wildcards of two accepted names forces the names equal |
| GatewayListeners.FindUpsert | operator/internal/controller/networking_apps.go:163-170 | after an upsert the name finds the new listener and every other name what it found before |
| GatewayListeners.UpsertKeepsOthers | operator/internal/controller/networking_apps.go:163-170 | an upsert leaves listeners of other names as they were and in their order |
| GatewayListeners.UpsertUnique | operator/internal/controller/networking_apps.go:163-170 | an upsert keeps listener names unique |
| GatewayListeners.RemoveMembers | operator/internal/controller/networking_apps.go:186-194 | removal keeps exactly the listeners of other names, and the length differs exactly if the name was there |
| GatewayListeners.RemoveUndoesUpsert | operator/internal/controller/networking_apps.go:163-194 | removal after an upsert of a new name restores the list |
| GatewayListeners.UpsertInPlace | operator/internal/controller/networking_apps.go:163-170 | the upsert loop on the backing array gives the upserted list, in place exactly if the name was there |
| GatewayListeners.CompactInPlace | operator/internal/controller/networking_apps.go:186-194 | filtering into the array being read gives the order-preserving filter, and leaves what lies behind it |
| GatewayProtocol.NoLostUpdate | operator/internal/controller/networking_apps.go:135-199 | for any interleaving of gets and versioned updates: names unique, each name as its last committed edit said, unedited listeners unchanged in order, reported edits committed once |
| GatewayProtocol.UncontendedCommits | operator/internal/controller/networking_apps.go:135-171 | a worker nobody interferes with gets its edit in and hears of it |
| HelmValues.MergeLeaves | operator/internal/provisioner/helm.go:278-281 | a merged path holds the override where the overrides decide it and the base elsewhere, and nothing else appears |
| HelmValues.MergeTwice | operator/internal/provisioner/helm.go:278-281 | merging the same overrides again changes nothing |
| HelmValues.BuildValues | operator/internal/provisioner/helm.go:208-282 | the step-by-step build gives the generated values under the overrides |
| HelmValues.BuiltLeaves | operator/internal/provisioner/helm.go:206-282 | path by path what the chart receives: override, else generated value, else nothing |
| HelmValues.BuiltIsStable | operator/internal/provisioner/helm.go:206-282 | built values used as overrides, or merged over again, give the same values |
| Reconciler.Parse | operator/internal/controller/tenant_controller.go:356-368 | a field fills the map under all its resource names, or reports its malformed text |
| Reconciler.QuotaHardLimits | operator/internal/controller/tenant_controller.go:350-380 | the map filled in place is the specified limits, or the first field's error |
| Reconciler.NeedsDefaultLimits | operator/internal/controller/tenant_controller.go:308-313 | the loop finds out whether CPU or memory limits are set |
| Reconciler.BuildProvisionRequest | operator/internal/controller/tenant_controller.go:383-401 | the request built field by field asks for the spec's chart version, Kubernetes version and overrides and the configuration's public names and Gateway, or unparsable overrides are reported |
| Reconciler.TenantReconciler.Update | operator/internal/controller/tenant_controller.go:91-97 | an update commits only at the version read, and brings the new version into the copy |
| Reconciler.TenantReconciler.MarkPhase | operator/internal/controller/tenant_controller.go:485-498 | phase and message are written at once, as the step machine's step |
| Reconciler.TenantReconciler.Fail | operator/internal/controller/tenant_controller.go:473-482 | the failure is recorded if it can be, and the pass ends with the first error |
| Reconciler.TenantReconciler.EnsureNamespace | operator/internal/controller/tenant_controller.go:233-259 | does the namespace step: made with labels if absent, else kept |
| Reconciler.TenantReconciler.EnsureResourceQuota | operator/internal/controller/tenant_controller.go:263-294 | does the quota step: written, or deleted if nothing is limited |
| Reconciler.TenantReconciler.EnsureLimitRange | operator/internal/controller/tenant_controller.go:300-347 | does the limit range step: written, or deleted if no default is needed |
| Reconciler.TenantReconciler.EnsureReferenceGrant | operator/internal/controller/networking.go:112-136 | does the grant step, labels kept and extended |
| Reconciler.TenantReconciler.EnsureTlsRoute | operator/internal/controller/networking.go:142-192 | does the route step, foreign labels and annotations kept |
| Reconciler.TenantReconciler.EnsureAppsCertificate | operator/internal/controller/networking_apps.go:105-129 | does the certificate step |
| Reconciler.TenantReconciler.EnsureAppsListener | operator/internal/controller/networking_apps.go:135-171 | does the listener step through the upsert loop on the decoded list |
| Reconciler.TenantReconciler.PruneAppsListener | operator/internal/controller/networking_apps.go:176-199 | does the pruning step through the in-place filter, writing only if something was removed |
| Reconciler.TenantReconciler.DeleteTenantApps | operator/internal/controller/networking_apps.go:176-218 | prunes the listener, then deletes the certificate, then its Secret, stopping at the first error |
| Reconciler.TenantReconciler.EnsureTenantNetworking | operator/internal/controller/networking.go:98-106 | grant, then route, stopping at the first error |
| Reconciler.TenantReconciler.EnsureTenantApps | operator/internal/controller/networking_apps.go:92-100 | certificate, then listener, stopping at the first error |
| Reconciler.TenantReconciler.WorkloadReady | operator/internal/controller/tenant_controller.go:431-469 | the StatefulSet, else the Deployment, is ready exactly if it has all the replicas it wants, one if it names no number, and wants any; the reason has both numbers |
| Reconciler.TenantReconciler.VclusterReady | operator/internal/controller/tenant_controller.go:406-428 | finds out readiness: workload, then kubeconfig Secret, then its key |
| Reconciler.TenantReconciler.RecordWaiting | operator/internal/controller/tenant_controller.go:153-161 | writes the Provisioning status, without kubeconfig reference, as the step machine's last step |
| Reconciler.TenantReconciler.RecordReady | operator/internal/controller/tenant_controller.go:166-184 | writes the Ready status with reference, URLs and condition, as the step machine's last step |
| Reconciler.TenantReconciler.UpdateStatus | operator/internal/controller/tenant_controller.go:492-498 | the status is stamped with the copy's generation and written if the copy is current |
| Reconciler.TenantReconciler.AddTenantFinalizer | operator/internal/controller/tenant_controller.go:91-97 | the finalizer is added in a pass of its own, before anything is made |
| Reconciler.TenantReconciler.PrepareNamespace | operator/internal/controller/tenant_controller.go:107-115 | namespace, quota, limit range in this order, each failure under its own reason |
| Reconciler.TenantReconciler.Install | operator/internal/controller/tenant_controller.go:145-147 | the request is sent as it was built |
| Reconciler.TenantReconciler.InstallRelease | operator/internal/controller/tenant_controller.go:128-147 | an invalid spec is found before the install is tried |
| Reconciler.TenantReconciler.Provision | operator/internal/controller/tenant_controller.go:105-184 | all reconcile steps in order, with exposure where it is enabled, every failure recorded |
| Reconciler.TenantReconciler.ReconcileActive | operator/internal/controller/tenant_controller.go:99-184 | Pending is written first where there is no phase |
| Reconciler.TenantReconciler.UninstallRelease | operator/internal/controller/tenant_controller.go:204-206 | does the uninstall step |
| Reconciler.TenantReconciler.DeleteTenantNetworking | operator/internal/controller/networking.go:197-205 | does the route deletion step; a missing route is no error |
| Reconciler.TenantReconciler.DeleteAppsCertificate | operator/internal/controller/networking_apps.go:202-209 | does the certificate deletion step |
| Reconciler.TenantReconciler.DeleteAppsSecret | operator/internal/controller/networking_apps.go:211-217 | does the Secret deletion step |
| Reconciler.TenantReconciler.DeleteNamespaceOf | operator/internal/controller/tenant_controller.go:219-222 | does the namespace step: deletion requested, or nothing if it is gone |
| Reconciler.TenantReconciler.RemoveFinalizerOf | operator/internal/controller/tenant_controller.go:224-227 | lets go of the finalizer at the version read, and with the last one the object goes |
| Reconciler.TenantReconciler.TearDown | operator/internal/controller/tenant_controller.go:202-229 | the teardown steps in order, the finalizer last, under any faults |
| Reconciler.TenantReconciler.ReconcileDelete | operator/internal/controller/tenant_controller.go:189-230 | a whole teardown pass is the step machine's pass |
| Reconciler.TenantReconciler.Reconcile | operator/internal/controller/tenant_controller.go:79-185 | one call is exactly one pass of the step machine under any faults, and asks to be called again exactly while Provisioning |
| Convergence.HardLimitsMeaning | operator/internal/controller/tenant_controller.go:350-380 | requests and limits of CPU and memory and requests of storage, each from its field; nothing for empty fields; storage alone needs no defaults |
| Convergence.StepWorks | operator/internal/controller/tenant_controller.go:105-145 | a step of an undisturbed pass works exactly if what it needs is there |
| Convergence.StepSettles | operator/internal/controller/tenant_controller.go:233-347 | a step that works leaves its object as spec and configuration ask |
| Convergence.PassConverges | operator/internal/controller/tenant_controller.go:105-184 | from any cluster state an error-free pass ends well exactly if the spec is valid and the cluster open to it, and then everything is as asked, status included |
| Convergence.FirstPassAddsFinalizer | operator/internal/controller/tenant_controller.go:91-97 | the first pass over a new Tenant puts the finalizer on and does nothing else |
| Convergence.NewTenantConverges | operator/internal/controller/tenant_controller.go:79-185 | two error-free passes take a new Tenant to the desired state, exactly if it can be provisioned |
| Convergence.StepKeepsOthers | operator/internal/controller/networking.go:147-164 | an update keeps labels and annotations others put on the object, and others' listeners |
| Convergence.FixpointIsConverged | operator/internal/controller/tenant_controller.go:79-185 | the states a pass leaves unchanged are exactly the converged ones |
| Convergence.SecondPassChangesNothing | operator/internal/controller/tenant_controller.go:105-184 | a second error-free pass changes nothing |
| Outcomes.PhaseIsTrue | operator/internal/controller/tenant_controller.go:150-184 | after an error-free pass that ends well the phase is Ready exactly if the workload has all replicas it wants, at least one, and the kubeconfig Secret holds its key; else Provisioning, naming the first thing missing with its numbers |
| Outcomes.ReleaseIsAsSpecified | operator/internal/controller/tenant_controller.go:383-401 | after such a pass the release is in the target namespace under the tenant's name, with the spec's chart version and overrides, and its values hold the Kubernetes version and public URL wherever the overrides do not decide |
| Outcomes.GeneratedPaths | operator/internal/provisioner/helm.go:206-241 | image tag, certificate names and kubeconfig server at their paths in the chart values, unless overridden |
| Outcomes.GeneratedSync | operator/internal/provisioner/helm.go:242-277 | the switches of Gateway API sync and the shared Gateway's mapping at their paths, unless overridden |
| Outcomes.ListenerHasItsCertificate | operator/internal/controller/networking_apps.go:105-171 | after such a pass the shared Gateway terminates HTTPS on 443 for the tenant's wildcard, with a certificate of the configured issuer that covers every host under it, for the tenant's label alone |
| Outcomes.FailureIsRecorded | operator/internal/controller/tenant_controller.go:471-498 | a step that is rejected or finds the spec malformed ends the pass with that error even if the record fails; a written record says Failed, under that step's reason and with that error |
| Outcomes.MalformedSpec | operator/internal/controller/tenant_controller.go:350-401 | which malformed field is reported: the first of CPU, memory and storage, and the overrides where the request is built |
| Outcomes.OpeningIsShown | operator/internal/controller/tenant_controller.go:99-200 | the first write over an untouched Tenant says pending and accepted, the first of a teardown that it is under way; of the status nothing else changes |
| Outcomes.PassKeepsIdentity | operator/internal/controller/tenant_controller.go:79-230 | any pass, cut anywhere, leaves the Tenant's spec, generation, deletion and others' finalizers as they were, and lets the object go only under deletion with no finalizer of others |
| Outcomes.ReconcilingSpares | operator/internal/controller/tenant_controller.go:79-259 | a pass over a Tenant not under deletion touches no workload, no Secret and no namespace that is there; one it makes carries both labels |
| Outcomes.NamesInUse | operator/api/v1alpha1/tenant_types.go:172-186 | the names and addresses of a tenant's objects, spelled out |
| Teardown.TeardownPass | operator/internal/controller/tenant_controller.go:204-227 | a teardown pass cut anywhere by any fault: nothing removed comes back, everything before the failing step is removed, the finalizer is off only if all is |
| Teardown.PassProgress | operator/internal/controller/tenant_controller.go:204-227 | a teardown pass either finishes or uses up a failure |
| Teardown.DeletionTerminates | operator/internal/controller/tenant_controller.go:189-230 | with k failures anywhere, k + 1 passes take the finalizer off and leave nothing |
| DeletionRuns.EveryPassDisturbed | operator/internal/controller/tenant_controller.go:189-230 | in any run, while a deleted tenant's finalizer stays on, its ended passes are no more than its disturbances: faults of its own steps and edits of its Tenant object |
| DeletionRuns.DeletionInRuns | operator/internal/controller/tenant_controller.go:189-230 | in any run, among other tenants' passes and users' edits, k disturbances are survived by k + 1 passes: by then the finalizer has come off with nothing left |
| NonInterference.PerformWithin | operator/internal/controller/tenant_controller.go:105-230 | every write of a pass is to the tenant's own objects |
| NonInterference.PassLeavesOthers | operator/internal/controller/networking.go:92-94 | any pass, cut anywhere, leaves all objects of a tenant with another namespace unchanged |
| NonInterference.DefaultNamespacesSuffice | operator/api/v1alpha1/tenant_types.go:175-186 | under the names in use, default target namespaces are enough for that |
| NonInterference.SharedNamespaceIsTaken | operator/internal/controller/tenant_controller.go:202-222 | deleting one tenant takes another's namespace exactly if both name the same one |
| OperatorRuns.NextKeepsInv | operator/internal/controller/tenant_controller.go:79-230 | every event of any run keeps finalizer, objects, copies and status in order |
| OperatorRuns.NothingLeaks | operator/internal/controller/tenant_controller.go:87-97 | in any run, whatever exists for a tenant is backed by its Tenant object with the finalizer; once the object is gone all of it is |
| OperatorRuns.StatusAlwaysCoherent | operator/internal/controller/tenant_controller.go:150-183 | in any run phase, condition, kubeconfig reference, URLs and generations of a status agree |
| OperatorRuns.PhasesMoveOn | operator/internal/controller/tenant_controller.go:196-200 | along any stretch of a run Deleting is final, and no phase goes back to empty or Pending |
| OperatorRuns.PassIsRun | operator/internal/controller/tenant_controller.go:79-185 | a pass nothing comes between is a run, so convergence and termination hold in runs |
| Isolation.HostServedForOneTenant | docs/concepts/networking.md:70-81 | in any run, a host is served through one tenant's listener only and out of that tenant's target namespace only |
| Isolation.FoundNamespaceServes | operator/internal/controller/tenant_controller.go:233-240 | a target namespace that existed before admits the tenant's routes exactly if it carried the label already |
| TenancyModel.TablesStayWellFormed | api/internal/store/migrations/0002_tenancy.sql:19-103 | after any store calls, failed ones included: no dangling row, unique project names, at most one default a user, unique subjects |
| TenancyModel.CreateOrganizationLeavesOneDefault | api/internal/store/tenancy.go:159-196 | the owner has exactly one default afterwards: the old one, else the new organization; others keep theirs |
| TenancyModel.SetDefaultOrgMoves | api/internal/store/tenancy.go:342-362 | it succeeds exactly for a member and moves the default there; otherwise nothing changes |
| TenancyHistory.LogIsTheRun | api/internal/store/tenancy.go:342-362 | after any calls, the tables are what the calls that took effect make of empty ones: refused and rolled back calls leave no trace, calls with a lost reply all of theirs |
| TenancyHistory.RowsHaveMakers | api/internal/store/invitations.go:71-82 | whatever project or invitation is there belongs where the call that gave out its id put it, and offers the role that call named, after any calls since |
| TenancyHistory.OrgRolesFollowLog | api/internal/store/tenancy.go:276-328 | after any calls, failed ones included, anyone's role in any organization is what the last effective call on the pair made it, an accepted invitation giving the role named when it was created |
| TenancyHistory.ProjectRolesFollowLog | api/internal/store/tenancy.go:379-549 | the same for projects, whose roles also end with the organization the project was created in |
| TenancyHistory.DefaultsFollowLog | api/internal/store/tenancy.go:159-196 | after any calls, a user's one default is the organization created while there was none or chosen since; being added, re-roled or invited never moves it |
| TenancyRows.RowsFollowLog | api/internal/store/tenancy.go:83-478 | after any calls, failed ones included, users, organizations and projects read as the last effective calls that named them said, field by field |
| TenancyRows.InvitesFollowLog | api/internal/store/invitations.go:71-289 | after any calls, an invitation still there reads as created, and is pending if no effective call has named it since, else as the last status call said, or accepted if the last was an acceptance |
| TenancyRows.AnswersFollowLog | api/internal/store/tenancy.go:83-549 | after any calls, whatever is asked next is answered as the log of effective calls demands, without looking at a table: found, taken, refused, or made under an id never given out before |
| TenancyModel.DeletingLeavesOthers | api/internal/store/tenancy.go:251-260 | deleting an organization leaves every row of another exactly if no invitation to the other's projects names the deleted one |
| TenancyModel.DeletingTakesAll | api/internal/store/migrations/0002_tenancy.sql:29-96 | deleting an organization takes all its rows, through projects too |
| TenancyModel.MatchingInvites | api/internal/store/invitations.go:200-211 | creating a project invitation keeps the organizations in step exactly if the caller passes the project's own |
| TenancyModel.InvitesStayMatched | api/internal/server/handlers_invitations.go:139-165 | called as the handler does, every project invitation names its project's organization, after any calls |
| TenancyModel.DeletionIsLocal | api/internal/store/tenancy.go:251-260 | so in every state the handlers reach, deletion leaves all rows of other organizations |
| TenancyModel.AcceptanceIsAllOrNothing | api/internal/store/invitations.go:117-149 | acceptance succeeds exactly while pending and unexpired, changes membership and status together, and not a second time |
| TenancyModel.ProjectAcceptanceIsAllOrNothing | api/internal/store/invitations.go:244-276 | the same for a project's invitation |
| TenancyStore.DidIsCall | api/internal/store/tenancy.go:83-549 | what each method of the store class promises, those of a single statement included, are exactly the calls of the model under some fate: served, rolled back, or served with the reply lost; `TenancyRows` says what a call leaves and answers |
| TenancyStore.DidKeeps | api/internal/store/tenancy.go:159-196 | a call leaves the tables well formed whatever became of it |
| TenancyStore.Store.CreateOrganization | api/internal/store/tenancy.go:159-196 | insert, default check, owner membership and commit, each of which may fail, are one call of the model |
| TenancyStore.Store.SetDefaultOrg | api/internal/store/tenancy.go:342-362 | clearing, setting and committing is one call; a failure after the clearing restores the old default |
| TenancyStore.Store.CreateProject | api/internal/store/tenancy.go:379-410 | project and maintainer membership in one call; a taken name is a conflict |
| TenancyStore.Store.AcceptOrgInvitation | api/internal/store/invitations.go:117-149 | lock, check, membership, status and commit are one call |
| TenancyStore.Store.AcceptProjectInvitation | api/internal/store/invitations.go:244-276 | the same for a project's invitation |
| TenancyStore.CascadeProject | api/internal/store/migrations/0002_tenancy.sql:52-96 | members and invitations go with their project |
| TenancyStore.CascadeOrg | api/internal/store/migrations/0002_tenancy.sql:29-96 | cascading project by project, then over the organization's own rows, gives the closed form |
| TenancyStore.Store.DeleteOrganization | api/internal/store/tenancy.go:251-260 | the organization goes with all its rows, or is not found |
| TenancyStore.Store.AddOrgMember | api/internal/store/tenancy.go:276-286 | a new member without the default flag, or a member re-roled with the flag kept |
| TenancyStore.Store.GetDefaultOrg | api/internal/store/tenancy.go:365-373 | the one default is found if there is one, though any row would do |
| AcceptProtocol.CommitIsAtomic | api/internal/store/invitations.go:124-148 | under the row lock, what is committed is what the atomic acceptance would do at that moment |
| AcceptProtocol.AloneIsCall | api/internal/store/invitations.go:117-149 | a transaction nothing comes between commits exactly where the store call succeeds, with the same tables, changes nothing where the call is refused for any reason, an unknown user included, and frees its lock |
| AcceptProtocol.Serializable | api/internal/store/invitations.go:117-162 | any interleaving of accepts, aborts, declines and other calls gives the tables of a serial run in which each acceptance was acceptable |
| AcceptProtocol.AcceptedAtMostOnce | api/internal/store/invitations.go:117-162 | of all transactions on an invitation only one acceptance takes effect |
| AcceptProtocol.NeverPendingAgain | api/internal/server/handlers_invitations.go:94-104 | a handled invitation is never pending again |
| AcceptProtocol.StatusCallsAreHeeded | api/internal/store/invitations.go:152-162 | among any transactions, a status call that takes effect leaves exactly its status, Declined for a decline, and it takes effect unless a transaction holds the row |
| AcceptProtocol.AcceptedWithMembership | api/internal/store/invitations.go:117-149 | in any interleaving, an invitation that becomes accepted by anything but a status call becomes so by a commit on it, and then the user has the invited role |
| Migrations.RunsLeavePrefix | api/internal/store/migrate.go:19-47 | after any runs stopped anywhere, recorded versions and applied scripts are the same prefix of the sorted list, each once |
| Migrations.FinalRunCompletes | api/internal/store/migrate.go:19-47 | one more full run ends where a single uninterrupted run would have, with everything applied |
| Migrations.AllScriptsOnlyIfDistinct | api/internal/store/migrate.go:28-45 | some runs get every script in exactly if versions are distinct, positive and fit the 32-bit column |
| Migrations.SharedVersionIsSkipped | api/internal/store/migrate.go:38-45 | of two files under one version the second fails once and is then silently skipped |
| Migrations.SortByVersion | api/internal/store/migrate.go:73 | the list in order of version, nothing lost or added |
| MigrationNames.VersionIsSpelled | api/internal/store/migrate.go:77-87 | a file name holds a version exactly if it is that number, with a sign or zeros in front or none, an underscore and anything; so names differing in zeros share a version |
| Migrations.LoadMigrations | api/internal/store/migrate.go:55-75 | all files in order of the versions in their names, or an error exactly if some name holds none |
| Migrations.Migrator.ApplyMigration | api/internal/store/migrate.go:89-106 | script and record commit together or not at all |
| Migrations.Migrator.Migrate | api/internal/store/migrate.go:19-47 | the loop over the sorted files is one run of the model |
| TenantRequests.BackedExactly | api/internal/server/handlers_tenants.go:56-177 | from any state with that promise, requests overlapping or not: a store call keeps it exactly if it makes no object without a live row of its owner and takes no row from a serving object |
| TenantRequests.BackedThroughoutExactly | api/internal/server/handlers_tenants.go:56-177 | all states of a run keep the promise exactly if all its events meet that guard |
| TenantRequests.ObjectsHaveRows | api/internal/server/handlers_tenants.go:88-104 | where requests on a name take turns, every object made through the API and not being deleted has a live row of its owner between any two store calls, exactly if no rollback that takes effect finds its object serving |
| TenantRequests.LostCreationBreaks | api/internal/server/handlers_tenants.go:97-104 | after any run in turns that has kept the promise, a create whose row is in breaks it exactly if the object is made unheard and the row then rolled back |
| TenantRequests.RollBackRemovesOwnRow | api/internal/server/handlers_tenants.go:98-101 | the rollback by name removes only the live row its own request inserted |
| TenantRequests.SoftDeletedStays | api/internal/store/store.go:112-130 | a soft-deleted row stays for good, so its name is never live again |
| TenantRequests.OverlapBreaks | api/internal/server/handlers_tenants.go:160-177 | from every state in which a name is free, a delete between the two steps of its create leaves an object whose row is soft-deleted |
| TenantRequests.FatesTell | api/internal/server/handlers_tenants.go:88-104 | to both stores a lost reply is the same as none lost, and a call that fails or is never made leaves them |
| TenantRequests.OthersCannotDelete | api/internal/server/handlers_tenants.go:212-235 | in any run without a deletion by the owner, an administrator or other hands, and with no request on the name under way, a live row stays with its owner and its object keeps serving |
| TenantRequests.OwnersAndAdminsDelete | api/internal/server/handlers_tenants.go:160-177 | an undisturbed delete request takes row and object of a live name exactly if its caller is the owner or an administrator, and changes nothing from anyone else |
| TenantRequests.TenantApi.HandleCreateTenant | api/internal/server/handlers_tenants.go:56-110 | insert, create, roll back are the steps of one create request; each of the replies Created, Conflict and BadRequest is given exactly when it is due, and Created leaves row and object of the owner |
| TenantRequests.TenantApi.HandleDeleteTenant | api/internal/server/handlers_tenants.go:160-177 | authorize, delete, soft-delete are the steps of one delete request; nothing changes unless the caller is the owner or an administrator; Accepted, NotFound and BadRequest are given exactly when due |
| TenantList.SortSorts | frontend/src/hooks/useTenants.ts:10-12 | the sort gives the same rows in order of name |
| TenantList.SortIsStable | frontend/src/hooks/useTenants.ts:40 | rows whose names compare equal keep their order |
| TenantList.NextHas | frontend/src/hooks/useTenants.ts:30-95 | which names are in view after each event |
| TenantList.NextShows | frontend/src/hooks/useTenants.ts:30-95 | which rows are shown after each event: the optimistic row from the send on, the server's row in its place after success, neither after failure, and every other row as it was |
| TenantList.RunsKeepInv | frontend/src/hooks/useTenants.ts:27-95 | in any interleaving the list is sorted, and every name in the pending set is in view and being created |
| TenantList.QuietRefreshIsSnapshot | frontend/src/hooks/useTenants.ts:30-41 | with nothing under way a response is shown exactly as it came, sorted |
| TenantList.RefreshShows | frontend/src/hooks/useTenants.ts:34-41 | a response decides every name it brings; beyond it exactly the optimistic rows stay |
| TenantList.InFlightStaysInView | frontend/src/hooks/useTenants.ts:27-41 | if creates under way share no name, each stays in view through all responses |
| TenantList.FailureHidesItsName | frontend/src/hooks/useTenants.ts:84-92 | a failing create hides another under way exactly if they share the name |
| TenantList.NamesStayDistinct | frontend/src/hooks/useTenants.ts:62-95 | if no create is sent for a name in view, no name is shown twice |
| TenantList.TenantsHook.SendCreate | frontend/src/hooks/useTenants.ts:62-74 | the optimistic row goes in and its name into the pending set |
| TenantList.TenantsHook.FinishCreate | frontend/src/hooks/useTenants.ts:76-92 | the row is replaced or taken out, and the name leaves the pending set |
| TenantList.TenantsHook.FinishRefresh | frontend/src/hooks/useTenants.ts:30-48 | the response is merged with the optimistic rows it lacks |
| DevicePoll.SleepsFit | cli/internal/auth/device.go:98-123 | all sleeps before the last request fit into the code's remaining lifetime |
| DevicePoll.PollBound | cli/internal/auth/device.go:86-124 | n requests: n - 1 base intervals plus 5 s for each slow_down at each sleep it lengthens fit into the lifetime, and each sleep is exactly base plus 5 s a slow_down seen; of an authorization this holds for all replies exactly if its lifetime has wrapped away or no interval that can be slept wraps |
| DevicePoll.SoundInSeconds | cli/internal/auth/device.go:86-124 | that condition in seconds: one slow_down fits 64 bits of nanoseconds, and so does a second, unless the lifetime ends before it |
| DevicePoll.UnsoundIsUnbounded | cli/internal/auth/device.go:115-122 | wherever the condition fails, one or two slow_downs break the bound |
| DevicePoll.PollEnds | cli/internal/auth/device.go:86-124 | polling of a code with a lifetime ends by itself within a number of rounds known beforehand, exactly if the interval is positive in 64 bits and cannot wrap |
| DevicePoll.ImpatientGoesOn | cli/internal/auth/device.go:115-122 | else some replies keep it polling for as many rounds as one likes |
| DevicePoll.NoLifetimeNoEnd | cli/internal/auth/device.go:102-104 | without a lifetime it polls as long as replies are pending |
| DevicePoll.LoginResult | cli/internal/auth/device.go:86-124 | from replies and clock alone: the token exactly if the last request was answered with it, an error exactly if answered so, expiry exactly if answered so or the next request would come after the lifetime, cancelled exactly if all rounds were used; every earlier reply asked to go on |
| DevicePoll.Flow.Login | cli/internal/auth/device.go:86-124 | the loop is the specified poll: same result, same number of requests |

## Where code and documentation differ

- docs/concepts/networking.md:64-65 says a tenant's listener admits exactly one namespace. A target
  namespace that existed before is kept without the label, and then it admits none
  (`Isolation.FoundNamespaceServes`).
- The comment on `DeleteProject` names memberships as what goes with a project; by the schema its
  invitations go too.

## Left out

- NoLostUpdate: starts from a Gateway whose listener names are unique, as the Gateway API demands.
- BuildValues: overrides hold no null values; Helm's merge, which is not part of this repository, lets a null remove a key.
- MergeLeaves: the same.
- MergeTwice: the same.
- BuiltLeaves: the same.
- BuiltIsStable: the same.
- EnsureNamespace: the owner reference is left out, and with reads that are fresh the creation cannot find the namespace there already.
- Install: a release is the request it was made from.
- UninstallRelease: the same, so it is there or not.
- InFlightStaysInView: speaks of creates that share no name; `FailureHidesItsName` says exactly when a shared one hides.
- DeletionInRuns: counts from a moment at which no pass over the tenant is under way.
- ObjectsHaveRows: is about requests that take turns; `BackedThroughoutExactly` covers all runs, with the guard on creations and deletions too.
- SecondPassChangesNothing: Helm still records a revision for an upgrade with the same values, which the model does not show.
- NothingLeaks: a Secret re-issued after teardown has deleted its Certificate is not modelled.
- HostServedForOneTenant: speaks of tenants' listeners; other listeners of the Gateway are the cluster administrator's.
- Migrate: a script's effect is represented by the script itself, so equal lists of scripts stand for equal schemas.
- AcceptedAtMostOnce: transactions read committed rows and wait for row locks; the membership upsert is taken to commit with the transaction.
- GetDefaultOrg: the other reads of the store, their ordering and their row-scanning loops are not part of this model.
- Owner references, last transition times, log lines, the wrapping text of errors and the audit log.
- Helm's install, upgrade and uninstall inside a release, chart location, vCluster, Envoy and cert-manager; a release is the request it was made from.
- Parsing of quantities and of JSON overrides; a field is empty, a quantity or malformed text.
- HTTP, JSON, token verification and role checks; the links from tenants to projects, which are always null here.
- Stale caches, manual removal of the finalizer, edits of the target namespace, switching exposure off after use.
