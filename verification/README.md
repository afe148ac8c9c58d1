# The account operator: a verified model

The account operator provisions a tree of kcp workspaces for accounts. An organization is an account
in `root:orgs`; below its workspace live further accounts, each with a workspace of its own. For
every account the operator keeps a workspace, an `AccountInfo` record inside that workspace's
cluster, and for every organization a pair of workspace types. It works by passes of subroutines
over one account at a time, any number of them at once, over a store that users, kcp and external
initializers write to as well.

This project models that protocol and proves what it keeps, where it ends up, and that it gets there.

## How the model is built

- `wrappers.dfy` has `Option`, `model.dfy` the objects and the store. `program.dfy` turns each
  subroutine into a program of API calls: `Call` performs one call and says how to go on.
  `operator.dfy` has the subroutines in the operator's own form, classes whose methods work on a
  manager that holds the store, and proves of each that it does what its program of calls does,
  whichever call fails. `answers.dfy` says when each of them is done, asks to be called again, or
  fails, and what it leaves in the store.
- `system.dfy` is the platform: a step is one API call of one worker, a failure (which drops the
  worker), a restart of the operator with the same CA or another, or a step of the AccountInfo
  reconciler, of a user, of kcp, or of an external writer. Runs are arbitrary sequences of enabled
  steps, so reads may be stale and passes interleave at the level of single reads and writes. A call
  that takes effect while its answer is lost is a call followed by a failure.
- `invariant.dfy` and `preserve.dfy` hold one inductive invariant and the proof that every step
  keeps it, by rely and guarantee between workers. `bare.dfy` covers pipelines without the Workspace
  subroutine, where nothing below `root:orgs` ever comes to be. `safety.dfy` reads the safety
  theorems off both; `origin.dfy`, `typing.dfy`, `treefence.dfy`, `gate.dfy` and `endtoend.dfy` add more,
  and so does `typeowners.dfy` for the workspace types.
  `emptying.dfy` tears down what lies in one cluster, `window.dfy` says when an AccountInfo can be
  lost, and `witness.dfy` has the runs in which what one might hope for fails.
- `rank.dfy` measures the work that is left; `progress.dfy` finds what is due in any unsettled
  state; `fairness.dfy` and `teardown.dfy` draw the conclusions for all fair runs, and `fairrun.dfy`
  constructs such runs. `deadlock.dfy` shows why the pipeline order matters.
- `passes.dfy`, `convergence.dfy` and `rest.dfy` are about undisturbed passes and where they lead,
  `interleaved.dfy` about passes that interleave. `outcome.dfy` joins them to the fair runs.
- `naming.dfy`, `url.dfy`, `workspacetypes.dfy`, `typelifecycle.dfy`, `admission.dfy` and
  `deepcopy.dfy` cover names, URLs, workspace types and their fence, the webhook, and the heap.

## What is assumed of the libraries and of kcp

Their code is not part of the repository; these assumptions are built into `System.Step`,
`System.Enabled` and `Ranking.Internal`.

- A restart drops all passes under way, which may leave off between any two calls.
- An error or a requeue ends a pass, and a later pass starts from the first subroutine. One account
  is worked on by one worker at a time. A requeue only means "try again later".
- Finalizers are put on an account before its subroutines run, and each is taken off only after the
  matching `Finalize` said OK. Subroutines do not process accounts that are being deleted when the
  pass starts. Finalizers may run in any order.
- `CreateOrUpdate` is a read and then a create or an update that carries the resource version read;
  `CreateOrPatch` is a read and then a create or a merge patch of the fields changed since the read.
  Neither makes a second call when nothing changed.
- A cluster says that it does not know a kind, or answers a listing with "not found", only while it
  has no object of that kind. The methods in `operator.dfy` are proved for such answers in any state.
- kcp gives each scheduled workspace a fresh cluster and a URL, any URL, which never change. It accepts
  no new object in a terminating cluster, deletes what is in it, and removes a workspace only when its
  cluster is empty. Users may delete accounts, workspaces and AccountInfos at any time.
- A workspace becomes Ready only when its AccountInfo exists.
- Account types never change, organizations live in `root:orgs` only, and only the operator creates
  workspaces. The listing that lets an AccountInfo go and the removal of its finalizer are two steps.
- For liveness: the platform left to the operator and kcp (`Ranking.Internal`). For the theorems on
  fair runs also: calls stop failing at some point, and whatever step is possible again and again is
  taken again and again (`Fairness.Fair`). Endless runs may pause at any time, so they include those
  that come to an end. Teardown needs the Workspace subroutine switched on, provisioning all of them.
- URLs may be such that no path can be taken from them. Accounts that have only usable URLs on their
  way up to the organization (`Progress.Served`) get provisioned; the first one that has not
  (`Progress.Reached`, but not served) gets all but its AccountInfo; below it nothing is claimed.

## Where code and documentation differ

- README.md:16 of the repository promises a validating webhook that keeps immutable information from
  being changed. `ValidateUpdate` does not look at the old object. `Admission.TypeChanges` says which
  updates of the type go through, and `Admission.TypeProtectedExactly` for which allow lists and names
  the promise is kept. Constant types are therefore an assumption here.
- An AccountInfo is meant to outlive the accounts beside it. `Window.LostExactly` shows when it may not:
  as long as its cluster accepts new accounts, and after that while it has no finalizer, or had its
  accounts listed before. `Witness.InfoLost` and `Witness.FinalizedInfoLost` are runs from the empty
  platform in which it does not, without its finalizer and with it.
- A workspace is meant to be created only with its type Ready. Check and write are separate calls:
  `Typing.WorkspaceTyping` proves the check, `Typing.ReadyAtWriteExactly` says when its outcome still
  holds at the write, and `Witness.TypeGoneAtWrite` is a run in which it does not.

## Model

| member | source | states |
|---|---|---|
| Naming.SplitAtLastHyphen | pkg/subroutines/util/util.go:9-11 | the last hyphen of a generated name separates the account name, hyphens and all, from a hyphen-free type |
| Naming.TypeNameInjective | pkg/subroutines/util/util.go:9-11 | two generated names are equal exactly when account name and type are |
| Naming.HyphenatedTypesCollide | pkg/subroutines/util/util.go:9-11 | a type with a hyphen makes the naming ambiguous, for every account name |
| WorkspaceUrl.JoinSplit | pkg/subroutines/manageaccountinfo/manage_accountinfo.go:154 | joining the segments of a split gives the URL back |
| WorkspaceUrl.SplitSegments | pkg/subroutines/manageaccountinfo/manage_accountinfo.go:154-155 | segments are free of separators and one more than there are separators |
| WorkspaceUrl.SplitLoop | pkg/subroutines/manageaccountinfo/manage_accountinfo.go:154 | the loop that cuts at each separator computes the split |
| WorkspaceUrl.RetrieveWorkspacePath | pkg/subroutines/manageaccountinfo/manage_accountinfo.go:148-164 | the three refusals in their order amount to the one path function |
| WorkspaceUrl.WorkspacePathExactly | pkg/subroutines/manageaccountinfo/manage_accountinfo.go:148-164 | a URL yields path p exactly if it has two slashes and p is its slash-free, non-blank rest after the last one |
| WorkspaceUrl.WorkspacePathRoundTrip | pkg/subroutines/manageaccountinfo/manage_accountinfo.go:148-164 | every non-blank slash-free path comes back from base + "/clusters/" + path |
| WorkspaceUrl.TrimSpaceExactly | pkg/subroutines/manageaccountinfo/manage_accountinfo.go:160 | trimming takes off both ends all the white space there is and nothing else |
| WorkspaceUrl.SpaceCodePoints | pkg/subroutines/manageaccountinfo/manage_accountinfo.go:160 | white space is 25 code points |
| Admission.AdmittedOrgHasName | api/v1alpha1/account_webhook.go:50-76 | an admitted organization has a name that is not blank |
| Admission.Utf8LengthEncodes | api/v1alpha1/account_webhook.go:64 | the length compared with three is the number of bytes of the UTF-8 encoding |
| Admission.Decodable | api/v1alpha1/account_webhook.go:64 | that encoding can be read back |
| Admission.Utf8LengthAscii | api/v1alpha1/account_webhook.go:64 | it is the number of characters exactly of ASCII strings |
| Admission.VerdictExactly | api/v1alpha1/account_webhook.go:50-76 | which verdict every trimmed ASCII name gets, for every type and validator: too short for an organization exactly below three characters |
| Admission.TypeChanges | api/v1alpha1/account_webhook.go:78-104 | for every validator, name, old and new type: an update is admitted exactly when the new type is on the allow list and, if it is org, the name would do for an organization |
| Admission.TypeProtectedExactly | api/v1alpha1/account_webhook.go:50-104 | the documented protection of the type holds exactly when the allow list, less org if the name is no organization name, has no two different types |
| WorkspaceTypes.PatchIsMerge | pkg/subroutines/workspacetype/workspace_type.go:79-91 | the patch sets exactly the managed fields and the label, keeps all else, and is idempotent; nothing is written exactly when the type is already managed |
| WorkspaceTypes.PatchUnderInterference | pkg/subroutines/workspacetype/workspace_type.go:79-91 | with writes between read and patch, foreign fields stay as they are in the store, and the result is managed exactly when what the patch leaves out was not undone |
| WorkspaceTypes.SelectorFence | pkg/subroutines/workspacetype/workspace_type.go:145-218 | an edge between generated types passes both selectors exactly within one organization and down to its account type; only organization types fit below root:orgs |
| WorkspaceTypes.GeneratedShape | pkg/subroutines/workspacetype/workspace_type.go:145-218 | a generated type extends just the root type of its kind, has just the organization label, selects exactly these parents and children, and has as default child the one child that the fence admits |
| WorkspaceTypes.FenceAnyDepth | pkg/subroutines/workspacetype/workspace_type.go:145-218 | chains of any depth are admitted exactly when they are one organization followed by accounts of that organization |
| TypeLifecycle.ProcessEnsures | pkg/subroutines/workspacetype/workspace_type.go:45-70 | an undisturbed pass creates or merges both types and touches nothing else |
| TypeLifecycle.ProcessTwice | pkg/subroutines/workspacetype/workspace_type.go:45-97 | a second pass changes nothing |
| TypeLifecycle.ProcessCommutes | pkg/subroutines/workspacetype/workspace_type.go:45-97 | two organizations may be processed in either order |
| TypeLifecycle.CleanupUnderRetries | pkg/subroutines/workspacetype/workspace_type.go:99-130 | over any retries, OK comes exactly with an attempt in which neither deletion fails, leaves neither type, and no attempt touches any other type |
| TypeLifecycle.ReleasedClean | pkg/subroutines/workspacetype/workspace_type.go:99-143 | whatever is switched on, among other workers, failures and restarts, the type finalizer comes off only with both types gone, as long as nobody else creates types |
| TypeOwners.TypesOwned | pkg/subroutines/workspacetype/workspace_type.go:136-143 | where nobody else creates types, in every reachable state each type belongs to an organization that is there with the type finalizer on it, and so does each pass at an organization |
| TypeOwners.NoTypeLeftBehind | pkg/subroutines/workspacetype/workspace_type.go:99-143 | so every step that removes an organization finds neither of its types |
| Operator.WorkspaceTypeSubroutine.CreateOrPatchWorkspaceType | pkg/subroutines/workspacetype/workspace_type.go:72-97 | the method does what its program of calls does, whichever call fails |
| Operator.WorkspaceTypeSubroutine.Process | pkg/subroutines/workspacetype/workspace_type.go:45-70 | the same for the whole subroutine; never Again, Failed exactly when a call fails, and Done with both types right |
| Operator.WorkspaceTypeSubroutine.Finalize | pkg/subroutines/workspacetype/workspace_type.go:99-130 | the same for the deletion of both types, with the store and the answer after each failure |
| Operator.WorkspaceSubroutine.CheckWorkspaceTypeReady | pkg/subroutines/workspace/workspace.go:150-168 | ready, not ready (or missing), or error |
| Operator.WorkspaceSubroutine.Process | pkg/subroutines/workspace/workspace.go:94-146 | the method does what its program of calls does, whichever call fails; Again exactly while parent record, organization name or ready type are missing, Failed exactly when a call fails or the create is refused, Done with type and owner right |
| Answers.WorkspaceAnswers | pkg/subroutines/workspace/workspace.go:94-146 | the same of the program of calls, for every prior workspace |
| Operator.WorkspaceSubroutine.Finalize | pkg/subroutines/workspace/workspace.go:61-92 | the same; OK only once the workspace is gone, or when the cluster answers that it has no such kind; until then Again, with deletion asked for |
| Answers.WorkspaceFinalizeAnswers | pkg/subroutines/workspace/workspace.go:61-92 | each answer has its exact condition, and only the deletion mark is written |
| Operator.ManageAccountInfoSubroutine.CreateOrPatchOrgInfo | pkg/subroutines/manageaccountinfo/manage_accountinfo.go:101-118 | the assignments of the closure, in place, and the create or patch after them are the program's last two calls; a record that is created has neither FGA store nor OIDC, any other keeps its own |
| Operator.ManageAccountInfoSubroutine.CreateOrUpdateInfo | pkg/subroutines/manageaccountinfo/manage_accountinfo.go:131-142 | the same for all other accounts |
| Operator.ManageAccountInfoSubroutine.Process | pkg/subroutines/manageaccountinfo/manage_accountinfo.go:57-146 | the same for the whole subroutine; Again exactly at the phase gate and without the parent's record, Done exactly with a record that says what it must |
| Answers.InfoAnswers | pkg/subroutines/manageaccountinfo/manage_accountinfo.go:57-146 | the same of the program of calls: each answer has its exact condition, and the record left is right in every field |
| Operator.WorkspaceReadySubroutine.Process | pkg/subroutines/workspaceready/workspaceready.go:51-76 | the same for the readiness gate: Failed without the workspace, Again until it is Ready |
| Answers.TypesAnswers | pkg/subroutines/workspacetype/workspace_type.go:45-97 | WorkspaceType's answers and what it leaves after each failure, said of the store alone |
| Answers.TypesFinalizeAnswers | pkg/subroutines/workspacetype/workspace_type.go:99-130 | which of the two types are gone after which failure |
| Operator.FinalizeAccountInfoSubroutine.Finalize | pkg/subroutines/finalizeaccountinfo/finalize_accountinfo.go:48-74 | OK exactly when the listing finds no account in the cluster or comes back with "not found" or "no such kind"; error exactly on any other error |
| Operator.NewPipeline | internal/controller/account_controller.go:52-80 | the pipeline has exactly the subroutines switched on, in the one order |
| Preserve.InvStep | pkg/subroutines/manageaccountinfo/manage_accountinfo.go:57-146 | with the Workspace subroutine switched on, every step of anybody keeps the one invariant of tree, accounts, workspaces, records, versions and workers |
| Safety.RunInv | internal/controller/account_controller.go:58-64 | so every reachable state has the invariant; with it switched off, every reachable state has no workspace, AccountInfo or account below root:orgs |
| Safety.LinkIntegrity | pkg/subroutines/manageaccountinfo/manage_accountinfo.go:85-140 | in every reachable state each AccountInfo names its own cluster, its account, its parent's location and the organization at the top; parents are older clusters, so the chain ends |
| Safety.PastWasHeld | pkg/subroutines/manageaccountinfo/manage_accountinfo.go:101-118 | every entry of an organization's history was in its AccountInfo at some step of the run |
| Safety.Untorn | pkg/subroutines/manageaccountinfo/manage_accountinfo.go:122-140 | organization, FGA store and OIDC of any AccountInfo were in the organization's record together at one step of the run |
| Safety.Monotone | pkg/subroutines/manageaccountinfo/manage_accountinfo.go:122-140 | no AccountInfo is newer than its parent's, the organization's is the newest, and no step takes a version back |
| Safety.PatchKeepsExternal | pkg/subroutines/manageaccountinfo/manage_accountinfo.go:101-118 | for all records read and found, the patch leaves FGA store and OIDC as they are when it arrives, and the managed fields are right after it exactly when none that was right when read has been undone since |
| Safety.ExternalFieldsKept | pkg/subroutines/manageaccountinfo/manage_accountinfo.go:101-118 | no step but an external write changes an organization's record once it is there, except that a patch brings the CA up to date |
| Safety.NoLostUpdate | pkg/subroutines/manageaccountinfo/manage_accountinfo.go:101-118 | over any stretch of any run without an external write, however reads and patches interleave and the operator restarts with other CAs, FGA store and OIDC stay as last written externally, and the record's links stay right |
| Safety.OrgPassRight | pkg/subroutines/manageaccountinfo/manage_accountinfo.go:101-118 | when ManageAccountInfo says OK for an organization, all managed fields of its record are right, the CA included, and FGA store and OIDC are those that were there |
| Origin.ExternalOrigin | pkg/subroutines/manageaccountinfo/manage_accountinfo.go:101-142 | in every reachable state FGA store and OIDC of each AccountInfo are unset, or an external writer wrote just this pair to its organization's record at some step of the run |
| Typing.WorkspaceTyping | pkg/subroutines/workspace/workspace.go:106-142 | every workspace carries its organization's type for its account's kind; an earlier call of the very pass that created it had found that type Ready; outside organizations only organizations have one |
| Typing.ReadyAtWriteExactly | pkg/subroutines/workspace/workspace.go:123-168 | a type found Ready at the check is not Ready at a later step exactly when a step in between took it, from outside or by its organization's finalizer, and no step after that one, of kcp or from outside, made it Ready |
| Witness.TypeGoneAtWrite | pkg/subroutines/workspace/workspace.go:123-142 | for every admitted organization name, a run from the empty platform that creates a workspace of a type which is not there |
| TreeFence.TreeAdmitted | pkg/subroutines/workspacetype/workspace_type.go:145-218 | in every reachable state, at any depth, the types from root:orgs down to an account's workspace are a chain that the selectors admit |
| Safety.NoOrphans | pkg/subroutines/workspace/workspace.go:57-92 | every account, workspace and AccountInfo hangs from an unbroken chain of workspaces and owners that their finalizers hold |
| Safety.BottomUp | pkg/subroutines/finalizeaccountinfo/finalize_accountinfo.go:58-73 | a workspace goes only when its cluster is empty, an account only after its workspace; an AccountInfo goes only without its finalizer, or after a listing that found no account, and there still is none if the cluster was terminating by then |
| Safety.OrganizationNames | api/v1alpha1/account_webhook.go:50-76 | in every reachable state all organizations have admissible names, of three UTF-8 bytes at least after trimming, and no AccountInfo lacks the organization's name |
| Window.LostExactly | pkg/subroutines/finalizeaccountinfo/finalize_accountinfo.go:44-73 | some run loses an AccountInfo with accounts beside it exactly as long as its cluster accepts new accounts, and after that while it has accounts, and no finalizer or an earlier listing |
| Emptying.ClusterEmptied | pkg/subroutines/workspace/workspace.go:61-92 | users can delete all accounts of an open cluster, and operator and kcp tear down all below them, with the cluster and its AccountInfo untouched |
| Witness.InfoLost | pkg/subroutines/finalizeaccountinfo/finalize_accountinfo.go:44-73 | for all admitted names of an organization and an account, a run from the empty platform that loses the AccountInfo, which has no finalizer yet, beside the account |
| Witness.FinalizedInfoLost | pkg/subroutines/finalizeaccountinfo/finalize_accountinfo.go:58-73 | for every admitted organization name, a run that loses it with its finalizer on: an account is created between listing and release |
| Gate.WrittenPastGate | pkg/subroutines/manageaccountinfo/manage_accountinfo.go:69-77 | every AccountInfo was created by a pass in which an earlier call had read the workspace of its cluster and found it Initializing or Ready |
| EndToEnd.EndToEndResult | internal/controller/account_controller.go:52-80 | when a pass ends well, whatever happened between its calls: workspace Ready, right type and owner; an AccountInfo, unless the workspace is being deleted or somebody deleted the AccountInfo during the pass; and if there is one, with the right links and the operator's CA |
| Deadlock.ReadyFirstDeadlocks | pkg/subroutines/workspaceready/workspaceready.go:27-31 | with WorkspaceReady ahead of ManageAccountInfo no run ever creates an AccountInfo or gets a workspace Ready |
| Deadlock.OrderAvoidsDeadlock | internal/controller/account_controller.go:52-80 | in the reconciler's order that happens exactly when ManageAccountInfo is switched off |
| Deadlock.WithoutInfoDeadlocks | internal/controller/account_controller.go:66-72 | and then nothing is ever provisioned |
| Ranking.PatchLowers | pkg/subroutines/workspacetype/workspace_type.go:79-91 | whatever has happened since the read, a patch of a workspace type never adds to what differs from the managed fields, and takes some away whenever it changes the type |
| Ranking.MeasureStep | pkg/subroutines/workspace/workspace.go:61-146 | from every reachable state, with the Workspace subroutine on, no step of operator or kcp raises the measure, and one that changes the store lowers it |
| Progress.TeardownGains | pkg/subroutines/finalizeaccountinfo/finalize_accountinfo.go:58-73 | while anything is being deleted, with whatever subtree and URLs, some steps of operator and kcp lower the measure |
| Progress.UnsettledDue | internal/controller/account_controller.go:52-80 | while a deletion is not done, or an account with usable URLs up to its organization is not provisioned, its types and CA included, or the first with a refused URL lacks anything but its AccountInfo, some step or pass is due that changes the store |
| Progress.DueGains | internal/controller/account_controller.go:52-80 | whatever is due can be brought about by steps of operator and kcp, and lowers the measure |
| Progress.EverythingSettles | internal/controller/account_controller.go:52-80 | from every reachable state, operator and kcp alone can get every deletion done and everything provisioned, all managed fields put right, as far as URLs allow |
| Progress.EventuallyQuiet | internal/controller/account_controller.go:52-80 | every endless run of operator and kcp alone stops changing the store, and where it rests it is settled or some steps still gain |
| Fairness.RestIsSettled | internal/controller/account_controller.go:52-80 | a fair run in which the store rests and calls do not fail has every deletion done and everything provisioned as far as URLs allow |
| Fairness.FairRunsRest | internal/controller/account_controller.go:52-80 | every fair run of operator and kcp in which calls stop failing, endless or pausing for good, has every deletion done from some point on, and its store no longer changes |
| Fairness.FairRunsSettle | internal/controller/account_controller.go:52-80 | with all subroutines on, it also has everything provisioned as far as URLs allow |
| FairRun.FairRunExists | internal/controller/account_controller.go:52-80 | from every state with the invariant there is such a run |
| Teardown.DeletedSubtreeGoes | pkg/subroutines/workspace/workspace.go:61-92 | in every such run a deleted account, the last one included, and all accounts, workspaces and AccountInfos below it are gone from some point on, whatever URLs there are |
| Outcome.FairRunsConverge | internal/controller/account_controller.go:91-93 | from some point on in every such run, every pass at an account with usable URLs would say OK and change nothing, and every record is the one that tree and external fields determine |
| Outcome.OutcomeDetermined | internal/controller/account_controller.go:91-93 | the state in which nothing is being deleted and the platform is left to operator and kcp determines, for every account placed by then, the record that it ends with in every such run |
| Outcome.SchedulesAgree | internal/controller/account_controller.go:91-93 | so any two such runs from there end with the same records |
| Passes.FinishRunsSubroutine | internal/controller/account_controller.go:91-93 | a pass runs its subroutines one after the other as long as they say OK |
| Passes.PassIsSchedule | internal/controller/account_controller.go:91-93 | an undisturbed pass is one of the platform's schedules |
| Convergence.PassPuts | pkg/subroutines/manageaccountinfo/manage_accountinfo.go:101-142 | what a pass does at an account past the phase gate: it puts down one record and changes nothing else |
| Convergence.RoundsAgree | pkg/subroutines/manageaccountinfo/manage_accountinfo.go:122-140 | rounds of passes in any order bring agreement with the organization one level down each |
| Convergence.Converges | pkg/subroutines/manageaccountinfo/manage_accountinfo.go:101-140 | after k rounds every record down to depth k is right |
| Interleaved.InterleavedConverges | pkg/subroutines/manageaccountinfo/manage_accountinfo.go:101-140 | the same for passes that interleave call by call, with failures: if each account completes, in each of k rounds, a pass that began in it, every record down to depth k is right, as long as the tree stands, its organizations' records are not written, none of its records is deleted, and the operator is not restarted |
| Convergence.TopDownSuffices | pkg/subroutines/manageaccountinfo/manage_accountinfo.go:101-140 | one round from the top down makes every record right |
| Convergence.RestExactly | pkg/subroutines/manageaccountinfo/manage_accountinfo.go:101-145 | all passes say OK and change nothing exactly when every workspace is Ready and every record is the one that tree and external fields determine |
| Convergence.OneRestingPlace | pkg/subroutines/manageaccountinfo/manage_accountinfo.go:101-145 | two states at rest over the same clusters, whatever else their trees hold, have the same record for an account with the same place and external fields in both |
| Rest.ReachableRest | pkg/subroutines/workspace/workspace.go:132-145 | with all subroutines switched on, any reachable state in which every pass says OK and changes nothing is that state |
| DeepCopy.OidcInfo.DeepCopyInto | api/v1alpha1/zz_generated.deepcopy.go:376-385 | equal value, all memory below the target fresh |
| DeepCopy.AccountInfoSpec.DeepCopyInto | api/v1alpha1/zz_generated.deepcopy.go:131-147 | equal value, all memory below the target fresh |
| DeepCopy.AccountInfoSpec.DeepCopy | api/v1alpha1/zz_generated.deepcopy.go:149-157 | equal value, nothing shared |
| DeepCopy.WriteOriginal | api/v1alpha1/zz_generated.deepcopy.go:131-157 | whatever is written in place through all pointers of a record, a deep copy taken before stays as it was taken |
| DeepCopy.WriteCopy | api/v1alpha1/zz_generated.deepcopy.go:131-157 | and writes through all pointers of the copy leave the original as it is |
| DeepCopy.MutateAndCompare | pkg/subroutines/manageaccountinfo/manage_accountinfo.go:131-142 | the copy that CreateOrUpdate takes before the closure assigns in place, and makes the record share its parent's OIDC object, is still what was read |
| DeepCopy.Extension.DeepCopyInto | api/v1alpha1/zz_generated.deepcopy.go:337-347 | equal value, all memory below the target fresh |
| DeepCopy.CopyExtensions | api/v1alpha1/zz_generated.deepcopy.go:234-240 | the loop over a slice: equal elements in order, slice and elements fresh, no memory shared between two elements, nil stays nil |
| DeepCopy.AccountSpec.DeepCopyInto | api/v1alpha1/zz_generated.deepcopy.go:222-246 | equal value in every field, every pointer and slice fresh, no memory shared between two extensions, nor between an extension and the rest |

## Left out

- Rate limiter delays, metrics, logging, tracing, flag parsing, leader election and manager setup: no behaviour of the protocol.
- `AccountInfoReconciler` and `clusteredname`: thin wrappers, of which the cluster id is in `Key`.
- The copies of `AccountList` and `AccountInfoList`: the loop of `DeepCopy.CopyExtensions` over other elements. The copies of object metadata, conditions and times are library code.
- `DeepCopy.CopyExtensions`: the source allocates the new slice first and fills it in place; here its elements are made first and the slice last, so the half-filled slice is not modelled.
- JSON encodings, and the `AccountDefaulter`, which sets one field.
- Account kinds other than org and account in the liveness theorems: nobody creates workspace types for them.
- Owner references besides the operator's own: an operator-created workspace has one owner here.
- Cluster ids are numbers in order of allocation, where kcp has opaque fresh strings; no code of the operator compares them.
