# A verified model of the frkr operator

The operator turns seven kinds of custom resources (streams, tenants, users, clients, auth
configurations, inits, data planes) into rows of a database, topics of a broker and
Kubernetes Secrets. Each kind has a controller whose `Reconcile` makes a dozen calls to three
stores that share no transaction. A pass may stop after any call, is retried, is triggered
again by its own status write, and runs between the passes of the other controllers. The
project models this as a step machine and proves what every run keeps.

- `Base`, `Conditions`, `Resources`, `Stores`: logs of versions, status conditions, the custom
  resources, and the three stores with every call the operator makes on them. A `Choice`
  decides what the call may decide by itself: whether it works (`Fine`), works but the reply is
  lost (`Lost`), or fails (`Broken`); a new ID; a generated text; which version a cached read
  returns; the order of a listing; the answer of a probe.
- `StreamController` to `DataPlaneController`: one module a controller. A pass is a program
  counter with what the pass has read; `Step` makes one external call; `Run` is a whole pass.
- `Machine`: the queue (waiting, in progress, delayed), the informer cache, the passes in
  flight, and everything users, the cluster and the runtime may do: create, edit and remove
  resources, write Secrets, scale deployments, deliver news to the cache, start and stop
  passes, restart the process. `Exec` is a run, any sequence of such labels.
- `Invariant`: what every label keeps. `Histories`, `Tenancy`, `NoLostWork`, `Convergence`,
  `ClientCredentials`, `ClientPasses`, `SkippedSecrets`, `UserPasswords`, `AuthSwitch`, `InitStatus`,
  `Gateways`, `Serial`, `CreateOrGet`: the properties. `Flights` follows one pass through a run in
  which everything else goes on.
- `Cluster`, `Reconcilers`: the stores as an object updated in place, and the `Reconcile`
  methods in the source's own order of statements. Each is proved equal to its controller's
  `Run`; `WholePasses` proves `Run` equal to a run of the machine.
- `ConnectionString`, `DeepCopy`: the printed database URL, and the generated deep copies over
  the heap.

## Assumptions

What lies outside the repository is assumed as follows, and nothing more.

- API server: a status or Secret update commits only if the version that was read is the latest
  one; a create fails on an existing name; versions are not reused; a write that changes nothing
  makes no version and no event. An edit by a user leaves the status alone, a new resource starts
  with an empty one. The cache shows some version of each resource and moves forward only; after a
  restart it shows the latest. Secrets and deployments are read at any version they ever had.
- Faults: a call whose reply is lost has all the effect of one that works, one that fails has
  none, and either tells its caller of an error (`Stores.ApiFaults`, `Stores.DatabaseFaults`,
  `Stores.OtherFaults`).
- Controller runtime: a key is processed by one pass at a time, an error or a requeue schedules
  another, a panic is turned into an error. How long a retry waits is not modelled.
- Configuration: whether there is a database and a broker is fixed for the whole run, restarts
  included.
- `meta.SetStatusCondition`: updates by type or appends; the transition time moves only when the
  status flips. It is written out as a loop in `Conditions`.
- `CreateOrGetTenant` is atomic, IDs are distinct. `CreateClient` inserts or says "already
  exists". `CreateStream` on a repeated name may return a row for that tenant and name, add
  another, or fail. `CreateUser` on a repeated name may fail, keep the row, or overwrite it.
  `GeneratePassword` returns a non-empty text or fails.
- Nobody else removes database rows or topics, or undoes migrations. Deployments and Secrets may
  change in any way where a property does not say otherwise.
- The two probes of a data plane answer anything (the source's answer true).

## Claims that fail, and when they hold

- A generated client secret may differ between the database and the Secret, against the comment at
  `internal/controller/client_controller.go:43-44`. `ClientPasses.StoppedThenRetried` and
  `ClientPasses.UnreadSecret` give the two ways; `ClientCredentials.GeneratedSecretAgrees` (over runs)
  and `ClientPasses.WholePass` say when they agree.
- A user without a password in its spec gets another one on every pass, while the status keeps the
  first: `UserPasswords.GeneratedPasswordAgrees` says when the two are equal.
- A client may come to rest at its goal and without its Secret, when the Secret's read failed in
  its last pass: `SkippedSecrets.RestsWithoutSecret`; `SkippedSecrets.ReadDecides` says when.
- Phase and Ready condition of an init can disagree after a later failure:
  `Histories.InitDisagreement` says exactly when, `InitStatus.DirtyReadyReachable` gives a run.
- Splitting the connection string recovers its fields exactly when they are free of the
  delimiters of section 3 of RFC 3986: `ConnectionString.RoundTrip`. A password with an `@` is
  enough to break it: `ConnectionString.PasswordWithAt`. Both are about a reader that cuts at the
  first `@`, as that grammar, which allows none in the user information, has it; Go's `net/url`
  cuts at the last one and so recovers such a password.
- A dirty migration does not keep an init from becoming ready, against the comment at
  `internal/controller/init_controller.go:115`: `InitStatus.ReadyWhateverDirty` and
  `InitStatus.DirtyReadyReachable`. `InitStatus.ReadyShowsDirty` says when a ready status is dirty.
- `DeepCopyInto` a receiver itself loses what its slices held, unless they were nil: `DeepCopy.OIDCConfig.DeepCopyInto`.

## Model

| member | source | states |
|---|---|---|
| NoLostWork.WorkIsTracked | internal/controller/stream_controller.go:43-97 | In every reachable world, whatever failed, stopped, raced or was edited: each resource is at the goal of its present spec, or is queued, in progress, scheduled for retry, or has news on its way to the cache. The goal is for a stream Ready with its tenant, row and topic; for a tenant the ID of its name; for a user a shown password, its row, and a Secret some version of which gave a password of the spec; for a client its registration, its Secret aside; for an auth configuration the recorded type; for an init Initialized, Ready and verified; for a data plane a status consistent with its probes |
| NoLostWork.QuiescentAtGoal | internal/controller/init_controller.go:90-160 | Nothing queued, delayed, in progress or undelivered: every resource is at that goal |
| NoLostWork.NextKeepsWork | internal/controller/tenant_controller.go:43-59 | Every label, a restart included, keeps the tracking, even when a pass works on a version that is no longer the latest |
| NoLostWork.TenantDone | internal/controller/tenant_controller.go:49-59 | A tenant pass that ends without error leaves a tenant identified by its row, written or already so, unless its read was stale |
| NoLostWork.InitDone | internal/controller/init_controller.go:146-160 | An init pass that ends without error leaves a status that is Initialized, Ready and verified for the present spec, unless its read was stale |
| Convergence.Converges | internal/controller/tenant_controller.go:50-57 | For streams, tenants, users and clients, from any world of the invariant, while the resource is left alone, its calls work and, for a stream, `CreateStream` returns the row `r` to passes over the present version: the turns it takes are at most an explicit measure and 45 for each stale read (a pass that begins while the cache is behind, a user or client pass shown an old version of its Secret), whatever the others do; for a user, no other takes its name or deletes it |
| Convergence.EndsFixed | internal/controller/client_controller.go:40-126 | After such a run from any reachable world, stale reads included, once no label moves the resource any more it is at its goal; a tenant and a stream are fixed, whatever was in flight when the run began, a stream with the row its status names; a user and a client are fixed if they were due for a pass then, and so is a stream with the row `r` that `CreateStream` returns |
| Convergence.OwnCallDrops | internal/controller/stream_controller.go:80-94 | Each working call of its own pass that reads what is current lowers the measure, status writes that trigger the resource again included |
| Convergence.OwnCallCosts | internal/controller/client_controller.go:35-121 | A working call with a stale read raises the measure by less than 45; what it missed is on its way, or the pass fails at its Secret write and is retried |
| Convergence.NextDrops | internal/controller/client_controller.go:94-126 | Each label that moves the resource lowers the measure, a stale read aside, and no other label raises it |
| Convergence.TenantUnchanged | internal/controller/tenant_controller.go:43-59 | Where the loop ends for a tenant, another whole pass changes nothing in any store |
| Convergence.StreamUnchanged | internal/controller/stream_controller.go:49-97 | The same for a stream, if `CreateStream` returns the existing row |
| Convergence.UserUnchanged | internal/controller/user_controller.go:32-117 | For a user another whole pass that keeps the row writes its password into the Secret and nothing else: with a password in the spec nothing changes in any store, without one the generated text goes into the Secret and the status stays |
| Convergence.ClientUnchanged | internal/controller/client_controller.go:40-128 | The same for a client: row, Secret and status stay |
| Histories.StreamSafety | internal/controller/stream_controller.go:49-94 | In every reachable world a Ready stream has its tenant row, its stream row and, with a broker, its topic, belonging together, for the spec its write had read, and for the present spec if unedited since |
| Histories.ReadyOrigin | internal/controller/stream_controller.go:80-94 | A ready status goes back to one write of a pass and was not touched since |
| Histories.CommitMatchesSpec | internal/controller/stream_controller.go:35-38 | A committed stream status was computed from the very spec it replaces, edits racing or not |
| Histories.PhaseMatchesCondition | internal/controller/stream_controller.go:80-110 | In every reachable world a stream's phase is Ready exactly when its StreamCreated condition is true |
| Histories.TenantIdentity | internal/controller/stream_controller.go:50-63 | A ready tenant's ID is the tenant of the row a ready stream's status names exactly when both were written for the same tenant name |
| Tenancy.StreamRowTenant | internal/controller/stream_controller.go:50-69 | Whatever label of a reachable run adds a stream row is the row call of a pass over some spec, also of one that fails or stops after it; the row has that spec's name, description and retention (7 days if left out), and in every later world its tenant is a ready tenant's ID exactly when the spec names the tenant that status was written for |
| Tenancy.StreamRowsAreAdded | internal/controller/stream_controller.go:57-69 | Every stream row of a reachable world that was not there at the start was added so |
| Tenancy.UserRowTenant | internal/controller/user_controller.go:59-73 | The same of the tenant in the key of each user row that a pass adds or overwrites |
| Tenancy.UserRowsAreAdded | internal/controller/user_controller.go:59-73 | Every user row of a reachable world that was not there at the start was added so |
| Tenancy.ClientRowIsSpecs | internal/controller/client_controller.go:66-82 | Whatever label of a reachable run adds a client row is the insert of a pass over some spec; in every later world the row is under the spec's tenant and client ID, bound to the spec's stream exactly if it names one, with the secret the pass carried, the spec's if given |
| Tenancy.ClientRowsAreAdded | internal/controller/client_controller.go:66-82 | Every client row of a reachable world that was not there at the start was added so |
| Tenancy.TenantRowIsAsked | internal/controller/tenant_controller.go:34-41 | A tenant row is added only under a name that a pass asks for: a stream's or user's spec.tenantID, or a tenant's spec.name, or its own name if that is empty |
| Histories.TenantOrigin | internal/controller/tenant_controller.go:34-57 | A ready tenant status goes back to a write that identified its row |
| Histories.VersionIsEditOrWrite | internal/controller/stream_controller.go:80-111 | In every reachable world each version of a resource is an edit of the one before or what a pass may write over it, field by field: phases, reasons and messages of conditions, what is kept |
| Histories.ShownPasswordStays | internal/controller/user_controller.go:53-56 | A password once shown in a status stays, whatever passes and edits follow |
| Histories.ConditionsFollow | internal/controller/init_controller.go:94-153 | From version to version no condition type is lost, and a transition time moves forward only, and only when the status flips |
| Histories.ConditionsAreUnique | internal/controller/init_controller.go:94-153 | In every reachable world each version of a stream, an init or a data plane has each condition type once, and no transition time in the future |
| Histories.TransitionsAdvance | internal/controller/stream_controller.go:84-110 | Over a whole life a transition time never goes back |
| Histories.PlaneConsistent | internal/controller/dataplane_controller.go:37-80 | A reconciled data plane is Ready exactly when both probes held; each probe that did not hold has its warning; reason and message of the condition say which |
| Histories.InitDisagreement | internal/controller/init_controller.go:93-153 | In every reachable world, from one version to the next: phase and Ready stop agreeing exactly when the resource was Initialized and its migrations failed or its pass waits; a failed write leaves them apart exactly if Ready was true, a waiting one exactly if the phase was Initialized, a final one never |
| InitStatus.ReadyShowsDirty | internal/controller/init_controller.go:106-153 | In any run, whatever happens between the version call and the end: a pass that completes commits Initialized and Ready, dirty exactly when the call worked and answered so, or failed and the status it replaces was dirty; the version likewise; the condition prints the answered version, or 0 |
| InitStatus.ReadyWhateverDirty | internal/controller/init_controller.go:106-153 | An undisturbed pass that sees every gateway up commits Initialized and Ready with the answered version and dirtiness, a dirty answer included |
| InitStatus.DirtyReadyReachable | internal/controller/init_controller.go:90-160 | From any fresh start, for any spec with a URL and no gateways, a run leaves the init Initialized, Ready and dirty, and a longer one leaves it Failed and Ready |
| ClientCredentials.GivenSecretAgrees | internal/controller/client_controller.go:41-121 | With a constant non-empty secret in the spec, row and Secret agree in every reachable world |
| ClientCredentials.GeneratedSecretAgrees | internal/controller/client_controller.go:42-121 | With an empty one, as long as passes see an existing Secret: row and Secret agree at every moment of a run, the way to the first Secret write aside, exactly when the pass that inserts the row is not stopped (by an abort, a restart, a lost insert reply or a failed Secret call) before that write |
| ClientCredentials.NextAgrees | internal/controller/client_controller.go:66-121 | From an agreeing world a label that is such a stop breaks the agreement at once, and every other label keeps it |
| ClientPasses.WholePass | internal/controller/client_controller.go:41-126 | A whole pass leaves row and Secret equal exactly when there was no row or its secret was the one the pass settled on |
| ClientPasses.StoppedThenRetried | internal/controller/client_controller.go:78-89 | An insert whose pass stops, then a whole pass: they agree exactly when the same text was generated again |
| ClientPasses.UnreadSecret | internal/controller/client_controller.go:46-62 | An early read that fails otherwise than not-found: the Secret is overwritten, and agrees exactly when the new text is the row's secret |
| SkippedSecrets.ReadDecides | internal/controller/client_controller.go:108-128 | All else working, a pass that finds no Secret creates it exactly if its read worked, and is done in either case |
| SkippedSecrets.RestsWithoutSecret | internal/controller/client_controller.go:108-128 | From any fresh start, for any spec with a secret, with and without a database, a run leaves the client at its goal, idle, delivered and without a Secret |
| ClientCredentials.GeneratedSecretStays | internal/controller/client_controller.go:42-64 | Once the Secret holds a non-empty value and no pass in flight carries another, every later world holds exactly it and no pass generates one, as long as passes see the Secret |
| ClientCredentials.SecretStaysFromStart | internal/controller/client_controller.go:42-64 | From a fresh start nothing else is asked: whatever value the Secret has at some time it has ever after |
| ClientCredentials.OthersKeepCredentials | internal/controller/client_controller.go:94-121 | No pass of another resource touches this client's Secret or row |
| UserPasswords.GivenPasswordAgrees | internal/controller/user_controller.go:40-113 | With a constant non-empty password in the spec and no other user of its name, Secret, status and every password on its way to the database agree in every reachable world |
| UserPasswords.CompletedPassWritesSecret | internal/controller/user_controller.go:69-108 | In any run of edits, stops and other passes, without another user of the name or an outside write of the Secret: a pass that gives a password to the database, goes on and completes leaves that very password in the Secret |
| UserPasswords.CarriedToTheEnd | internal/controller/user_controller.go:58-113 | In such a run, from any point past the choice of a password to the end of the pass: Secret and status are those the pass carried |
| UserPasswords.SecretComesFirst | internal/controller/user_controller.go:76-113 | In every reachable world of such a run a pass about to write its status has its password in the Secret |
| UserPasswords.GeneratedPasswordAgrees | internal/controller/user_controller.go:41-56 | In such a run, a pass that generates a password and completes: Secret and status agree exactly when the status it replaces showed none, or the same text |
| AuthSwitch.SwitchIsCrashSafe | internal/controller/auth_controller.go:34-57 | In any run whose deletions work, when the recorded type leaves basic the recording pass had read previousType "basic" with another type in the spec, and every user it had listed was gone at the moment of the listing or later |
| AuthSwitch.SwitchIsComplete | internal/controller/auth_controller.go:40-57 | The same of every user in the cache at the moment of the listing, whatever happens between the listing and the recording |
| AuthSwitch.OnlyTheLastCallRecords | internal/controller/auth_controller.go:51-57 | The recorded type leaves basic only by the last call of a pass that read the switch, so a pass that stops before leaves it |
| AuthSwitch.DeletesOnlyOnSwitch | internal/controller/auth_controller.go:34-48 | An auth pass removes only users its listing showed, and only after it read previousType "basic" with another type in the spec |
| AuthController.NoSwitchDeletesNobody | internal/controller/auth_controller.go:34-48 | A whole pass over a resource whose recorded type is not basic, or whose spec still asks for basic, leaves every other log as it was |
| AuthController.SwitchDeletesAll | internal/controller/auth_controller.go:34-48 | A whole pass over a switch away from basic, whose listing and deletions work, leaves no user that the cache held |
| AuthController.ListsOnSwitch | internal/controller/auth_controller.go:33-36 | The first call decides: the users are listed exactly on a switch away from basic |
| AuthController.FailedListing | internal/controller/auth_controller.go:41-42 | A listing that fails deletes nobody and the pass goes on to record the type |
| AuthController.Records | internal/controller/auth_controller.go:51-57 | The last call writes previousType and phase Active, and no other field |
| AuthSwitch.ListingIsComplete | internal/controller/auth_controller.go:40-42 | A listing that works shows every user the cache holds |
| Gateways.ReadyGatewaysAreUp | internal/controller/init_controller.go:115-160 | If availability is never lost, all gateways of the spec that a Ready status verified are available together in every later world |
| Gateways.ReadyOrigin | internal/controller/init_controller.go:90-91 | Ready is true only since a write whose pass ran the migrations of its spec's URL and saw every gateway available |
| Gateways.NoGatewaysNoWait | internal/controller/init_controller.go:163-166 | In every reachable world an init that has no gateways and is Ready is Ready in its next version too |
| Serial.InterleavedIsSerial | internal/controller/client_controller.go:94-121 | Client and user passes with distinct rows, interleaved at any call, with edits and removals of these resources, time and deployments, leave exactly the world they leave one resource after another, in any order |
| Serial.Commute | internal/controller/user_controller.go:76-108 | Two labels of different resources, or one of no resource, lead to the same world in either order |
| Serial.ClientLocal | internal/controller/client_controller.go:35-128 | What a client's call does and returns depends only on its own log, Secret and row |
| Serial.UserLocal | internal/controller/user_controller.go:35-116 | The same for a user's call |
| Resources.SecretNamesApart | internal/controller/user_controller.go:76-79 | No client and no user ever share a Secret |
| Resources.SecretNamesInjective | internal/controller/client_controller.go:95-97 | No two clients share a Secret |
| CreateOrGet.Refines | internal/infra/infra.go:155-169 | Every interleaving of inserts and reads of any callers ends where a sequence of atomic create-or-gets ends, with the same rows and answers |
| CreateOrGet.EnsureClientIsAtomic | internal/infra/infra.go:155-169 | Rows never change, a new row has the secret of the first call that took effect, IDs stay distinct, every successful call returned the stored row |
| CreateOrGet.FirstWriterWins | internal/infra/infra.go:156-168 | A key gets a row exactly when a call for it takes effect, with the first one's secret |
| CreateOrGet.PassCallsEnsureClient | internal/controller/client_controller.go:78-91 | The database calls of a client pass are such calls |
| ConnectionString.RoundTrip | internal/controller/init_controller.go:79-87 | Reading the printed URL gives its fields back exactly when they hold no delimiter and the port is not negative |
| ConnectionString.PrintInjective | internal/controller/init_controller.go:79-87 | Equal strings come from equal fields, if these are clean |
| ConnectionString.NatRoundTrip | internal/controller/init_controller.go:84 | The decimal port reads back |
| ConnectionString.IntReadsBack | internal/controller/init_controller.go:84 | Any port reads back, after a minus sign exactly if it is negative |
| ConnectionString.PasswordWithAt | internal/controller/init_controller.go:71-81 | A password with an `@` does not read back |
| DeepCopy.CopyList | api/v1/zz_generated.deepcopy.go:71-82 | The copy of any list has the same content, reaches only new arrays and cells, its items share nothing with each other or the source, whatever the source's items share; the source is unchanged |
| DeepCopy.Copy | api/v1/zz_generated.deepcopy.go:44-50 | The copy of a resource has the same content, nil apart from empty, and reaches only new arrays and cells |
| DeepCopy.CopySpec | api/v1/zz_generated.deepcopy.go:103-110 | A spec's slice and pointer are unshared down to the slice behind the pointer |
| DeepCopy.CopyStatus | api/v1/zz_generated.deepcopy.go:317-331 | A status's slices and its pointer are unshared |
| DeepCopy.OIDCConfig.DeepCopyInto | api/v1/zz_generated.deepcopy.go:762-769 | Into any other location it copies; into the receiver itself it leaves empty strings, or all as it was if there were no scopes |
| DeepCopy.ApartAt | api/v1/zz_generated.deepcopy.go:268-279 | Any two items of a copied list reach nothing in common |
| DeepCopy.WritesSpareTheOther | api/v1/zz_generated.deepcopy.go:29-779 | When two lists reach nothing in common, as `CopyList` ensures of a copy and its source: writes to what one of them reaches leave the reach and the content of the other as they were |
| DeepCopy.CopySlice | api/v1/zz_generated.deepcopy.go:742-749 | Allocate and fill: a new array with the same content, nil for nil |
| Invariant.NextInv | internal/controller/stream_controller.go:32-98 | Every label keeps the invariant: each resource's history is a chain of edits and sound status writes, each pass in flight still holds what it has established |
| Invariant.CallWrites | internal/controller/auth_controller.go:26-61 | A call adds at most one version: the removal of a user, or a version of its own resource with the spec unchanged |
| Invariant.Reachable | internal/controller/user_controller.go:32-117 | The invariant holds in every reachable world |
| Machine.GoneIsDone | internal/controller/init_controller.go:36-39 | A pass that does not find its resource is done, whatever its kind |
| StreamController.StepPass | internal/controller/stream_controller.go:32-98 | Each call of a stream pass establishes what its next point relies on: the tenant's ID, the row, the topic, and a status sound for the spec read |
| StreamController.ReportsItsCall | internal/controller/stream_controller.go:43-78 | A reported failure names the call that failed with its error, keeps row and topic, and waits 30, or 5 for a database; the topic call fails exactly when the broker does not answer |
| StreamController.FaultDecides | internal/controller/stream_controller.go:35-111 | A failed read or ready write is an error, a failed step is reported, a failed report is dropped |
| TenantController.StepPass | internal/controller/tenant_controller.go:26-60 | The same for a tenant pass; one that ends without a write found the status right |
| TenantController.FaultDecides | internal/controller/tenant_controller.go:29-57 | Any failed call is an error |
| TenantController.WritesOnChange | internal/controller/tenant_controller.go:49-57 | The status is written only if its ID or phase would change, with the ID of the name, phase Ready, and nothing else changed |
| UserController.SecretHoldsPassword | internal/controller/user_controller.go:92-108 | A pass reaches its status write only with its password in the Secret |
| InitController.StepPass | internal/controller/init_controller.go:34-161 | The same for an init pass: URL of its spec, migrations, gateways seen so far |
| InitController.FirstPlaneDecides | internal/controller/init_controller.go:46-55 | The first listed data plane decides: its URL without a password, or its password reference; without one the pass fails |
| InitController.SecretDecides | internal/controller/init_controller.go:63-76 | The password is that of the referenced Secret in the resource's namespace, and the URL is printed with it; otherwise the pass fails |
| InitController.UrlReadsBack | internal/controller/init_controller.go:79-87 | The URL of a data plane's database reads back as its own scheme, user, host, port, database and mode exactly when these hold no delimiter |
| InitController.MigrationDecides | internal/controller/init_controller.go:91-104 | A failed migration shows phase Failed and the error in MigrationsComplete, version and dirtiness kept |
| InitController.GatewayDecides | internal/controller/init_controller.go:168-182 | A gateway that is up leads on; a missing one or one without replicas to waiting, with nothing else changed; another failed read to an error |
| InitController.Endings | internal/controller/init_controller.go:100-160 | A reported failure is an error, a waiting pass looks again after ten seconds, a failed write is an error |
| InitController.FaultDecides | internal/controller/init_controller.go:37-160 | A failed call is an error; but a failed migration is reported first, and a failed version call is passed over |
| DataPlaneController.StepPass | internal/controller/dataplane_controller.go:29-84 | What a data plane pass writes is consistent with its probes |
| DataPlaneController.ProbesShow | internal/controller/dataplane_controller.go:40-57 | The status shows what each probe answered |
| DataPlaneController.FaultDecides | internal/controller/dataplane_controller.go:33-79 | Any failed call is an error |
| StreamController.Step | internal/controller/stream_controller.go:32-111 | One call of a stream pass only adds to its own log, tenants, stream rows and topics, keeps the version it read, and brings the pass closer to its end |
| TenantController.Step | internal/controller/tenant_controller.go:26-60 | The same for a tenant pass: its own log and tenants |
| UserController.Step | internal/controller/user_controller.go:32-117 | The same for a user pass: its own log, tenants, user rows and Secrets |
| ClientController.Step | internal/controller/client_controller.go:32-129 | The same for a client pass: its own log, client rows and Secrets |
| AuthController.Step | internal/controller/auth_controller.go:26-61 | The same for an auth pass: logs only |
| InitController.Step | internal/controller/init_controller.go:34-161 | The same for an init pass: its own log and migrations |
| DataPlaneController.Step | internal/controller/dataplane_controller.go:29-84 | The same for a data plane pass: its own log |
| UserController.StepSecrets | internal/controller/user_controller.go:76-108 | The only Secret a user pass writes is "frkr-user-" and its spec's username in its own namespace, with that username and the password it carries |
| UserController.StepRows | internal/controller/user_controller.go:65-73 | The only row a user pass writes is that of its spec's username in the tenant it was given, with the password it carries |
| StreamController.StepRows | internal/controller/stream_controller.go:57-69 | The only row a stream pass adds is for the tenant it was given, with name, description and retention of its spec, 7 days if left out |
| ClientController.StepSecrets | internal/controller/client_controller.go:94-121 | The only Secret a client pass writes is "frkr-client-" and its name in its own namespace, with its spec's client ID and the secret it carries |
| ClientController.StepRows | internal/controller/client_controller.go:78 | The only row a client pass inserts is under its spec's tenant and client ID, with the secret it carries and the spec's stream, if it names one |
| UserController.StepPass | internal/controller/user_controller.go:32-117 | Each call of a user pass keeps the password it settled on, never empty, the spec's if given, the one first shown in the status; past the database the row is there, and past the Secret some version of it gave that password |
| UserController.FaultDecides | internal/controller/user_controller.go:35-113 | Any failed call is an error |
| UserController.SecretDecides | internal/controller/user_controller.go:91-108 | A Secret that is there is updated over the version read, one that is not is created, one that cannot be read is an error |
| ClientController.StepPass | internal/controller/client_controller.go:32-129 | Each call of a client pass keeps its secret, and past the database the ID of the stored row |
| ClientController.SettlesOn | internal/controller/client_controller.go:41-64 | The spec's secret; with none what the Secret holds, if it can be read and holds any; or else a generated text, and only then the status says so |
| ClientController.FaultDecides | internal/controller/client_controller.go:35-126 | A failed call is an error; but an unreadable Secret is first taken for one without a value and then skipped |
| AuthController.StepPass | internal/controller/auth_controller.go:26-61 | Past its listing an auth pass holds only users that existed, and only if it read the switch |
| AuthController.FaultDecides | internal/controller/auth_controller.go:29-57 | A failed read or status write is an error; a failed listing or deletion is passed over |
| Conditions.SetIsSound | internal/controller/stream_controller.go:84-90 | Setting a condition keeps types unique, shows the asked status, leaves other types alone, moves a transition time only on a flip and never back |
| Conditions.SetTwice | internal/controller/stream_controller.go:100-110 | Setting the same condition again changes nothing, at whatever time |
| Conditions.SetShows | internal/controller/stream_controller.go:84-90 | A condition that was set shows with its status, reason and message, and what other types show stays |
| Conditions.SetIsIdle | internal/controller/stream_controller.go:100-110 | Setting a condition changes nothing exactly if its status, reason and message showed before |
| Conditions.SetStatusCondition | internal/controller/init_controller.go:148-153 | The loop over the conditions: the first entry of the type takes status, reason and message of the new one, and its time only if the status flips; other entries stay where they are; without one the new condition is appended |
| Cluster.Cluster.EnsureTenant | internal/infra/infra.go:66-72 | Create or get by name; the whole new state |
| Cluster.Cluster.CreateStream | internal/infra/infra.go:75-81 | A new or an existing row for this tenant and name, or failure |
| Cluster.Cluster.EnsureUser | internal/infra/infra.go:149-152 | Any of the outcomes `CreateUser` may have |
| Cluster.Cluster.EnsureClient | internal/infra/infra.go:155-169 | Insert, then read: one atomic create-or-get |
| Cluster.Cluster.CreateTopic | internal/infra/infra.go:108-145 | The topic exists on success, an existing one is fine |
| Cluster.Cluster.Get | internal/controller/stream_controller.go:35-38 | A cached read: not found, another error, or the version the cache holds |
| Cluster.Cluster.UpdateStatus | internal/controller/stream_controller.go:92-94 | Commits only over the version that was read; a write that changes nothing adds no version |
| Cluster.Cluster.CreateSecret | internal/controller/client_controller.go:113-115 | Fails if the Secret exists |
| Cluster.Cluster.UpdateSecret | internal/controller/client_controller.go:117-120 | Commits only over the version that was read |
| Cluster.Cluster.Delete | internal/controller/auth_controller.go:43-45 | Removes the resource if it exists |
| Cluster.Cluster.List | internal/controller/auth_controller.go:40-41 | All resources of the kind that the cache holds, once each, in any order, or an error |
| Cluster.Cluster.Migrate | internal/controller/init_controller.go:91 | The URL's database is migrated on success |
| Reconcilers.StreamReconciler.Reconcile | internal/controller/stream_controller.go:32-98 | The whole pass: stores and result are those of the stream controller's steps |
| Reconcilers.StreamReconciler.Provision | internal/controller/stream_controller.go:49-69 | Tenant and row, in this order, each failure reported and requeued |
| Reconcilers.StreamReconciler.Publish | internal/controller/stream_controller.go:71-97 | The topic if there is a broker, then the ready status |
| Reconcilers.StreamReconciler.Report | internal/controller/stream_controller.go:100-111 | `updateStatus`: the failure is written, the error of the write dropped |
| Reconcilers.TenantReconciler.Reconcile | internal/controller/tenant_controller.go:26-60 | The whole tenant pass |
| Reconcilers.UserReconciler.Reconcile | internal/controller/user_controller.go:32-117 | The whole user pass |
| Reconcilers.UserReconciler.Apply | internal/controller/user_controller.go:91-113 | The Secret is created or updated, then the status written; a Secret that cannot be read fails the pass |
| Reconcilers.ClientReconciler.Reconcile | internal/controller/client_controller.go:32-129 | The whole client pass |
| Reconcilers.ClientReconciler.Persist | internal/controller/client_controller.go:66-92 | Row and ID, if there is a database |
| Reconcilers.ClientReconciler.Apply | internal/controller/client_controller.go:108-128 | The Secret is created or updated, or skipped if it cannot be read, then the status written |
| Reconcilers.AuthConfigReconciler.Reconcile | internal/controller/auth_controller.go:26-61 | The whole auth pass |
| Reconcilers.AuthConfigReconciler.DeleteUsers | internal/controller/auth_controller.go:40-47 | The loop deletes every listed user in turn and skips failures |
| Reconcilers.InitReconciler.Reconcile | internal/controller/init_controller.go:34-161 | The whole init pass |
| Reconcilers.InitReconciler.DatabaseURL | internal/controller/init_controller.go:43-88 | The URL of the first data plane, field by field, with the password of its Secret, or an error |
| Reconcilers.InitReconciler.CheckGateways | internal/controller/init_controller.go:163-183 | All up exactly when every gateway is seen up; otherwise stops at the first that is not, with an error only if its read failed otherwise than not-found |
| Reconcilers.InitReconciler.Check | internal/controller/init_controller.go:106-160 | Version, gateways, and the waiting or the final status |
| Reconcilers.InitReconciler.Fail | internal/controller/init_controller.go:91-104 | The failed status is written and the error returned |
| Reconcilers.PolledSoFar | internal/controller/init_controller.go:168-182 | While gateways are up the loop only moves on |
| Reconcilers.DataPlaneReconciler.Reconcile | internal/controller/dataplane_controller.go:29-84 | The whole data plane pass |
| WholePasses.StreamRunIsCalls | internal/controller/stream_controller.go:32-98 | A whole stream pass is a run of the machine made of its calls alone |
| WholePasses.ClientRunIsCalls | internal/controller/client_controller.go:32-129 | The same for a client pass |
| WholePasses.UserRunIsCalls | internal/controller/user_controller.go:32-117 | The same for a user pass |
| WholePasses.TenantRunIsCalls | internal/controller/tenant_controller.go:26-60 | The same for a tenant pass |
| WholePasses.AuthRunIsCalls | internal/controller/auth_controller.go:26-61 | The same for an auth pass |
| WholePasses.InitRunIsCalls | internal/controller/init_controller.go:34-161 | The same for an init pass |
| WholePasses.DataPlaneRunIsCalls | internal/controller/dataplane_controller.go:29-84 | The same for a data plane pass |

## Left out

- `cmd/frkrctl` and `cmd/operator`: command line, printing, polling, wiring, flags, environment variables and connection set-up; a password reset or a deletion is an edit or a removal by a user.
- Network and SQL: Kafka dialling, connection pools and the text of error messages, which become the outcomes of a call.
- frkr-common: migrations, hashing, topic naming, stream name and retention validation; only the contracts under Assumptions.
- `GetStream`, `GenerateTopicName`, `NewKafkaAdmin`: no reconciler calls them.
- Owner references, garbage collection, RBAC markers and logging; setting an owner reference never fails in the model.
- Durations: the delays returned by a pass are kept as numbers, but a retry may come at any time.
- Fields that no reconciler reads or writes: the OIDC configuration, LastPasswordReset, Plan and MigrationsPath have no part in the machine; the first two do in `DeepCopy`.
- A resource that is removed and created again gets a new version of the same log, and its UID is not modelled, so an update of a removed resource fails for its version and not for its UID.
- Inits, data planes and auth configurations are not shown to converge: probes and gateways answer from outside, and an auth configuration writes the same status again.
- DeepCopy.CopyList: a slice is modelled as a whole array or nil, so two slices that overlap in part are not distinguished from two that share it all; type and object metadata are values, and the copy of metav1.Time is a new cell with the same instant.
- DeepCopy.Copy: the structs of the seven kinds are written once, with nil where a kind lacks the field; `DeepCopyObject` and the nil receiver of `DeepCopy` add nothing to it.
- UserPasswords.GivenPasswordAgrees: speaks of the passwords sent to the database, not of the row, which users of other namespaces with the same tenant and username may overwrite.
- Histories.StreamSafety: the topic and rows are those of the spec the status was written from; a later edit of the spec is visible only after the next pass.
- Serial.InterleavedIsSerial: the IDs that the database gives are fixed by name and key; restarts, outside writes of Secrets and labels of resources outside the plan are not among the labels.
