# aivenator, modelled and proved in Dafny

aivenator is a Kubernetes operator for credentials to Aiven services. Three loops share two stores:

- the **application reconciler** provisions Aiven users for an AivenApplication and writes one Secret
  for each service that the application asks for;
- the **janitor** asks for the deletion of Secrets that nobody uses any more;
- the **finalizer** takes the Aiven users of a deleted Secret back before it lets the Secret go.

The stores are the cluster (applications, versioned Secrets with finalizers, workloads) and Aiven (users,
access lists, services). What couples the loops is indirect: versions, the finalizer, labels, a hash in
the status, and annotations that one loop writes and another reads.

`dafny verify dfyconfig.toml` checks everything.

## How the project is laid out

| file | what it holds |
|---|---|
| `Wrappers`, `Text`, `Common`, `Resources` | options and Go errors, strings, time and name suffixes, the Kubernetes objects |
| `Failures` | error chains, status conditions, the requeue decision |
| `Aiven`, `Cluster` | the two stores; each call is atomic and may fail without effect |
| `ServiceUsers`, `ServiceUserRuns`, `Services` | the two caches, and runs of them against a server that others change |
| `Annotations`, `Secrets` | the annotations as a code that is written and read back, the metadata of a generated Secret |
| `Provisioning`, `Kafka`, `OpenSearch`, `Valkey`, `Credentials` | the handlers and the manager that runs them in order |
| `Protocol`, `FinalizerQueue`, `Finalizer` | Secrets under concurrent writers, as a state machine, what gets into the finalizer's queue, and the finalizer as one of its actors |
| `LiveSecrets`, `LiveSecretRuns` | which finalizer passes can harm Secrets that nobody is deleting, and runs in which they do |
| `Cleaner` | which Secrets go, and the passes that find them |
| `Reconciler`, `Synchronization` | one reconciliation, and what reconciliations add up to |
| `SharedNames`, `LostUsers` | whom stored Secrets name after a run, and runs after which a user is named by none |
| `Protection`, `SteadyState` | results that span the loops |

Code that changes things in place is a class or a method with a loop, proved against a predicate or a
function (`GetEffect`, `Effect`, `Exactly`, `Produced`, ...); the main results are lemmas about those. A
parameter `now` is a reading of the clock; the methods of the server classes decide by themselves when to fail,
unless the server is `reliable`. What is said about reliable servers is about runs without faults: there a
contract also says that the operation succeeds, or what it fails on. Predicates such as `IsSecret`, `RightsAre`,
`RefersTo` and `IsOwn` restate results field by field, with the keys and values of the source.

## Main results

- **Version-exact clean-up** (`Protocol.VersionExactCleanup`). In every interleaving of saves, deletions, edits
  and finalizer passes, whose reads come from a cache of any age, a Secret loses the finalizer only to a
  pass that read exactly the stored version, and every Kafka and OpenSearch user that this version names
  was absent at a moment since that pass began. `Finalizer.SecretsFinalizer.Reconcile` is such a pass, with
  everybody else at work between its calls.
- **Only Secrets that are being deleted reach the finalizer** (`FinalizerQueue.QueuedWasAnnounced`,
  `FinalizerQueue.NeverDeletedIsLeftAlone`): in every run from an empty queue, each key that is queued or worked on
  goes back to an event for a Secret that was terminating and carried the finalizer when the event was made.
- **Which passes spare live Secrets** (`LiveSecrets.PassSparesLiveSecrets`), as an exact condition on the state
  in which a pass begins, over everything that the others can do short of giving another Secret a user of the
  copy that is read; with that they can always do harm (`LiveSecrets.OthersCanAlwaysShare`).
- **No thrashing** (`SteadyState.SteadyState`). Once an application is synchronized, no sequence of cleaning
  passes, further runs and finalizer passes over Secrets that are being deleted touches its Secrets or writes to
  Aiven.
- **Convergence, and its exact condition** (`Synchronization.Convergence`).
- **Cache coherence** (`ServiceUserRuns.GetAgreesWithServer`) and, for both caches, **bounded staleness** and its
  other side (`ServiceUserRuns.ServedForFiveMinutes`, `Services.ServedForFiveMinutes`).
- **Runs without faults come off** (`Reconciler.AivenApplicationReconciler.Reconcile`,
  `Finalizer.SecretsFinalizer.Reconcile`, `Cleaner.Cleaner.Pass`): what can be served is synchronized, what is being
  deleted is cleaned up, and what cannot be served shows as the condition, operation and delay of its fault
  (`Credentials.Manager.CreateSecret`).
- **Round trip** (`Credentials.AllAreProducts`): the clean-up of any generated Secret is after exactly the user
  that was provisioned for it.
- **The cleaner is its declarative deletion set** (`Cleaner.Cleaner.Pass`), and **protection holds end to end**
  (`Protection.GoesWithNextPass`, `Protection.ProtectedOutlivesPasses`).
- **Whom stored Secrets name** after any run, however it ends (`SharedNames.WhoIsNamed`), and who is lost by it
  (`SharedNames.WhoIsLost`).
- **Write discipline** and the **status invariant** over all histories (`Synchronization`).

## What the code does not keep

Each of these is proved with its exact condition; where it takes an input or a run to show it, a lemma has one.

- **Finalizer passes can harm live Secrets.** A pass never looks whether the Secret that it reads is being
  deleted, reads from a cache, and deletes whom the copy names even if other Secrets name the same user. Three
  runs show what comes of it. An event that arrives while an earlier pass is at work, say from the periodic
  resynchronization of the cache (cmd/aivenator/main.go:77 and 154-158), lets the next pass read a Secret that
  was created anew, and take its user and its finalizer (`LiveSecretRuns.LiveSecretIsFinalized`). A read of an
  old copy that is marked for deletion takes the user of the live Secret just as well
  (`LiveSecretRuns.StaleReadTakesLiveUser`). And a pass that begins as it should, on an up-to-date copy of a
  Secret that is being deleted, takes the user that a second Secret of the same application names
  (`LostUsers.SharedUserIsTaken`). The exact condition (`LiveSecrets.PassSparesLiveSecrets`): a pass over a
  Secret that names a user takes nothing from any Secret that is live at the time, as long as nobody gives a
  user of the copy to a live Secret under another key meanwhile, if and only if, as the pass begins, the stored
  Secret is being deleted and carries the finalizer and no live Secret under another key names a user of the
  copy. At any point of a pass, whom it can take next is who is named by its copy and by some live Secret
  (`LiveSecrets.SharedUsersAreAtStake`). Two stored Valkey Secrets of one run share their user if and only if
  the last requests of their names share the instance and the suffix of the access
  (`SharedNames.SecretsShareUsers`).
- **Saves can come too late.** A user that was found to exist can be taken by such a pass before its Secret is
  saved, and the save then creates a live Secret for a user who does not exist
  (`LiveSecretRuns.SavedForMissingUser`). If the users of all live Secrets exist, one of them comes to be
  missing exactly when a pass takes a user of a live Secret, a write puts a Secret in place for a missing user,
  or the user goes without the operator (`LiveSecrets.WaysToLoseAUser`).
- **A Secret that is asked for and never made.** A Kafka Secret without a pool is checked but not produced. As
  long as nothing else makes it, no run for the application, however it ends, finds it up to date or leaves it
  without need of the next run (`Synchronization.NeverDone`), although runs can succeed
  (`Synchronization.NeverMadeSucceeds`). `Synchronization.Convergence` has the exact condition.
- **Users are lost when their Secrets are written over.** After a success some stored Secret names a user if and
  only if the last request of some name is for that user, or a Secret that the run does not write named it
  before (`SharedNames.WhoIsNamedAfterSuccess`, and `SharedNames.WhoIsNamed` for runs that fail). A user named
  before is lost exactly when all Secrets that named it are written by the run and no last request is for it
  (`SharedNames.WhoIsLost`). The ordinary case is a new generation, with another suffix, whose Secret replaces
  the one that named the user of the old (`LostUsers.EarlierGenerationIsLost`). The other is two requests with
  one Secret name (`LostUsers.SharedNameLosesUser`): read off the spec, a Valkey user of the run is named if and
  only if some last Valkey request of a name has the same instance and suffix of the access
  (`SharedNames.ValkeyUserIsNamed`), a Kafka or OpenSearch user if and only if its request is the last of its
  name (`SharedNames.OtherUserIsNamed`, `SharedNames.OthersAreLast`), in both cases also if a Secret that is not
  written names it; the pool must not be the main project, nor the OpenSearch service a legacy one. With
  distinct names every user of the run is named (`SharedNames.DistinctNamesKeepTheirUsers`).
- **Success over a Secret that is being deleted.** A run saves over it and reports success, and the deletion
  goes on (`SteadyState.SuccessOverDeletion`); an application whose Secrets are all made by its runs is settled
  by a success if and only if none of them was being deleted or worked on by a finalizer pass
  (`SteadyState.SuccessSettles`).
- **Kafka's compensation.** When credential stores cannot be made, the user is deleted (`Kafka.Handler.Apply`).
  The Secret that an earlier run of the same generation stored for it loses its user to that if and only if the
  user was there (`LostUsers.CompensationTakesStoredUser`, `Credentials.TakenBackIsNamed`).
- **Valkey's clean-up swallows failures.** It succeeds whatever becomes of its deletions. A user that it names
  and that was there remains if and only if every deletion of it was refused, with an error other than 404
  (`Valkey.Handler.Cleanup`).

## Model

| member | source | states |
|---|---|---|
| Failures.AivenFail | pkg/utils/error_handling.go:22-39 | A failed Aiven call records the operation under AivenFailure, drops Succeeded, leaves the other conditions, and is reported with its cause classified. |
| Failures.LocalFail | pkg/utils/error_handling.go:81-90 | A local failure records the operation under LocalFailure, drops Succeeded and leaves the other conditions. |
| Failures.AsAivenIsFirst | pkg/utils/error_handling.go:42-43 | The Aiven error that is found is the first one of the chain; none is found only if there is none. |
| Failures.UnwrapIsIdempotent | pkg/utils/error_handling.go:41-79 | Unwrapping an unwrapped error changes nothing, whatever the flags. |
| Failures.RequeueDecision | controllers/aiven_application/reconciler.go:93-116 | After AivenFail the delay (100 s, 10 s, none) depends only on the first Aiven status and the flag, or without one on the sentinels in the chain, NotFound before Unrecoverable. |
| Common.SuffixReadsBack | pkg/utils/common.go:49-59 | The three characters of a suffix are in the URL-safe alphabet of section 5 of RFC 4648, and read back they give the top 18 bits of the CRC-32 value. |
| Common.SuffixesEqualIffTopBitsEqual | pkg/utils/common.go:56-58 | Two suffixes are equal iff the top 18 bits of the two CRC-32 values are. |
| Common.SuffixesOfApplications | pkg/utils/common.go:49-59 | Two applications have one suffix iff the top 18 bits agree for their generation and name, written one after the other. |
| Text.AtoiItoa | pkg/utils/secret.go:65-77 | A generation that is rendered into a label is read back. |
| Secrets.UpdateObjectMeta | pkg/utils/secret.go:64-94 | The five labels and two to four annotations under their literal keys, merged over those of the Secret; generation 0 for a label that is no number. |
| Secrets.ApplyIndividualSecret | pkg/utils/secret.go:37-62 | Success only for a name of up to 63 lower-case letters, digits and inner dashes, with exactly the metadata added; an invalid name is unrecoverable. Without faults every such name succeeds. |
| Secrets.LabelsMeanThis | pkg/utils/secret.go:73-80 | Each label with its key and value written out; all others stay. |
| Secrets.AnnotationsMeanThis | pkg/utils/secret.go:83-94 | Each annotation with its key and value written out, the time limit only for a protected application that expires; all others stay. |
| Secrets.IndividualSecretHasBaseKeys | pkg/utils/secret.go:83-94 | A fresh Secret has no annotations but the four that every generated Secret may have. |
| ServiceUsers.Manager.Get | pkg/aiven/serviceuser/serviceuser.go:103-139 | A live entry is served; otherwise the answer is the lookup on the server, 404 included, and all users of the service are cached for five minutes, or nothing changes. Without faults the only error is the 404 of an absent user. |
| ServiceUsers.Manager.ObserveServiceUsersCount | pkg/aiven/serviceuser/serviceuser.go:71-86 | The listing is cached as a whole, for five minutes, or it failed and nothing changed. |
| ServiceUsers.Manager.Store | pkg/aiven/serviceuser/serviceuser.go:88-101 | The loop over the listing leaves the cache with every user of the service, in whatever order they were listed. |
| ServiceUsers.StoredListing | pkg/aiven/serviceuser/serviceuser.go:88-101 | Storing a listing one by one equals storing the service's users at once. |
| ServiceUsers.Manager.Create | pkg/aiven/serviceuser/serviceuser.go:154-177 | The user is new on the server; a failing re-listing does not fail the call; a coherent cache stays coherent, and without faults all users of the service are cached. |
| ServiceUsers.Manager.Update | pkg/aiven/serviceuser/serviceuser.go:179-202 | Server and cache hold the new access control, or nothing changed. |
| ServiceUsers.Manager.Delete | pkg/aiven/serviceuser/serviceuser.go:141-152 | On success or 404 the user is gone; on success its entry is too, even when the re-listing fails. |
| ServiceUserRuns.StepKeepsCoherence | pkg/aiven/serviceuser/serviceuser.go:88-202 | Every call keeps the cache equal to the server; an outside write does iff it spares the cached users. |
| ServiceUserRuns.RunKeepsCoherence | pkg/aiven/serviceuser/serviceuser.go:88-202 | Coherence over every sequence of calls, clock ticks and sparing outside writes. |
| ServiceUserRuns.GetAgreesWithServer | pkg/aiven/serviceuser/serviceuser.go:103-139 | In such a run Get answers as a fresh lookup on the server, unless it missed and the listing failed. |
| ServiceUserRuns.EntriesWereSeen | pkg/aiven/serviceuser/serviceuser.go:98-126 | Every entry was the server's user at some moment and expires 300 seconds after it, whoever else writes. |
| ServiceUserRuns.BoundedStaleness | pkg/aiven/serviceuser/serviceuser.go:103-139 | Every user that Get serves was on the server at most 300 seconds earlier, whatever outside writers do. |
| ServiceUserRuns.ServedForFiveMinutes | pkg/aiven/serviceuser/serviceuser.go:103-139 | The other side: what a listing cached is served without another one at any time up to 300 seconds later, unless it is deleted or listed again. |
| Services.FindComponent | pkg/aiven/service/service.go:164-171 | The first component of the kind and usage, and none iff there is none. |
| Services.ServiceAddress | pkg/aiven/service/service.go:144-162 | An address has an empty URI iff the service has no such component. |
| Services.Manager.Get | pkg/aiven/service/service.go:117-142 | A fetch replaces the cached addresses by those of the fetched service. |
| Services.Manager.FromCache | pkg/aiven/service/service.go:102-115 | Served iff the entry has not expired. |
| Services.Manager.GetServiceAddresses | pkg/aiven/service/service.go:86-92 | A success reflects the fetch that was just made, not an older entry. |
| Services.Manager.GetServiceAddressesFromCache | pkg/aiven/service/service.go:94-100 | A live entry is served without a fetch; otherwise as GetServiceAddresses. |
| Services.EntriesWereFetched | pkg/aiven/service/service.go:117-142 | Every cached address set was fetched from the server at some state of the run. |
| Services.BoundedStaleness | pkg/aiven/service/service.go:86-142 | Every address set that is served was the server's at most 300 seconds earlier. |
| Services.ServedForFiveMinutes | pkg/aiven/service/service.go:86-142 | What a fetch cached is served without another one at any time up to 300 seconds later, until the next fetch. |
| Services.AddressesAre | pkg/aiven/service/service.go:117-162 | Each of the six addresses is that of the first component of its name and usage, with its scheme, and all expire after 300 seconds. |
| Services.UriTells | pkg/aiven/service/service.go:144-162 | The OpenSearch and the Valkey address have a URI iff the service has a primary component of that name. |
| Text.JoinSplit | pkg/services/valkey/valkey.go:265 | The split on which Cleanup relies loses nothing: joining its parts gives the key back. |
| Annotations.ServiceUserKeyIsRecovered | pkg/services/valkey/valkey.go:265-268 | Splitting the service-name key at its dots gives back the instance part of both keys, for any instance string. |
| Annotations.KafkaWrites | pkg/services/kafka/kafka.go:128-131 | Both keys and values written out; everything else stays. |
| Annotations.OpenSearchWrites | pkg/services/opensearch/opensearch.go:112-116 | The three keys and values written out; everything else stays. |
| Annotations.ValkeyWrites | pkg/services/valkey/valkey.go:125-132 | The three keys and values written out, with a dash for every character of the instance that is no lower-case letter or digit; everything else stays. |
| Annotations.TargetsAre | pkg/services/valkey/valkey.go:261-293 | Whom each Cleanup reads out of annotations, over their literal keys, and which annotations have no marker. |
| Annotations.KafkaRoundTrip | pkg/services/kafka/kafka.go:128-131 | What Apply annotates, Kafka's Cleanup reads back as the same (project, service, user); the other handlers see nothing. |
| Annotations.OpenSearchRoundTrip | pkg/services/opensearch/opensearch.go:112-116 | The same for OpenSearch. |
| Annotations.ValkeyRoundTrip | pkg/services/valkey/valkey.go:125-132 | The same for Valkey and any instance string: one complete pair, one user, nothing for the others. |
| Annotations.ValkeyKeepsBase | pkg/services/valkey/valkey.go:128-132 | No instance string makes a key that overwrites protection or expiry. |
| Annotations.KafkaKeepsBase | pkg/services/kafka/kafka.go:128-131 | Kafka's annotations leave protection and expiry as they are. |
| Annotations.OpenSearchKeepsBase | pkg/services/opensearch/opensearch.go:112-116 | OpenSearch's annotations leave protection and expiry as they are. |
| Provisioning.GetOrCreate | pkg/services/kafka/kafka.go:197-209 | An existing user is taken as it is and a missing one created without access control; nothing else changes, and on failure nothing at all. Without faults this succeeds. |
| Kafka.Handler.ResolveServiceName | pkg/services/kafka/kafka.go:83-86 | Success only with the service that the pool stands for. |
| Kafka.Handler.ProvideServiceUser | pkg/services/kafka/kafka.go:166-210 | The user that the annotation or the naming scheme names is on the server after a success. |
| Kafka.Handler.LocateService | pkg/services/kafka/kafka.go:83-108 | Success only for a pool that is allowed here; without faults a failure is that of the pool, with its condition, operation and delay. |
| Kafka.Handler.Apply | pkg/services/kafka/kafka.go:71-164 | No pool, no Secret; a returned Secret is for an allowed pool, names the user of the naming scheme on the pool's service, and that user exists; a credential-store failure is reported as such only once the user was taken back, even one that was there before; nobody else is touched, whatever fails. Without faults it fails only on what keeps the request from being served, and shows it. |
| Kafka.SecretForIs | pkg/services/kafka/kafka.go:110-163 | The Secret over its fields: name, labels, annotations and finalizer, each written out. |
| Kafka.FaultsAreNeeds | pkg/services/kafka/kafka.go:83-118 | A request can be served iff there is none of the five faults. |
| Kafka.Handler.StoreCredentials | pkg/services/kafka/kafka.go:134-142 | Without credential stores the named user is taken back, and their error is reported only if it is gone. |
| Credentials.TakenBackIsNamed | pkg/services/kafka/kafka.go:134-142 | After that a Secret that was stored for the user names a user that was there and is gone, iff the user was there before. |
| LostUsers.CompensationTakesStoredUser | pkg/services/kafka/kafka.go:134-142 | The Kafka Secret that a successful run stored loses its user to the compensation of a later run iff the user was there. |
| Kafka.Handler.Cleanup | pkg/services/kafka/kafka.go:212-246 | Success means that the user named by the annotations was deleted or reported absent; incomplete annotations fail; nobody else is touched. Without faults nothing else fails. |
| OpenSearch.AddAclGrants | pkg/services/opensearch/opensearch.go:192-200 | Adding an entry gives its rules to the user and changes no other user's. |
| OpenSearch.AddAclAddsNoMore | pkg/services/opensearch/opensearch.go:192-200 | The user has no rule afterwards that it was not given, then or before. |
| OpenSearch.RulesGiven | pkg/services/opensearch/opensearch.go:194-198 | The permission of both rules, on `_*` and on `*`, is the requested access. |
| OpenSearch.DeleteAclRemoves | pkg/services/opensearch/opensearch.go:234-245 | With one entry per user, deleting the found entry leaves the user none. |
| OpenSearch.DeleteAclSpares | pkg/services/opensearch/opensearch.go:243-248 | Deleting an entry takes nothing from any other user. |
| OpenSearch.Handler.ResolveServiceName | pkg/services/opensearch/opensearch.go:269-284 | A new-style resource settles the name; one that is not RUNNING never falls through to the legacy name. Without faults it fails only then, or without either resource, and each is asked for again after its own delay. |
| OpenSearch.ResolvedNameIs | pkg/services/opensearch/opensearch.go:271-284 | Which service an instance stands for, over the states of the two resources. |
| OpenSearch.Handler.LocateService | pkg/services/opensearch/opensearch.go:74-94 | Success only for a service with a primary OpenSearch component; without faults a failure shows what is missing. |
| OpenSearch.Handler.UpdateAcl | pkg/services/opensearch/opensearch.go:186-206 | After a success the user holds both rules of its access and none beside them that it did not have; other users' entries and other services stay in any case. |
| OpenSearch.Handler.ProvideServiceUser | pkg/services/opensearch/opensearch.go:137-184 | User and access list are in place; an empty access becomes read, in the application too. |
| OpenSearch.Handler.Apply | pkg/services/opensearch/opensearch.go:64-135 | A returned Secret is for a RUNNING resource of the namespace, its user exists and holds the requested access; users and access lists of nobody else are touched, whatever fails. Without faults it succeeds iff the request can be served, and otherwise shows why not. |
| OpenSearch.SecretForIs | pkg/services/opensearch/opensearch.go:97-135 | The Secret over its fields: name, labels, annotations and finalizer, each written out. |
| OpenSearch.FaultsAreNeeds | pkg/services/opensearch/opensearch.go:74-108 | A request can be served iff nothing is at fault. |
| OpenSearch.Handler.RemoveAcl | pkg/services/opensearch/opensearch.go:229-252 | The user's entry goes, the others stay, other services are untouched. |
| OpenSearch.Handler.Cleanup | pkg/services/opensearch/opensearch.go:208-267 | Success means that the user named by the annotations was deleted or reported absent and its access entry is gone; other users, entries and services stay; incomplete annotations fail and change nothing. Without faults nothing else fails. |
| Valkey.EqualNamesHaveEqualAccess | pkg/services/valkey/valkey.go:191-199 | Within one application equal user names imply equal permissions. |
| Valkey.RightsOfAccess | pkg/services/valkey/valkey.go:228-250 | The permissions of every access, written out: the base categories, `+@admin` iff admin, `+@write` iff admin, readwrite or write, `+@read` iff not write, and no others. |
| Valkey.Handler.ProvideServiceUser | pkg/services/valkey/valkey.go:171-226 | The user exists with exactly the categories, commands, keys and channels of the access, created, updated or left; only that user changed. |
| Valkey.Handler.FindService | pkg/services/valkey/valkey.go:111-118 | Success only for a service with a primary Valkey component; without faults a failure is that it has none, or does not exist yet, which is asked for again. |
| Valkey.Handler.ApplyInstance | pkg/services/valkey/valkey.go:87-161 | One turn of the loop: the Secret of that request, for a RUNNING resource, and only its user changed. |
| Valkey.AllGrantsSurvive | pkg/services/valkey/valkey.go:87-123 | Provisioning one more request spoils none of the earlier ones, repeated instances included. |
| Valkey.Handler.Apply | pkg/services/valkey/valkey.go:80-169 | For a list of any length, every requested user is on the service of its instance, under its name, with the permissions of its access written out, and no user changed that was not requested. Without faults, and with a coherent cache, it succeeds iff every request can be served; otherwise the first that cannot be shows why. |
| Valkey.SecretForIs | pkg/services/valkey/valkey.go:97-161 | The Secret of a request over its fields: name, labels, annotations and finalizer, each written out. |
| Valkey.FaultsAreNeeds | pkg/services/valkey/valkey.go:87-118 | A request can be served iff nothing is at fault. |
| Valkey.Handler.Cleanup | pkg/services/valkey/valkey.go:252-293 | In any order of the map: every complete pair is attempted once, past failures, and a user remains iff every attempt on it failed with something other than 404; without a project nothing is deleted, which fails iff there is a complete pair. Without faults nobody remains. |
| Valkey.OneMoreOutcome | pkg/services/valkey/valkey.go:278-286 | One more deletion removes its user unless it is refused, and nobody else. |
| Cluster.Server.GetResourceInNamespace | pkg/utils/instance_validation.go:19-37 | Only a RUNNING resource is found; absence and another state are told apart. |
| Credentials.Manager.CreateSecret | pkg/credentials/manager.go:46-74 | The handlers' Secrets in their order, or nothing; after a success the OpenSearch user holds its rules, and with coherent caches all requested users exist, the Valkey ones with exactly their permissions; nobody else is touched, failures included. Without faults it succeeds if every request can be served, and otherwise shows a fault of one. |
| Credentials.FaultsAreNeeds | pkg/credentials/manager.go:54-57 | A fault of a handler means that its request cannot be served. |
| Credentials.Manager.Apply | pkg/credentials/manager.go:54-57 | Each handler returns exactly the Secrets that stand for the application in its part and touches only the users of that part; after a success the OpenSearch user holds its rules, and with a coherent cache the users exist. |
| Credentials.Manager.Cleanup | pkg/credentials/manager.go:76-85 | Nobody is touched whom the annotations do not name; success requested all deletions, Kafka's and OpenSearch's users are gone, and so is the access entry of the latter. Without faults it succeeds iff the annotations are complete, and then nobody whom they name is left. |
| Credentials.AllAreProducts | pkg/credentials/manager.go:46-85 | Every Secret of a run names, to all handlers together, exactly the user that was provisioned for it, in annotations on which no handler fails. |
| Credentials.OwnAreProduced | pkg/credentials/manager.go:46-74 | The requested users, to which all effects are confined, are the users of the Secrets that a successful run returns. |
| Credentials.ProducedHasNames | pkg/credentials/manager.go:54-73 | The names of the Secrets of a run are known from the spec alone. |
| Credentials.ProducedNamesAre | pkg/credentials/manager.go:54-73 | Which names these are: the pool decides for Kafka. |
| Protocol.VersionsNeverReturn | controllers/aiven_application/reconciler.go:363-385 | In every interleaving a stored version stays, or only newer ones follow. |
| Protocol.PassesAreSound | controllers/secrets/finalizer.go:50-69 | A pass holds what it read when it began, and whom it counts as gone was absent since. |
| Protocol.CachedWasStored | controllers/secrets/finalizer.go:50-56 | However far the cache lags behind, what a read returns was stored at some time. |
| Protocol.OnlyPassesFinalize | controllers/secrets/finalizer.go:71-79 | No step but a finalizer's write takes the finalizer, and only from the version that it read and after a successful clean-up. |
| Protocol.VersionExactCleanup | controllers/secrets/finalizer.go:50-79 | A Secret leaves only after a pass over exactly its stored version; its Kafka and OpenSearch users were absent, while that version was stored, since the pass began. |
| Protocol.FinalizerGoesAfterUsers | controllers/secrets/finalizer.go:50-79 | The same over the annotation keys of the Secret that loses its finalizer. |
| FinalizerQueue.SyncQueues | controllers/secrets/finalizer.go:94-108 | The event filter: the key is queued iff the cached Secret changed, is being deleted and carries the finalizer. |
| FinalizerQueue.ResyncQueues | controllers/secrets/finalizer.go:101-104 | A periodic event is possible for exactly such cached Secrets, and queues them. |
| FinalizerQueue.QueueAfterStep | controllers/secrets/finalizer.go:33-108 | Over all steps: a key comes into the queue iff there is such an event or its own pass failed. |
| FinalizerQueue.QueuedWasPut | controllers/secrets/finalizer.go:94-108 | In every run from an empty queue, what is queued was put there by such an event or a retry, and no pass began since. |
| FinalizerQueue.QueuedWasAnnounced | controllers/secrets/finalizer.go:94-108 | In every such run, whatever is queued or worked on, retries included, goes back to an event for a Secret that was being deleted with the finalizer. |
| FinalizerQueue.NeverDeletedIsLeftAlone | controllers/secrets/finalizer.go:94-108 | Where no Secret was ever being deleted under a key, no pass works on it, and no step takes the finalizer. |
| LiveSecrets.StaysDoomed | controllers/secrets/finalizer.go:71-79 | Until a finalizer pass on it writes, a stored Secret that is being deleted and carries the finalizer stays so, whatever anybody does. |
| LiveSecrets.PassSparesLiveSecrets | controllers/secrets/finalizer.go:50-79 | Short of others giving a user of the copy to another live Secret: a beginning pass cannot take a user or the finalizer of any live Secret iff the stored Secret is being deleted and carries the finalizer and no live Secret under another key names a user of the copy, or the copy names nobody and is not itself the live Secret. |
| LiveSecrets.OthersCanAlwaysShare | controllers/secrets/finalizer.go:62-69 | With no restriction on the others, a pass can come to take from a live Secret iff the copy names somebody or is the live Secret. |
| LiveSecrets.DoomedHarmsElsewhere | controllers/secrets/finalizer.go:62-69 | A pass that began on a Secret that is being deleted takes from live Secrets only while another of them names a user of the copy. |
| LiveSecrets.SharedUsersAreAtStake | controllers/secrets/finalizer.go:62-69 | At any point of a pass it can take a user next, once provided, iff its copy and some live Secret name the user. |
| LiveSecrets.WaysToLoseAUser | controllers/secrets/finalizer.go:62-69 | If all users of live Secrets exist, exactly these steps change that: a clean-up that takes one, a write for a missing user, a user that goes by itself. |
| LiveSecrets.CurrentTerminatingReadIsSafe | controllers/secrets/finalizer.go:50-79 | In every run, a pass that begins with an up-to-date terminating copy meets no live Secret under that key until it ends, and takes from other live Secrets only while one of them names a user of the copy. |
| LiveSecrets.RunsAreWellKept | controllers/secrets/finalizer.go:33-85 | Every state of every run is one of which the condition speaks. |
| LiveSecretRuns.LiveSecretIsFinalized | controllers/secrets/finalizer.go:33-85 | A run in which a live Secret is read and loses its user and its finalizer. |
| LiveSecretRuns.StaleReadTakesLiveUser | controllers/secrets/finalizer.go:50-69 | A run in which the read of an old terminating copy takes the user of the live Secret. |
| LiveSecretRuns.SavedForMissingUser | controllers/aiven_application/reconciler.go:212-227 | A run in which a user is taken between its provisioning and the save, which creates a live Secret for it. |
| LiveSecretRuns.TwinLosesUser | controllers/secrets/finalizer.go:62-69 | Of two live Secrets that name one user, deleting one lets a pass that begins as it should take the user of the other. |
| LostUsers.SharedUserIsTaken | pkg/services/valkey/valkey.go:87-132 | This happens to two Valkey requests for one instance and access under two names, after any success from a cluster without them. |
| Finalizer.SecretsFinalizer.Read | controllers/secrets/finalizer.go:50-56 | The read is a step of the machine; an absent Secret ends the pass well. |
| Finalizer.SecretsFinalizer.Clean | controllers/secrets/finalizer.go:62-69 | Cleanup is a step of the machine, and its success is what the write requires. |
| Finalizer.SecretsFinalizer.Write | controllers/secrets/finalizer.go:71-79 | The write is a step of the machine; when it fails the key is queued again. |
| Finalizer.SecretsFinalizer.Reconcile | controllers/secrets/finalizer.go:33-85 | A pass among everybody else only extends the common run by allowed steps; without a retry it found nothing, or its write went through. Without faults and disturbance it takes all named users, then the finalizer, and the Secret is gone if it was the last. |
| Cleaner.InUse | pkg/credentials/cleaner.go:130-165 | Over the fields of the object: a ReplicaSet, Job or CronJob by its volumes, an application by the four places for a Secret's name; another type is an error and no user. |
| Cleaner.WhoUses | pkg/credentials/cleaner.go:130-165 | Use, as the deletion set is stated, is mounting the Secret or asking for it, kind by kind. |
| Cleaner.WhatGoes | pkg/credentials/cleaner.go:167-225 | The deletion set over fields: in no pod, no object of a known kind mounts it or asks for it, and not protected, or past a readable time limit; annotation keys written out. |
| Cleaner.ListUsedAndUnusedSecretsForPods | pkg/credentials/cleaner.go:111-116 | A partition by use in pods. |
| Cleaner.Cleaner.DeleteSecret | pkg/credentials/cleaner.go:268-283 | Always one request; a Secret that is already gone is no error. |
| Cleaner.Cleaner.CleanUnusedSecret | pkg/credentials/cleaner.go:167-225 | A deletion is requested iff no object of a known kind uses the Secret and it is not shielded; otherwise nothing changes. |
| Cleaner.Cleaner.CleanSecrets | pkg/credentials/cleaner.go:102-128 | Requests for exactly the Secrets that should go, once each, whatever becomes of the single deletions. |
| Cleaner.Cleaner.ListObjects | pkg/credentials/cleaner.go:285-298 | Exactly the objects with the application's label, or all. |
| Cleaner.Cleaner.CollectPossibleUsers | pkg/credentials/cleaner.go:227-266 | Exactly the labelled applications, ReplicaSets, CronJobs and Jobs of all namespaces, or an error. |
| Cleaner.Cleaner.Pass | pkg/credentials/cleaner.go:43-100 | A whole pass, over everything or one application: exactly the deletion set of its listing, also over the fields of Secrets, pods and objects; nothing on an error, and no other Secret changes. Without faults it succeeds, and what it requested is gone or on its way. |
| Cleaner.ScopesDiffer | pkg/credentials/cleaner.go:227-298 | The global decision is the application's decision and that nobody without its label uses the Secret. |
| Cleaner.ScopeMonotonicity | pkg/credentials/cleaner.go:43-84 | On one state, what the global pass requests of an application's Secrets, the application's pass requests too. |
| Reconciler.AivenApplicationReconciler.MarkSpecSecretNameDeprecated | controllers/aiven_application/reconciler.go:235-257 | The condition is set iff the field is used, once, and nothing else changes. |
| Reconciler.AivenApplicationReconciler.HandleProtectedAndTimeLimited | controllers/aiven_application/reconciler.go:259-285 | True iff the application has expired, and then it is gone. |
| Reconciler.AivenApplicationReconciler.DeleteApplication | controllers/aiven_application/reconciler.go:287-304 | An application that is already gone counts as deleted. |
| Reconciler.AivenApplicationReconciler.Fail | controllers/aiven_application/reconciler.go:93-116 | RolloutFailed, and the delay by the sentinels of the chain. |
| Reconciler.AivenApplicationReconciler.Success | controllers/aiven_application/reconciler.go:306-323 | Hash, state and generation are recorded, and of the three conditions only Succeeded is true, each written out. |
| Reconciler.AivenApplicationReconciler.NeedsSynchronization | controllers/aiven_application/reconciler.go:407-464 | False iff the hash is current and every named Secret of the Kafka, OpenSearch and Valkey specs is stored in the namespace; an unreadable Secret is an error, and without faults there is none. |
| Reconciler.CheckedAreItsSecrets | controllers/aiven_application/reconciler.go:420-444 | The checked Secrets are those that the three specs name. |
| Reconciler.UpToDateHasItsSecrets | controllers/aiven_application/reconciler.go:188-196 | A run that ends up to date leaves every Secret that the specs name stored. |
| Reconciler.WhatStatusSays | controllers/aiven_application/reconciler.go:149-232 | The written status field by field, for every way in which a run can end, and nothing else of the application changes. |
| Reconciler.WhenToRepeat | controllers/aiven_application/reconciler.go:93-116 | A run is repeated iff it did not come off and the failure is not final, after 100 s if something was not found, else after 10 s. |
| Reconciler.AivenApplicationReconciler.SaveSecret | controllers/aiven_application/reconciler.go:354-405 | Creates, or replaces exactly the version that was read, or changes nothing. |
| Reconciler.AivenApplicationReconciler.SaveSecrets | controllers/aiven_application/reconciler.go:219-227 | The Secrets are saved in order up to the first failure. |
| Reconciler.AivenApplicationReconciler.Provision | controllers/aiven_application/reconciler.go:210-232 | All Secrets are made before one is saved; the status tells which part failed; only requested users are touched. |
| Reconciler.AivenApplicationReconciler.Synchronize | controllers/aiven_application/reconciler.go:182-232 | The effect on Secrets and status by how the run ends; without need nothing is written to Aiven. |
| Reconciler.AivenApplicationReconciler.Process | controllers/aiven_application/reconciler.go:149-170 | The status is written on every return, or that write fails, which without faults it does not; nothing else of the application changes. |
| Reconciler.AivenApplicationReconciler.Reconcile | controllers/aiven_application/reconciler.go:70-233 | Everything that a run can do to applications and Secrets, and when it is repeated; in Aiven it concerns only the requested users, who after the handlers have succeeded hold their rules and, with coherent caches, exist. Up to date means that all named Secrets are stored. Without faults, an application whose requests can be served and whose Secrets can be saved ends synchronized with its status written, or is deleted for its expiry, and a run that cannot provision shows why. |
| Synchronization.EffectKeepsConsistent | controllers/aiven_application/reconciler.go:306-323 | A consistent status stays so through every outcome. |
| Synchronization.StatusStaysConsistent | controllers/aiven_application/reconciler.go:149-232 | In every history: RolloutComplete iff Succeeded, never with a true failure; RolloutFailed implies LocalFailure. |
| Synchronization.FirstSaved | controllers/aiven_application/reconciler.go:220-227 | Saving the first n is n writes; under each key is the last of them that goes there, elsewhere nothing changed. |
| Synchronization.SaveIsTwoSteps | controllers/aiven_application/reconciler.go:363-385 | An undisturbed save is the read and the write of the protocol. |
| Synchronization.WriteDiscipline | controllers/aiven_application/reconciler.go:212-229 | Handlers fail: no Secret changed; saving fails at k: exactly the first k were written; the hash moves only when all were. |
| Synchronization.WhatCannotBeSaved | controllers/aiven_application/reconciler.go:354-405 | The cluster refuses a Secret of a run iff one under a requested name is being deleted without carrying the finalizer. |
| Synchronization.CheckedButNotProduced | controllers/aiven_application/reconciler.go:420-444 | The checked names are among the produced ones, except for Kafka without a pool. |
| Synchronization.Convergence | controllers/aiven_application/reconciler.go:182-229 | From any state, after a success with a written status the hash is current, and all named Secrets are stored, so that nothing needs synchronization, iff every Secret that is asked for and never made was there before. |
| Synchronization.NeverDone | pkg/services/kafka/kafka.go:77-81 | As long as nobody else makes it, no run for an application that asks for such a Secret, however it ends, finds it up to date, makes it, or leaves no need of the next run. |
| Synchronization.NeverMadeSucceeds | pkg/services/kafka/kafka.go:77-81 | A spec of that kind, for which a run can succeed and then writes nothing. |
| Synchronization.DeletionsGoOn | controllers/aiven_application/reconciler.go:382-387 | Saving neither takes back the deletion of a Secret nor starts one. |
| SharedNames.WhoIsNamed | controllers/aiven_application/reconciler.go:220-227 | After any run, however it ends, a user is named by a stored Secret iff for some key the last Secret saved there is for the user, or none was saved there and the Secret there named it. |
| SharedNames.WhoIsNamedAfterSuccess | controllers/aiven_application/reconciler.go:220-227 | After a success some stored Secret names a user iff the last request of some name is for it or a Secret that the run does not write named it. |
| SharedNames.WhoIsLost | controllers/aiven_application/reconciler.go:220-227 | A user that was named is lost iff all Secrets that named it are written by the run and no last request of a name is for it. |
| SharedNames.DistinctNamesKeepTheirUsers | controllers/aiven_application/reconciler.go:220-227 | With distinct names every user of the run is named. |
| SharedNames.ValkeyUserIsNamed | pkg/services/valkey/valkey.go:87-132 | A Valkey user is named iff some last Valkey request of a name has its instance and suffix, or a Secret that is not written names it. |
| SharedNames.OtherUserIsNamed | controllers/aiven_application/reconciler.go:220-227 | A Kafka or OpenSearch user is named iff its request is the last of its name, or a Secret that is not written names it. |
| SharedNames.OthersAreLast | pkg/credentials/manager.go:38-42 | The Kafka request is the last of its name iff no other request has that name, the OpenSearch request iff no Valkey request has. |
| SharedNames.SameValkeyUser | pkg/services/valkey/valkey.go:184-192 | Two Valkey requests share a user iff they share the instance and the suffix of the access. |
| SharedNames.SecretsShareUsers | pkg/services/valkey/valkey.go:87-132 | Two stored Valkey Secrets of a run share their user iff the last requests of their names share the instance and the suffix. |
| LostUsers.SharedNameLosesUser | controllers/aiven_application/reconciler.go:220-227 | Two Valkey requests of one name: a run can succeed from any cluster without that Secret, and a user of the first request that no Secret named is named by none. |
| LostUsers.EarlierGenerationIsLost | pkg/utils/common.go:49-59 | With one Valkey request, the run for a generation with another suffix leaves the user of the stored generation named by no Secret. |
| Protection.ShieldIsWhatWasAskedFor | pkg/credentials/cleaner.go:192-221 | The janitor reads back exactly the protection and expiry that the application asked for, to the second. |
| Protection.SameInstant | controllers/aiven_application/reconciler.go:259-275 | Reconciler and janitor let go at the same instant, strictly after the expiry. |
| Protection.GoesWithNextPass | pkg/credentials/cleaner.go:167-225 | A pass requests a generated Secret iff nobody uses it and no protection that was asked for still holds. |
| Protection.OnlyExpiredIsDeleted | controllers/aiven_application/reconciler.go:259-285 | Up to its expiry an application is never deleted, and after it nothing else is done with it. |
| Protection.ProtectedOutlivesPasses | pkg/utils/secret.go:83-94 | No sequence of passes removes or marks a Secret of a protected application before its time. |
| SteadyState.OwnSecretsAreUsed | pkg/credentials/cleaner.go:137-151 | The application is itself a user of its Secrets in every scope that covers them. |
| SteadyState.OwnAreChecked | controllers/aiven_application/reconciler.go:420-444 | The Secrets of the steady state, given by the spec's fields, are those that runs check. |
| SteadyState.StaysSettled | controllers/aiven_application/reconciler.go:188-196 | Each step keeps a synchronized application synchronized and is quiet. |
| SteadyState.SteadyState | pkg/credentials/cleaner.go:130-190 | Over every sequence of cleaning passes, runs and finalizer passes over Secrets that are being deleted: no Aiven write, no Secret write, no deletion request for its Secrets, no pass on them. |
| SteadyState.SuccessOverDeletion | controllers/aiven_application/reconciler.go:363-390 | A run for an application whose Secret is being deleted can succeed and leave that Secret to its deletion. |
| SteadyState.SuccessSettles | controllers/aiven_application/reconciler.go:212-229 | A success with a written status leads into that state iff none of the Secrets was being deleted. |

## Left out

- Finalizer.SecretsFinalizer.Clean: Manager.Cleanup is one step here, although the machine lets others act between the deletions of one Cleanup; the theorems about the machine cover both.
- Cleaner.Cleaner.Pass: the lists of one pass are taken from one up-to-date state of the cluster; each Secret has its own reading of the clock.
- Reconciler.AivenApplicationReconciler.Reconcile: nobody writes in the middle of it and its reads are up to date; saves that meet other writers or an old cache are steps of Protocol.
- OpenSearch.Handler.UpdateAcl: concurrent read-modify-write of one access list is not modelled, the claims are sequential.
- ServiceUsers.Manager.Store: the counts of user-name styles are metrics and are not kept.
- Cleaner.Cleaner.CleanSecrets: the counters for protected Secrets are passed by value in the source and reach nobody.
- Protocol.VersionExactCleanup: its queue may hold a key more than once, which only adds behaviour; assumes, as the source does, that nobody else strips the finalizer; Valkey users are not covered because their clean-up reports success whatever happens.
- SteadyState.SteadyState: an outside change of the application or of its Secrets ends the steady state, and so does a finalizer pass on a Secret that is not being deleted, so they are not among the steps; that the users of its Secrets exist is not part of it.
- LiveSecrets.PassSparesLiveSecrets: about users and the finalizer; the access entry that OpenSearch's Cleanup removes before its user is not part of the machine.
- SharedNames.ValkeyUserIsNamed: a legacy OpenSearch service name may coincide with that of a Valkey service, and a Kafka pool may be the main project; SharedNames.WhoIsNamedAfterSuccess covers these cases by the users themselves.
- SharedNames.OtherUserIsNamed: the same two cases.
- The data of Secrets, environment-variable names, metrics, logging, events, timeouts, tracing fields.
- Concurrency inside one manager call, such as races on the address map in pkg/aiven/service/service.go: each call is atomic.
- Janitor.Start, the channel from the reconciler to it, queues and event filters beyond the finalizer's own: only the passes and runs that they start are modelled, in any order.
- Certificates and key stores: only that making them may fail.
- Removal of credentials from error texts, and the JSON inside Aiven messages.
- Assumed of libraries and servers: AddCondition replaces a condition of its type and drops the listed types; Hash reads spec, labels and annotations only; pods are partitioned Secret by Secret; RFC 3339 formatting is read back to the second and never yields an empty string; the access-list operations of the Aiven client; the Kafka name resolver is a map; CRC-32 and the Kafka naming scheme are functions; the cache library serves an entry until its expiry; a failed call had no effect; the work queue of controller-runtime gives a key to one pass at a time and keeps an event that arrives meanwhile for afterwards.
- Writing to a CRC-32 hasher never fails, so the error branches of CreateSuffix are gone.
- LocateService, FindService, BeginSecret, ApplyInstance, WriteUser, GetOrCreate, StoreCredentials, RemoveAcl, ArePresent, SaveSecrets, SaveAll, Provision, Process, Expire and ReconcileExisting are pieces of longer functions of the source.
- A run without faults is one in which no server fails a call for reasons of its own, the Valkey handler's cache of users is coherent, and Aiven answers within a minute (Aiven.Api.Answered), so that fetched addresses have not expired when they are read back.
- The switch that turns the access list of an OpenSearch service on, which every update sets.
- The deployment correlation annotation is defined in a library; its key is the one that hack/create_replicating_valkeys.py uses.
