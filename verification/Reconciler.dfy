/** controllers/aiven_application/reconciler.go: one reconciliation of an AivenApplication. */
module Reconciler {
  import opened Wrappers
  import opened Common
  import opened Resources
  import opened Failures
  import opened Secrets
  import opened Cluster
  import opened Credentials
  import OpenSearch
  import Aiven
  import ServiceUsers
  import Valkey

  /** application.Hash of the API package: a function of what the stored object asks for. */
  type Hasher = (Spec, map<string, string>, map<string, string>) -> Option<string>

  function HashOf(hasher: Hasher, app: Application): Option<string> {
    hasher(app.spec, app.labels, app.annotations)
  }

  // Status

  /** What observers of the status may rely on. */
  ghost predicate Consistent(s: Status) {
    && (s.state == RolloutComplete <==> s.Holds(Succeeded))
    && (s.Holds(Succeeded) ==> !s.Holds(AivenFailure) && !s.Holds(LocalFailure))
    && (s.state == RolloutFailed ==> s.Holds(LocalFailure))
  }

  const DEPRECATED_FIELD := Condition(true, None)

  function WithDeprecation(app: Application): Application {
    if app.spec.secretName == "" then app
    else app.(status := app.status.AddCondition(Deprecated, DEPRECATED_FIELD))
  }

  function FailedStatus(s: Status, operation: Operation): Status {
    FailedLocally(s, operation).(state := RolloutFailed)
  }

  /** A success, written out. */
  ghost predicate IsSuccess(app: Application, hash: string) {
    var c := app.status.conditions;
    && app.status.hash == hash && app.status.state == RolloutComplete
    && app.status.synchronizedGeneration == app.generation
    && {Succeeded, AivenFailure, LocalFailure} <= c.Keys
    && c[Succeeded].holds && !c[AivenFailure].holds && !c[LocalFailure].holds
  }

  /** A failure of this operation, written out; the run before it stays on record. */
  ghost predicate IsFailure(app: Application, operation: Operation, before: Status) {
    var c := app.status.conditions;
    && app.status.state == RolloutFailed && LocalFailure in c && c[LocalFailure].holds
    && c[LocalFailure].reason == Some(operation) && Succeeded !in c
    && app.status.hash == before.hash && app.status.synchronizedGeneration == before.synchronizedGeneration
  }

  function SucceededStatus(app: Application, hash: string): Status {
    app.status.(hash := hash, state := RolloutComplete, synchronizedGeneration := app.generation,
      conditions := app.status.conditions[Succeeded := Condition(true, None)]
        [AivenFailure := Condition(false, None)][LocalFailure := Condition(false, None)])
  }

  // Which Secrets are checked and saved

  /** The Secrets whose absence calls for a synchronization. */
  predicate IsChecked(spec: Spec, name: string) {
    name != "" && (KafkaAsksFor(spec, name) || ValkeyAsksFor(spec.valkey, name) || OpenSearchAsksFor(spec, name))
  }

  ghost predicate NeedsSync(app: Application, hash: string, secrets: Cluster.Secrets) {
    app.status.hash != hash || exists name :: IsChecked(app.spec, name) && Key(app.namespace, name) !in secrets
  }

  /** Every Secret that the application asks for by a name is stored in its namespace. */
  ghost predicate HasItsSecrets(app: Application, secrets: Cluster.Secrets) {
    && (app.spec.kafka.Some? ==> IsThere(app, app.spec.kafka.value.secretName, secrets))
    && (app.spec.openSearch.Some? ==> IsThere(app, app.spec.openSearch.value.secretName, secrets))
    && (forall i :: 0 <= i < |app.spec.valkey| ==> IsThere(app, app.spec.valkey[i].secretName, secrets))
  }

  predicate IsThere(app: Application, name: string, secrets: Cluster.Secrets) {
    name != "" ==> Key(app.namespace, name) in secrets
  }

  lemma CheckedAreItsSecrets(app: Application, secrets: Cluster.Secrets)
    ensures HasItsSecrets(app, secrets) <==>
      forall name :: IsChecked(app.spec, name) ==> Key(app.namespace, name) in secrets
  {
    forall i | 0 <= i < |app.spec.valkey| && app.spec.valkey[i].secretName != ""
      ensures IsChecked(app.spec, app.spec.valkey[i].secretName)
    {
    }
    if app.spec.kafka.Some? {
      assert app.spec.kafka.value.secretName != "" ==> IsChecked(app.spec, app.spec.kafka.value.secretName);
    }
    if app.spec.openSearch.Some? {
      assert app.spec.openSearch.value.secretName != "" ==> IsChecked(app.spec, app.spec.openSearch.value.secretName);
    }
  }

  /** SaveSecret, when every call comes off: a Secret that is there is replaced. */
  function SaveIn(store: Store, secret: Secret): ApiResult<Store> {
    if secret.Id() in store.secrets then UpdateIn(store, secret.(version := store.secrets[secret.Id()].version))
    else CreateIn(store, secret)
  }

  /** The store after the first `n` Secrets were saved. */
  function SaveFirst(store: Store, secrets: seq<Secret>, n: nat): ApiResult<Store>
    requires n <= |secrets|
  {
    if n == 0 then Done(store)
    else
      var before := SaveFirst(store, secrets, n - 1);
      if before.Failed? then before else SaveIn(before.value, secrets[n - 1])
  }

  /** How the part of a run that may change Aiven and Secrets ends. */
  datatype Outcome =
    | NotHashed
    | NotChecked
    | UpToDate
    | NotProvisioned(error: Error, conditions: map<ConditionType, Condition>)
    | NotSaved(saved: nat)
    | Synchronized

  /** Every write to Secrets and every change of the hash that a run can make, by its outcome. */
  ghost predicate Effect(
    end: Outcome, hasher: Hasher, config: Config, resources: Instances, app: Application, store: Store,
    status: Status, store': Store)
  {
    var hash := HashOf(hasher, app);
    if hash.None? then end == NotHashed && store' == store && status == FailedStatus(app.status, Hash)
    else match end
      case NotHashed => false
      case NotChecked =>
        && store' == store && app.status.hash == hash.value
        && status == FailedStatus(app.status, NeedsSynchronization)
      case UpToDate => store' == store && !NeedsSync(app, hash.value, store.secrets) && status == app.status
      case _ =>
        && NeedsSync(app, hash.value, store.secrets)
        && Provisioned(end, hash.value, config, resources, app, store, status, store')
  }

  /** The second half: all Secrets of a run are made before the first one is saved. */
  ghost predicate Provisioned(
    end: Outcome, hash: string, config: Config, resources: Instances, app: Application, store: Store,
    status: Status, store': Store)
  {
    var produced := Produced(|HANDLERS|, app, resources, config);
    match end
    case NotProvisioned(_, conditions) =>
      store' == store && status == FailedStatus(app.status.(conditions := conditions), CreateSecret)
    case NotSaved(saved) =>
      && produced.Some? && saved < |produced.value| && status == FailedStatus(app.status, SaveSecret)
      && SaveFirst(store, SecretsOf(produced.value), saved) == Done(store')
    case Synchronized =>
      && produced.Some? && status == SucceededStatus(app, hash)
      && SaveFirst(store, SecretsOf(produced.value), |produced.value|) == Done(store')
    case _ => false
  }

  /** A run that cannot provision says what keeps a request from being served, and is repeated when that may
      have changed. */
  ghost predicate IsExplained(
    end: Outcome, app: Application, resources: Instances, components: map<Aiven.ServiceKey, seq<Aiven.Component>>,
    config: Config)
  {
    end.NotProvisioned? ==>
      exists fault, h ::
        && Shows(fault, app.status.conditions, end.error, end.conditions)
        && Credentials.IsFault(h, fault, resources, components, app, config)
  }

  /** Some Secret of a run would be refused by the cluster. */
  ghost predicate CannotBeSaved(app: Application, resources: Instances, config: Config, store: Store) {
    var produced := Produced(|HANDLERS|, app, resources, config);
    produced.Some? && SaveFirst(store, SecretsOf(produced.value), |produced.value|).Failed?
  }

  lemma NothingToExplain(
    app: Application, resources: Instances, components: map<Aiven.ServiceKey, seq<Aiven.Component>>, config: Config)
    ensures forall end: Outcome :: !end.NotProvisioned? ==> IsExplained(end, app, resources, components, config)
  {
  }

  lemma {:induction false} SavingStops(store: Store, secrets: seq<Secret>, n: nat, m: nat)
    requires n <= m <= |secrets| && SaveFirst(store, secrets, n).Failed?
    ensures SaveFirst(store, secrets, m).Failed?
  {
    if n < m {
      SavingStops(store, secrets, n, m - 1);
    }
  }

  predicate WritesToAiven(end: Outcome) {
    !end.NotHashed? && !end.NotChecked? && !end.UpToDate?
  }

  /** The handlers have all succeeded. */
  predicate HasProvisioned(end: Outcome) {
    end.NotSaved? || end.Synchronized?
  }

  /** When the run is to be repeated, in seconds. */
  function Retry(end: Outcome): Option<nat> {
    match end
    case UpToDate | Synchronized => None
    case NotProvisioned(error, _) => RequeueAfter(error)
    case _ => Some(10)
  }

  /** The expiry as it reads once it was formatted and parsed again; None where that fails. */
  function ExpiryOf(app: Application, codec: TimeCodec): Option<Time> {
    if app.spec.expiresAt.Some? then codec.parse(codec.format(app.spec.expiresAt.value)) else None
  }

  predicate IsExpired(app: Application, codec: TimeCodec, now: Time) {
    ExpiryOf(app, codec).Some? && now > ExpiryOf(app, codec).value
  }

  /** How a run ends: `Ran` with the status that it wants to leave, which may not get written. */
  datatype End =
    | Gone
    | Unreadable
    | NotHandled
    | Deleted
    | Ran(outcome: Outcome, status: Status, written: bool)

  type Applications = map<Key, Application>

  /** Everything that a run can do to applications and Secrets. `now` is when it read the clock. */
  ghost predicate RunEffect(
    end: End, key: Key, now: Time, hasher: Hasher, config: Config, resources: Instances, apps: Applications,
    store: Store, apps': Applications, store': Store)
  {
    match end
    case Gone => key !in apps && apps' == apps && store' == store
    case Unreadable => apps' == apps && store' == store
    case NotHandled =>
      && key in apps && apps' == apps && store' == store && apps[key].spec.expiresAt.Some?
      && (ExpiryOf(apps[key], config.codec).None? || IsExpired(apps[key], config.codec, now))
    case Deleted =>
      key in apps && apps' == apps - {key} && store' == store && IsExpired(apps[key], config.codec, now)
    case Ran(outcome, status, written) =>
      && key in apps && !IsExpired(apps[key], config.codec, now)
      && (apps[key].spec.expiresAt.Some? ==> ExpiryOf(apps[key], config.codec).Some?)
      && Effect(outcome, hasher, config, resources, WithDeprecation(apps[key]), store, status, store')
      && apps' == if written then apps[key := WithStatus(apps[key], status)] else apps
  }

  /** What a run does in Aiven: nothing at all, unless it found something to synchronize. Without faults it
      fails there only for a reason. */
  ghost predicate AivenAfter(
    end: End, coherent: bool, faultFree: bool, app: Application, resources: Instances, config: Config,
    before: AivenState, after: AivenState)
  {
    && (faultFree && end.Ran? ==> IsExplained(end.outcome, app, resources, before.components, config))
    && (!(end.Ran? && WritesToAiven(end.outcome)) ==> after == before)
    && (end.Ran? ==> AivenEffect(HasProvisioned(end.outcome), coherent, app, resources, config,
          before.users, before.acls, after.users, after.acls))
  }

  lemma NothingInAiven(
    end: End, coherent: bool, faultFree: bool, app: Application, resources: Instances, config: Config,
    aiven: AivenState)
    requires !end.Ran?
    ensures AivenAfter(end, coherent, faultFree, app, resources, config, aiven, aiven)
  {
  }

  /** When the run is to be repeated, in seconds. */
  function RetryAfter(end: End): Option<nat> {
    match end
    case Gone | Deleted => None
    case Unreadable | NotHandled => Some(10)
    case Ran(UpToDate, _, _) => None
    case Ran(Synchronized, _, _) => None
    case Ran(NotProvisioned(error, _), _, _) => RequeueAfter(error)
    case Ran(_, _, _) => Some(10)
  }

  /** A run is repeated exactly when it did not come off, and what kept it from that may change. */
  lemma WhenToRepeat(end: End)
    ensures RetryAfter(end).None? <==>
      || end.Gone? || end.Deleted? || (end.Ran? && (end.outcome.UpToDate? || end.outcome.Synchronized?))
      || (end.Ran? && end.outcome.NotProvisioned?
          && Unrecoverable in Chain(end.outcome.error) && NotFound !in Chain(end.outcome.error))
    ensures RetryAfter(end).Some? ==>
      RetryAfter(end).value ==
        (if end.Ran? && end.outcome.NotProvisioned? && NotFound in Chain(end.outcome.error) then 100 else 10)
  {
    if end.Ran? && end.outcome.NotProvisioned? {
      IsInChain(end.outcome.error, NotFound);
      IsInChain(end.outcome.error, Unrecoverable);
    }
  }

  /** The application is gone, or it is synchronized and its status says so; the one thing that can keep a run
      without faults from it is an expiry that does not read back. */
  predicate IsDone(end: End, app: Application, codec: TimeCodec) {
    || end.Deleted?
    || (end.Ran? && end.outcome in {Synchronized, UpToDate} && end.written)
    || (app.spec.expiresAt.Some? && ExpiryOf(app, codec).None?)
  }

  /** An application that is up to date has all its Secrets. */
  lemma UpToDateHasItsSecrets(
    end: End, key: Key, now: Time, hasher: Hasher, config: Config, resources: Instances, apps: Applications,
    store: Store, apps': Applications, store': Store)
    requires RunEffect(end, key, now, hasher, config, resources, apps, store, apps', store')
    ensures end.Ran? && end.outcome.UpToDate? ==> HasItsSecrets(apps[key], store'.secrets)
  {
    if end.Ran? && end.outcome.UpToDate? {
      CheckedAreItsSecrets(apps[key], store'.secrets);
    }
  }

  lemma NotRead(
    key: Key, now: Time, hasher: Hasher, config: Config, resources: Instances, apps: Applications, store: Store)
    ensures RunEffect(Unreadable, key, now, hasher, config, resources, apps, store, apps, store)
    ensures key !in apps ==> RunEffect(Gone, key, now, hasher, config, resources, apps, store, apps, store)
  {
  }

  function WithStatus(app: Application, status: Status): Application {
    app.(status := status.(observedGeneration := app.generation))
  }

  class AivenApplicationReconciler {
    const cluster: Server
    const manager: Manager
    const hasher: Hasher

    ghost predicate Valid()
      reads manager.kafka.users, manager.openSearch.users, manager.valkey.users, manager.api`users
    {
      manager.Valid() && manager.cluster == cluster
    }

    constructor (cluster: Server, manager: Manager, hasher: Hasher)
      requires manager.Valid() && manager.cluster == cluster
      ensures Valid() && this.cluster == cluster && this.manager == manager && this.hasher == hasher
    {
      this.cluster, this.manager, this.hasher := cluster, manager, hasher;
    }

    /** Without faults, all that the application asks for can be provided. */
    ghost predicate CanServe(app: Application)
      reads cluster`resources, manager.api`components, manager.valkey.users, manager.valkey.users.api`users
    {
      manager.FaultFree() && CanServeAll(cluster.resources, manager.api.components, app, manager.config)
    }

    /** A run for the application as it is handed on has nothing to fail on. */
    ghost predicate CanSucceed(app: Application)
      reads cluster`resources, cluster`store, manager.api`components
      reads manager.valkey.users, manager.valkey.users.api`users
    {
      && CanServe(app) && HashOf(hasher, app).Some?
      && !CannotBeSaved(app, cluster.resources, manager.config, cluster.store)
    }

    lemma SuccessNeedsNoFaults(app: Application)
      requires Valid()
      ensures CanSucceed(app) ==> cluster.reliable
    {
      hide CannotBeSaved, CanServeAll, HashOf;
    }

    /** Marks applications that use the deprecated field, once. */
    method MarkSpecSecretNameDeprecated(ref: ApplicationRef)
      modifies ref
      ensures ref.app == WithDeprecation(old(ref.app))
      ensures old(ref.app).spec.secretName == "" ==> ref.app == old(ref.app)
      ensures old(ref.app).spec.secretName != "" ==> var after := ref.app.status.conditions;
        && OnlyConditions(old(ref.app), ref.app) && Deprecated in after && after[Deprecated].holds
        && after - {Deprecated} == old(ref.app).status.conditions - {Deprecated}
    {
      if ref.app.spec.secretName == "" {
        return;
      }
      var conditions := ref.app.status.conditions;
      if Deprecated in conditions && conditions[Deprecated] == DEPRECATED_FIELD {
        assert conditions[Deprecated := DEPRECATED_FIELD] == conditions;
        return;
      }
      ref.app := ref.app.(status := ref.app.status.AddCondition(Deprecated, DEPRECATED_FIELD));
    }

    /** An application that is already gone counts as deleted. */
    method DeleteApplication(app: Application) returns (e: Option<Error>)
      modifies cluster`apps
      ensures e.None? ==> cluster.apps == old(cluster.apps) - {app.Id()}
      ensures e.Some? ==> e == Some(Plain(ClusterUnavailable)) && cluster.apps == old(cluster.apps)
      ensures cluster.reliable ==> e.None?
    {
      var failed := cluster.DeleteApplication(app.Id());
      if failed == Some(Missing) {
        assert cluster.apps - {app.Id()} == cluster.apps;
      }
      e := if failed.Some? && failed.value != Missing then Some(Plain(ClusterUnavailable)) else None;
    }

    /** True if and only if the application has expired, and then it is deleted. */
    method HandleProtectedAndTimeLimited(app: Application) returns (r: Result<bool>, ghost now: Time)
      modifies cluster`apps
      ensures r.Ok? ==> (r.value <==> IsExpired(app, manager.config.codec, now))
      ensures r.Ok? ==> (app.spec.expiresAt.Some? ==> ExpiryOf(app, manager.config.codec).Some?)
      ensures cluster.apps == if r.Ok? && r.value then old(cluster.apps) - {app.Id()} else old(cluster.apps)
      ensures r.Err? ==> r.error in {Plain(CannotParseTime), Plain(ClusterUnavailable)} && app.spec.expiresAt.Some?
      ensures r.Err? ==> ExpiryOf(app, manager.config.codec).None? || IsExpired(app, manager.config.codec, now)
      ensures cluster.reliable && r.Err? ==> ExpiryOf(app, manager.config.codec).None?
    {
      var time := Now();
      now := time;
      if app.spec.expiresAt.None? {
        return Ok(false), now;
      }
      var parsed := manager.config.codec.parse(manager.config.codec.format(app.spec.expiresAt.value));
      if parsed.None? {
        return Err(Plain(CannotParseTime)), now;
      }
      if !Expired(time, parsed.value) {
        return Ok(false), now;
      }
      var e := DeleteApplication(app);
      r := if e.Some? then Err(e.value) else Ok(true);
    }

    /** One run. The status is written only once the expiry was handled; Aiven is left alone by every
        run that finds nothing to synchronize, and every other run concerns only the users that the
        application requests, which all exist once the handlers have succeeded with coherent caches. */
    method Reconcile(key: Key) returns (requeueAfter: Option<nat>, ghost end: End, ghost now: Time)
      requires Valid() && (forall k :: k in cluster.apps ==> cluster.apps[k].Id() == k)
      modifies cluster`apps, cluster`store
      modifies manager.kafka.users`cache, manager.openSearch.users`cache, manager.valkey.users`cache
      modifies manager.kafka.services`cache, manager.openSearch.services`cache, manager.valkey.services`cache
      modifies manager.api`users, manager.api`acls, manager.api`deletions
      ensures Valid()
      ensures RunEffect(end, key, now, hasher, manager.config, cluster.resources,
        old(cluster.apps), old(cluster.store), cluster.apps, cluster.store)
      ensures requeueAfter == RetryAfter(end)
      ensures key !in old(cluster.apps) ==> manager.InAiven() == old(manager.InAiven())
      ensures key in old(cluster.apps) ==>
        AivenAfter(end, old(manager.CachesCoherent()), old(manager.FaultFree()),
          WithDeprecation(old(cluster.apps)[key]), cluster.resources, manager.config,
          old(manager.InAiven()), manager.InAiven())
      ensures cluster.reliable ==> !end.Unreadable? && (end.Ran? ==> end.written)
      ensures key in old(cluster.apps) && old(CanSucceed(WithDeprecation(cluster.apps[key]))) ==>
        IsDone(end, old(cluster.apps)[key], manager.config.codec)
      ensures end.Ran? && end.outcome.UpToDate? ==> HasItsSecrets(old(cluster.apps)[key], cluster.store.secrets)
    {
      hide IsExplained, Manager.FaultFree;
      hide AivenAfter, Manager.CachesCoherent, IsDone, HasItsSecrets, CanSucceed, RunEffect;
      hide Effect, RequeueAfter, FailedLocally, IsExpired, ExpiryOf, WithDeprecation;
      UnavailableIsRetried();
      if key in cluster.apps {
        SuccessNeedsNoFaults(WithDeprecation(cluster.apps[key]));
      }
      var ref := new ApplicationRef(EmptyApplication());
      var got := cluster.GetApplication(key);
      now := 0;
      if got.Failed? {
        NotRead(key, now, hasher, manager.config, cluster.resources, cluster.apps, cluster.store);
        if key in cluster.apps {
          NothingInAiven(Unreadable, manager.CachesCoherent(), manager.FaultFree(),
            WithDeprecation(cluster.apps[key]), cluster.resources, manager.config, manager.InAiven());
        }
        if got.error == Missing {
          requeueAfter := Fail(ref, Wrapped(ResourceDeleted, Unrecoverable));
          return requeueAfter, Gone, now;
        }
        requeueAfter := Fail(ref, Plain(ClusterUnavailable));
        return requeueAfter, Unreadable, now;
      }
      ref.app := got.value;
      requeueAfter, end, now := ReconcileExisting(ref, key);
      UpToDateHasItsSecrets(end, key, now, hasher, manager.config, cluster.resources,
        old(cluster.apps), old(cluster.store), cluster.apps, cluster.store);
    }

    /** The run for an application that was found. */
    method ReconcileExisting(ref: ApplicationRef, key: Key)
      returns (requeueAfter: Option<nat>, ghost end: End, ghost now: Time)
      requires Valid() && key in cluster.apps && cluster.apps[key] == ref.app && ref.app.Id() == key
      modifies ref, cluster`apps, cluster`store
      modifies manager.kafka.users`cache, manager.openSearch.users`cache, manager.valkey.users`cache
      modifies manager.kafka.services`cache, manager.openSearch.services`cache, manager.valkey.services`cache
      modifies manager.api`users, manager.api`acls, manager.api`deletions
      ensures Valid() && !end.Gone? && !end.Unreadable?
      ensures RunEffect(end, key, now, hasher, manager.config, cluster.resources,
        old(cluster.apps), old(cluster.store), cluster.apps, cluster.store)
      ensures requeueAfter == RetryAfter(end)
      ensures AivenAfter(end, old(manager.CachesCoherent()), old(manager.FaultFree()),
        WithDeprecation(old(ref.app)), cluster.resources, manager.config, old(manager.InAiven()), manager.InAiven())
      ensures old(CanSucceed(WithDeprecation(ref.app))) ==> IsDone(end, old(ref.app), manager.config.codec)
      ensures cluster.reliable && end.Ran? ==> end.written
    {
      hide IsExplained, Manager.FaultFree, AivenAfter, Manager.CachesCoherent, CanSucceed;
      hide Effect, RequeueAfter, IsExpired, ExpiryOf, WithDeprecation;
      SuccessNeedsNoFaults(WithDeprecation(ref.app));
      ghost var app, coherent, faultFree := ref.app, manager.CachesCoherent(), manager.FaultFree();
      var ended;
      ended, requeueAfter, end, now := Expire(ref, key);
      if ended {
        NothingInAiven(end, coherent, faultFree, WithDeprecation(app), cluster.resources, manager.config,
          manager.InAiven());
      } else {
        requeueAfter, end := Process(ref, key);
      }
    }

    /** The beginning of a run, which ends it for an application that has expired. */
    method Expire(ref: ApplicationRef, key: Key)
      returns (ended: bool, requeueAfter: Option<nat>, ghost end: End, ghost now: Time)
      requires key in cluster.apps && cluster.apps[key] == ref.app && ref.app.Id() == key
      modifies ref, cluster`apps
      ensures !ended ==> ref.app == WithDeprecation(old(ref.app)) && cluster.apps == old(cluster.apps)
      ensures !ended ==> !IsExpired(old(ref.app), manager.config.codec, now)
      ensures !ended && old(ref.app).spec.expiresAt.Some? ==> ExpiryOf(old(ref.app), manager.config.codec).Some?
      ensures ended ==>
        && end in {NotHandled, Deleted} && requeueAfter == RetryAfter(end)
        && RunEffect(end, key, now, hasher, manager.config, cluster.resources,
             old(cluster.apps), cluster.store, cluster.apps, cluster.store)
        && (cluster.reliable ==> IsDone(end, old(ref.app), manager.config.codec))
    {
      hide Effect, RequeueAfter, FailedLocally, IsExpired, ExpiryOf, WithDeprecation, OnlyConditions, IsRecorded;
      UnavailableIsRetried();
      DeprecationIsStatus(ref.app, manager.config.codec);
      MarkSpecSecretNameDeprecated(ref);
      ended, requeueAfter, end := true, None, Deleted;
      var deleted;
      deleted, now := HandleProtectedAndTimeLimited(ref.app);
      if deleted.Err? {
        LocalFail(Operation.HandleProtectedAndTimeLimited, ref);
        requeueAfter := Fail(ref, deleted.error);
        return ended, requeueAfter, NotHandled, now;
      }
      ended := deleted.value;
    }

    /** The run of an application that stays, and the write of its status when it returns. */
    method Process(ref: ApplicationRef, key: Key) returns (requeueAfter: Option<nat>, ghost end: End)
      requires Valid() && key in cluster.apps && ref.app == WithDeprecation(cluster.apps[key])
      modifies ref, cluster`apps, cluster`store
      modifies manager.kafka.users`cache, manager.openSearch.users`cache, manager.valkey.users`cache
      modifies manager.kafka.services`cache, manager.openSearch.services`cache, manager.valkey.services`cache
      modifies manager.api`users, manager.api`acls, manager.api`deletions
      ensures Valid() && end.Ran? && requeueAfter == RetryAfter(end)
      ensures Effect(end.outcome, hasher, manager.config, cluster.resources, old(ref.app), old(cluster.store),
        end.status, cluster.store)
      ensures cluster.apps ==
        if end.written then old(cluster.apps)[key := WithStatus(old(cluster.apps)[key], end.status)]
        else old(cluster.apps)
      ensures AivenAfter(end, old(manager.CachesCoherent()), old(manager.FaultFree()),
        old(ref.app), cluster.resources, manager.config, old(manager.InAiven()), manager.InAiven())
      ensures old(CanSucceed(ref.app)) ==> end.outcome in {Synchronized, UpToDate} && end.written
      ensures cluster.reliable ==> end.written
    {
      hide IsExplained;
      hide Effect, RequeueAfter, AivenEffect, Manager.CachesCoherent, CannotBeSaved, CanServeAll, HashOf;
      ghost var outcome;
      requeueAfter, outcome := Synchronize(ref);
      ghost var status := ref.app.status;
      ref.app := ref.app.(status := ref.app.status.(observedGeneration := ref.app.generation));
      var failed := cluster.UpdateStatus(key, ref.app.status);
      end := Ran(outcome, status, failed.None?);
    }

    /** `fail`: the status says so, and the error decides when to try again. */
    method Fail(ref: ApplicationRef, e: Error) returns (requeueAfter: Option<nat>)
      modifies ref
      ensures ref.app == old(ref.app).(status := old(ref.app.status).(state := RolloutFailed))
      ensures requeueAfter == RequeueAfter(e)
    {
      ref.app := ref.app.(status := ref.app.status.(state := RolloutFailed));
      if Is(e, NotFound) {
        requeueAfter := Some(REQUEUE_SECONDS * 10);
      } else if !Is(e, Unrecoverable) {
        requeueAfter := Some(REQUEUE_SECONDS);
      } else {
        requeueAfter := None;
      }
    }

    method Success(ref: ApplicationRef, hash: string)
      modifies ref
      ensures ref.app == old(ref.app).(status := SucceededStatus(old(ref.app), hash))
      ensures ref.app == old(ref.app).(status := ref.app.status)
      ensures IsSuccess(ref.app, hash)
    {
      var status := ref.app.status.(
        hash := hash, state := RolloutComplete, synchronizedGeneration := ref.app.generation);
      status := status.AddCondition(Succeeded, Condition(true, None));
      status := status.AddCondition(AivenFailure, Condition(false, None));
      ref.app := ref.app.(status := status.AddCondition(LocalFailure, Condition(false, None)));
    }

    method NeedsSynchronization(app: Application, hash: string) returns (r: Result<bool>)
      ensures r.Ok? ==> (r.value <==> NeedsSync(app, hash, cluster.store.secrets))
      ensures r.Ok? ==> (!r.value <==>
        && app.status.hash == hash
        && (app.spec.kafka.Some? && app.spec.kafka.value.secretName != "" ==>
            Key(app.namespace, app.spec.kafka.value.secretName) in cluster.store.secrets)
        && (app.spec.openSearch.Some? && app.spec.openSearch.value.secretName != "" ==>
            Key(app.namespace, app.spec.openSearch.value.secretName) in cluster.store.secrets)
        && (forall i :: 0 <= i < |app.spec.valkey| && app.spec.valkey[i].secretName != "" ==>
            Key(app.namespace, app.spec.valkey[i].secretName) in cluster.store.secrets))
      ensures cluster.reliable ==> r.Ok?
      ensures r.Err? ==> r.error == Plain(ClusterUnavailable) && app.status.hash == hash
    {
      if app.status.hash != hash {
        return Ok(true);
      }
      var keys: seq<Key> := [];
      if app.spec.kafka.Some? && app.spec.kafka.value.secretName != "" {
        keys := keys + [Key(app.namespace, app.spec.kafka.value.secretName)];
      }
      var kafka := keys;
      for i := 0 to |app.spec.valkey|
        invariant forall key :: key in keys <==>
          (key in kafka || (key.namespace == app.namespace && key.name != ""
                            && ValkeyAsksFor(app.spec.valkey[..i], key.name)))
      {
        OneMoreValkey(app.spec.valkey, i);
        if app.spec.valkey[i].secretName != "" {
          keys := keys + [Key(app.namespace, app.spec.valkey[i].secretName)];
        }
      }
      assert app.spec.valkey[..|app.spec.valkey|] == app.spec.valkey;
      if app.spec.openSearch.Some? && app.spec.openSearch.value.secretName != "" {
        keys := keys + [Key(app.namespace, app.spec.openSearch.value.secretName)];
      }
      assert forall key :: key in keys <==> key.namespace == app.namespace && IsChecked(app.spec, key.name);
      var present := ArePresent(keys);
      if present.Err? {
        return Err(present.error);
      }
      assert forall name :: Key(app.namespace, name) in keys <==> IsChecked(app.spec, name);
      CheckedAreItsSecrets(app, cluster.store.secrets);
      r := Ok(!present.value);
    }

    method ArePresent(keys: seq<Key>) returns (r: Result<bool>)
      ensures r.Ok? ==> (r.value <==> forall key :: key in keys ==> key in cluster.store.secrets)
      ensures r.Err? ==> r.error == Plain(ClusterUnavailable) && !cluster.reliable
    {
      for i := 0 to |keys|
        invariant forall j :: 0 <= j < i ==> keys[j] in cluster.store.secrets
      {
        var secret := cluster.GetSecret(keys[i]);
        if secret.Failed? && secret.error == Missing {
          return Ok(false);
        } else if secret.Failed? {
          return Err(Plain(ClusterUnavailable));
        }
      }
      r := Ok(true);
    }

    method SaveSecret(secret: Secret) returns (e: Option<Error>)
      modifies cluster`store
      ensures e.None? ==> SaveIn(old(cluster.store), secret) == Done(cluster.store)
      ensures e.Some? ==> e == Some(Plain(ClusterUnavailable)) && cluster.store == old(cluster.store)
      ensures cluster.reliable ==> (e.None? <==> SaveIn(old(cluster.store), secret).Done?)
    {
      var stored := cluster.GetSecret(secret.Id());
      var failed: Option<ApiError>;
      if stored.Failed? {
        if stored.error == Missing {
          failed := cluster.CreateSecret(secret);
        } else {
          failed := Some(stored.error);
        }
      } else {
        failed := cluster.UpdateSecret(secret.(version := stored.value.version));
      }
      e := if failed.Some? then Some(Plain(ClusterUnavailable)) else None;
    }

    /** The loop over the generated Secrets; the first failure ends it. */
    method SaveSecrets(secrets: seq<Secret>) returns (e: Option<Error>, ghost saved: nat)
      modifies cluster`store
      ensures saved <= |secrets| && SaveFirst(old(cluster.store), secrets, saved) == Done(cluster.store)
      ensures e.None? <==> saved == |secrets|
      ensures e.Some? ==> e == Some(Plain(ClusterUnavailable))
      ensures cluster.reliable && e.Some? ==> SaveFirst(old(cluster.store), secrets, |secrets|).Failed?
    {
      saved := 0;
      for i := 0 to |secrets|
        invariant saved == i && SaveFirst(old(cluster.store), secrets, i) == Done(cluster.store)
      {
        e := SaveSecret(secrets[i]);
        if e.Some? {
          if cluster.reliable {
            SavingStops(old(cluster.store), secrets, i + 1, |secrets|);
          }
          return;
        }
        saved := saved + 1;
      }
      e := None;
    }

    /** Everything between the check of the expiry and the write of the status. */
    method Synchronize(ref: ApplicationRef) returns (requeueAfter: Option<nat>, ghost end: Outcome)
      requires Valid()
      modifies ref, cluster`store
      modifies manager.kafka.users`cache, manager.openSearch.users`cache, manager.valkey.users`cache
      modifies manager.kafka.services`cache, manager.openSearch.services`cache, manager.valkey.services`cache
      modifies manager.api`users, manager.api`acls, manager.api`deletions
      ensures Valid() && requeueAfter == Retry(end)
      ensures Effect(end, hasher, manager.config, cluster.resources, old(ref.app), old(cluster.store),
        ref.app.status, cluster.store)
      ensures ref.app.generation == old(ref.app).generation
      ensures !WritesToAiven(end) ==>
        manager.api.users == old(manager.api.users) && manager.api.acls == old(manager.api.acls)
        && manager.api.deletions == old(manager.api.deletions)
      ensures AivenEffect(HasProvisioned(end), old(manager.CachesCoherent()), old(ref.app), cluster.resources,
        manager.config, old(manager.api.users), old(manager.api.acls), manager.api.users, manager.api.acls)
      ensures old(CanServe(ref.app)) && HashOf(hasher, old(ref.app)).Some? ==>
        || end.Synchronized? || end.UpToDate?
        || CannotBeSaved(old(ref.app), cluster.resources, manager.config, old(cluster.store))
      ensures old(manager.FaultFree()) ==>
        IsExplained(end, old(ref.app), cluster.resources, manager.api.components, manager.config)
    {
      NothingToExplain(ref.app, cluster.resources, manager.api.components, manager.config);
      hide IsExplained;
      hide NeedsSync, Provisioned, HashOf, AivenEffect, Manager.CachesCoherent, CannotBeSaved, CanServeAll;
      NoAivenEffect(ref.app, cluster.resources, manager.config, manager.api.users, manager.api.acls);
      var hash := HashOf(hasher, ref.app);
      if hash.None? {
        LocalFail(Operation.Hash, ref);
        requeueAfter := Fail(ref, Plain(UnknownError));
        return requeueAfter, NotHashed;
      }
      var needsSync := NeedsSynchronization(ref.app, hash.value);
      if needsSync.Err? {
        LocalFail(Operation.NeedsSynchronization, ref);
        requeueAfter := Fail(ref, needsSync.error);
        return requeueAfter, NotChecked;
      }
      if !needsSync.value {
        return None, UpToDate;
      }
      requeueAfter, end := Provision(ref, hash.value);
    }

    /** The second half of a run that found that there is something to do. */
    method Provision(ref: ApplicationRef, hash: string) returns (requeueAfter: Option<nat>, ghost end: Outcome)
      requires Valid()
      modifies ref, cluster`store
      modifies manager.kafka.users`cache, manager.openSearch.users`cache, manager.valkey.users`cache
      modifies manager.kafka.services`cache, manager.openSearch.services`cache, manager.valkey.services`cache
      modifies manager.api`users, manager.api`acls, manager.api`deletions
      ensures Valid() && requeueAfter == Retry(end) && WritesToAiven(end)
      ensures ref.app.generation == old(ref.app).generation
      ensures Provisioned(end, hash, manager.config, cluster.resources, old(ref.app), old(cluster.store),
        ref.app.status, cluster.store)
      ensures AivenEffect(HasProvisioned(end), old(manager.CachesCoherent()), old(ref.app), cluster.resources,
        manager.config, old(manager.api.users), old(manager.api.acls), manager.api.users, manager.api.acls)
      ensures old(CanServe(ref.app)) ==>
        end.Synchronized? || CannotBeSaved(old(ref.app), cluster.resources, manager.config, old(cluster.store))
      ensures old(manager.FaultFree()) ==>
        IsExplained(end, old(ref.app), cluster.resources, manager.api.components, manager.config)
    {
      hide AivenEffect, Manager.CachesCoherent, CanServeAll;
      hide Produced, SaveFirst, Valkey.AllGranted, ServiceUsers.Coherent, RequeueAfter, SecretsOf;
      hide OpenSearch.WithAccess, OnlyConditions, FailedLocally;
      ghost var app, store := ref.app, cluster.store;
      OnlyStatusMatters(app);
      var secrets := manager.CreateSecret(ref);
      if secrets.Err? {
        ghost var conditions := ref.app.status.conditions;
        LocalFail(Operation.CreateSecret, ref);
        requeueAfter := Fail(ref, secrets.error);
        return requeueAfter, NotProvisioned(secrets.error, conditions);
      }
      requeueAfter, end := SaveAll(ref, secrets.value, hash);
    }

    /** The end of a run whose handlers have succeeded. */
    method SaveAll(ref: ApplicationRef, secrets: seq<Secret>, hash: string)
      returns (requeueAfter: Option<nat>, ghost end: Outcome)
      modifies ref, cluster`store
      ensures HasProvisioned(end) && requeueAfter == Retry(end) && ref.app.generation == old(ref.app).generation
      ensures end.NotSaved? ==>
        && end.saved < |secrets| && SaveFirst(old(cluster.store), secrets, end.saved) == Done(cluster.store)
        && ref.app.status == FailedStatus(old(ref.app).status, Operation.SaveSecret)
      ensures end.Synchronized? ==>
        && SaveFirst(old(cluster.store), secrets, |secrets|) == Done(cluster.store)
        && ref.app.status == SucceededStatus(old(ref.app), hash)
      ensures cluster.reliable && end.NotSaved? ==> SaveFirst(old(cluster.store), secrets, |secrets|).Failed?
    {
      hide SaveFirst, RequeueAfter;
      var e, saved := SaveSecrets(secrets);
      if e.Some? {
        LocalFail(Operation.SaveSecret, ref);
        requeueAfter := Fail(ref, e.value);
        UnavailableIsRetried();
        return requeueAfter, NotSaved(saved);
      }
      Success(ref, hash);
      return None, Synchronized;
    }
  }

  /** What the status of an application says after a run that could write it, and that nothing else of the
      application has changed. */
  lemma WhatStatusSays(
    outcome: Outcome, status: Status, key: Key, now: Time, hasher: Hasher, config: Config, resources: Instances,
    apps: Applications, store: Store, apps': Applications, store': Store)
    requires RunEffect(
      Ran(outcome, status, true), key, now, hasher, config, resources, apps, store, apps', store')
    ensures var before, after := apps[key], apps'[key];
      && apps' == apps[key := after] && after == before.(status := after.status)
      && after.status.observedGeneration == before.generation
      && match outcome
         case NotHashed => IsFailure(after, Hash, before.status)
         case NotChecked => IsFailure(after, NeedsSynchronization, before.status)
         case NotProvisioned(_, _) => IsFailure(after, CreateSecret, before.status)
         case NotSaved(_) => IsFailure(after, SaveSecret, before.status)
         case Synchronized =>
           var hash := hasher(before.spec, before.labels, before.annotations);
           hash.Some? && IsSuccess(after, hash.value)
         case UpToDate =>
           && Some(after.status.hash) == hasher(before.spec, before.labels, before.annotations)
           && after.status.state == before.status.state && after.status.hash == before.status.hash
           && after.status.synchronizedGeneration == before.status.synchronizedGeneration
           && after.status.conditions - {Deprecated} == before.status.conditions - {Deprecated}
  {
    hide Produced, SaveFirst, IsExpired, ExpiryOf, IsChecked;
  }

  lemma OnlyStatusMatters(app: Application)
    ensures var after := OpenSearch.WithAccess(app); after.status == app.status && after.generation == app.generation
    ensures forall after :: OnlyConditions(app, after) || OnlyConditions(OpenSearch.WithAccess(app), after) ==>
      after.status == app.status.(conditions := after.status.conditions) && after.generation == app.generation
  {
  }

  lemma DeprecationIsStatus(app: Application, codec: TimeCodec)
    ensures var marked := WithDeprecation(app);
      && marked == app.(status := marked.status) && ExpiryOf(marked, codec) == ExpiryOf(app, codec)
      && forall now :: IsExpired(marked, codec, now) == IsExpired(app, codec, now)
  {
  }

  /** The application that `fail` sees when none was read. */
  function EmptyApplication(): Application {
    Application("", "", 0, map[], map[], Spec("", false, None, None, None, []), Status(New, "", 0, 0, map[]))
  }

  lemma UnavailableIsRetried()
    ensures RequeueAfter(Plain(ClusterUnavailable)) == Some(REQUEUE_SECONDS)
    ensures RequeueAfter(Plain(CannotParseTime)) == Some(REQUEUE_SECONDS)
    ensures RequeueAfter(Wrapped(ResourceDeleted, Unrecoverable)) == None
  {
  }

  lemma OneMoreValkey(specs: seq<ValkeySpec>, i: nat)
    requires i < |specs|
    ensures forall name ::
      ValkeyAsksFor(specs[..i + 1], name) <==> ValkeyAsksFor(specs[..i], name) || specs[i].secretName == name
  {
  }
}
