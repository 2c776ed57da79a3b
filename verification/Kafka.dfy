/** pkg/services/kafka/kafka.go. */
module Kafka {
  import opened Wrappers
  import opened Common
  import opened Text
  import opened Resources
  import opened Annotations
  import opened Failures
  import opened Secrets
  import opened Aiven
  import opened Provisioning
  import ServiceUsers
  import Services

  function UserName(app: Application, config: Config): Option<string> {
    config.kafkaUserName(app.namespace, app.name, CreateSuffix(config.checksum, app.generation, app.name))
  }

  /** The user that an application gets in its pool. */
  function UserFor(app: Application, config: Config): (key: UserKey)
    requires app.spec.kafka.Some? && app.spec.kafka.value.pool in config.pools && UserName(app, config).Some?
  {
    var pool := app.spec.kafka.value.pool;
    UserKey(pool, config.pools[pool], UserName(app, config).value)
  }

  function SecretFor(app: Application, user: UserKey, config: Config): Secret
    requires app.spec.kafka.Some?
  {
    var s := IndividualSecret(app, app.spec.kafka.value.secretName, config.codec);
    AddFinalizer(s.(annotations := KafkaAnnotations(s.annotations, user.user, user.project)), FINALIZER)
  }

  /** The user that the application requests, if it requests one that can be named. */
  function OwnUsers(app: Application, config: Config): set<UserKey> {
    if app.spec.kafka.Some? && app.spec.kafka.value.pool != "" && app.spec.kafka.value.pool in config.pools
      && UserName(app, config).Some?
    then {UserFor(app, config)}
    else {}
  }

  lemma NoKafkaUserYet(app: Application, name: string, config: Config)
    ensures KAFKA_SERVICE_USER !in IndividualSecret(app, name, config.codec).annotations
  {
  }

  ghost predicate HasPool(components: map<ServiceKey, seq<Component>>, pool: string, config: Config) {
    pool in config.kafkaProjects && pool in config.pools && ServiceKey(pool, config.pools[pool]) in components
  }

  /** What can keep a pool from being used, how it shows, and that only others can mend it. */
  predicate IsPoolFault(fault: Fault, components: map<ServiceKey, seq<Component>>, pool: string, config: Config) {
    if pool !in config.pools then fault == Fault(AivenFailure, ResolveServiceName, None)
    else if pool !in config.kafkaProjects then fault == Fault(LocalFailure, ValidatePool, None)
    else ServiceKey(pool, config.pools[pool]) !in components && fault == Fault(AivenFailure, GetService, None)
  }

  /** The same for a Secret of that pool; addresses in the cache may outlive the service. */
  predicate IsSecretFault(
    fault: Fault, components: map<ServiceKey, seq<Component>>, spec: KafkaSpec, config: Config)
  {
    || IsPoolFault(fault, components, spec.pool, config)
    || (spec.pool in config.pools && spec.pool in config.kafkaProjects && !IsDNS1123Label(spec.secretName)
        && fault == Fault(AivenFailure, GetOrInitSecret, None))
  }

  predicate IsFault(fault: Fault, components: map<ServiceKey, seq<Component>>, app: Application, config: Config) {
    && AsksForKafka(app)
    && var spec := app.spec.kafka.value;
    || IsSecretFault(fault, components, spec, config)
    || (spec.pool in config.pools && spec.pool in config.kafkaProjects && IsDNS1123Label(spec.secretName)
        && config.kafkaUserName(
             app.namespace, app.name, CreateSuffix(config.checksum, app.generation, app.name)).None?
        && fault == Fault(LocalFailure, ServiceUserNameWithSuffix, None))
  }

  lemma FaultsAreNeeds(components: map<ServiceKey, seq<Component>>, app: Application, config: Config)
    ensures CanServe(components, app, config) <==> forall fault :: !IsFault(fault, components, app, config)
  {
    var shown := Fault(LocalFailure, ServiceUserNameWithSuffix, None);
    if forall fault :: !IsFault(fault, components, app, config) {
      assert !IsFault(Fault(AivenFailure, ResolveServiceName, None), components, app, config);
      assert !IsFault(Fault(LocalFailure, ValidatePool, None), components, app, config);
      assert !IsFault(Fault(AivenFailure, GetService, None), components, app, config);
      assert !IsFault(Fault(AivenFailure, GetOrInitSecret, None), components, app, config);
      assert !IsFault(shown, components, app, config);
    }
  }

  /** What a request needs: a name for its Secret, a name for its user, and an allowed pool that has a
      service. */
  ghost predicate CanServe(components: map<ServiceKey, seq<Component>>, app: Application, config: Config) {
    AsksForKafka(app) ==>
      var spec := app.spec.kafka.value;
      && IsDNS1123Label(spec.secretName) && HasPool(components, spec.pool, config)
      && config.kafkaUserName(
        app.namespace, app.name, CreateSuffix(config.checksum, app.generation, app.name)).Some?
  }

  /** A Secret for the user of the pool, made from `base`. */
  ghost predicate IsSecret(s: Secret, base: Annotations, app: Application, user: UserKey, config: Config) {
    && app.spec.kafka.Some?
    && var spec := app.spec.kafka.value;
    && IsMadeFor(s, base, app, spec.secretName, config.codec)
    && Maps(s.annotations, "kafka.aiven.nais.io/serviceUser", user.user)
    && Maps(s.annotations, "kafka.aiven.nais.io/pool", spec.pool)
    && SameBut(base, s.annotations, {"kafka.aiven.nais.io/serviceUser", "kafka.aiven.nais.io/pool"})
    && user.project == spec.pool && Maps(config.pools, spec.pool, user.service)
    && Some(user.user) == config.kafkaUserName(
        app.namespace, app.name, CreateSuffix(config.checksum, app.generation, app.name))
  }

  lemma SecretForIs(app: Application, config: Config)
    requires app.spec.kafka.Some? && app.spec.kafka.value.pool in config.pools && UserName(app, config).Some?
    ensures var user := UserFor(app, config);
      exists base :: IsSecret(SecretFor(app, user, config), base, app, user, config)
  {
    hide IsMadeFor, Maps, SameBut, WithObjectMeta, CreateSuffix;
    var user, name := UserFor(app, config), app.spec.kafka.value.secretName;
    var base := IndividualSecret(app, name, config.codec).annotations;
    KafkaWrites(base, user.user, user.project);
    IndividualIsMadeFor(app, name, KafkaAnnotations(base, user.user, user.project), config.codec);
    assert Maps(config.pools, user.project, user.service) by {
      PoolMaps(config.pools, user.project);
    }
    assert IsSecret(SecretFor(app, user, config), base, app, user, config);
  }

  lemma PoolMaps(pools: map<string, string>, pool: string)
    requires pool in pools
    ensures Maps(pools, pool, pools[pool])
  {
  }

  predicate AsksForKafka(app: Application) {
    app.spec.kafka.Some? && app.spec.kafka.value.pool != ""
  }

  /** A success gives the Secret of the user of the pool, who is on the server if the cache was coherent. */
  ghost predicate Applied(
    coherent: bool, app: Application, config: Config, before: ServiceUsers.Users, secrets: seq<Secret>,
    after: ServiceUsers.Users)
  {
    if !AsksForKafka(app) then secrets == [] && after == before
    else
      && app.spec.kafka.value.pool in config.kafkaProjects && app.spec.kafka.value.pool in config.pools
      && UserName(app, config).Some?
      && var user := UserFor(app, config);
      && secrets == [SecretFor(app, user, config)] && (exists base :: IsSecret(secrets[0], base, app, user, config))
      && MayProvide(before, user, after) && (coherent ==> user in after)
  }

  lemma NothingApplied(app: Application, config: Config, users: ServiceUsers.Users)
    ensures !AsksForKafka(app) ==> forall coherent :: Applied(coherent, app, config, users, [], users)
  {
  }

  lemma ItIsApplied(
    coherent: bool, app: Application, config: Config, before: ServiceUsers.Users, after: ServiceUsers.Users)
    requires AsksForKafka(app) && UserName(app, config).Some?
    requires app.spec.kafka.value.pool in config.kafkaProjects && app.spec.kafka.value.pool in config.pools
    requires MayProvide(before, UserFor(app, config), after) && (coherent ==> UserFor(app, config) in after)
    ensures Applied(coherent, app, config, before, [SecretFor(app, UserFor(app, config), config)], after)
  {
    hide IsSecret, SecretFor, UserFor, UserName;
    SecretForIs(app, config);
    var secrets := [SecretFor(app, UserFor(app, config), config)];
    assert secrets[0] == SecretFor(app, UserFor(app, config), config);
  }

  /** The user of the pool is not there any more, and everybody else is as before. */
  ghost predicate TookBack(app: Application, config: Config, before: ServiceUsers.Users, after: ServiceUsers.Users) {
    && app.spec.kafka.Some? && app.spec.kafka.value.pool in config.pools && UserName(app, config).Some?
    && after == before - {UserFor(app, config)}
  }

  const CRED_STORE_FAILURE := Plain(NoCredStores)

  method MakeCredStores(reliable: bool) returns (e: Option<Error>)
    ensures e.Some? ==> e.value == CRED_STORE_FAILURE && !reliable
  {
    if reliable {
      return None;
    } else if * {
      return Some(CRED_STORE_FAILURE);
    }
    e := None;
  }

  class Handler {
    const api: Api
    const users: ServiceUsers.Manager
    const services: Services.Manager
    const config: Config

    ghost predicate Valid()
      reads users, api`users
    {
      users.api == api && services.api == api && users.Valid()
    }

    constructor (api: Api, config: Config)
      requires api.Valid()
      ensures Valid() && this.api == api && this.config == config && fresh(users) && fresh(services)
    {
      this.api, this.config := api, config;
      users := new ServiceUsers.Manager(api);
      services := new Services.Manager(api);
    }

    method ResolveServiceName(pool: string) returns (r: Result<string>)
      ensures r.Ok? ==> pool in config.pools && r.value == config.pools[pool]
      ensures r.Err? ==> Remote(r.error)
      ensures api.reliable && pool in config.pools ==> r.Ok?
      ensures api.reliable && pool !in config.pools ==> r == Err(AivenError(404, "no Kafka service"))
    {
      var fault := api.Outage();
      if fault.Some? {
        return Err(fault.value);
      }
      r := if pool in config.pools then Ok(config.pools[pool]) else Err(AivenError(404, "no Kafka service"));
    }

    method ProvideServiceUser(ref: ApplicationRef, pool: string, service: string, annotations: Annotations)
      returns (r: Result<User>)
      requires Valid()
      modifies ref, users`cache, api`users
      ensures Valid()
      ensures OnlyConditions(old(ref.app), ref.app)
      ensures r.Ok? ==> ref.app == old(ref.app)
      ensures r.Ok? && KAFKA_SERVICE_USER !in annotations ==> Some(r.value.name) == UserName(old(ref.app), config)
      ensures r.Ok? && KAFKA_SERVICE_USER in annotations ==> r.value.name == annotations[KAFKA_SERVICE_USER]
      ensures r.Ok? ==> var key := UserKey(pool, service, r.value.name);
        && MayProvide(old(api.users), key, api.users)
        && (old(users.IsCoherent()) ==> users.IsCoherent() && key in api.users)
      ensures r.Err? ==> api.users == old(api.users) && r.error.Wrapped?
      ensures api.reliable && UserName(old(ref.app), config).Some? ==> r.Ok?
      ensures api.reliable && r.Err? ==>
        Shows(Fault(LocalFailure, ServiceUserNameWithSuffix, None),
          old(ref.app.status.conditions), r.error, ref.app.status.conditions)
    {
      hide ServiceUsers.Coherent;
      var name: string;
      if KAFKA_SERVICE_USER in annotations {
        name := annotations[KAFKA_SERVICE_USER];
      } else {
        var userName := UserName(ref.app, config);
        if userName.None? {
          LocalFail(Operation.ServiceUserNameWithSuffix, ref);
          return Err(Wrapped(BadServiceUserName, Unrecoverable));
        }
        name := userName.value;
      }
      r := GetOrCreate(users, ref, UserKey(pool, service, name));
    }

    /** The first half of Apply: everything that is checked before a Secret is begun. */
    method LocateService(ref: ApplicationRef, pool: string) returns (r: Result<string>)
      requires services.api == api
      modifies ref, services`cache
      ensures OnlyConditions(old(ref.app), ref.app)
      ensures r.Ok? ==> ref.app == old(ref.app)
      ensures r.Ok? ==> pool in config.kafkaProjects && pool in config.pools && r.value == config.pools[pool]
      ensures r.Err? ==> r.error.Wrapped?
      ensures api.reliable && r.Err? ==>
        exists fault :: IsPoolFault(fault, api.components, pool, config)
          && Shows(fault, old(ref.app.status.conditions), r.error, ref.app.status.conditions)
    {
      Retries(Operation.ResolveServiceName, "no Kafka service");
      Retries(Operation.GetService, "not found");
      hide RequeueAfter;
      hide Services.AddressesOf, IsRecorded, FailedInAiven, FailedLocally, UnwrapAivenError, OnlyConditions;
      ConditionsMayStay(ref.app);
      var service := ResolveServiceName(pool);
      if service.Err? {
        var failure := AivenFail(Operation.ResolveServiceName, ref, service.error, false);
        if api.reliable {
          assert IsPoolFault(Fault(AivenFailure, Operation.ResolveServiceName, None), api.components, pool, config);
        }
        return Err(failure);
      }
      if pool !in config.kafkaProjects {
        LocalFail(Operation.ValidatePool, ref);
        assert IsPoolFault(Fault(LocalFailure, ValidatePool, None), api.components, pool, config);
        return Err(Wrapped(PoolNotAllowed, Unrecoverable));
      }
      var now := Now();
      var fetched := Now();
      var read := api.Answered(fetched);
      var addresses := services.GetServiceAddressesFromCache(ServiceKey(pool, service.value), now, fetched, read);
      if addresses.Err? {
        var failure := AivenFail(Operation.GetService, ref, addresses.error, false);
        if api.reliable {
          assert IsPoolFault(Fault(AivenFailure, GetService, None), api.components, pool, config);
        }
        return Err(failure);
      }
      var ca := api.GetCA(pool);
      if ca.Some? {
        var failure := AivenFail(Operation.GetCA, ref, ca.value, false);
        return Err(failure);
      }
      r := service;
    }

    /** The service of the pool, and a Secret that is begun for it. */
    method BeginSecret(ref: ApplicationRef, spec: KafkaSpec) returns (r: Result<string>, individual: Secret)
      requires services.api == api
      modifies ref, services`cache
      ensures OnlyConditions(old(ref.app), ref.app)
      ensures r.Ok? ==>
        && ref.app == old(ref.app) && individual == IndividualSecret(ref.app, spec.secretName, config.codec)
        && spec.pool in config.kafkaProjects && spec.pool in config.pools && r.value == config.pools[spec.pool]
        && IsDNS1123Label(spec.secretName)
      ensures r.Err? ==> r.error.Wrapped?
      ensures api.reliable && r.Err? ==>
        exists fault :: IsSecretFault(fault, api.components, spec, config)
          && Shows(fault, old(ref.app.status.conditions), r.error, ref.app.status.conditions)
    {
      Retries(Operation.GetOrInitSecret, "");
      LabelsAreDNS1123(spec.secretName);
      hide RequeueAfter;
      hide OnlyConditions, IsRecorded, FailedInAiven, UnwrapAivenError, IsDNS1123Label, WithObjectMeta;
      var final := new SecretRef(ref.app.namespace, spec.secretName);
      individual := final.secret;
      r := LocateService(ref, spec.pool);
      if r.Ok? {
        var e := ApplyIndividualSecret(ref.app, final, api, config);
        if e.Some? {
          var failure := AivenFail(Operation.GetOrInitSecret, ref, e.value, false);
          if api.reliable {
            assert IsSecretFault(Fault(AivenFailure, GetOrInitSecret, None), api.components, spec, config);
          }
          return Err(failure), individual;
        }
        individual := final.secret;
      }
    }

    /** The credential stores of a user; when they cannot be made, the user is taken back. */
    method StoreCredentials(ref: ApplicationRef, annotations: Annotations) returns (e: Option<Error>)
      requires Valid()
      modifies ref, users`cache, api`users, api`deletions
      ensures Valid()
      ensures OnlyConditions(old(ref.app), ref.app)
      ensures e.None? ==> ref.app == old(ref.app) && users.cache == old(users.cache)
      ensures e.None? ==> api.users == old(api.users) && api.deletions == old(api.deletions)
      ensures var named := TargetUsers(KafkaTarget(annotations, config.pools));
        && (api.users == old(api.users) || api.users == old(api.users) - named)
        && (e == Some(CRED_STORE_FAILURE) ==> named !! api.users.Keys)
      ensures api.reliable ==> e.None?
    {
      hide ServiceUsers.Coherent, KafkaTarget;
      e := MakeCredStores(api.reliable);
      if e.Some? {
        LocalFail(Operation.CreateCredStores, ref);
        var cleanup := Cleanup(annotations);
        e := if cleanup.Some? then cleanup else e;
      }
    }

    /** A Secret is returned only for an allowed pool, and names a user that is on the server.
        When the credential stores cannot be made, their error is reported only once the user has
        been taken back, even one that was there before the call and that a stored Secret may name;
        otherwise the caller gets the error of that clean-up. Nobody else is touched in any case. */
    method Apply(ref: ApplicationRef) returns (r: Result<seq<Secret>>)
      requires Valid()
      modifies ref, users`cache, services`cache, api`users, api`deletions
      ensures Valid()
      ensures OnlyConditions(old(ref.app), ref.app)
      ensures r.Ok? ==> ref.app == old(ref.app) && api.deletions == old(api.deletions)
      ensures r.Ok? ==>
        Applied(old(users.IsCoherent()), old(ref.app), config, old(api.users), r.value, api.users)
      ensures AsksForKafka(old(ref.app)) && r.Ok? && old(users.IsCoherent()) ==> users.IsCoherent()
      ensures !AsksForKafka(old(ref.app)) ==> r.Ok?
      ensures api.reliable && r.Err? ==>
        exists fault :: IsFault(fault, api.components, old(ref.app), config)
          && Shows(fault, old(ref.app.status.conditions), r.error, ref.app.status.conditions)
      ensures r == Err(CRED_STORE_FAILURE) ==> TookBack(old(ref.app), config, old(api.users), api.users)
      ensures ServiceUsers.OnlyWithin(OwnUsers(old(ref.app), config), old(api.users), api.users)
    {
      assert services.api == api;
      hide Valid, ServiceUsers.Coherent, MayProvide, WithObjectMeta, AddFinalizer, Applied, HasPool, UserName;
      hide KafkaAnnotations, KafkaTarget, OnlyConditions, IsDNS1123Label, CanServe;
      ConditionsMayStay(ref.app);
      NothingApplied(ref.app, config, api.users);
      if ref.app.spec.kafka.None? {
        return Ok([]);
      }
      var spec := ref.app.spec.kafka.value;
      if spec.pool == "" {
        return Ok([]);
      }
      var service, individual := BeginSecret(ref, spec);
      if service.Err? {
        return Err(service.error);
      }
      NoKafkaUserYet(ref.app, spec.secretName, config);
      var user := ProvideServiceUser(ref, spec.pool, service.value, individual.annotations);
      if user.Err? {
        return Err(user.error);
      }
      var annotations := KafkaAnnotations(individual.annotations, user.value.name, spec.pool);
      KafkaTargetRecovered(individual.annotations, user.value.name, spec.pool, config.pools);
      ghost var provided, own := api.users, UserFor(ref.app, config);
      TakenBack(old(api.users), own, provided, provided);
      var credStores := StoreCredentials(ref, annotations);
      if credStores.Some? {
        TakenBack(old(api.users), own, provided, api.users);
        return Err(credStores.value);
      }
      individual := AddFinalizer(individual.(annotations := annotations), FINALIZER);
      assert individual == SecretFor(ref.app, own, config);
      ItIsApplied(old(users.IsCoherent()), ref.app, config, old(api.users), api.users);
      r := Ok([individual]);
    }

    /** Success means that the named user was deleted just now or reported absent. */
    method Cleanup(annotations: Annotations) returns (e: Option<Error>)
      requires Valid()
      modifies users`cache, api`users, api`deletions
      ensures Valid()
      ensures var target := KafkaTarget(annotations, config.pools);
        && (target.Broken? ==> e.Some?) && (target.Nothing? ==> e.None?)
        && (!target.Named? ==> api.users == old(api.users) && api.deletions == old(api.deletions))
        && (api.deletions != old(api.deletions) ==>
          target.Named? && api.deletions == old(api.deletions) + [target.user])
        && (e.None? && target.Named? ==>
          target.user !in api.users && api.deletions == old(api.deletions) + [target.user])
      ensures forall user :: KafkaNames(annotations, config.pools, user) ==>
        (e.None? ==> user !in api.users) && (api.reliable ==> e.None?)
      ensures "kafka.aiven.nais.io/serviceUser" !in annotations ==> e.None?
      ensures "kafka.aiven.nais.io/serviceUser" in annotations && e.None? ==>
        exists user :: KafkaNames(annotations, config.pools, user)
      ensures e.Some? ==> e.value != CRED_STORE_FAILURE
      ensures api.users != old(api.users) ==>
        api.users == old(api.users) - TargetUsers(KafkaTarget(annotations, config.pools))
    {
      hide KafkaNames;
      TargetsAre(annotations, config.pools);
      if KAFKA_SERVICE_USER !in annotations {
        return None;
      }
      if KAFKA_POOL !in annotations {
        return Some(Plain(MissingAnnotation));
      }
      var pool := annotations[KAFKA_POOL];
      var service := ResolveServiceName(pool);
      if service.Err? {
        return Some(service.error);
      }
      var now := Now();
      e := users.Delete(UserKey(pool, service.value, annotations[KAFKA_SERVICE_USER]), now);
      if e.Some? && IsNotFound(e.value) {
        e := None;
      }
    }
  }
}
