/** Runs of the application reconciler after which a user is named by no stored Secret, or a stored Secret
    is about to lose its user, or has lost it. */
module LostUsers {
  import opened Wrappers
  import opened Common
  import opened Resources
  import opened Annotations
  import opened Aiven
  import opened Secrets
  import opened Cluster
  import opened Credentials
  import opened Reconciler
  import opened Synchronization
  import opened SharedNames
  import Kafka
  import Valkey
  import ServiceUsers
  import LiveSecrets
  import LiveSecretRuns

  lemma SavedThere(store: Store, secret: Secret)
    requires secret.Id() in store.secrets ==> !store.secrets[secret.Id()].terminating
    requires secret.finalizers != []
    ensures SaveIn(store, secret).Done?
    ensures var after := SaveIn(store, secret).value.secrets;
      && secret.Id() in after && !after[secret.Id()].terminating
      && after - {secret.Id()} == store.secrets - {secret.Id()}
  {
  }

  lemma TwoSaves(store: Store, first: Secret, second: Secret)
    requires first.Id() !in store.secrets && second.Id() !in store.secrets
    requires first.finalizers == second.finalizers == [FINALIZER]
    ensures SaveFirst(store, [first, second], 2).Done?
  {
    hide SaveIn;
    assert SaveFirst(store, [first, second], 0) == Done(store);
    SavedThere(store, first);
    var once := SaveIn(store, first).value;
    assert SaveFirst(store, [first, second], 1) == Done(once);
    assert second.Id() != first.Id() ==> second.Id() !in once.secrets - {first.Id()};
    SavedThere(once, second);
  }

  lemma OneSave(store: Store, secret: Secret)
    requires secret.Id() in store.secrets ==> !store.secrets[secret.Id()].terminating
    requires secret.finalizers != []
    ensures SaveFirst(store, [secret], 1).Done?
  {
    hide SaveIn;
    assert SaveFirst(store, [secret], 0) == Done(store);
    SavedThere(store, secret);
  }

  // A shared name

  const SHARED_NAME := Spec("", false, None, None, None, [ValkeySpec("a", "read", "s"), ValkeySpec("b", "read", "s")])

  /** Two Valkey requests that share a Secret name: from every cluster without that Secret a run can
      succeed, and unless a Secret named the user of the first request before, none does then. */
  lemma SharedNameLosesUser(hasher: Hasher, config: Config, resources: Instances, app: Application, store: Store)
    requires app.spec == SHARED_NAME && Key(app.namespace, "s") !in store.secrets
    requires !IsNamedIn(store.secrets, Valkey.UserFor(app, app.spec.valkey[0], config), config.pools)
    requires HashOf(hasher, app).Some? && app.status.hash != HashOf(hasher, app).value
    ensures exists status, store' ::
      && Effect(Synchronized, hasher, config, resources, app, store, status, store')
      && !IsNamedIn(store'.secrets, Valkey.UserFor(app, app.spec.valkey[0], config), config.pools)
  {
    hide Produced, SaveFirst, IsNamedIn, SecretsOf, Valkey.UserFor;
    ValkeySecrets(app, resources, config);
    var secrets := SecretsFor(app, resources, config);
    assert secrets == [secrets[0], secrets[1]];
    TwoSaves(store, secrets[0], secrets[1]);
    var store' := SaveFirst(store, secrets, 2).value;
    var status := SucceededStatus(app, HashOf(hasher, app).value);
    assert Effect(Synchronized, hasher, config, resources, app, store, status, store');
    ValkeyUserIsNamed(hasher, config, resources, app, store, status, store', 0);
    OnlyTheLast(app.spec);
    NotElsewhere(store.secrets, Valkey.UserFor(app, app.spec.valkey[0], config), app, config);
  }

  lemma OnlyTheLast(spec: Spec)
    requires spec == SHARED_NAME
    ensures forall m :: IsLastRequest(spec.valkey, m) ==> !SameRequest(spec.valkey[m], spec.valkey[0])
  {
    assert spec.valkey[0].instance[0] != spec.valkey[1].instance[0];
  }

  lemma NotElsewhere(stored: Cluster.Secrets, user: UserKey, app: Application, config: Config)
    requires !IsNamedIn(stored, user, config.pools)
    ensures !IsNamedElsewhere(stored, user, app.namespace, ProducedNames(app.spec), config.pools)
  {
  }

  // An earlier generation

  /** The ordinary way: the run for a new generation writes over the only Secret that names the user of the
      old one, whenever the suffixes of the two generations differ. */
  lemma EarlierGenerationIsLost(
    hasher: Hasher, config: Config, resources: Instances, app: Application, generation: int, store: Store)
    requires app.spec.kafka.None? && app.spec.openSearch.None? && |app.spec.valkey| == 1
    requires CreateSuffix(config.checksum, generation, app.name) !=
             CreateSuffix(config.checksum, app.generation, app.name)
    requires HashOf(hasher, app).Some? && app.status.hash != HashOf(hasher, app).value
    requires HoldsEarlier(app, generation, store, config)
    ensures exists status, store' ::
      && Effect(Synchronized, hasher, config, resources, app, store, status, store')
      && !IsNamedIn(store'.secrets, EarlierUser(app, generation, config), config.pools)
    ensures IsNamedIn(store.secrets, EarlierUser(app, generation, config), config.pools)
  {
    hide Effect, NamedUsers, EarlierUser, IsNamedIn, CreateSuffix;
    var user := EarlierUser(app, generation, config);
    var status, store' := OneRequestSucceeds(hasher, config, resources, app, store);
    EarlierSecretNamesIt(app, generation, store, config);
    HasName(store.secrets, StoredFor(app, 0), user, config);
    GenerationsDiffer(app, generation, config);
    OnlyOwnUser(app, resources, config, user);
    OnlyUnderOwnName(app, store.secrets, user, config);
    WhoIsLost(hasher, config, resources, app, store, status, store', user);
  }

  lemma HasName(stored: Cluster.Secrets, key: Key, user: UserKey, config: Config)
    requires NamesUser(stored, key, user, config.pools)
    ensures IsNamedIn(stored, user, config.pools)
  {
  }

  lemma OneRequestSucceeds(hasher: Hasher, config: Config, resources: Instances, app: Application, store: Store)
    returns (status: Status, store': Store)
    requires app.spec.kafka.None? && app.spec.openSearch.None? && |app.spec.valkey| == 1
    requires StoredFor(app, 0) in store.secrets ==> !store.secrets[StoredFor(app, 0)].terminating
    requires HashOf(hasher, app).Some? && app.status.hash != HashOf(hasher, app).value
    ensures Effect(Synchronized, hasher, config, resources, app, store, status, store')
  {
    hide Produced, SaveFirst, SecretsOf;
    ValkeySecrets(app, resources, config);
    var secrets := SecretsFor(app, resources, config);
    assert secrets == [secrets[0]];
    OneSave(store, secrets[0]);
    store' := SaveFirst(store, secrets, 1).value;
    status := SucceededStatus(app, HashOf(hasher, app).value);
  }

  lemma OnlyOwnUser(app: Application, resources: Instances, config: Config, user: UserKey)
    requires app.spec.kafka.None? && app.spec.openSearch.None? && |app.spec.valkey| == 1
    requires user != Valkey.UserFor(app, app.spec.valkey[0], config)
    ensures !LastIsFor(user, ProductsFor(app, resources, config), ProducedNames(app.spec))
  {
    hide Produced, ProducedNames, Valkey.UserFor;
    ValkeySecrets(app, resources, config);
    UsersInOrder(app, resources, config);
  }

  lemma OnlyUnderOwnName(app: Application, stored: Cluster.Secrets, user: UserKey, config: Config)
    requires |app.spec.valkey| == 1
    requires forall other :: other != StoredFor(app, 0) ==> !NamesUser(stored, other, user, config.pools)
    ensures forall key :: NamesUser(stored, key, user, config.pools) ==>
      IsAmong(key, app.namespace, ProducedNames(app.spec))
  {
    hide ProducedNames, NamesUser;
    NamesInOrder(app.spec);
    assert ProducedNames(app.spec)[ValkeyIndex(app.spec) + 0] == app.spec.valkey[0].secretName;
  }

  /** The user of the one Valkey request in an earlier generation of the application. */
  function EarlierUser(app: Application, generation: int, config: Config): UserKey
    requires |app.spec.valkey| == 1
  {
    Valkey.UserFor(app.(generation := generation), app.spec.valkey[0], config)
  }

  /** The Secret of that generation is stored, live, and no other Secret names its user. */
  ghost predicate HoldsEarlier(app: Application, generation: int, store: Store, config: Config)
    requires |app.spec.valkey| == 1
  {
    var key := StoredFor(app, 0);
    && key in store.secrets && !store.secrets[key].terminating
    && store.secrets[key].annotations ==
         Valkey.SecretFor(app.(generation := generation), app.spec.valkey[0], config).annotations
    && forall other :: other != key ==>
         !NamesUser(store.secrets, other, EarlierUser(app, generation, config), config.pools)
  }

  lemma EarlierSecretNamesIt(app: Application, generation: int, store: Store, config: Config)
    requires |app.spec.valkey| == 1 && HoldsEarlier(app, generation, store, config)
    ensures NamesUser(store.secrets, StoredFor(app, 0), EarlierUser(app, generation, config), config.pools)
  {
    hide NamedUsers, Valkey.SecretFor, Valkey.UserFor, IsGenerated;
    ValkeyProduct(app.(generation := generation), app.spec.valkey[0], config);
  }

  lemma GenerationsDiffer(app: Application, generation: int, config: Config)
    requires |app.spec.valkey| == 1
    requires CreateSuffix(config.checksum, generation, app.name) !=
             CreateSuffix(config.checksum, app.generation, app.name)
    ensures EarlierUser(app, generation, config) != Valkey.UserFor(app, app.spec.valkey[0], config)
  {
    hide CreateSuffix, SelectSuffix;
    var head := app.name + SelectSuffix(app.spec.valkey[0].access) + "-";
    var earlier := CreateSuffix(config.checksum, generation, app.name);
    var current := CreateSuffix(config.checksum, app.generation, app.name);
    if head + earlier == head + current {
      SameEnd(head, earlier, current);
    }
  }

  // A shared user

  const SHARED_USER := Spec("", false, None, None, None, [ValkeySpec("a", "read", "s"), ValkeySpec("a", "read", "t")])

  lemma {:induction false} SavesKeepSound(store: Store, secrets: seq<Secret>, n: nat, store': Store)
    requires n <= |secrets| && SaveFirst(store, secrets, n) == Done(store') && Sound(store)
    ensures Sound(store')
  {
    hide SaveIn;
    if n > 0 {
      var before := SaveFirst(store, secrets, n - 1).value;
      SavesKeepSound(store, secrets, n - 1, before);
      SaveKeepsSound(before, secrets[n - 1], store');
    }
  }

  lemma SaveKeepsSound(store: Store, secret: Secret, store': Store)
    requires SaveIn(store, secret) == Done(store') && Sound(store)
    ensures Sound(store')
  {
  }

  /** Two Valkey requests for one user under two Secret names: after a success the deletion of one Secret,
      with a pass that begins as it should, takes the user of the other, which stays. */
  lemma SharedUserIsTaken(
    hasher: Hasher, config: Config, resources: Instances, app: Application, store: Store, users: set<UserKey>)
    requires app.spec == SHARED_USER && Sound(store)
    requires StoredFor(app, 0) !in store.secrets && StoredFor(app, 1) !in store.secrets
    requires HashOf(hasher, app).Some? && app.status.hash != HashOf(hasher, app).value
    requires Valkey.UserFor(app, app.spec.valkey[1], config) in users
    ensures exists status, store', states ::
      && Effect(Synchronized, hasher, config, resources, app, store, status, store')
      && LiveSecretRuns.RobsTwin(states, store', users, StoredFor(app, 0), StoredFor(app, 1),
           Valkey.UserFor(app, app.spec.valkey[1], config), config.pools)
  {
    hide Produced, SaveFirst, SecretsOf, Valkey.UserFor, NamedUsers, LiveSecretRuns.RobsTwin, Sound;
    ValkeySecrets(app, resources, config);
    var secrets := SecretsFor(app, resources, config);
    assert secrets == [secrets[0], secrets[1]];
    TwoSaves(store, secrets[0], secrets[1]);
    var store' := SaveFirst(store, secrets, 2).value;
    var status := SucceededStatus(app, HashOf(hasher, app).value);
    assert Effect(Synchronized, hasher, config, resources, app, store, status, store');
    BothAreLast(app.spec);
    StoredNamesItsUser(hasher, config, resources, app, store, status, store', 0);
    StoredNamesItsUser(hasher, config, resources, app, store, status, store', 1);
    SameValkeyUser(app, app.spec.valkey[0], app.spec.valkey[1], config);
    SavesKeepSound(store, secrets, 2, store');
    DeletionsGoOn(Synchronized, hasher, config, resources, app, store, status, store');
    LiveSecretRuns.TwinLosesUser(
      store', users, StoredFor(app, 0), StoredFor(app, 1), Valkey.UserFor(app, app.spec.valkey[1], config),
      config.pools);
  }

  lemma BothAreLast(spec: Spec)
    requires spec == SHARED_USER
    ensures IsLastRequest(spec.valkey, 0) && IsLastRequest(spec.valkey, 1)
    ensures spec.valkey[0].secretName != spec.valkey[1].secretName
    ensures spec.valkey[0].instance == spec.valkey[1].instance && spec.valkey[0].access == spec.valkey[1].access
  {
    assert spec.valkey[0].secretName[0] != spec.valkey[1].secretName[0];
  }

  // Kafka's compensation

  /** After a success that stored the Kafka Secret, a later run of the same generation whose credential stores
      cannot be made leaves `after`; the stored Secret loses its user to it if and only if the user was there. */
  lemma CompensationTakesStoredUser(
    hasher: Hasher, config: Config, resources: Instances, app: Application, store: Store, status: Status, store': Store,
    before: ServiceUsers.Users, after: ServiceUsers.Users)
    requires Effect(Synchronized, hasher, config, resources, app, store, status, store')
    requires OpenSearchIndex(app.spec) == 1 && IsLast(ProducedNames(app.spec), 0)
    requires ProductsFor(app, resources, config) != []
    requires after == before - {ProductsFor(app, resources, config)[0].user}
    ensures var key := Key(app.namespace, app.spec.kafka.value.secretName);
      (exists user :: NamesUser(store'.secrets, key, user, config.pools) && user in before && user !in after) <==>
        ProductsFor(app, resources, config)[0].user in before
    ensures app.spec.kafka.value.pool in config.pools && Kafka.UserName(app, config).Some?
    ensures ProductsFor(app, resources, config)[0].user == Kafka.UserFor(app, config)
  {
    hide NeedsSync, Produced, ProducedNames, SaveFirst, NamedUsers, IsLast, Kafka.UserFor;
    NamesInOrder(app.spec);
    UsersInOrder(app, resources, config);
    StoredNamesLast(hasher, config, resources, app, store, status, store', 0);
  }
}
