/** Runs in which finalizer passes do harm. */
module LiveSecretRuns {
  import opened Wrappers
  import opened Resources
  import opened Annotations
  import opened Aiven
  import opened Cluster
  import opened Protocol
  import opened LiveSecrets

  lemma OneVouched(a: Annotations, pools: map<string, string>, user: UserKey)
    requires KafkaTarget(a, pools) == Named(user) && OpenSearchTarget(a) == Nothing
    ensures Vouched(a, pools) == {user}
  {
  }

  /** A run from an empty queue up to a SaveSecret that creates a Secret, which nobody is deleting,
      and its continuation by a pass that takes the Secret's user and its finalizer. */
  ghost predicate FinalizesLive(
    states: seq<State>, steps: seq<Step>, states': seq<State>, pools: map<string, string>, key: Key, user: UserKey)
  {
    && Run(states, steps, pools) && |states[0].queue| == 0 && |steps| > 0 && steps[|steps| - 1] == SaveWrite(0)
    && Path(states', [Sync(key), PassRead(key), PassClean(key, {user}), PassWrite(key)], pools)
    && states'[0] == states[|steps|]
    && IsLive(states'[0].store, key) && Finalizable(states'[0].store, key)
    && user in NamedUsers(states'[0].store.secrets[key].annotations, pools) && user in states'[0].users
    && IsLive(states'[4].store, key) && !Finalizable(states'[4].store, key) && user !in states'[4].users
  }

  /** A run from an empty queue, and its continuation by a pass that reads a Secret marked for deletion
      and takes the user of the live, finalizable Secret that SaveSecret creates meanwhile. */
  ghost predicate StaleReadHarms(
    states: seq<State>, steps: seq<Step>, states': seq<State>, secret: Secret, pools: map<string, string>,
    user: UserKey)
  {
    var key := secret.Id();
    var steps' := [
      PassRead(key), Sync(key), OutsideUsers, SaveRead(0, secret), SaveWrite(0), PassClean(key, {user})];
    && Run(states, steps, pools) && |states[0].queue| == 0
    && key in states[|steps|].cached && Interesting(states[|steps|].cached[key])
    && HarmfulPass(states[|steps|], states', steps', key, pools)
    && Finalizable(states'[6].store, key) && user in states'[5].users && user !in states'[6].users
    && user in NamedUsers(states'[6].store.secrets[key].annotations, pools)
  }

  /** A Secret that names one Kafka user, as SaveSecret writes it. */
  function KafkaSecret(key: Key, pool: string, name: string): Secret {
    Secret(key.namespace, key.name, 0, map[], KafkaAnnotations(map[], name, pool), [FINALIZER], false)
  }

  lemma NamesItsUser(key: Key, pool: string, service: string, name: string)
    ensures var pools, user := map[pool := service], UserKey(pool, service, name);
      var a := KafkaSecret(key, pool, name).annotations;
      NamedUsers(a, pools) == Vouched(a, pools) == {user}
  {
    hide NamedUsers, Vouched, KafkaTarget, KafkaAnnotations;
    var pools := map[pool := service];
    KafkaRoundTrip(map[], name, pool, pools);
    OneVouched(KafkaAnnotations(map[], name, pool), pools, UserKey(pool, service, name));
  }

  /** The Secret is stored and cached, and its user exists. */
  function Initial(secret: Secret, user: UserKey): State {
    var first := map[secret.Id() := secret.(version := 1)];
    State(Store(first, 1), first, {user}, multiset{}, map[], map[])
  }

  /** A read of a live Secret harms it: an event that arrives while the pass is at work is enough. */
  lemma LiveSecretIsFinalized(key: Key, pool: string, service: string, name: string)
    ensures exists states, steps, states' ::
      FinalizesLive(states, steps, states', map[pool := service], key, UserKey(pool, service, name))
  {
    hide NamedUsers, Vouched, Next, KafkaAnnotations;
    var pools, user, secret := map[pool := service], UserKey(pool, service, name), KafkaSecret(key, pool, name);
    NamesItsUser(key, pool, service, name);
    var states, steps := UpToRemoval(secret, user, pools);
    var removed := states[|steps|];
    var s1, s2, s3, s4 := SavedAgain(removed, secret, user, pools);
    var save := [Sync(key), OutsideUsers, SaveRead(0, secret), SaveWrite(0)];
    Joined(states, steps, [removed, s1, s2, s3, s4], save, pools);
    SyncedNew(s4, key, pools);
    var s5 := s4.(cached := s4.store.secrets);
    var s6, s7, s8 := UndisturbedPass(s5, key, user, pools);
    assert FinalizesLive(
      states + [removed, s1, s2, s3, s4][1..], steps + save, [s4, s5, s6, s7, s8], pools, key, user);
  }

  /** So does a read of an old copy, although that copy is marked for deletion. */
  lemma StaleReadTakesLiveUser(key: Key, pool: string, service: string, name: string)
    ensures exists states, steps, states' :: StaleReadHarms(
      states, steps, states', KafkaSecret(key, pool, name), map[pool := service], UserKey(pool, service, name))
  {
    hide NamedUsers, Vouched, Next, KafkaAnnotations, IsDoomed;
    var pools, user, secret := map[pool := service], UserKey(pool, service, name), KafkaSecret(key, pool, name);
    NamesItsUser(key, pool, service, name);
    var states, steps := UpToRemoval(secret, user, pools);
    var removed := states[|steps|];
    var s1 := BegunPass(removed, key, pools);
    var s2, s3, s4, s5 := SavedAgain(s1, secret, user, pools);
    var s6 := SharedUserCleaned(s5, key, key, user, pools);
    assert StaleReadHarms(states, steps, [removed, s1, s2, s3, s4, s5, s6], secret, pools, user);
  }

  /** A Secret is deleted and taken out of the cluster by a pass. While the pass is at work the cache is
      resynchronized, which queues the key again, and the cache does not know of the removal yet. */
  lemma UpToRemoval(secret: Secret, user: UserKey, pools: map<string, string>)
    returns (states: seq<State>, steps: seq<Step>)
    requires secret.finalizers == [FINALIZER] && !secret.terminating
    requires NamedUsers(secret.annotations, pools) == Vouched(secret.annotations, pools) == {user}
    ensures Run(states, steps, pools) && states[0] == Initial(secret, user)
    ensures var key := secret.Id();
      states[|steps|] == State(Store(map[], 3), map[key := secret.(version := 2, terminating := true)], {},
        multiset{key}, map[], map[])
  {
    hide NamedUsers, Vouched, Next;
    var key, s := secret.Id(), Initial(secret, user);
    var s1, s2 := MarkedAndSeen(s, secret.(version := 1), pools);
    var s3, s4, s5, s6 := ResyncedPass(s2, key, user, pools);
    states := [s, s1, s2, s3, s4, s5, s6];
    steps := [Delete(key), Sync(key), PassRead(key), Resync(key), PassClean(key, {user}), PassWrite(key)];
    assert s2.store.secrets - {key} == map[];
  }

  lemma MarkedAndSeen(s: State, secret: Secret, pools: map<string, string>) returns (s1: State, s2: State)
    requires secret.finalizers == [FINALIZER] && !secret.terminating && secret.version == s.store.revision
    requires s.store.secrets == s.cached == map[secret.Id() := secret] && s.queue == multiset{}
    ensures Next(s, Delete(secret.Id()), s1, pools) && Next(s1, Sync(secret.Id()), s2, pools)
    ensures var marked := map[secret.Id() := secret.(version := s.store.revision + 1, terminating := true)];
      s2 == s.(store := Store(marked, s.store.revision + 1), cached := marked, queue := multiset{secret.Id()})
  {
    hide NamedUsers, Vouched, CreateIn, UpdateIn;
    var marked := map[secret.Id() := secret.(version := s.store.revision + 1, terminating := true)];
    s1 := s.(store := Store(marked, s.store.revision + 1));
    s2 := s1.(cached := marked, queue := multiset{secret.Id()});
  }

  /** The application is synchronized again: its user is provisioned and its Secret created. */
  lemma SavedAgain(s: State, secret: Secret, user: UserKey, pools: map<string, string>)
    returns (s1: State, s2: State, s3: State, s4: State)
    requires s.store.secrets == map[] && s.cached.Keys == {secret.Id()} && s.saves == map[]
    requires secret.finalizers == [FINALIZER] && !secret.terminating
    ensures Next(s, Sync(secret.Id()), s1, pools) && Next(s1, OutsideUsers, s2, pools)
    ensures Next(s2, SaveRead(0, secret), s3, pools) && Next(s3, SaveWrite(0), s4, pools)
    ensures s4 == s.(cached := map[], users := {user}, store := Store(
      map[secret.Id() := secret.(version := s.store.revision + 1)], s.store.revision + 1))
  {
    hide NamedUsers, Vouched, UpdateIn, DeleteIn;
    s1 := s.(cached := map[]);
    s2 := s1.(users := {user});
    s3 := s2.(saves := map[0 := Save(secret, None)]);
    s4 := s3.(saves := map[], store := Store(
      map[secret.Id() := secret.(version := s.store.revision + 1)], s.store.revision + 1));
  }

  lemma SyncedNew(s: State, key: Key, pools: map<string, string>)
    requires s.cached == map[] && s.store.secrets.Keys == {key}
    ensures Next(s, Sync(key), s.(cached := s.store.secrets), pools)
  {
  }

  /** A pass on a queued key that meets nobody else, with the finalizer the only one. */
  lemma UndisturbedPass(
    s: State, key: Key, user: UserKey, pools: map<string, string>)
    returns (s1: State, s2: State, s3: State)
    requires key in s.queue && s.passes == map[] && key in s.store.secrets && key in s.cached
    requires s.cached[key] == s.store.secrets[key]
    requires s.store.secrets[key].Id() == key && s.store.secrets[key].finalizers == [FINALIZER]
    requires var a := s.store.secrets[key].annotations; NamedUsers(a, pools) == Vouched(a, pools) == {user}
    ensures Next(s, PassRead(key), s1, pools) && Next(s1, PassClean(key, {user}), s2, pools)
    ensures Next(s2, PassWrite(key), s3, pools)
    ensures var secret := s.store.secrets[key];
      s3 == s.(queue := s.queue - multiset{key}, users := s.users - {user}, store := Store(
        if secret.terminating then s.store.secrets - {key}
        else s.store.secrets[key := secret.(version := s.store.revision + 1, finalizers := [])], s.store.revision + 1))
  {
    hide NamedUsers, Vouched, CreateIn, DeleteIn;
    var secret := s.store.secrets[key];
    var stripped := secret.(finalizers := []);
    WithoutOnly(FINALIZER);
    assert {} + {user} == {user};
    s1 := s.(queue := s.queue - multiset{key}, passes := s.passes[key := Pass(secret, {})]);
    s2 := s1.(users := s.users - {user}, passes := s1.passes[key := Pass(secret, {user})]);
    s3 := s2.(store := UpdateIn(s.store, stripped).value, passes := s.passes);
  }

  /** The same for a Secret that is being deleted, with a resynchronization while the pass is at work. */
  lemma ResyncedPass(s: State, key: Key, user: UserKey, pools: map<string, string>)
    returns (s1: State, s2: State, s3: State, s4: State)
    requires s.queue == multiset{key} && s.passes == map[] && key in s.store.secrets && key in s.cached
    requires s.cached[key] == s.store.secrets[key] && s.store.secrets[key].terminating
    requires s.store.secrets[key].Id() == key && s.store.secrets[key].finalizers == [FINALIZER]
    requires var a := s.store.secrets[key].annotations; NamedUsers(a, pools) == Vouched(a, pools) == {user}
    ensures Next(s, PassRead(key), s1, pools) && Next(s1, Resync(key), s2, pools)
    ensures Next(s2, PassClean(key, {user}), s3, pools) && Next(s3, PassWrite(key), s4, pools)
    ensures s4 == s.(users := s.users - {user}, store := Store(s.store.secrets - {key}, s.store.revision + 1))
  {
    hide NamedUsers, Vouched, CreateIn, DeleteIn;
    var secret := s.store.secrets[key];
    WithoutOnly(FINALIZER);
    assert {} + {user} == {user};
    s1 := s.(queue := multiset{}, passes := map[key := Pass(secret, {})]);
    s2 := s1.(queue := multiset{key});
    s3 := s2.(users := s.users - {user}, passes := map[key := Pass(secret, {user})]);
    s4 := s3.(store := Store(s.store.secrets - {key}, s.store.revision + 1), passes := map[]);
  }

  // A user that two Secrets share

  /** A pass that begins as it should, on an up-to-date copy of a Secret that is being deleted, takes the user
      that another Secret names, which stays as it was. */
  ghost predicate RobsTwin(
    states: seq<State>, store: Store, users: set<UserKey>, doomed: Key, twin: Key, user: UserKey,
    pools: map<string, string>)
  {
    var before, pass := [Delete(doomed), Sync(doomed)], [PassRead(doomed), PassClean(doomed, {user})];
    && Run(states, before + pass, pools)
    && states[0] == State(store, store.secrets, users, multiset{}, map[], map[])
    && IsDoomed(states[2].store, doomed) && doomed in states[2].cached
    && states[2].cached[doomed] == states[2].store.secrets[doomed]
    && HarmfulPass(states[2], states[2..], pass, doomed, pools)
    && NamesLive(states[2], twin, user, pools) && NamesLive(states[4], twin, user, pools)
    && user in states[2].users && user !in states[4].users
  }

  lemma TwinLosesUser(
    store: Store, users: set<UserKey>, doomed: Key, twin: Key, user: UserKey, pools: map<string, string>)
    requires Sound(store) && doomed != twin && user in users
    requires IsLive(store, doomed) && Finalizable(store, doomed) && IsLive(store, twin)
    requires user in NamedUsers(store.secrets[doomed].annotations, pools)
    requires user in NamedUsers(store.secrets[twin].annotations, pools)
    ensures exists states :: RobsTwin(states, store, users, doomed, twin, user, pools)
  {
    hide NamedUsers, Next;
    var s := State(store, store.secrets, users, multiset{}, map[], map[]);
    var s1, s2 := DeletedAndSeen(s, doomed, pools);
    assert twin in s2.store.secrets - {doomed};
    assert (s2.store.secrets - {doomed})[twin] == (store.secrets - {doomed})[twin];
    assert NamesLive(s2, twin, user, pools);
    var s3 := BegunPass(s2, doomed, pools);
    var s4 := SharedUserCleaned(s3, doomed, twin, user, pools);
    var states := [s, s1, s2, s3, s4];
    assert states[2..] == [s2, s3, s4];
    assert HarmfulPass(s2, states[2..], [PassRead(doomed), PassClean(doomed, {user})], doomed, pools);
    assert RobsTwin(states, store, users, doomed, twin, user, pools);
  }

  lemma DeletedAndSeen(s: State, key: Key, pools: map<string, string>) returns (s1: State, s2: State)
    requires s.cached == s.store.secrets && s.queue == multiset{} && s.passes == map[] && Sound(s.store)
    requires IsLive(s.store, key) && Finalizable(s.store, key)
    ensures Next(s, Delete(key), s1, pools) && Next(s1, Sync(key), s2, pools)
    ensures IsDoomed(s2.store, key) && key in s2.cached && s2.cached[key] == s2.store.secrets[key] && key in s2.queue
    ensures s2.store.secrets - {key} == s.store.secrets - {key} && s2.users == s.users && s2.passes == map[]
    ensures s2.store.secrets[key].annotations == s.store.secrets[key].annotations
  {
    hide NamedUsers, Vouched, CreateIn, UpdateIn;
    s1 := s.(store := DeleteIn(s.store, key).value);
    s2 := s1.(cached := s1.cached[key := s1.store.secrets[key]], queue := multiset{key});
  }

  lemma SharedUserCleaned(s: State, key: Key, other: Key, user: UserKey, pools: map<string, string>) returns (s': State)
    requires key in s.passes && NamesLive(s, other, user, pools) && user in s.users
    requires user in NamedUsers(s.passes[key].secret.annotations, pools)
    ensures Next(s, PassClean(key, {user}), s', pools) && TakesFromLive(s, PassClean(key, {user}), s', key, pools)
    ensures s'.store == s.store && user !in s'.users
  {
    hide NamedUsers, Vouched, UpdateIn, CreateIn, DeleteIn;
    s' := s.(
      users := s.users - {user}, passes := s.passes[key := Pass(s.passes[key].secret, s.passes[key].gone + {user})]);
    assert NamesLive(s, other, user, pools) && user in s.users && user !in s'.users;
  }

  // A user that goes between its provisioning and the save

  /** The user of a Secret is found to exist, a pass on the Secret, which is being deleted, takes it and lets
      the Secret go, and the save then creates a live Secret for a user who does not exist. */
  ghost predicate SavesForMissing(
    states: seq<State>, secret: Secret, user: UserKey, pools: map<string, string>)
  {
    var key := secret.Id();
    && Run(states, [
      Delete(key), Sync(key), OutsideUsers, PassRead(key), PassClean(key, {user}), PassWrite(key),
      Sync(key), SaveRead(0, secret), SaveWrite(0)], pools)
    && AllUsersExist(states[0], pools) && user in states[3].users
    && IsDoomed(states[3].store, key) && states[3].cached == states[3].store.secrets
    && NamesLive(states[9], key, user, pools) && user !in states[9].users
  }

  lemma SavedForMissingUser(key: Key, pool: string, service: string, name: string)
    ensures exists states ::
      SavesForMissing(states, KafkaSecret(key, pool, name), UserKey(pool, service, name), map[pool := service])
  {
    hide NamedUsers, Vouched, Next, KafkaAnnotations;
    var pools, user, secret := map[pool := service], UserKey(pool, service, name), KafkaSecret(key, pool, name);
    NamesItsUser(key, pool, service, name);
    var s := Initial(secret, user);
    var s1, s2 := MarkedAndSeen(s, secret.(version := 1), pools);
    UsersStay(s2, pools);
    var s3, s4, s5 := UndisturbedPass(s2, key, user, pools);
    var s6, s7, s8 := SavedUnseen(s5, secret, pools);
    assert s2.store.secrets - {key} == map[];
    assert SavesForMissing([s, s1, s2, s2, s3, s4, s5, s6, s7, s8], secret, user, pools);
  }

  lemma UsersStay(s: State, pools: map<string, string>)
    ensures Next(s, OutsideUsers, s, pools)
  {
  }

  lemma SavedUnseen(s: State, secret: Secret, pools: map<string, string>)
    returns (s1: State, s2: State, s3: State)
    requires s.store.secrets == map[] && s.cached.Keys == {secret.Id()} && s.saves == map[]
    requires secret.finalizers == [FINALIZER] && !secret.terminating
    ensures Next(s, Sync(secret.Id()), s1, pools) && Next(s1, SaveRead(0, secret), s2, pools)
    ensures Next(s2, SaveWrite(0), s3, pools)
    ensures s3 == s.(cached := map[], store := Store(
      map[secret.Id() := secret.(version := s.store.revision + 1)], s.store.revision + 1))
  {
    hide NamedUsers, Vouched, UpdateIn, DeleteIn;
    s1 := s.(cached := map[]);
    s2 := s1.(saves := map[0 := Save(secret, None)]);
    s3 := s2.(saves := map[], store := Store(
      map[secret.Id() := secret.(version := s.store.revision + 1)], s.store.revision + 1));
  }
}
