/** The life of Secrets under concurrent writers: SaveSecret of the application reconciler, deletion
    requests, edits by others, and finalizer passes, interleaved at every call to a server. Reads are
    served from a cache that follows the server with any delay. */
module Protocol {
  import opened Wrappers
  import opened Resources
  import opened Annotations
  import opened Aiven
  import opened Cluster

  /** A finalizer pass holds the Secret it read, and which users were reported gone since. */
  datatype Pass = Pass(secret: Secret, gone: set<UserKey>)

  /** A SaveSecret between its read and its write holds what it will write and the version it saw. */
  datatype Save = Save(secret: Secret, seen: Option<nat>)

  /** `cached` is what reads return and what events are about. That `queue` may hold a key more than
      once, say for an event and for a retry later, only adds behaviour. */
  datatype State = State(
    store: Store,
    cached: Secrets,
    users: set<UserKey>,
    queue: multiset<Key>,
    passes: map<Key, Pass>,
    saves: map<nat, Save>)

  datatype Step =
    | Sync(key: Key)
    | Resync(key: Key)
    | SaveRead(worker: nat, secret: Secret)
    | SaveWrite(worker: nat)
    | Delete(key: Key)
    | OutsideWrite(secret: Secret)
    | OutsideUsers
    | PassRead(key: Key)
    | PassClean(key: Key, gone: set<UserKey>)
    | PassWrite(key: Key)
    | PassFail(key: Key)

  /** The users whose clean-up is reported truthfully: Valkey swallows the failures of its own. */
  function Vouched(a: Annotations, pools: map<string, string>): set<UserKey> {
    TargetUsers(KafkaTarget(a, pools)) + TargetUsers(OpenSearchTarget(a))
  }

  /** The event predicate of the finalizer: only terminating Secrets that carry the finalizer. */
  predicate Interesting(s: Secret) {
    FINALIZER in s.finalizers && s.terminating
  }

  /** The update event of a cached Secret that changed; new Secrets are of no interest. */
  predicate IsAnnounced(s: State, key: Key) {
    && key in s.cached && key in s.store.secrets && s.cached[key] != s.store.secrets[key]
    && Interesting(s.store.secrets[key])
  }

  /** A call to the API server comes off, or it fails for whatever reason and changes nothing. */
  predicate Stored(s: State, r: ApiResult<Store>, s': State) {
    (r.Done? && s'.store == r.value) || s'.store == s.store
  }

  predicate Finalizable(store: Store, key: Key) {
    key in store.secrets && FINALIZER in store.secrets[key].finalizers
  }

  function SaveResult(store: Store, save: Save): ApiResult<Store> {
    if save.seen.None? then CreateIn(store, save.secret)
    else UpdateIn(store, save.secret.(version := save.seen.value))
  }

  /** The steps of the finalizer on one key. */
  predicate OfPass(step: Step, key: Key) {
    (step.PassRead? || step.PassClean? || step.PassWrite? || step.PassFail?) && step.key == key
  }

  predicate Next(s: State, step: Step, s': State, pools: map<string, string>) {
    match step
    case Sync(key) =>
      s' == s.(
        cached := if key in s.store.secrets then s.cached[key := s.store.secrets[key]] else s.cached - {key},
        queue := if IsAnnounced(s, key) then s.queue + multiset{key} else s.queue)
    case Resync(key) =>
      // the periodic event of a cached Secret that need not have changed
      && key in s.cached && Interesting(s.cached[key])
      && s' == s.(queue := s.queue + multiset{key})
    case SaveRead(worker, secret) =>
      && worker !in s.saves && secret.finalizers == [FINALIZER]
      && var seen := if secret.Id() in s.cached then Some(s.cached[secret.Id()].version) else None;
        s' == s.(saves := s.saves[worker := Save(secret, seen)])
    case SaveWrite(worker) =>
      && worker in s.saves && Stored(s, SaveResult(s.store, s.saves[worker]), s')
      && s' == s.(store := s'.store, saves := s.saves - {worker})
    case Delete(key) =>
      Stored(s, DeleteIn(s.store, key), s') && s' == s.(store := s'.store)
    case OutsideWrite(secret) =>
      // nobody else strips the finalizer
      && (Finalizable(s.store, secret.Id()) ==> FINALIZER in secret.finalizers)
      && Stored(s, if secret.Id() in s.store.secrets then UpdateIn(s.store, secret) else CreateIn(s.store, secret), s')
      && s' == s.(store := s'.store)
    case OutsideUsers =>
      s' == s.(users := s'.users)
    case PassRead(key) =>
      // a key is not worked on twice at once
      && key in s.queue && key !in s.passes
      && s' == s.(queue := s.queue - multiset{key}, passes := s'.passes)
      && s'.passes == if key in s.cached then s.passes[key := Pass(s.cached[key], {})] else s.passes
    case PassClean(key, gone) =>
      // any part of Cleanup: it may remove users that the Secret names, and reports some as gone
      && key in s.passes
      && s'.users <= s.users && s.users - s'.users <= NamedUsers(s.passes[key].secret.annotations, pools)
      && gone !! s'.users
      && s' == s.(users := s'.users, passes := s.passes[key := Pass(s.passes[key].secret, s.passes[key].gone + gone)])
    case PassWrite(key) =>
      // only after a successful Cleanup; when the write fails, the key is queued again
      && key in s.passes && Vouched(s.passes[key].secret.annotations, pools) <= s.passes[key].gone
      && var r := UpdateIn(s.store, RemoveFinalizer(s.passes[key].secret, FINALIZER));
        || (r.Done? && s' == s.(store := r.value, passes := s.passes - {key}))
        || s' == s.(passes := s.passes - {key}, queue := s.queue + multiset{key})
    case PassFail(key) =>
      && key in s.passes
      && s' == s.(passes := s.passes - {key}, queue := s.queue + multiset{key})
  }

  /** Steps that are possible one after the other. */
  ghost predicate Path(states: seq<State>, steps: seq<Step>, pools: map<string, string>) {
    && |states| == |steps| + 1
    && forall i :: 0 <= i < |steps| ==> Next(states[i], steps[i], states[i + 1], pools)
  }

  lemma Joined(states: seq<State>, steps: seq<Step>, states': seq<State>, steps': seq<Step>, pools: map<string, string>)
    requires Path(states, steps, pools) && Path(states', steps', pools) && states[|steps|] == states'[0]
    ensures Path(states + states'[1..], steps + steps', pools)
  {
    hide Next;
  }

  ghost predicate Run(states: seq<State>, steps: seq<Step>, pools: map<string, string>) {
    && Path(states, steps, pools)
    && Sound(states[0].store) && states[0].passes == map[]
    && (forall key :: key in states[0].cached ==> HoldsAt(states, 0, key, states[0].cached[key]))
    && forall w :: w in states[0].saves ==> states[0].saves[w].secret.finalizers == [FINALIZER]
  }

  // Versions

  /** One step leaves the Secret under a key alone, gives it a new version or removes it. */
  ghost predicate Moves(before: Store, key: Key, after: Store) {
    && before.revision <= after.revision
    && (key in after.secrets ==>
      || (key in before.secrets && after.secrets[key] == before.secrets[key])
      || after.secrets[key].version == after.revision > before.revision)
  }

  lemma WritesMove(store: Store, written: Secret, key: Key)
    requires Sound(store)
    ensures var r := CreateIn(store, written); r.Done? ==> Sound(r.value) && Moves(store, key, r.value)
    ensures var r := UpdateIn(store, written); r.Done? ==> Sound(r.value) && Moves(store, key, r.value)
  {
  }

  lemma DeletionsMove(store: Store, deleted: Key, key: Key)
    requires Sound(store)
    ensures var r := DeleteIn(store, deleted); r.Done? ==> Sound(r.value) && Moves(store, key, r.value)
  {
  }

  lemma StepMoves(s: State, step: Step, s': State, pools: map<string, string>, key: Key)
    requires Sound(s.store) && Next(s, step, s', pools)
    ensures Sound(s'.store) && Moves(s.store, key, s'.store)
  {
    hide CreateIn, UpdateIn, DeleteIn, Moves, Sound, NamedUsers, Vouched;
    match step {
      case SaveWrite(worker) =>
        WritesMove(s.store, s.saves[worker].secret, key);
        if s.saves[worker].seen.Some? {
          WritesMove(s.store, s.saves[worker].secret.(version := s.saves[worker].seen.value), key);
        }
      case OutsideWrite(secret) => WritesMove(s.store, secret, key);
      case Delete(deleted) => DeletionsMove(s.store, deleted, key);
      case PassWrite(k) => WritesMove(s.store, RemoveFinalizer(s.passes[k].secret, FINALIZER), key);
      case _ =>
    }
    Unmoved(s.store, key);
  }

  lemma Unmoved(store: Store, key: Key)
    ensures Moves(store, key, store)
  {
  }

  lemma {:induction false} StoresAreSound(states: seq<State>, steps: seq<Step>, pools: map<string, string>, n: nat)
    requires Run(states, steps, pools) && n <= |steps|
    ensures Sound(states[n].store)
  {
    hide Sound, Next;
    if n > 0 {
      StoresAreSound(states, steps, pools, n - 1);
      StepMoves(states[n - 1], steps[n - 1], states[n], pools, Key("", ""));
    }
  }

  /** Between `i` and `n` the Secret under `key` stayed as it was at `i`, or newer versions came. */
  ghost predicate SameOrNewer(states: seq<State>, i: nat, n: nat, key: Key)
    requires i <= n < |states| && key in states[i].store.secrets
  {
    var first := states[i].store.secrets[key];
    && first.version <= states[n].store.revision
    && (|| (forall k :: i <= k <= n ==> HoldsAt(states, k, key, first))
        || (key in states[n].store.secrets ==> states[n].store.secrets[key].version > first.version))
  }

  ghost predicate HoldsAt(states: seq<State>, k: nat, key: Key, secret: Secret)
    requires k < |states|
  {
    key in states[k].store.secrets && states[k].store.secrets[key] == secret
  }

  /** A version that is gone never returns. */
  lemma {:induction false} VersionsNeverReturn(
    states: seq<State>, steps: seq<Step>, pools: map<string, string>, i: nat, n: nat, key: Key)
    requires Run(states, steps, pools) && i <= n <= |steps| && key in states[i].store.secrets
    ensures SameOrNewer(states, i, n, key)
  {
    hide Next;
    StoresAreSound(states, steps, pools, i);
    if i < n {
      VersionsNeverReturn(states, steps, pools, i, n - 1, key);
      StoresAreSound(states, steps, pools, n - 1);
      StepMoves(states[n - 1], steps[n - 1], states[n], pools, key);
      var first := states[i].store.secrets[key];
      if forall k :: i <= k <= n - 1 ==> HoldsAt(states, k, key, first) {
        assert HoldsAt(states, n - 1, key, first);
      }
    }
  }

  // Passes

  /** At some moment after `r` and up to `n` the user was not there. */
  ghost predicate GoneBetween(states: seq<State>, r: nat, n: nat, user: UserKey)
    requires n < |states|
  {
    exists j :: r <= j <= n && user !in states[j].users
  }

  /** Whatever a read returns was stored at some time. */
  lemma {:induction false} CachedWasStored(states: seq<State>, steps: seq<Step>, pools: map<string, string>, n: nat)
    requires Run(states, steps, pools) && n <= |steps|
    ensures forall key :: key in states[n].cached ==>
      exists h :: 0 <= h <= n && HoldsAt(states, h, key, states[n].cached[key])
  {
    hide Next, Sound;
    if n > 0 {
      CachedWasStored(states, steps, pools, n - 1);
      forall key | key in states[n].cached
        ensures exists h :: 0 <= h <= n && HoldsAt(states, h, key, states[n].cached[key])
      {
        CacheAfterStep(states[n - 1], steps[n - 1], states[n], pools, key);
        if key in states[n].store.secrets && states[n].cached[key] == states[n].store.secrets[key] {
          assert HoldsAt(states, n, key, states[n].cached[key]);
        } else {
          var h :| 0 <= h <= n - 1 && HoldsAt(states, h, key, states[n - 1].cached[key]);
        }
      }
    }
  }

  lemma CacheAfterStep(s: State, step: Step, s': State, pools: map<string, string>, key: Key)
    requires Next(s, step, s', pools) && key in s'.cached
    ensures
      || (key in s.cached && s'.cached[key] == s.cached[key])
      || (key in s'.store.secrets && s'.cached[key] == s'.store.secrets[key])
  {
  }

  /** The latest pass on `key` before `n` began at `r`, when it read `secret`. */
  ghost predicate Began(states: seq<State>, steps: seq<Step>, r: nat, n: nat, key: Key, secret: Secret)
    requires n < |states| == |steps| + 1
  {
    && r < n && steps[r] == PassRead(key) && key in states[r].cached && states[r].cached[key] == secret
    && forall i :: r < i < n ==> steps[i] != PassRead(key)
  }

  /** Everybody whom the pass counts as gone was absent since it began. */
  ghost predicate ReadAt(states: seq<State>, steps: seq<Step>, r: nat, n: nat, key: Key, pass: Pass)
    requires n < |states| == |steps| + 1
  {
    && Began(states, steps, r, n, key, pass.secret)
    && forall u :: u in pass.gone ==> GoneBetween(states, r, n, u)
  }

  ghost predicate PassesSound(states: seq<State>, steps: seq<Step>, n: nat)
    requires n < |states| == |steps| + 1
  {
    forall key :: key in states[n].passes ==> exists r :: ReadAt(states, steps, r, n, key, states[n].passes[key])
  }

  lemma StillReadAt(states: seq<State>, steps: seq<Step>, r: nat, n: nat, key: Key, pass: Pass, more: set<UserKey>)
    requires n + 1 < |states| == |steps| + 1 && steps[n] != PassRead(key) && more !! states[n + 1].users
    requires ReadAt(states, steps, r, n, key, pass)
    ensures ReadAt(states, steps, r, n + 1, key, pass.(gone := pass.gone + more))
    ensures more == {} ==> pass.(gone := pass.gone + more) == pass
  {
  }

  /** What a step can do to the pass on a key. */
  lemma PassAfterStep(s: State, step: Step, s': State, pools: map<string, string>, key: Key)
    requires Next(s, step, s', pools) && key in s'.passes
    ensures
      || (step != PassRead(key) && key in s.passes && s'.passes[key] == s.passes[key])
      || (step == PassRead(key) && key in s.cached && s'.passes[key] == Pass(s.cached[key], {}))
      || (step.PassClean? && step.key == key && key in s.passes && step.gone !! s'.users
          && s'.passes[key] == s.passes[key].(gone := s.passes[key].gone + step.gone))
  {
    hide NamedUsers, Vouched, CreateIn, UpdateIn, DeleteIn;
  }

  lemma {:induction false} PassesAreSound(states: seq<State>, steps: seq<Step>, pools: map<string, string>, n: nat)
    requires Run(states, steps, pools) && n <= |steps|
    ensures PassesSound(states, steps, n)
  {
    hide Next, Sound;
    if n > 0 {
      PassesAreSound(states, steps, pools, n - 1);
      var s, s' := states[n - 1], states[n];
      forall key | key in s'.passes ensures exists r :: ReadAt(states, steps, r, n, key, s'.passes[key]) {
        PassAfterStep(s, steps[n - 1], s', pools, key);
        if steps[n - 1] != PassRead(key) && s'.passes[key] == s.passes[key] {
          var r: nat :| ReadAt(states, steps, r, n - 1, key, s.passes[key]);
          StillReadAt(states, steps, r, n - 1, key, s.passes[key], {});
        } else if steps[n - 1] == PassRead(key) {
          assert ReadAt(states, steps, n - 1, n, key, s'.passes[key]);
        } else {
          var r: nat :| ReadAt(states, steps, r, n - 1, key, s.passes[key]);
          StillReadAt(states, steps, r, n - 1, key, s.passes[key], steps[n - 1].gone);
        }
      }
    }
  }

  // The finalizer

  ghost predicate SavesKeepFinalizer(s: State) {
    forall w :: w in s.saves ==> s.saves[w].secret.finalizers == [FINALIZER]
  }

  lemma SavesStillKeepFinalizer(s: State, step: Step, s': State, pools: map<string, string>)
    requires Next(s, step, s', pools) && SavesKeepFinalizer(s)
    ensures SavesKeepFinalizer(s')
  {
    hide UpdateIn, CreateIn, DeleteIn, NamedUsers, Vouched, IsAnnounced, Stored, Finalizable;
  }

  lemma {:induction false} SavesAlwaysKeepFinalizer(
    states: seq<State>, steps: seq<Step>, pools: map<string, string>, n: nat)
    requires Run(states, steps, pools) && n <= |steps|
    ensures SavesKeepFinalizer(states[n])
  {
    hide Sound, Next;
    if n > 0 {
      SavesAlwaysKeepFinalizer(states, steps, pools, n - 1);
      SavesStillKeepFinalizer(states[n - 1], steps[n - 1], states[n], pools);
    }
  }

  lemma WritesKeepFinalizer(store: Store, written: Secret, key: Key)
    requires Finalizable(store, key)
    requires written.Id() == key ==> FINALIZER in written.finalizers
    ensures var r := CreateIn(store, written); r.Done? ==> Finalizable(r.value, key)
    ensures var r := UpdateIn(store, written); r.Done? ==> Finalizable(r.value, key)
  {
  }

  lemma DeletionsKeepFinalizer(store: Store, deleted: Key, key: Key)
    requires Finalizable(store, key)
    ensures var r := DeleteIn(store, deleted); r.Done? ==> Finalizable(r.value, key)
  {
  }

  /** Only the finalizer's own write takes the finalizer away, and only from the version it read. */
  lemma OnlyPassesFinalize(s: State, step: Step, s': State, pools: map<string, string>, key: Key)
    requires Sound(s.store) && SavesKeepFinalizer(s) && Next(s, step, s', pools)
    requires forall k :: k in s.passes ==> s.passes[k].secret.Id() == k
    requires Finalizable(s.store, key) && !Finalizable(s'.store, key)
    ensures step == PassWrite(key) && key in s.passes
    ensures s.passes[key].secret.version == s.store.secrets[key].version
    ensures Vouched(s.passes[key].secret.annotations, pools) <= s.passes[key].gone
  {
    hide Sound, Finalizable, NamedUsers, Vouched, CreateIn, UpdateIn, DeleteIn;
    if step.SaveWrite? {
      var save := s.saves[step.worker];
      WritesKeepFinalizer(s.store, save.secret, key);
      if save.seen.Some? {
        WritesKeepFinalizer(s.store, save.secret.(version := save.seen.value), key);
      }
    } else if step.Delete? {
      DeletionsKeepFinalizer(s.store, step.key, key);
    } else if step.OutsideWrite? {
      WritesKeepFinalizer(s.store, step.secret, key);
    } else if step.PassWrite? {
      FinalizesOneVersion(s.store, s.passes[step.key].secret, key);
    }
  }

  lemma FinalizesOneVersion(store: Store, read: Secret, key: Key)
    requires Finalizable(store, key)
    ensures var r := UpdateIn(store, RemoveFinalizer(read, FINALIZER));
      r.Done? && !Finalizable(r.value, key) ==> read.Id() == key && read.version == store.secrets[key].version
  {
  }

  /** At some moment from `r` to `n` the user was not there while exactly this Secret was stored. */
  ghost predicate GoneWhileStored(states: seq<State>, r: nat, n: nat, key: Key, secret: Secret, user: UserKey)
    requires n < |states|
  {
    exists j :: r <= j <= n && HoldsAt(states, j, key, secret) && user !in states[j].users
  }

  /** The latest pass on `key` read exactly this Secret, and since then every user was absent whose
      absence a finalizer must see to before it lets the Secret go. */
  ghost predicate CleanedUpSince(
    states: seq<State>, steps: seq<Step>, r: nat, n: nat, key: Key, secret: Secret, pools: map<string, string>)
    requires n < |states| == |steps| + 1
  {
    && Began(states, steps, r, n, key, secret)
    && forall user :: user in Vouched(secret.annotations, pools) ==> GoneWhileStored(states, r, n, key, secret, user)
  }

  /** When the pass on `key` began, and when the Secret that it read was stored. */
  lemma PassHistory(
    states: seq<State>, steps: seq<Step>, pools: map<string, string>, n: nat, key: Key)
    returns (r: nat, h: nat)
    requires Run(states, steps, pools) && n <= |steps| && key in states[n].passes
    ensures h <= r && ReadAt(states, steps, r, n, key, states[n].passes[key])
    ensures HoldsAt(states, h, key, states[n].passes[key].secret)
    ensures states[n].passes[key].secret.Id() == key
  {
    hide Next, Sound;
    PassesAreSound(states, steps, pools, n);
    r :| ReadAt(states, steps, r, n, key, states[n].passes[key]);
    CachedWasStored(states, steps, pools, r);
    h :| h <= r && HoldsAt(states, h, key, states[n].passes[key].secret);
    StoresAreSound(states, steps, pools, h);
    StoredUnderItsKey(states[h].store, key);
  }

  /** OnlyPassesFinalize, in a run. */
  lemma PassOnly(states: seq<State>, steps: seq<Step>, pools: map<string, string>, n: nat, key: Key)
    requires Run(states, steps, pools) && n < |steps|
    requires Finalizable(states[n].store, key) && !Finalizable(states[n + 1].store, key)
    ensures steps[n] == PassWrite(key) && key in states[n].passes
    ensures states[n].passes[key].secret.version == states[n].store.secrets[key].version
    ensures Vouched(states[n].passes[key].secret.annotations, pools) <= states[n].passes[key].gone
  {
    hide Next, Sound, Vouched, SavesKeepFinalizer, ReadAt, HoldsAt;
    StoresAreSound(states, steps, pools, n);
    SavesAlwaysKeepFinalizer(states, steps, pools, n);
    forall k | k in states[n].passes ensures states[n].passes[k].secret.Id() == k {
      var r, h := PassHistory(states, steps, pools, n, k);
    }
    OnlyPassesFinalize(states[n], steps[n], states[n + 1], pools, key);
  }

  /** Version-exact clean-up. In every interleaving, a Secret loses the finalizer, and so leaves the
      cluster, only through a finalizer pass that read exactly the version that is stored, however
      late its reads are, and every Kafka and OpenSearch user that this version names was absent
      while it was stored, at some moment since that pass began. */
  lemma VersionExactCleanup(states: seq<State>, steps: seq<Step>, pools: map<string, string>, n: nat, key: Key)
    requires Run(states, steps, pools) && n < |steps|
    requires Finalizable(states[n].store, key) && !Finalizable(states[n + 1].store, key)
    ensures steps[n] == PassWrite(key) && key in states[n].passes
    ensures states[n].passes[key].secret == states[n].store.secrets[key]
    ensures exists r :: CleanedUpSince(states, steps, r, n, key, states[n].store.secrets[key], pools)
  {
    hide Next, Sound, Finalizable, Vouched, SavesKeepFinalizer;
    var s := states[n];
    PassOnly(states, steps, pools, n, key);
    var r, h := PassHistory(states, steps, pools, n, key);
    VersionsNeverReturn(states, steps, pools, h, n, key);
    HasKey(s.store, key);
    var read := s.passes[key].secret;
    forall user | user in Vouched(read.annotations, pools) ensures GoneWhileStored(states, r, n, key, read, user) {
      var j :| r <= j <= n && user !in states[j].users;
      assert HoldsAt(states, j, key, read);
    }
    assert HoldsAt(states, n, key, read);
    assert CleanedUpSince(states, steps, r, n, key, read, pools);
  }

  ghost predicate CarriesFinalizer(store: Store, key: Key) {
    key in store.secrets && "aivenator.aiven.nais.io/finalizer" in store.secrets[key].finalizers
  }

  ghost predicate SawTo(states: seq<State>, r: nat, n: nat, key: Key, pools: map<string, string>)
    requires n < |states| && key in states[n].store.secrets
  {
    var secret := states[n].store.secrets[key];
    forall user :: KafkaNames(secret.annotations, pools, user) || OpenSearchNames(secret.annotations, user) ==>
      GoneWhileStored(states, r, n, key, secret, user)
  }

  /** The same, over the annotations of the Secret that loses its finalizer: since the pass began there was
      a moment for everyone whom its Kafka or OpenSearch annotations name, at which that Secret was stored
      and the user was not on the server. */
  lemma FinalizerGoesAfterUsers(
    states: seq<State>, steps: seq<Step>, pools: map<string, string>, n: nat, key: Key)
    requires Run(states, steps, pools) && n < |steps|
    requires CarriesFinalizer(states[n].store, key) && !CarriesFinalizer(states[n + 1].store, key)
    ensures steps[n] == PassWrite(key)
    ensures exists r :: 0 <= r < n && steps[r] == PassRead(key) && SawTo(states, r, n, key, pools)
  {
    hide Next, Sound, Vouched, GoneWhileStored, KafkaNames, OpenSearchNames;
    VersionExactCleanup(states, steps, pools, n, key);
    var secret := states[n].store.secrets[key];
    var r: nat :| CleanedUpSince(states, steps, r, n, key, secret, pools);
    NamedAreVouched(secret.annotations, pools);
    assert SawTo(states, r, n, key, pools);
  }

  lemma NamedAreVouched(a: Annotations, pools: map<string, string>)
    ensures forall user :: user in Vouched(a, pools) <==> KafkaNames(a, pools, user) || OpenSearchNames(a, user)
  {
    hide KafkaNames, OpenSearchNames;
    TargetsAre(a, pools);
  }

  lemma StoredUnderItsKey(store: Store, key: Key)
    requires Sound(store) && key in store.secrets
    ensures store.secrets[key].Id() == key
  {
  }

  lemma HasKey(store: Store, key: Key)
    requires Finalizable(store, key)
    ensures key in store.secrets
  {
  }
}
