/** controllers/secrets/finalizer.go, the event filter: which keys come into the queue of the finalizer,
    over all runs. */
module FinalizerQueue {
  import opened Resources
  import opened Annotations
  import opened Cluster
  import opened Protocol

  predicate AwaitsFinalizer(s: Secret) {
    s.terminating && "aivenator.aiven.nais.io/finalizer" in s.finalizers
  }

  /** The cache catches up with a change of a Secret that is being deleted and carries the finalizer. */
  predicate IsUpdate(s: State, step: Step, key: Key) {
    && step == Sync(key) && key in s.cached && key in s.store.secrets && s.cached[key] != s.store.secrets[key]
    && AwaitsFinalizer(s.store.secrets[key])
  }

  predicate IsResync(s: State, step: Step, key: Key) {
    step == Resync(key) && key in s.cached && AwaitsFinalizer(s.cached[key])
  }

  /** The own pass did not come off: its clean-up failed, or its write did. */
  predicate IsRetry(s: State, step: Step, s': State, key: Key) {
    key in s.passes && (step == PassFail(key) || (step == PassWrite(key) && s'.store == s.store))
  }

  /** The event filter. A Sync puts its key into the queue, once, if and only if the cached Secret differs
      from the stored one, and the stored one is being deleted and carries the finalizer. */
  lemma SyncQueues(s: State, key: Key, s': State, pools: map<string, string>)
    requires Next(s, Sync(key), s', pools)
    ensures s'.queue[key] > s.queue[key] <==>
      && key in s.cached && key in s.store.secrets && s.cached[key] != s.store.secrets[key]
      && s.store.secrets[key].terminating
      && "aivenator.aiven.nais.io/finalizer" in s.store.secrets[key].finalizers
    ensures s'.queue in {s.queue, s.queue + multiset{key}}
  {
  }

  /** A periodic event is possible exactly for a cached Secret of that kind, and always queues it. */
  lemma ResyncQueues(s: State, key: Key, pools: map<string, string>)
    ensures (exists s' :: Next(s, Resync(key), s', pools)) <==>
      && key in s.cached && s.cached[key].terminating
      && "aivenator.aiven.nais.io/finalizer" in s.cached[key].finalizers
    ensures forall s' :: Next(s, Resync(key), s', pools) ==> s' == s.(queue := s.queue + multiset{key})
  {
    if key in s.cached && AwaitsFinalizer(s.cached[key]) {
      assert Next(s, Resync(key), s.(queue := s.queue + multiset{key}), pools);
    }
  }

  lemma SameFilter(s: Secret)
    ensures Interesting(s) <==> AwaitsFinalizer(s)
  {
  }

  /** Nothing else than an event or the retry of a pass brings a key into the queue. */
  lemma QueueAfterStep(s: State, step: Step, s': State, pools: map<string, string>, key: Key)
    requires Next(s, step, s', pools)
    ensures s'.queue[key] > s.queue[key] <==>
      IsUpdate(s, step, key) || IsResync(s, step, key) || IsRetry(s, step, s', key)
  {
    hide NamedUsers, Vouched, CreateIn, DeleteIn, UpdateIn, SaveResult, Stored, Finalizable, RemoveFinalizer;
    hide Interesting, AwaitsFinalizer;
    forall secret: Secret ensures Interesting(secret) <==> AwaitsFinalizer(secret) {
      SameFilter(secret);
    }
    if step.PassWrite? {
      WritesAreSeen(s.store, RemoveFinalizer(s.passes[step.key].secret, FINALIZER));
    }
  }

  /** Nothing but the beginning of a pass takes it out, and a pass begins only with a key from the queue. */
  lemma PassesTakeFromQueue(s: State, step: Step, s': State, pools: map<string, string>, key: Key)
    requires Next(s, step, s', pools)
    ensures s'.queue[key] < s.queue[key] <==> step == PassRead(key)
    ensures key in s'.passes && key !in s.passes ==> step == PassRead(key) && key in s.queue
  {
    hide NamedUsers, Vouched, CreateIn, DeleteIn, UpdateIn, SaveResult, Stored, Finalizable, RemoveFinalizer;
    hide Interesting;
  }

  lemma WritesAreSeen(store: Store, secret: Secret)
    ensures var r := UpdateIn(store, secret); r.Done? ==> r.value != store
  {
  }

  /** An event for the key, and the Secret that it was about. */
  ghost predicate EventAt(states: seq<State>, steps: seq<Step>, i: nat, key: Key)
    requires i < |steps| < |states|
  {
    IsUpdate(states[i], steps[i], key) || IsResync(states[i], steps[i], key)
  }

  /** At some step before `n` there was an event for the key. */
  ghost predicate WasAnnounced(states: seq<State>, steps: seq<Step>, n: nat, key: Key)
    requires n <= |steps| < |states|
  {
    exists i :: 0 <= i < n && EventAt(states, steps, i, key)
  }

  /** Whatever is queued or worked on, retries included, goes back to an event for a Secret that was being
      deleted and carried the finalizer when the event was made. */
  lemma {:induction false} QueuedWasAnnounced(
    states: seq<State>, steps: seq<Step>, pools: map<string, string>, n: nat, key: Key)
    requires Run(states, steps, pools) && n <= |steps| && states[0].queue == multiset{}
    ensures key in states[n].queue || key in states[n].passes ==> WasAnnounced(states, steps, n, key)
  {
    hide Next, Sound, IsUpdate, IsResync;
    if n > 0 {
      QueuedWasAnnounced(states, steps, pools, n - 1, key);
      QueueAfterStep(states[n - 1], steps[n - 1], states[n], pools, key);
      PassesTakeFromQueue(states[n - 1], steps[n - 1], states[n], pools, key);
      if WasAnnounced(states, steps, n - 1, key) {
        var i :| 0 <= i < n - 1 && EventAt(states, steps, i, key);
        assert WasAnnounced(states, steps, n, key);
      } else if key in states[n].queue || key in states[n].passes {
        assert EventAt(states, steps, n - 1, key);
      }
    }
  }

  /** Who put a key into the queue that is there now: an event or a retry, and no pass began since. */
  ghost predicate PutAt(states: seq<State>, steps: seq<Step>, i: nat, n: nat, key: Key)
    requires i < n <= |steps| < |states|
  {
    && (EventAt(states, steps, i, key) || IsRetry(states[i], steps[i], states[i + 1], key))
    && forall k :: i < k <= n ==> key in states[k].queue
  }

  lemma {:induction false} QueuedWasPut(
    states: seq<State>, steps: seq<Step>, pools: map<string, string>, n: nat, key: Key)
    requires Run(states, steps, pools) && n <= |steps| && states[0].queue == multiset{} && key in states[n].queue
    ensures exists i :: 0 <= i < n && PutAt(states, steps, i, n, key)
  {
    hide Next, Sound, IsUpdate, IsResync, IsRetry;
    QueueAfterStep(states[n - 1], steps[n - 1], states[n], pools, key);
    if key in states[n - 1].queue {
      QueuedWasPut(states, steps, pools, n - 1, key);
      var i :| 0 <= i < n - 1 && PutAt(states, steps, i, n - 1, key);
      assert PutAt(states, steps, i, n, key);
    } else {
      assert PutAt(states, steps, n - 1, n, key);
    }
  }

  /** At some state up to `n` a Secret under the key was being deleted and carried the finalizer. */
  ghost predicate WasDeleted(states: seq<State>, n: nat, key: Key)
    requires n < |states|
  {
    exists h :: 0 <= h <= n && key in states[h].store.secrets && AwaitsFinalizer(states[h].store.secrets[key])
  }

  /** Where no Secret was ever being deleted under a key, there is no pass on it, and nothing takes the finalizer
      away, in any run that begins without work in the queue. */
  lemma NeverDeletedIsLeftAlone(
    states: seq<State>, steps: seq<Step>, pools: map<string, string>, n: nat, key: Key)
    requires Run(states, steps, pools) && n <= |steps| && states[0].queue == multiset{}
    requires !WasDeleted(states, n, key)
    ensures key !in states[n].queue && key !in states[n].passes
    ensures forall m :: 0 <= m < n && Finalizable(states[m].store, key) ==> Finalizable(states[m + 1].store, key)
  {
    hide Next, Sound;
    NotAnnounced(states, steps, pools, n, key);
    QueuedWasAnnounced(states, steps, pools, n, key);
    forall m | 0 <= m < n && Finalizable(states[m].store, key) ensures Finalizable(states[m + 1].store, key) {
      if !Finalizable(states[m + 1].store, key) {
        VersionExactCleanup(states, steps, pools, m, key);
        QueuedWasAnnounced(states, steps, pools, m, key);
      }
    }
  }

  lemma NotAnnounced(states: seq<State>, steps: seq<Step>, pools: map<string, string>, n: nat, key: Key)
    requires Run(states, steps, pools) && n <= |steps| && !WasDeleted(states, n, key)
    ensures forall m :: 0 <= m <= n ==> !WasAnnounced(states, steps, m, key)
  {
    hide Next, Sound;
    forall i | 0 <= i < n ensures !EventAt(states, steps, i, key) {
      CachedWasStored(states, steps, pools, i);
    }
  }
}
