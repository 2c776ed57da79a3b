/** controllers/secrets/finalizer.go, with everybody else at work between its calls. */
module Finalizer {
  import opened Wrappers
  import opened Resources
  import opened Annotations
  import opened Aiven
  import opened Cluster
  import opened Protocol
  import Credentials
  import ServiceUsers

  const REQUEUE_SECONDS: nat := 10

  class SecretsFinalizer {
    const cluster: Server
    const manager: Credentials.Manager
    /** Nobody else is at work between the calls. */
    const alone: bool
    var state: State
    /** The run so far, which `state` ends. */
    ghost var states: seq<State>
    ghost var steps: seq<Step>

    ghost predicate Running()
      reads this
    {
      Run(states, steps, manager.config.pools) && |states| == |steps| + 1 && states[|steps|] == state
    }

    ghost predicate Valid()
      reads this, cluster`store, manager.api`users, manager.kafka.users, manager.openSearch.users, manager.valkey.users
    {
      && Running() && manager.Valid() && manager.cluster == cluster
      && state.store == cluster.store && state.users == manager.api.users.Keys
    }

    constructor (cluster: Server, manager: Credentials.Manager, alone: bool)
      requires manager.Valid() && manager.cluster == cluster && Sound(cluster.store)
      ensures Valid() && this.cluster == cluster && this.manager == manager && steps == []
      ensures this.alone == alone
    {
      this.cluster, this.manager, this.alone := cluster, manager, alone;
      state := State(cluster.store, cluster.store.secrets, manager.api.users.Keys, multiset{}, map[], map[]);
      new;
      states, steps := [state], [];
    }

    /** The run goes on with a step that the caller has made. */
    method Advance(step: Step, next: State)
      requires Running() && Next(state, step, next, manager.config.pools)
      modifies this
      ensures Running() && state == next && steps == old(steps) + [step] && states == old(states) + [next]
    {
      hide Next, Sound;
      state := next;
      steps, states := steps + [step], states + [next];
    }

    /** Everybody else: other passes, SaveSecret, deletion requests, edits, other users of Aiven. */
    method Others(key: Key)
      requires Valid()
      modifies this, cluster`store, manager.api`users
      ensures Valid() && old(states) <= states && old(steps) <= steps
      ensures (key in state.passes <==> key in old(state).passes) && old(state).queue[key] <= state.queue[key]
      ensures key in state.passes ==> state.passes[key] == old(state).passes[key]
      ensures forall i :: |old(steps)| <= i < |steps| ==> !OfPass(steps[i], key)
      ensures alone ==> state == old(state) && cluster.store == old(cluster.store)
      ensures alone ==> manager.api.users == old(manager.api.users)
    {
      hide Next, Run;
      if alone {
        return;
      }
      var n: int := *;
      while n > 0
        invariant Valid() && old(states) <= states && old(steps) <= steps
        invariant (key in state.passes <==> key in old(state).passes) && old(state).queue[key] <= state.queue[key]
        invariant key in state.passes ==> state.passes[key] == old(state).passes[key]
        invariant forall i :: |old(steps)| <= i < |steps| ==> !OfPass(steps[i], key)
      {
        n := n - 1;
        var step: Step, store: Store, cached: Secrets := *, *, *;
        var queue: multiset<Key>, passes: map<Key, Pass>, saves: map<nat, Save> := *, *, *;
        var users: map<UserKey, User> := *;
        var next := State(store, cached, users.Keys, queue, passes, saves);
        if !OfPass(step, key) && Next(state, step, next, manager.config.pools)
          && forall k :: k in users ==> users[k].name == k.user
        {
          OthersSpare(state, step, next, manager.config.pools, key);
          cluster.store, manager.api.users := store, users;
          Advance(step, next);
        }
      }
    }

    /** Nothing keeps a pass from coming off: the Secret is there, as the cache has it, and its annotations are
        complete. */
    ghost predicate IsUndisturbed(key: Key)
      reads this, cluster`store
    {
      && alone && cluster.reliable && manager.api.reliable && Sound(cluster.store)
      && key in state.cached && key in cluster.store.secrets && state.cached[key] == cluster.store.secrets[key]
      && Credentials.IsReadable(cluster.store.secrets[key].annotations, manager.config.pools)
    }

    /** The pass has read what is stored. */
    ghost predicate IsCurrent(key: Key)
      reads this, cluster`store
    {
      && key in state.passes && key in cluster.store.secrets
      && state.passes[key].secret == cluster.store.secrets[key]
    }

    ghost predicate IsTakenBack(secret: Secret, users: ServiceUsers.Users) {
      NamedUsers(secret.annotations, manager.config.pools) !! users.Keys
    }

    /** A read is served from the cache. */
    method Get(key: Key) returns (r: ApiResult<Secret>)
      ensures r.Done? ==> key in state.cached && r.value == state.cached[key]
      ensures r.Failed? ==>
        (r.error == Missing && key !in state.cached) || (r.error == Unavailable && !cluster.reliable)
    {
      var up := cluster.Up();
      r :=
        if !up then Failed(Unavailable)
        else if key in state.cached then Done(state.cached[key])
        else Failed(Missing);
    }

    method Read(key: Key) returns (r: ApiResult<Secret>)
      requires Valid() && key in state.queue && key !in state.passes
      modifies this, cluster`store, manager.api`users
      ensures Valid() && old(states) <= states && old(steps) <= steps
      ensures r.Done? ==> key in state.passes && state.passes[key] == Pass(r.value, {})
      ensures r.Failed? ==> key !in state.passes
      ensures r.Failed? && r.error == Missing ==> Finished(states, steps, |steps| - 1, key) && |old(steps)| < |steps|
      ensures r.Failed? && r.error != Missing ==> key in state.queue
      ensures old(IsUndisturbed(key)) ==>
        r.Done? && IsUndisturbed(key) && cluster.store == old(cluster.store) && IsCurrent(key)
    {
      hide Next, Run;
      Others(key);
      r := Get(key);
      if r.Done? || r.error == Missing {
        ReadIsStep(state, key, manager.config.pools);
        Advance(PassRead(key), AfterRead(state, key));
      }
    }

    method Clean(key: Key) returns (e: Option<Error>)
      requires Valid() && key in state.passes
      modifies this, cluster`store
      modifies manager.kafka.users`cache, manager.openSearch.users`cache, manager.valkey.users`cache
      modifies manager.api`users, manager.api`acls, manager.api`deletions
      ensures Valid() && old(states) <= states && old(steps) <= steps
      ensures e.None? ==> key in state.passes && state.passes[key].secret == old(state).passes[key].secret
      ensures e.None? ==> Vouched(state.passes[key].secret.annotations, manager.config.pools) <= state.passes[key].gone
      ensures e.Some? ==> key !in state.passes && key in state.queue
      ensures old(IsUndisturbed(key) && IsCurrent(key)) ==>
        && e.None? && IsUndisturbed(key) && IsCurrent(key) && cluster.store == old(cluster.store)
        && IsTakenBack(cluster.store.secrets[key], manager.api.users)
    {
      hide Next, Run, NamedUsers, KafkaTarget, OpenSearchTarget, UpdateIn, Sound, Credentials.IsReadable, OfPass;
      Others(key);
      var a := state.passes[key].secret.annotations;
      e := manager.Cleanup(a);
      var gone := if e.None? then Vouched(a, manager.config.pools) else {};
      CleanIsStep(state, key, manager.api.users.Keys, gone, manager.config.pools);
      Advance(PassClean(key, gone), AfterClean(state, key, manager.api.users.Keys, gone));
      if e.Some? {
        FailIsStep(state, key, manager.config.pools);
        Advance(PassFail(key), AfterFail(state, key));
      }
    }

    method Write(key: Key) returns (e: Option<ApiError>)
      requires Valid() && key in state.passes
      requires Vouched(state.passes[key].secret.annotations, manager.config.pools) <= state.passes[key].gone
      modifies this, cluster`store, manager.api`users
      ensures Valid() && old(states) <= states && old(steps) <= steps && key !in state.passes
      ensures e.None? ==> Finished(states, steps, |steps| - 1, key) && |old(steps)| < |steps|
      ensures e.Some? ==> key in state.queue
      ensures old(IsUndisturbed(key) && IsCurrent(key)) ==>
        && e.None? && !CarriesFinalizer(cluster.store, key) && manager.api.users == old(manager.api.users)
        && (old(IsLastFinalizer(cluster.store.secrets[key])) ==> key !in cluster.store.secrets)
    {
      hide Next, Run, Vouched, UpdateIn, CarriesFinalizer, Sound, Credentials.IsReadable, RemoveFinalizer, OfPass;
      hide IsLastFinalizer, Credentials.Manager.Valid;
      Others(key);
      if IsUndisturbed(key) {
        LastWrite(cluster.store, key);
      }
      e := cluster.UpdateSecret(RemoveFinalizer(state.passes[key].secret, FINALIZER));
      WriteIsStep(state, key, cluster.store, e.None?, manager.config.pools);
      Advance(PassWrite(key), AfterWrite(state, key, cluster.store, e.None?));
    }

    /** One pass. It is part of the run of everybody, which it only extends by steps of its own that
        the machine allows; when it asks for no retry, either it found no Secret, or its write, after
        a successful Cleanup, went through. Without faults, with nobody else at work and an up-to-date
        cache, it takes everybody whom the Secret names and then the finalizer, and the Secret goes. */
    method Reconcile(key: Key) returns (requeueAfter: Option<nat>)
      requires Valid() && key in state.queue && key !in state.passes
      modifies this, cluster`store
      modifies manager.kafka.users`cache, manager.openSearch.users`cache, manager.valkey.users`cache
      modifies manager.api`users, manager.api`acls, manager.api`deletions
      ensures Valid() && old(states) <= states && old(steps) <= steps && key !in state.passes
      ensures requeueAfter.Some? ==> requeueAfter == Some(10) && key in state.queue
      ensures requeueAfter.None? ==> |old(steps)| < |steps| && Finished(states, steps, |steps| - 1, key)
      ensures old(IsUndisturbed(key)) ==>
        && requeueAfter.None? && !CarriesFinalizer(cluster.store, key)
        && (old(IsLastFinalizer(cluster.store.secrets[key])) ==> key !in cluster.store.secrets)
        && IsTakenBack(old(cluster.store.secrets[key]), manager.api.users)
    {
      hide Next, Run, Vouched, NamedUsers, Finished, IsCurrent, IsTakenBack, CarriesFinalizer, Sound;
      hide Credentials.IsReadable, IsLastFinalizer;
      var got := Read(key);
      if got.Failed? {
        return if got.error == Missing then None else Some(REQUEUE_SECONDS);
      }
      var failure := Clean(key);
      if failure.Some? {
        return Some(REQUEUE_SECONDS);
      }
      var failed := Write(key);
      requeueAfter := if failed.None? then None else Some(REQUEUE_SECONDS);
    }
  }

  /** A Secret that only this finalizer keeps from going. */
  predicate IsLastFinalizer(secret: Secret) {
    secret.terminating && secret.finalizers == ["aivenator.aiven.nais.io/finalizer"]
  }

  lemma LastWrite(store: Store, key: Key)
    requires Sound(store) && key in store.secrets
    ensures var r := UpdateIn(store, RemoveFinalizer(store.secrets[key], FINALIZER));
      && r.Done? && !CarriesFinalizer(r.value, key)
      && (IsLastFinalizer(store.secrets[key]) ==> key !in r.value.secrets)
  {
    WithoutOnly(FINALIZER);
  }

  function AfterRead(s: State, key: Key): State {
    s.(queue := s.queue - multiset{key},
       passes := if key in s.cached then s.passes[key := Pass(s.cached[key], {})] else s.passes)
  }

  lemma ReadIsStep(s: State, key: Key, pools: map<string, string>)
    requires key in s.queue && key !in s.passes
    ensures Next(s, PassRead(key), AfterRead(s, key), pools)
  {
  }

  function AfterClean(s: State, key: Key, users: set<UserKey>, gone: set<UserKey>): State
    requires key in s.passes
  {
    s.(users := users, passes := s.passes[key := Pass(s.passes[key].secret, s.passes[key].gone + gone)])
  }

  lemma CleanIsStep(s: State, key: Key, users: set<UserKey>, gone: set<UserKey>, pools: map<string, string>)
    requires key in s.passes && users <= s.users && gone !! users
    requires s.users - users <= NamedUsers(s.passes[key].secret.annotations, pools)
    ensures Next(s, PassClean(key, gone), AfterClean(s, key, users, gone), pools)
  {
  }

  function AfterFail(s: State, key: Key): State {
    s.(passes := s.passes - {key}, queue := s.queue + multiset{key})
  }

  lemma FailIsStep(s: State, key: Key, pools: map<string, string>)
    requires key in s.passes
    ensures Next(s, PassFail(key), AfterFail(s, key), pools)
  {
  }

  function AfterWrite(s: State, key: Key, store: Store, done: bool): State {
    s.(store := store, passes := s.passes - {key},
       queue := if done then s.queue else s.queue + multiset{key})
  }

  lemma WriteIsStep(s: State, key: Key, store: Store, done: bool, pools: map<string, string>)
    requires key in s.passes && Vouched(s.passes[key].secret.annotations, pools) <= s.passes[key].gone
    requires var r := UpdateIn(s.store, RemoveFinalizer(s.passes[key].secret, FINALIZER));
      if done then r == Done(store) else store == s.store
    ensures Next(s, PassWrite(key), AfterWrite(s, key, store, done), pools)
  {
  }

  /** The pass ended well at `n`: nothing was there to read, or the finalizer's write went through. */
  ghost predicate Finished(states: seq<State>, steps: seq<Step>, n: int, key: Key)
  {
    && 0 <= n < |steps| && |states| == |steps| + 1
    && match steps[n]
       case PassRead(k) => k == key && key !in states[n].cached
       case PassWrite(k) => k == key && Finalized(states[n], key, states[n + 1].store)
       case _ => false
  }

  ghost predicate Finalized(s: State, key: Key, store: Store) {
    key in s.passes && UpdateIn(s.store, RemoveFinalizer(s.passes[key].secret, FINALIZER)) == Done(store)
  }

  lemma OthersSpare(s: State, step: Step, s': State, pools: map<string, string>, key: Key)
    requires Next(s, step, s', pools) && !OfPass(step, key)
    ensures (key in s'.passes <==> key in s.passes) && s.queue[key] <= s'.queue[key]
    ensures key in s.passes ==> s'.passes[key] == s.passes[key]
  {
    hide Vouched, NamedUsers, UpdateIn, CreateIn, DeleteIn;
  }
}
