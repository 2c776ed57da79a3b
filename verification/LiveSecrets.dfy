/** What finalizer passes do to Secrets that nobody is deleting: the passes that can harm one, and the
    passes that cannot. */
module LiveSecrets {
  import opened Wrappers
  import opened Resources
  import opened Annotations
  import opened Aiven
  import opened Cluster
  import opened Protocol

  predicate IsLive(store: Store, key: Key) {
    key in store.secrets && !store.secrets[key].terminating
  }

  /** The stored Secret is one that the finalizer is there for. */
  predicate IsDoomed(store: Store, key: Key) {
    key in store.secrets && Interesting(store.secrets[key])
  }

  /** The live Secret that is stored under `key` names the user. */
  ghost predicate NamesLive(s: State, key: Key, user: UserKey, pools: map<string, string>) {
    IsLive(s.store, key) && user in NamedUsers(s.store.secrets[key].annotations, pools)
  }

  /** A user goes that some live Secret names, wherever it is stored. */
  ghost predicate TakesUser(s: State, s': State, pools: map<string, string>) {
    exists key, user :: NamesLive(s, key, user, pools) && user in s.users && user !in s'.users
  }

  ghost predicate TakesFinalizer(s: State, s': State) {
    exists key :: IsLive(s.store, key) && Finalizable(s.store, key) && !Finalizable(s'.store, key)
  }

  /** A step of the pass on `key` takes something from a Secret that is live at that time, under whatever
      key: a user that it names, or its finalizer. */
  ghost predicate TakesFromLive(s: State, step: Step, s': State, key: Key, pools: map<string, string>) {
    OfPass(step, key) && (TakesUser(s, s', pools) || TakesFinalizer(s, s'))
  }

  /** One pass on `key` from its read on, with everybody else at work; only its last step may end it. */
  ghost predicate IsPass(states: seq<State>, steps: seq<Step>, key: Key, pools: map<string, string>) {
    && Path(states, steps, pools) && |steps| > 0 && steps[0] == PassRead(key)
    && forall i :: 0 < i < |steps| - 1 && OfPass(steps[i], key) ==> steps[i].PassClean?
  }

  ghost predicate HarmfulPass(s: State, states: seq<State>, steps: seq<Step>, key: Key, pools: map<string, string>) {
    && IsPass(states, steps, key, pools) && states[0] == s
    && TakesFromLive(states[|steps| - 1], steps[|steps| - 1], states[|steps|], key, pools)
  }

  /** A pass that begins in `s` takes from a live Secret, if the others act to that effect. */
  ghost predicate CanTakeFromLive(s: State, key: Key, pools: map<string, string>) {
    exists states, steps :: HarmfulPass(s, states, steps, key, pools)
  }

  /** No live Secret under another key names a user that these annotations name. */
  ghost predicate IsApart(s: State, key: Key, a: Annotations, pools: map<string, string>) {
    forall other, user :: other != key && NamesLive(s, other, user, pools) ==> user !in NamedUsers(a, pools)
  }

  /** If there is no such Secret in the beginning, nobody makes one. */
  ghost predicate KeepsApart(states: seq<State>, key: Key, a: Annotations, pools: map<string, string>) {
    |states| > 0 && (IsApart(states[0], key, a, pools) ==> forall s :: s in states ==> IsApart(s, key, a, pools))
  }

  /** The same, although the others do not give a user of the copy that is read to another live Secret. */
  ghost predicate CanTakeFromLiveApart(s: State, key: Key, pools: map<string, string>)
    requires key in s.cached
  {
    exists states, steps ::
      HarmfulPass(s, states, steps, key, pools) && KeepsApart(states, key, s.cached[key].annotations, pools)
  }

  // Passes that do no harm

  /** A copy is of an earlier version, or of the stored one. */
  predicate Follows(copy: Secret, store: Store, key: Key) {
    && copy.version <= store.revision
    && (key in store.secrets && store.secrets[key].version == copy.version ==> store.secrets[key] == copy)
  }

  /** What is cached under a key, and what a pass on it has read. */
  predicate CopiesFollow(s: State, key: Key) {
    && (key in s.cached ==> Follows(s.cached[key], s.store, key))
    && (key in s.passes ==> Follows(s.passes[key].secret, s.store, key))
  }

  /** What holds in all states of all runs. */
  ghost predicate WellKept(s: State) {
    && Sound(s.store) && SavesKeepFinalizer(s)
    && (forall key :: CopiesFollow(s, key))
    && (forall key :: key in s.cached ==> s.cached[key].Id() == key)
    && (forall key :: key in s.passes ==> s.passes[key].secret.Id() == key)
  }

  lemma StaysWellKept(s: State, step: Step, s': State, pools: map<string, string>)
    requires WellKept(s) && Next(s, step, s', pools)
    ensures WellKept(s')
  {
    hide Next, Sound, SavesKeepFinalizer;
    StepMoves(s, step, s', pools, Key("", ""));
    forall key ensures CopiesFollow(s', key) {
      StillFollows(s, step, s', pools, key);
    }
    SavesStillKeepFinalizer(s, step, s', pools);
    forall key | key in s'.cached ensures s'.cached[key].Id() == key {
      CacheAfterStep(s, step, s', pools, key);
      VersionsAreOld(s'.store, key);
    }
    forall key | key in s'.passes ensures s'.passes[key].secret.Id() == key {
      PassAfterStep(s, step, s', pools, key);
    }
  }

  lemma StillFollows(s: State, step: Step, s': State, pools: map<string, string>, key: Key)
    requires Sound(s.store) && CopiesFollow(s, key) && Next(s, step, s', pools)
    ensures CopiesFollow(s', key)
  {
    hide Next, Sound;
    StepMoves(s, step, s', pools, key);
    if key in s'.cached {
      CacheAfterStep(s, step, s', pools, key);
      VersionsAreOld(s'.store, key);
    }
    if key in s'.passes {
      PassAfterStep(s, step, s', pools, key);
    }
  }

  lemma VersionsAreOld(store: Store, key: Key)
    requires Sound(store)
    ensures key in store.secrets ==> store.secrets[key].version <= store.revision && store.secrets[key].Id() == key
  {
  }

  lemma {:induction false} RunsAreWellKept(states: seq<State>, steps: seq<Step>, pools: map<string, string>, n: nat)
    requires Run(states, steps, pools) && n <= |steps|
    ensures WellKept(states[n])
  {
    hide Next;
    if n > 0 {
      RunsAreWellKept(states, steps, pools, n - 1);
      StaysWellKept(states[n - 1], steps[n - 1], states[n], pools);
    }
  }

  lemma WritesKeepTerminating(store: Store, written: Secret, deleted: Key, key: Key)
    requires key in store.secrets && store.secrets[key].terminating
    ensures var r := CreateIn(store, written); r.Done? ==> !IsLive(r.value, key)
    ensures var r := UpdateIn(store, written); r.Done? ==> !IsLive(r.value, key)
    ensures var r := DeleteIn(store, deleted); r.Done? ==> !IsLive(r.value, key)
  {
  }

  /** Until a finalizer pass on it writes, a Secret that is being deleted stays, and stays so. */
  lemma StaysDoomed(s: State, step: Step, s': State, pools: map<string, string>, key: Key)
    requires WellKept(s) && Next(s, step, s', pools) && IsDoomed(s.store, key) && step != PassWrite(key)
    ensures IsDoomed(s'.store, key)
  {
    hide NamedUsers, Vouched, CreateIn, UpdateIn, DeleteIn, Sound, SavesKeepFinalizer, IsAnnounced;
    if !Finalizable(s'.store, key) {
      OnlyPassesFinalize(s, step, s', pools, key);
    }
    match step {
      case SaveWrite(worker) =>
        var save := s.saves[worker];
        WritesKeepTerminating(s.store, save.secret, key, key);
        if save.seen.Some? {
          WritesKeepTerminating(s.store, save.secret.(version := save.seen.value), key, key);
        }
      case OutsideWrite(secret) => WritesKeepTerminating(s.store, secret, key, key);
      case Delete(deleted) => WritesKeepTerminating(s.store, s.store.secrets[key], deleted, key);
      case PassWrite(k) =>
        WritesKeepTerminating(s.store, RemoveFinalizer(s.passes[k].secret, FINALIZER), key, key);
      case _ =>
    }
  }

  lemma {:induction false} DoomedUntilWritten(
    states: seq<State>, steps: seq<Step>, pools: map<string, string>, n: nat, key: Key)
    requires Path(states, steps, pools) && n <= |steps| && WellKept(states[0]) && IsDoomed(states[0].store, key)
    requires forall i :: 0 <= i < n ==> steps[i] != PassWrite(key)
    ensures WellKept(states[n]) && IsDoomed(states[n].store, key)
  {
    hide Next, WellKept, IsDoomed;
    if n > 0 {
      DoomedUntilWritten(states, steps, pools, n - 1, key);
      StaysWellKept(states[n - 1], steps[n - 1], states[n], pools);
      StaysDoomed(states[n - 1], steps[n - 1], states[n], pools, key);
    }
  }

  // Passes that do harm

  ghost predicate SameElsewhere(s: State, s': State, key: Key) {
    s'.store.secrets - {key} == s.store.secrets - {key}
  }

  lemma StillApart(s: State, s': State, key: Key, a: Annotations, pools: map<string, string>)
    requires IsApart(s, key, a, pools) && SameElsewhere(s, s', key)
    ensures IsApart(s', key, a, pools)
  {
    hide NamedUsers;
    forall other, user | other != key && NamesLive(s', other, user, pools) ensures user !in NamedUsers(a, pools) {
      assert other in s'.store.secrets - {key} && (s'.store.secrets - {key})[other] == (s.store.secrets - {key})[other];
      assert NamesLive(s, other, user, pools);
    }
  }

  /** A write of another actor that comes off. */
  lemma OneWrite(s: State, secret: Secret, r: ApiResult<Store>, pools: map<string, string>)
    requires Finalizable(s.store, secret.Id()) ==> FINALIZER in secret.finalizers
    requires r == if secret.Id() in s.store.secrets then UpdateIn(s.store, secret) else CreateIn(s.store, secret)
    requires r.Done?
    ensures Path([s, s.(store := r.value)], [OutsideWrite(secret)], pools)
  {
    hide NamedUsers, Vouched, UpdateIn, CreateIn, DeleteIn;
  }

  lemma Edited(s: State, key: Key, a: Annotations, pools: map<string, string>) returns (s1: State, step: Step)
    requires Sound(s.store) && IsLive(s.store, key)
    ensures Path([s, s1], [step], pools) && step.OutsideWrite? && s1 == s.(store := s1.store)
    ensures IsLive(s1.store, key) && s1.store.secrets[key].annotations == a && SameElsewhere(s, s1, key)
  {
    hide Path;
    var secret := s.store.secrets[key].(annotations := a);
    OneWrite(s, secret, UpdateIn(s.store, secret), pools);
    s1, step := s.(store := UpdateIn(s.store, secret).value), OutsideWrite(secret);
  }

  lemma Removed(s: State, key: Key, pools: map<string, string>) returns (s1: State, step: Step)
    requires Sound(s.store) && key in s.store.secrets && !IsLive(s.store, key) && !IsDoomed(s.store, key)
    ensures Path([s, s1], [step], pools) && step.OutsideWrite? && s1 == s.(store := s1.store)
    ensures key !in s1.store.secrets && SameElsewhere(s, s1, key)
  {
    hide Path;
    var secret := s.store.secrets[key].(finalizers := []);
    OneWrite(s, secret, UpdateIn(s.store, secret), pools);
    s1, step := s.(store := UpdateIn(s.store, secret).value), OutsideWrite(secret);
  }

  lemma Created(s: State, key: Key, a: Annotations, pools: map<string, string>) returns (s1: State, step: Step)
    requires key !in s.store.secrets
    ensures Path([s, s1], [step], pools) && step.OutsideWrite? && s1 == s.(store := s1.store)
    ensures IsLive(s1.store, key) && s1.store.secrets[key].annotations == a && SameElsewhere(s, s1, key)
  {
    hide Path;
    var secret := Secret(key.namespace, key.name, 0, map[], a, [FINALIZER], false);
    OneWrite(s, secret, CreateIn(s.store, secret), pools);
    s1, step := s.(store := CreateIn(s.store, secret).value), OutsideWrite(secret);
  }

  /** Whatever the pass read, the others can put a live Secret with the same annotations in its way. */
  lemma MadeLive(s: State, key: Key, a: Annotations, pools: map<string, string>)
    returns (states: seq<State>, steps: seq<Step>)
    requires Sound(s.store) && !IsDoomed(s.store, key)
    ensures Path(states, steps, pools) && states[0] == s
    ensures forall i :: 0 <= i < |steps| ==> !OfPass(steps[i], key)
    ensures forall s' :: s' in states ==> SameElsewhere(s, s', key)
    ensures var last := states[|steps|];
      last == s.(store := last.store) && IsLive(last.store, key) && last.store.secrets[key].annotations == a
  {
    hide Next, Sound, IsDoomed;
    if IsLive(s.store, key) {
      var s1, step := Edited(s, key, a, pools);
      states, steps := [s, s1], [step];
    } else if key !in s.store.secrets {
      var s1, step := Created(s, key, a, pools);
      states, steps := [s, s1], [step];
    } else {
      var s1, step := Removed(s, key, pools);
      var s2, step' := Created(s1, key, a, pools);
      Joined([s, s1], [step], [s1, s2], [step'], pools);
      states, steps := [s, s1] + [s1, s2][1..], [step] + [step'];
    }
  }

  /** The stored Secret is not being deleted: the others can put a live Secret in its place that names the
      user, and need no other key for it. */
  lemma TakesTheUserThere(s: State, key: Key, pools: map<string, string>, user: UserKey)
    requires WellKept(s) && key in s.queue && key !in s.passes && key in s.cached && !IsDoomed(s.store, key)
    requires user in NamedUsers(s.cached[key].annotations, pools)
    ensures CanTakeFromLiveApart(s, key, pools)
  {
    hide NamedUsers, Next, IsDoomed, IsApart, TakesFromLive;
    var a := s.cached[key].annotations;
    var s1 := BegunPass(s, key, pools);
    KeepsItsKeys(s);
    var states, steps := MadeLive(s1, key, a, pools);
    var live := states[|steps|];
    var provided, cleaned := UserTaken(live, key, key, user, pools);
    var rest := [OutsideUsers, PassClean(key, {user})];
    Joined([s, s1], [PassRead(key)], states, steps, pools);
    Joined([s, s1] + states[1..], [PassRead(key)] + steps, [live, provided, cleaned], rest, pools);
    var all := [s, s1] + states[1..] + [live, provided, cleaned][1..];
    assert HarmfulPass(s, all, [PassRead(key)] + steps + rest, key, pools);
    if IsApart(s, key, a, pools) {
      forall s' | s' in all ensures IsApart(s', key, a, pools) {
        assert s' in states || s' in [s, s1, provided, cleaned];
        assert live in states;
        StillApart(s, s', key, a, pools);
      }
    }
  }

  /** Another live Secret names the user already. */
  lemma TakesTheUserElsewhere(s: State, key: Key, other: Key, pools: map<string, string>, user: UserKey)
    requires WellKept(s) && key in s.queue && key !in s.passes && key in s.cached
    requires user in NamedUsers(s.cached[key].annotations, pools) && NamesLive(s, other, user, pools)
    ensures !IsApart(s, key, s.cached[key].annotations, pools) ==> CanTakeFromLiveApart(s, key, pools)
  {
    hide NamedUsers, Next, IsApart, TakesFromLive;
    var s1 := BegunPass(s, key, pools);
    var provided, cleaned := UserTaken(s1, key, other, user, pools);
    var states := [s, s1, provided, cleaned];
    assert HarmfulPass(s, states, [PassRead(key), OutsideUsers, PassClean(key, {user})], key, pools);
  }

  lemma KeepsItsKeys(s: State)
    requires WellKept(s)
    ensures Sound(s.store) && forall key :: key in s.cached ==> s.cached[key].Id() == key
  {
  }

  lemma BegunPass(s: State, key: Key, pools: map<string, string>) returns (s1: State)
    requires key in s.queue && key !in s.passes && key in s.cached
    ensures Next(s, PassRead(key), s1, pools)
    ensures s1 == s.(queue := s.queue - multiset{key}, passes := s.passes[key := Pass(s.cached[key], {})])
  {
    hide NamedUsers, Vouched, UpdateIn, CreateIn, DeleteIn;
    s1 := s.(queue := s.queue - multiset{key}, passes := s.passes[key := Pass(s.cached[key], {})]);
  }

  /** Cleanup takes a user that was provisioned for a live Secret. */
  lemma UserTaken(s: State, key: Key, other: Key, user: UserKey, pools: map<string, string>)
    returns (s1: State, s2: State)
    requires key in s.passes && NamesLive(s, other, user, pools)
    requires user in NamedUsers(s.passes[key].secret.annotations, pools)
    ensures Next(s, OutsideUsers, s1, pools) && Next(s1, PassClean(key, {user}), s2, pools)
    ensures TakesFromLive(s1, PassClean(key, {user}), s2, key, pools)
    ensures s1.store == s.store && s2.store == s.store && user in s1.users && user !in s2.users
    ensures NamesLive(s1, other, user, pools)
  {
    hide NamedUsers, Vouched, UpdateIn, CreateIn, DeleteIn;
    s1 := s.(users := s.users + {user});
    s2 := s1.(
      users := s1.users - {user}, passes := s.passes[key := Pass(s.passes[key].secret, s.passes[key].gone + {user})]);
    assert NamesLive(s1, other, user, pools) && user in s1.users && user !in s2.users;
  }

  // Passes over Secrets that name nobody

  /** The cached copy is the stored Secret, which is live and carries the finalizer. */
  predicate ReadsLive(s: State, key: Key) {
    && key in s.cached && IsLive(s.store, key) && Finalizable(s.store, key)
    && s.cached[key] == s.store.secrets[key]
  }

  lemma TakesTheFinalizer(s: State, key: Key, pools: map<string, string>)
    requires WellKept(s) && key in s.queue && key !in s.passes && ReadsLive(s, key)
    requires NamedUsers(s.cached[key].annotations, pools) == {}
    ensures CanTakeFromLiveApart(s, key, pools)
  {
    hide NamedUsers, Next;
    var s1 := BegunPass(s, key, pools);
    VouchedAreNamed(s.cached[key].annotations, pools);
    var s2 := FinalizerTaken(s1, key, pools);
    assert HarmfulPass(s, [s, s1, s2], [PassRead(key), PassWrite(key)], key, pools);
    assert KeepsApart([s, s1, s2], key, s.cached[key].annotations, pools);
  }

  lemma VouchedAreNamed(a: Annotations, pools: map<string, string>)
    ensures Vouched(a, pools) <= NamedUsers(a, pools)
  {
    hide KafkaTarget, OpenSearchTarget, ValkeyUsers;
  }

  lemma FinalizerTaken(s: State, key: Key, pools: map<string, string>) returns (s': State)
    requires Sound(s.store) && IsLive(s.store, key) && Finalizable(s.store, key)
    requires key in s.passes && s.passes[key].secret == s.store.secrets[key]
    requires Vouched(s.store.secrets[key].annotations, pools) == {}
    ensures Next(s, PassWrite(key), s', pools) && TakesFromLive(s, PassWrite(key), s', key, pools)
  {
    hide NamedUsers, Vouched, CreateIn, DeleteIn;
    var r := UpdateIn(s.store, RemoveFinalizer(s.passes[key].secret, FINALIZER));
    s' := s.(store := r.value, passes := s.passes - {key});
  }

  /** While a pass lasts it holds what it read. */
  lemma {:induction false} HoldsWhatItRead(
    states: seq<State>, steps: seq<Step>, pools: map<string, string>, n: nat, key: Key)
    requires IsPass(states, steps, key, pools) && 0 < n < |steps| && key in states[0].cached
    ensures key in states[n].passes && states[n].passes[key].secret == states[0].cached[key]
  {
    hide Next;
    if n == 1 {
      PassStep(states[0], steps[0], states[1], pools, key);
    } else {
      HoldsWhatItRead(states, steps, pools, n - 1, key);
      PassStep(states[n - 1], steps[n - 1], states[n], pools, key);
    }
  }

  lemma PassStep(s: State, step: Step, s': State, pools: map<string, string>, key: Key)
    requires Next(s, step, s', pools)
    ensures step == PassRead(key) && key in s.cached ==> key in s'.passes && s'.passes[key].secret == s.cached[key]
    ensures (OfPass(step, key) ==> step.PassClean?) && key in s.passes ==>
      key in s'.passes && s'.passes[key].secret == s.passes[key].secret
  {
    hide NamedUsers, Vouched, UpdateIn, CreateIn, DeleteIn, IsAnnounced;
  }

  /** A version that was handed out already is one that was stored. */
  lemma {:induction false} OldVersionsWereThere(
    states: seq<State>, steps: seq<Step>, pools: map<string, string>, n: nat, key: Key)
    requires Path(states, steps, pools) && Sound(states[0].store) && n <= |steps|
    ensures Sound(states[n].store) && states[0].store.revision <= states[n].store.revision
    ensures key in states[n].store.secrets && states[n].store.secrets[key].version <= states[0].store.revision ==>
      key in states[0].store.secrets && states[0].store.secrets[key] == states[n].store.secrets[key]
  {
    hide Next, Sound;
    if n > 0 {
      OldVersionsWereThere(states, steps, pools, n - 1, key);
      StepMoves(states[n - 1], steps[n - 1], states[n], pools, key);
    }
  }

  /** What a step of a pass can take from live Secrets: users that they share with the copy that was
      read, and the finalizer of the very version that was read. */
  lemma WhatAPassTakes(s: State, step: Step, s': State, key: Key, pools: map<string, string>)
    requires WellKept(s) && Next(s, step, s', pools) && key in s.passes && TakesFromLive(s, step, s', key, pools)
    ensures
      || (IsLive(s.store, key) && Finalizable(s.store, key) && s.passes[key].secret == s.store.secrets[key])
      || (exists other, user ::
            NamesLive(s, other, user, pools) && user in NamedUsers(s.passes[key].secret.annotations, pools))
  {
    hide NamedUsers, Vouched, UpdateIn, CreateIn, DeleteIn, Finalizable, Sound, SavesKeepFinalizer, IsAnnounced;
    if TakesUser(s, s', pools) {
      var other, user :| NamesLive(s, other, user, pools) && user in s.users && user !in s'.users;
      assert user in s.users - s'.users;
    } else {
      var other :| IsLive(s.store, other) && Finalizable(s.store, other) && !Finalizable(s'.store, other);
      OnlyPassesFinalize(s, step, s', pools, other);
      assert CopiesFollow(s, key);
    }
  }

  /** In the end of a harmful pass, somewhere after its read. */
  lemma HarmComesFrom(s: State, states: seq<State>, steps: seq<Step>, key: Key, pools: map<string, string>)
    requires WellKept(s) && key in s.cached && HarmfulPass(s, states, steps, key, pools)
    ensures var last := states[|steps| - 1];
      && |steps| > 1 && WellKept(last)
      && ((IsLive(last.store, key) && Finalizable(last.store, key) && s.cached[key] == last.store.secrets[key])
          || (exists other, user ::
                NamesLive(last, other, user, pools) && user in NamedUsers(s.cached[key].annotations, pools)))
  {
    hide NamedUsers, Next, WellKept;
    var n := |steps| - 1;
    if n == 0 {
      ReadTakesNothing(states[0], states[1], key, pools);
    } else {
      PathsAreWellKept(states, steps, pools, n);
      HoldsWhatItRead(states, steps, pools, n, key);
      WhatAPassTakes(states[n], steps[n], states[n + 1], key, pools);
    }
  }

  lemma {:induction false} PathsAreWellKept(
    states: seq<State>, steps: seq<Step>, pools: map<string, string>, n: nat)
    requires Path(states, steps, pools) && n <= |steps| && WellKept(states[0])
    ensures WellKept(states[n])
  {
    hide Next, WellKept;
    if n > 0 {
      PathsAreWellKept(states, steps, pools, n - 1);
      StaysWellKept(states[n - 1], steps[n - 1], states[n], pools);
    }
  }

  lemma NamelessNeedsLiveRead(s: State, key: Key, pools: map<string, string>)
    requires WellKept(s) && key in s.cached && NamedUsers(s.cached[key].annotations, pools) == {}
    requires CanTakeFromLive(s, key, pools)
    ensures ReadsLive(s, key)
  {
    hide NamedUsers, Next, TakesFromLive, CopiesFollow;
    var states, steps :| HarmfulPass(s, states, steps, key, pools);
    HarmComesFrom(s, states, steps, key, pools);
    OldVersionsWereThere(states, steps, pools, |steps| - 1, key);
    assert CopiesFollow(s, key);
    CopyIsOld(s, key);
  }

  lemma CopyIsOld(s: State, key: Key)
    requires CopiesFollow(s, key) && key in s.cached
    ensures s.cached[key].version <= s.store.revision
  {
  }

  /** A pass that begins on a Secret that is being deleted takes from live Secrets only while another of
      them names a user of the copy. */
  lemma DoomedHarmsElsewhere(s: State, states: seq<State>, steps: seq<Step>, key: Key, pools: map<string, string>)
    requires WellKept(s) && key in s.cached && IsDoomed(s.store, key) && HarmfulPass(s, states, steps, key, pools)
    ensures !IsApart(states[|steps| - 1], key, s.cached[key].annotations, pools)
  {
    hide NamedUsers, Next, WellKept, TakesFromLive;
    HarmComesFrom(s, states, steps, key, pools);
    DoomedUntilWritten(states, steps, pools, |steps| - 1, key);
  }

  lemma ReadTakesNothing(s: State, s': State, key: Key, pools: map<string, string>)
    requires Next(s, PassRead(key), s', pools)
    ensures s'.users == s.users && s'.store == s.store
  {
    hide NamedUsers, Vouched, UpdateIn, CreateIn, DeleteIn;
  }

  /** The exact condition under which a pass spares live Secrets, whatever anybody else does meanwhile,
      short of giving a user of the copy that is read to a live Secret under another key: as the pass
      begins, the stored Secret is being deleted and carries the finalizer, and no live Secret under
      another key names a user of the copy; or there is nothing to take, because the copy names nobody
      and is not the live Secret itself. */
  lemma PassSparesLiveSecrets(s: State, key: Key, pools: map<string, string>)
    requires WellKept(s) && key in s.queue && key !in s.passes && key in s.cached
    ensures var a := s.cached[key].annotations;
      !CanTakeFromLiveApart(s, key, pools) <==>
        || (IsDoomed(s.store, key) && IsApart(s, key, a, pools))
        || (NamedUsers(a, pools) == {} && !ReadsLive(s, key))
  {
    hide NamedUsers, WellKept, HarmfulPass, NamesLive;
    var a := s.cached[key].annotations;
    if !IsApart(s, key, a, pools) {
      var other, user :| other != key && NamesLive(s, other, user, pools) && user in NamedUsers(a, pools);
      TakesTheUserElsewhere(s, key, other, pools, user);
    } else if NamedUsers(a, pools) == {} && ReadsLive(s, key) {
      TakesTheFinalizer(s, key, pools);
    } else if NamedUsers(a, pools) != {} && !IsDoomed(s.store, key) {
      var user :| user in NamedUsers(a, pools);
      TakesTheUserThere(s, key, pools, user);
    } else if CanTakeFromLiveApart(s, key, pools) {
      var states, steps :| HarmfulPass(s, states, steps, key, pools) && KeepsApart(states, key, a, pools);
      SparesApart(s, states, steps, key, pools);
    }
  }

  lemma SparesApart(s: State, states: seq<State>, steps: seq<Step>, key: Key, pools: map<string, string>)
    requires WellKept(s) && key in s.cached && HarmfulPass(s, states, steps, key, pools)
    requires var a := s.cached[key].annotations; KeepsApart(states, key, a, pools) && IsApart(s, key, a, pools)
    ensures !IsDoomed(s.store, key)
    ensures NamedUsers(s.cached[key].annotations, pools) == {} ==> ReadsLive(s, key)
  {
    hide NamedUsers, WellKept, IsDoomed, TakesFromLive, IsApart, ReadsLive, Next;
    assert states[|steps| - 1] in states;
    if IsDoomed(s.store, key) {
      DoomedHarmsElsewhere(s, states, steps, key, pools);
    }
    if NamedUsers(s.cached[key].annotations, pools) == {} {
      NamelessNeedsLiveRead(s, key, pools);
    }
  }

  /** Without that restriction on the others no state of the Secret itself is a guard: a pass over a copy
      that names a user can always come to take it from a Secret that is saved under another key. */
  lemma OthersCanAlwaysShare(s: State, key: Key, pools: map<string, string>)
    requires WellKept(s) && key in s.queue && key !in s.passes && key in s.cached
    ensures CanTakeFromLive(s, key, pools) <==>
      NamedUsers(s.cached[key].annotations, pools) != {} || ReadsLive(s, key)
  {
    hide NamedUsers, WellKept, HarmfulPass, NamesLive;
    var a := s.cached[key].annotations;
    if NamedUsers(a, pools) == {} {
      if ReadsLive(s, key) {
        TakesTheFinalizer(s, key, pools);
      } else if CanTakeFromLive(s, key, pools) {
        NamelessNeedsLiveRead(s, key, pools);
      }
    } else {
      var user :| user in NamedUsers(a, pools);
      TakesTheUserSomewhere(s, key, pools, user);
    }
  }

  lemma TakesTheUserSomewhere(s: State, key: Key, pools: map<string, string>, user: UserKey)
    requires key in s.queue && key !in s.passes && key in s.cached
    requires user in NamedUsers(s.cached[key].annotations, pools)
    ensures exists states, steps :: HarmfulPass(s, states, steps, key, pools)
  {
    hide NamedUsers, Next;
    var s1 := BegunPass(s, key, pools);
    var other := FreshKey(s.store.secrets.Keys);
    var s2, step := Created(s1, other, s.cached[key].annotations, pools);
    var written, write := [s1, s2], [step];
    assert Next(written[0], write[0], written[1], pools);
    var provided, cleaned := UserTaken(s2, key, other, user, pools);
    assert HarmfulPass(
      s, [s, s1, s2, provided, cleaned], [PassRead(key), step, OutsideUsers, PassClean(key, {user})], key, pools);
  }

  lemma FreshKey(keys: set<Key>) returns (key: Key)
    ensures key !in keys
  {
    var n := Longer(keys);
    key := Key("", seq(n, _ => 'a'));
  }

  lemma {:induction false} Longer(keys: set<Key>) returns (n: nat)
    ensures forall key :: key in keys ==> |key.name| < n
  {
    if keys == {} {
      n := 0;
    } else {
      var key :| key in keys;
      n := Longer(keys - {key});
      if n <= |key.name| {
        n := |key.name| + 1;
      }
    }
  }

  /** At any point of a pass: whom it can take next, once provided, is who is named by its copy and by a
      live Secret, under its own key or another. */
  lemma SharedUsersAreAtStake(s: State, key: Key, user: UserKey, pools: map<string, string>)
    requires WellKept(s) && key in s.passes
    ensures (exists s1, s2 :: IsTakenNext(s, s1, s2, key, user, pools)) <==>
      && user in NamedUsers(s.passes[key].secret.annotations, pools)
      && exists other :: NamesLive(s, other, user, pools)
  {
    hide NamedUsers, Next, WellKept, NamesLive;
    if user in NamedUsers(s.passes[key].secret.annotations, pools) && exists other :: NamesLive(s, other, user, pools) {
      var other :| NamesLive(s, other, user, pools);
      var s1, s2 := UserTaken(s, key, other, user, pools);
      assert IsTakenNext(s, s1, s2, key, user, pools);
    }
    if exists s1, s2 :: IsTakenNext(s, s1, s2, key, user, pools) {
      var s1, s2 :| IsTakenNext(s, s1, s2, key, user, pools);
      TakenIsNamed(s, s1, s2, key, user, pools);
    }
  }

  /** The user is provided, and then the pass takes it from a live Secret. */
  ghost predicate IsTakenNext(
    s: State, s1: State, s2: State, key: Key, user: UserKey, pools: map<string, string>)
  {
    && Next(s, OutsideUsers, s1, pools) && Next(s1, PassClean(key, {user}), s2, pools)
    && user in s1.users && user !in s2.users && exists other :: NamesLive(s1, other, user, pools)
  }

  lemma TakenIsNamed(s: State, s1: State, s2: State, key: Key, user: UserKey, pools: map<string, string>)
    requires key in s.passes && IsTakenNext(s, s1, s2, key, user, pools)
    ensures user in NamedUsers(s.passes[key].secret.annotations, pools)
    ensures exists other :: NamesLive(s, other, user, pools)
  {
    hide NamedUsers, Vouched, UpdateIn, CreateIn, DeleteIn;
    assert user in s1.users - s2.users;
    var other :| NamesLive(s1, other, user, pools);
    assert NamesLive(s, other, user, pools);
  }

  /** The guard that the finalizer lacks: a pass that begins with an up-to-date copy of a Secret that is
      being deleted meets no live Secret under that key until it ends, in any run, and takes from other
      live Secrets only while one of them names a user of the copy. */
  lemma CurrentTerminatingReadIsSafe(
    states: seq<State>, steps: seq<Step>, pools: map<string, string>, r: nat, n: nat, key: Key)
    requires Run(states, steps, pools) && r <= n < |steps| && steps[r] == PassRead(key)
    requires key in states[r].cached && Interesting(states[r].cached[key])
    requires key in states[r].store.secrets && states[r].store.secrets[key] == states[r].cached[key]
    requires forall i :: r < i < n && OfPass(steps[i], key) ==> steps[i].PassClean?
    ensures IsDoomed(states[n].store, key)
    ensures TakesFromLive(states[n], steps[n], states[n + 1], key, pools) ==>
      !IsApart(states[n], key, states[r].cached[key].annotations, pools)
  {
    hide Next, WellKept, TakesFromLive, NamedUsers, IsApart;
    RunsAreWellKept(states, steps, pools, r);
    DoomedUntilWritten(states[r..], steps[r..], pools, n - r, key);
    if TakesFromLive(states[n], steps[n], states[n + 1], key, pools) {
      DoomedHarmsElsewhere(states[r], states[r..n + 2], steps[r..n + 1], key, pools);
    }
  }

  // How live Secrets come to miss users

  ghost predicate AllUsersExist(s: State, pools: map<string, string>) {
    forall key, user :: NamesLive(s, key, user, pools) ==> user in s.users
  }

  /** A write puts a live Secret in place that names a user who is not there. */
  ghost predicate WritesMissing(s: State, s': State, pools: map<string, string>) {
    exists key, user :: !NamesLive(s, key, user, pools) && NamesLive(s', key, user, pools) && user !in s'.users
  }

  lemma DeletingNamesNobody(store: Store, deleted: Key, key: Key)
    requires DeleteIn(store, deleted).Done? && IsLive(DeleteIn(store, deleted).value, key)
    ensures IsLive(store, key)
    ensures DeleteIn(store, deleted).value.secrets[key].annotations == store.secrets[key].annotations
  {
  }

  lemma FinalizingNamesNobody(store: Store, copy: Secret, key: Key)
    requires Sound(store) && Follows(copy, store, copy.Id())
    requires var r := UpdateIn(store, RemoveFinalizer(copy, FINALIZER)); r.Done? && IsLive(r.value, key)
    ensures var r := UpdateIn(store, RemoveFinalizer(copy, FINALIZER));
      IsLive(store, key) && r.value.secrets[key].annotations == store.secrets[key].annotations
  {
  }

  /** Only SaveSecret and other writers give live Secrets users to name. */
  lemma OnlyWritersName(s: State, step: Step, s': State, pools: map<string, string>, key: Key)
    requires WellKept(s) && Next(s, step, s', pools) && !step.SaveWrite? && !step.OutsideWrite? && IsLive(s'.store, key)
    ensures IsLive(s.store, key) && s'.store.secrets[key].annotations == s.store.secrets[key].annotations
  {
    hide NamedUsers, Vouched, CreateIn, UpdateIn, DeleteIn, Sound, SavesKeepFinalizer, IsAnnounced, Follows, IsLive;
    if s'.store != s.store {
      if step.Delete? {
        DeletingNamesNobody(s.store, step.key, key);
      } else {
        assert CopiesFollow(s, step.key);
        FinalizingNamesNobody(s.store, s.passes[step.key].secret, key);
      }
    }
  }

  lemma OnlySomeStepsTouchUsers(s: State, step: Step, s': State, pools: map<string, string>)
    requires Next(s, step, s', pools)
    ensures !step.PassClean? && !step.OutsideUsers? ==> s'.users == s.users
    ensures step.PassClean? || step.OutsideUsers? ==> s'.store == s.store
  {
    hide NamedUsers, Vouched, CreateIn, UpdateIn, DeleteIn, IsAnnounced;
  }

  /** The ways in which a live Secret comes to name a user who does not exist, if all did before: a pass
      takes the user, SaveSecret or somebody else writes a Secret for a user who has gone since it was
      provisioned, or the user goes without the operator. */
  lemma WaysToLoseAUser(s: State, step: Step, s': State, pools: map<string, string>)
    requires WellKept(s) && Next(s, step, s', pools) && AllUsersExist(s, pools)
    ensures !AllUsersExist(s', pools) <==>
      match step
      case PassClean(key, _) => TakesFromLive(s, step, s', key, pools)
      case SaveWrite(_) => WritesMissing(s, s', pools)
      case OutsideWrite(_) => WritesMissing(s, s', pools)
      case OutsideUsers => TakesUser(s, s', pools)
      case _ => false
  {
    hide NamedUsers, Next, WellKept, IsLive;
    OnlySomeStepsTouchUsers(s, step, s', pools);
    if !step.SaveWrite? && !step.OutsideWrite? {
      forall key, user | NamesLive(s', key, user, pools) ensures NamesLive(s, key, user, pools) {
        OnlyWritersName(s, step, s', pools, key);
      }
    }
    if !AllUsersExist(s', pools) {
      var key, user :| NamesLive(s', key, user, pools) && user !in s'.users;
      assert NamesLive(s, key, user, pools) ==> user in s.users;
    }
    if step.PassClean? || step.OutsideUsers? {
      assert forall key, user :: NamesLive(s, key, user, pools) ==> NamesLive(s', key, user, pools);
    }
  }
}
