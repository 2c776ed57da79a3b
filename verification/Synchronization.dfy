/** What the runs of the application reconciler add up to: the status they persist, the Secrets they
    leave behind, and when they are done. */
module Synchronization {
  import opened Wrappers
  import opened Resources
  import opened Annotations
  import opened Secrets
  import opened Cluster
  import opened Credentials
  import opened Reconciler
  import OpenSearch
  import Protocol

  // Status

  lemma EffectKeepsConsistent(
    end: Outcome, hasher: Hasher, config: Config, resources: Instances, app: Application, store: Store,
    status: Status, store': Store)
    requires Effect(end, hasher, config, resources, WithDeprecation(app), store, status, store')
    requires Consistent(app.status)
    ensures Consistent(status)
  {
    hide NeedsSync, Produced, SaveFirst, HashOf;
  }

  /** The next persisted status: unchanged when a run does not get to write it, and others may clear the
      hash to have an application synchronized again. */
  ghost predicate NextStatus(
    before: Application, after: Application, hasher: Hasher, config: Config)
  {
    || after.status == before.status
    || (exists hash :: after.status == before.status.(hash := hash))
    || (exists end, resources, store, status, store' ::
          Effect(end, hasher, config, resources, WithDeprecation(before), store, status, store')
          && after.status == WithStatus(before, status).status)
  }

  /** In every state of every history the persisted status is consistent, whatever else happens to the
      application and however often its runs fail. */
  lemma {:induction false} StatusStaysConsistent(history: seq<Application>, hasher: Hasher, config: Config, n: nat)
    requires n < |history| && Consistent(history[0].status)
    requires forall i :: 0 <= i < |history| - 1 ==> NextStatus(history[i], history[i + 1], hasher, config)
    ensures Consistent(history[n].status)
  {
    hide Effect;
    if n > 0 {
      StatusStaysConsistent(history, hasher, config, n - 1);
      var before, after := history[n - 1], history[n];
      assert NextStatus(before, after, hasher, config);
      if exists end, resources, store, status, store' ::
        Effect(end, hasher, config, resources, WithDeprecation(before), store, status, store')
        && after.status == WithStatus(before, status).status
      {
        var end, resources, store, status, store' :|
          Effect(end, hasher, config, resources, WithDeprecation(before), store, status, store')
          && after.status == WithStatus(before, status).status;
        EffectKeepsConsistent(end, hasher, config, resources, before, store, status, store');
      }
    }
  }

  // Secrets

  /** The last of the first `n` Secrets that go under `key`. */
  function LastUnder(secrets: seq<Secret>, n: nat, key: Key): (i: Option<nat>)
    requires n <= |secrets|
    ensures i.Some? ==> i.value < n && secrets[i.value].Id() == key
    ensures i.Some? ==> forall j :: i.value < j < n ==> secrets[j].Id() != key
    ensures i.None? ==> forall j :: 0 <= j < n ==> secrets[j].Id() != key
  {
    if n == 0 then None
    else if secrets[n - 1].Id() == key then Some(n - 1)
    else LastUnder(secrets, n - 1, key)
  }

  /** What is stored is `secret`, but for what the server decides. */
  predicate IsCopy(stored: Secret, secret: Secret) {
    stored == secret.(version := stored.version, terminating := stored.terminating)
  }

  ghost predicate SavedUnder(before: Cluster.Secrets, secrets: seq<Secret>, n: nat, key: Key, after: Cluster.Secrets)
    requires n <= |secrets|
  {
    match LastUnder(secrets, n, key)
    case Some(i) => key in after && IsCopy(after[key], secrets[i])
    case None => (key in after <==> key in before) && (key in after ==> after[key] == before[key])
  }

  lemma OneSaved(store: Store, secret: Secret, store': Store)
    requires SaveIn(store, secret) == Done(store') && secret.finalizers != []
    ensures store'.revision == store.revision + 1
    ensures secret.Id() in store'.secrets && IsCopy(store'.secrets[secret.Id()], secret)
    ensures store'.secrets - {secret.Id()} == store.secrets - {secret.Id()}
    ensures forall key :: key != secret.Id() ==> (key in store'.secrets <==> key in store.secrets)
    ensures forall key :: key != secret.Id() && key in store.secrets ==> store'.secrets[key] == store.secrets[key]
  {
  }

  /** Saving writes each of the first `n` Secrets once, in order, and nothing else. */
  lemma {:induction false} FirstSaved(store: Store, secrets: seq<Secret>, n: nat, store': Store)
    requires n <= |secrets| && SaveFirst(store, secrets, n) == Done(store')
    requires forall i :: 0 <= i < |secrets| ==> secrets[i].finalizers != []
    ensures store'.revision == store.revision + n
    ensures forall key :: SavedUnder(store.secrets, secrets, n, key, store'.secrets)
  {
    hide SaveIn, IsCopy;
    if n > 0 {
      var before := SaveFirst(store, secrets, n - 1).value;
      FirstSaved(store, secrets, n - 1, before);
      OneSaved(before, secrets[n - 1], store');
      forall key ensures SavedUnder(store.secrets, secrets, n, key, store'.secrets) {
        assert SavedUnder(store.secrets, secrets, n - 1, key, before.secrets);
      }
    }
  }

  /** A save that comes off is two steps of the protocol, the read and the write, with nobody between and
      a cache that is up to date. */
  lemma SaveIsTwoSteps(s: Protocol.State, worker: nat, secret: Secret, store: Store, pools: map<string, string>)
    requires worker !in s.saves && secret.finalizers == [FINALIZER] && SaveIn(s.store, secret) == Done(store)
    requires secret.Id() in s.cached <==> secret.Id() in s.store.secrets
    requires secret.Id() in s.cached ==> s.cached[secret.Id()] == s.store.secrets[secret.Id()]
    ensures exists read, written ::
      Protocol.Next(s, Protocol.SaveRead(worker, secret), read, pools)
      && Protocol.Next(read, Protocol.SaveWrite(worker), written, pools) && written.store == store
  {
    hide UpdateIn, CreateIn, DeleteIn, NamedUsers, Protocol.Vouched;
    var seen := if secret.Id() in s.cached then Some(s.cached[secret.Id()].version) else None;
    var read := s.(saves := s.saves[worker := Protocol.Save(secret, seen)]);
    var written := read.(store := store, saves := read.saves - {worker});
    assert Protocol.Next(s, Protocol.SaveRead(worker, secret), read, pools);
    assert Protocol.Next(read, Protocol.SaveWrite(worker), written, pools);
  }

  /** The cluster takes a Secret with the finalizer, unless the Secret there is being deleted without it. */
  predicate TakesFinalizer(store: Store, key: Key) {
    key in store.secrets && store.secrets[key].terminating ==>
      "aivenator.aiven.nais.io/finalizer" in store.secrets[key].finalizers
  }

  lemma SaveComesOff(store: Store, secret: Secret)
    requires secret.finalizers == [FINALIZER]
    ensures SaveIn(store, secret).Done? <==> TakesFinalizer(store, secret.Id())
  {
  }

  lemma {:induction false} SavesComeOff(store: Store, secrets: seq<Secret>, n: nat)
    requires n <= |secrets| && forall i :: 0 <= i < |secrets| ==> secrets[i].finalizers == [FINALIZER]
    ensures SaveFirst(store, secrets, n).Done? <==>
      forall i :: 0 <= i < n ==> TakesFinalizer(store, secrets[i].Id())
  {
    hide SaveIn, IsCopy;
    if n > 0 {
      SavesComeOff(store, secrets, n - 1);
      if SaveFirst(store, secrets, n - 1).Done? {
        var before, key := SaveFirst(store, secrets, n - 1).value, secrets[n - 1].Id();
        FirstSaved(store, secrets, n - 1, before);
        assert SavedUnder(store.secrets, secrets, n - 1, key, before.secrets);
        SavedTakes(store, secrets, n - 1, key, before);
        SaveComesOff(before, secrets[n - 1]);
      }
    }
  }

  lemma SavedTakes(store: Store, secrets: seq<Secret>, n: nat, key: Key, store': Store)
    requires n <= |secrets| && SavedUnder(store.secrets, secrets, n, key, store'.secrets)
    requires forall i :: 0 <= i < n ==> secrets[i].finalizers == [FINALIZER] && TakesFinalizer(store, secrets[i].Id())
    ensures TakesFinalizer(store', key) <==> TakesFinalizer(store, key)
  {
  }

  /** What a run cannot save is a Secret that the cluster holds, in its deletion, without the finalizer. */
  lemma WhatCannotBeSaved(app: Application, resources: Instances, config: Config, store: Store)
    requires Produced(|HANDLERS|, app, resources, config).Some?
    ensures CannotBeSaved(app, resources, config, store) <==>
      exists name :: name in ProducedNames(app.spec) && !TakesFinalizer(store, Key(app.namespace, name))
  {
    hide Produced, SaveFirst, SecretsOf, ProducedNames, TakesFinalizer;
    var secrets := SecretsFor(app, resources, config);
    ProductsAreFinalizable(app, resources, config);
    SecretsHaveNames(app, resources, config);
    SavesComeOff(store, secrets, |secrets|);
    assert forall i :: 0 <= i < |secrets| ==> secrets[i].Id() == Key(app.namespace, ProducedNames(app.spec)[i]);
  }

  /** How many Secrets a run has written. */
  function Written(end: Outcome, secrets: seq<Secret>): nat {
    match end
    case NotSaved(saved) => saved
    case Synchronized => |secrets|
    case _ => 0
  }

  lemma ProductsAreFinalizable(app: Application, resources: Instances, config: Config)
    ensures var produced := Produced(|HANDLERS|, app, resources, config);
      produced.Some? ==> forall s :: s in SecretsOf(produced.value) ==>
        s.finalizers == [FINALIZER] && s.namespace == app.namespace
  {
    hide Produced, IsGenerated;
    AllAreProducts(|HANDLERS|, app, resources, config);
    var produced := Produced(|HANDLERS|, app, resources, config);
    if produced.Some? {
      forall i | 0 <= i < |produced.value|
        ensures SecretsOf(produced.value)[i].finalizers == [FINALIZER]
        ensures SecretsOf(produced.value)[i].namespace == app.namespace
      {
        assert produced.value[i] in produced.value;
        GeneratedIsFinalizable(produced.value[i], app, config);
      }
    }
  }

  lemma GeneratedIsFinalizable(p: Product, app: Application, config: Config)
    requires IsProduct(p, app, config)
    ensures p.secret.finalizers == [FINALIZER] && p.secret.namespace == app.namespace
  {
  }

  /** The Secrets of a run, if its handlers succeed. */
  function SecretsFor(app: Application, resources: Instances, config: Config): seq<Secret> {
    var produced := Produced(|HANDLERS|, app, resources, config);
    if produced.Some? then SecretsOf(produced.value) else []
  }

  lemma SecretsHaveNames(app: Application, resources: Instances, config: Config)
    requires Produced(|HANDLERS|, app, resources, config).Some?
    ensures HaveNames(SecretsFor(app, resources, config), ProducedNames(app.spec))
  {
    hide Produced, SecretsOf;
    ProducedHasNames(|HANDLERS|, app, resources, config);
  }

  /** Write discipline. A run that fails before it saves has written nothing; one that fails at the
      k-th Secret has written exactly the first k; the hash moves only when all were written. */
  lemma WriteDiscipline(
    end: Outcome, hasher: Hasher, config: Config, resources: Instances, app: Application, store: Store,
    status: Status, store': Store)
    requires Effect(end, hasher, config, resources, app, store, status, store')
    ensures var secrets := SecretsFor(app, resources, config);
      var written := Written(end, secrets);
      && written <= |secrets| && store'.revision == store.revision + written
      && (forall key :: SavedUnder(store.secrets, secrets, written, key, store'.secrets))
      && (status.hash != app.status.hash ==> end.Synchronized? && written == |secrets|)
  {
    hide NeedsSync, Produced, SaveFirst, SecretsOf;
    ProductsAreFinalizable(app, resources, config);
    var secrets := SecretsFor(app, resources, config);
    if end.NotSaved? || end.Synchronized? {
      FirstSaved(store, secrets, Written(end, secrets), store');
    }
  }

  /** Saving neither takes back a deletion nor starts one. */
  ghost predicate SameDeletions(before: Cluster.Secrets, after: Cluster.Secrets) {
    && before.Keys <= after.Keys
    && forall key :: key in after ==> (after[key].terminating <==> key in before && before[key].terminating)
  }

  lemma {:induction false} SavesKeepDeletions(store: Store, secrets: seq<Secret>, n: nat, store': Store)
    requires n <= |secrets| && SaveFirst(store, secrets, n) == Done(store')
    requires forall i :: 0 <= i < |secrets| ==> secrets[i].finalizers != []
    ensures SameDeletions(store.secrets, store'.secrets)
  {
    hide SaveIn;
    if n > 0 {
      var before := SaveFirst(store, secrets, n - 1).value;
      SavesKeepDeletions(store, secrets, n - 1, before);
      SaveKeepsDeletions(before, secrets[n - 1], store');
    }
  }

  lemma SaveKeepsDeletions(store: Store, secret: Secret, store': Store)
    requires SaveIn(store, secret) == Done(store') && secret.finalizers != []
    ensures SameDeletions(store.secrets, store'.secrets)
  {
  }

  /** A run that saves over a Secret that is being deleted may succeed, and the Secret still goes. */
  lemma DeletionsGoOn(
    end: Outcome, hasher: Hasher, config: Config, resources: Instances, app: Application, store: Store,
    status: Status, store': Store)
    requires Effect(end, hasher, config, resources, app, store, status, store')
    ensures SameDeletions(store.secrets, store'.secrets)
  {
    hide NeedsSync, Produced, SaveFirst, SecretsOf;
    ProductsAreFinalizable(app, resources, config);
    var secrets := SecretsFor(app, resources, config);
    if end.NotSaved? || end.Synchronized? {
      SavesKeepDeletions(store, secrets, Written(end, secrets), store');
    }
  }

  // Convergence

  /** A Kafka Secret that is asked for but never made: there is no pool to make it for, and no other
      service has a Secret of that name. */
  predicate NeverMade(spec: Spec, name: string) {
    && name != "" && spec.kafka.Some? && spec.kafka.value.secretName == name && spec.kafka.value.pool == ""
    && !(spec.openSearch.Some? && spec.openSearch.value.secretName == name)
    && forall i :: 0 <= i < |spec.valkey| ==> spec.valkey[i].secretName != name
  }

  lemma CheckedButNotProduced(spec: Spec, name: string)
    ensures IsChecked(spec, name) && name !in ProducedNames(spec) <==> NeverMade(spec, name)
  {
    hide ProducedNames;
    ProducedNamesAre(spec);
  }

  lemma ProducedIsSaved(
    secrets: seq<Secret>, names: seq<string>, namespace: string, before: Cluster.Secrets, name: string,
    after: Cluster.Secrets)
    requires HaveNames(secrets, names) && forall i :: 0 <= i < |secrets| ==> secrets[i].namespace == namespace
    requires SavedUnder(before, secrets, |secrets|, Key(namespace, name), after)
    ensures Key(namespace, name) in after <==> name in names || Key(namespace, name) in before
  {
  }

  /** Convergence. Once a run has succeeded and its status is written, the next one finds nothing to
      do, from any state of the cluster, if and only if no Secret is asked for that is never made and
      that nobody else had made. */
  lemma Convergence(
    hasher: Hasher, config: Config, resources: Instances, app: Application, store: Store, status: Status, store': Store)
    requires Effect(Synchronized, hasher, config, resources, WithDeprecation(app), store, status, store')
    ensures var after := WithStatus(app, status);
      var hash := HashOf(hasher, after);
      && hash.Some? && after.status.hash == hash.value
      && (HasItsSecrets(after, store'.secrets) <==>
          forall name :: NeverMade(app.spec, name) ==> Key(app.namespace, name) in store.secrets)
      && (NeedsSync(after, hash.value, store'.secrets) <==> !HasItsSecrets(after, store'.secrets))
  {
    hide Produced, SaveFirst, SecretsFor, SecretsOf, IsChecked, NeverMade, ProducedNames, SavedUnder;
    var marked := WithDeprecation(app);
    var secrets := SecretsFor(marked, resources, config);
    WriteDiscipline(Synchronized, hasher, config, resources, marked, store, status, store');
    AllSaved(hasher, config, resources, marked, store, status, store');
    forall name ensures IsChecked(app.spec, name) && Key(app.namespace, name) !in store'.secrets <==>
      NeverMade(app.spec, name) && Key(app.namespace, name) !in store.secrets
    {
      CheckedButNotProduced(app.spec, name);
    }
    CheckedAreItsSecrets(WithStatus(app, status), store'.secrets);
  }

  /** After a success, the Secrets of the names that are known from the spec are there. */
  lemma AllSaved(
    hasher: Hasher, config: Config, resources: Instances, app: Application, store: Store, status: Status, store': Store)
    requires Effect(Synchronized, hasher, config, resources, app, store, status, store')
    ensures forall name :: Key(app.namespace, name) in store'.secrets <==>
      name in ProducedNames(app.spec) || Key(app.namespace, name) in store.secrets
  {
    hide Produced, SaveFirst, SecretsOf, NeedsSync, ProducedNames, SavedUnder;
    var secrets := SecretsFor(app, resources, config);
    WriteDiscipline(Synchronized, hasher, config, resources, app, store, status, store');
    ProductsAreFinalizable(app, resources, config);
    SecretsHaveNames(app, resources, config);
    forall name
      ensures Key(app.namespace, name) in store'.secrets <==>
        name in ProducedNames(app.spec) || Key(app.namespace, name) in store.secrets
    {
      ProducedIsSaved(secrets, ProducedNames(app.spec), app.namespace, store.secrets, name, store'.secrets);
    }
  }

  /** As long as nobody else makes such a Secret, no run for the application, however it ends, finds it up
      to date, makes the Secret, or leaves the application without need of the next run. */
  lemma NeverDone(
    end: Outcome, hasher: Hasher, config: Config, resources: Instances, app: Application, store: Store,
    status: Status, store': Store, name: string)
    requires Effect(end, hasher, config, resources, WithDeprecation(app), store, status, store')
    requires NeverMade(app.spec, name) && Key(app.namespace, name) !in store.secrets
    ensures !end.UpToDate? && Key(app.namespace, name) !in store'.secrets
    ensures forall hash :: NeedsSync(WithStatus(app, status), hash, store'.secrets)
  {
    hide Produced, SaveFirst, ProducedNames, SecretsOf, LastUnder;
    var marked := WithDeprecation(app);
    var secrets := SecretsFor(marked, resources, config);
    CheckedButNotProduced(app.spec, name);
    WriteDiscipline(end, hasher, config, resources, marked, store, status, store');
    if Produced(|HANDLERS|, marked, resources, config).Some? {
      SecretsHaveNames(marked, resources, config);
    }
    NoneUnder(secrets, ProducedNames(app.spec), Written(end, secrets), Key(app.namespace, name));
    assert SavedUnder(store.secrets, secrets, Written(end, secrets), Key(app.namespace, name), store'.secrets);
  }

  lemma NoneUnder(secrets: seq<Secret>, names: seq<string>, n: nat, key: Key)
    requires n <= |secrets| && key.name !in names && (HaveNames(secrets, names) || secrets == [])
    ensures LastUnder(secrets, n, key).None?
  {
    hide LastUnder;
    assert forall i :: 0 <= i < |secrets| ==> secrets[i].name in names;
  }

  /** Such a run can succeed, and writes nothing when it does. */
  lemma NeverMadeSucceeds(
    hasher: Hasher, config: Config, resources: Instances, app: Application, store: Store, name: string)
    requires app.spec == Spec("", false, None, Some(KafkaSpec("", name)), None, []) && name != ""
    requires HashOf(hasher, app).Some? && Key(app.namespace, name) !in store.secrets
    ensures var status := SucceededStatus(app, HashOf(hasher, app).value);
      && Effect(Synchronized, hasher, config, resources, WithDeprecation(app), store, status, store)
      && NeverMade(app.spec, name)
  {
    assert IsChecked(app.spec, name);
    ProducedInOrder(app, resources, config);
    assert Part(ValkeyHandler, app, resources, config).value == [];
  }
}
