/** No thrashing: once an application is synchronized, the janitor and the reconciler leave it alone. */
module SteadyState {
  import opened Wrappers
  import opened Common
  import opened Resources
  import opened Secrets
  import opened Cluster
  import opened Credentials
  import opened Reconciler
  import opened Synchronization
  import opened Protection
  import Cleaner
  import LiveSecrets
  import SharedNames

  /** `passes` are the keys that finalizer passes are working on. */
  datatype World = World(apps: Applications, store: Store, resources: Instances, passes: set<Key>)

  datatype Step =
    | Clean(pass: Cleaner.CleaningPass, others: set<Cleaner.Object>)
    | Reconcile(end: End, now: Time)
    | PassBegins(key: Key)
    | PassEnds(key: Key)
    | Elsewhere

  /** The application with whatever status. */
  predicate SameBut(app: Application, other: Application) {
    app == other.(status := app.status)
  }

  /** The key belongs to a Secret that the application asks for. */
  predicate IsOwn(key: Key, app: Application) {
    && key.namespace == app.namespace && key.name != ""
    && (|| (app.spec.kafka.Some? && app.spec.kafka.value.secretName == key.name)
        || (app.spec.openSearch.Some? && app.spec.openSearch.value.secretName == key.name)
        || (exists i :: 0 <= i < |app.spec.valkey| && app.spec.valkey[i].secretName == key.name))
  }

  /** They are the Secrets that its runs look for. */
  lemma OwnAreChecked(app: Application)
    ensures forall key :: IsOwn(key, app) <==>
      key.namespace == app.namespace && Reconciler.IsChecked(app.spec, key.name)
    ensures forall name :: Reconciler.IsChecked(app.spec, name) <==> IsOwn(Key(app.namespace, name), app)
  {
  }

  /** The Secrets that the application asks for, as they are now. */
  ghost predicate KeepsSecrets(app: Application, before: Cluster.Secrets, after: Cluster.Secrets) {
    forall key :: IsOwn(key, app) && key in before ==> key in after && after[key] == before[key]
  }

  ghost predicate OnlyUnder(key: Key, before: Cluster.Secrets, after: Cluster.Secrets) {
    before - {key} == after - {key}
  }

  /** One step of the cluster around `app`: a cleaning pass, a run for the application before it
      expires, a finalizer pass on any Secret, or something that others do elsewhere. A finalizer pass
      is one that begins on a Secret that is being deleted. */
  ghost predicate Next(w: World, step: Step, w': World, app: Application, hasher: Hasher, config: Config) {
    match step
    case Clean(pass, others) =>
      && w'.apps == w.apps && w'.passes == w.passes
      && pass.users == Cleaner.Select(Cleaner.AllObjects(w.apps) + others, Cleaner.AppName(pass.scope))
      && Cleaner.AivenApplicationKind in pass.scheme
      && Cleaner.Cleans(w.store.secrets, pass, w'.store.secrets, config.codec)
    case Reconcile(end, now) =>
      && RunEffect(end, app.Id(), now, hasher, config, w.resources, w.apps, w.store, w'.apps, w'.store)
      && !Reconciler.IsExpired(app, config.codec, now) && w'.passes == w.passes
    case PassBegins(key) =>
      LiveSecrets.IsDoomed(w.store, key) && w' == w.(passes := w.passes + {key})
    case PassEnds(key) =>
      && key in w.passes && OnlyUnder(key, w.store.secrets, w'.store.secrets)
      && w' == w.(passes := w.passes - {key}, store := w'.store)
    case Elsewhere =>
      && w'.passes == w.passes
      && app.Id() in w.apps && app.Id() in w'.apps && w'.apps[app.Id()] == w.apps[app.Id()]
      && KeepsSecrets(app, w.store.secrets, w'.store.secrets)
  }

  /** Nobody is deleting the Secret, if it is there. */
  predicate Undisturbed(w: World, key: Key) {
    (key in w.store.secrets ==> !w.store.secrets[key].terminating) && key !in w.passes
  }

  /** Synchronized: the hash is current, and every Secret that is asked for is there to stay and marked
      as the application's. */
  ghost predicate Settled(w: World, app: Application, hasher: Hasher) {
    && app.Id() in w.apps && SameBut(w.apps[app.Id()], app)
    && HashOf(hasher, app) == Some(w.apps[app.Id()].status.hash)
    && forall key :: IsOwn(key, app) ==>
      && key in w.store.secrets && Undisturbed(w, key)
      && Cleaner.HasLabel(w.store.secrets[key].labels, "app", app.name)
  }

  /** The step asks for no deletion of those Secrets, no finalizer pass works on them, and a run writes
      neither Secrets nor to Aiven. */
  ghost predicate Quiet(w: World, step: Step, w': World, app: Application) {
    match step
    case Clean(pass, _) =>
      forall key :: IsOwn(key, app) ==> key !in pass.requested
    case Reconcile(end, _) =>
      !end.Gone? && !end.Deleted? && w'.store == w.store && (end.Ran? ==> !WritesToAiven(end.outcome))
    case PassBegins(key) => !IsOwn(key, app)
    case PassEnds(key) => !IsOwn(key, app)
    case Elsewhere => true
  }

  lemma OwnIsUsed(app: Application, key: Key)
    requires IsOwn(key, app)
    ensures Cleaner.Uses(Cleaner.App(app), key.name)
  {
  }

  /** The application itself is among the possible users in every scope in which its Secrets are. */
  lemma OwnSecretsAreUsed(
    w: World, pass: Cleaner.CleaningPass, others: set<Cleaner.Object>, app: Application, hasher: Hasher, key: Key)
    requires Settled(w, app, hasher) && Cleaner.HasLabel(app.labels, "app", app.name)
    requires pass.users == Cleaner.Select(Cleaner.AllObjects(w.apps) + others, Cleaner.AppName(pass.scope))
    requires Cleaner.AivenApplicationKind in pass.scheme && IsOwn(key, app)
    ensures var s := w.store.secrets[key];
      s.name == key.name && Cleaner.InScope(s, pass.scope) ==> Cleaner.UsedByObjects(s, pass.users, pass.scheme)
  {
    hide Cleaner.Uses;
    var own := Cleaner.App(w.apps[app.Id()]);
    OwnIsUsed(w.apps[app.Id()], key);
    var s := w.store.secrets[key];
    if s.name == key.name && Cleaner.InScope(s, pass.scope) {
      assert own in Cleaner.AllObjects(w.apps) + others;
      assert Cleaner.Selected(own, Cleaner.AppName(pass.scope));
      assert own in pass.users && own.Kind() == Cleaner.AivenApplicationKind;
    }
  }

  lemma CleanIsQuiet(
    w: World, pass: Cleaner.CleaningPass, others: set<Cleaner.Object>, w': World, app: Application, hasher: Hasher,
    config: Config)
    requires Settled(w, app, hasher) && Cleaner.HasLabel(app.labels, "app", app.name)
    requires Next(w, Clean(pass, others), w', app, hasher, config)
    ensures Quiet(w, Clean(pass, others), w', app) && KeepsSecrets(app, w.store.secrets, w'.store.secrets)
  {
    hide IsOwn, Cleaner.UsedByObjects, Cleaner.InScope, Cleaner.Shielded, Cleaner.UsedByPods;
    forall key | IsOwn(key, app) ensures key !in pass.requested {
      OwnSecretsAreUsed(w, pass, others, app, hasher, key);
    }
  }

  lemma RunIsQuiet(w: World, end: End, now: Time, w': World, app: Application, hasher: Hasher, config: Config)
    requires Settled(w, app, hasher) && Next(w, Reconcile(end, now), w', app, hasher, config)
    ensures Quiet(w, Reconcile(end, now), w', app) && Settled(w', app, hasher)
  {
    hide Reconciler.IsChecked, IsOwn, Produced, Provisioned, Cleaner.HasLabel;
    OwnAreChecked(app);
  }

  lemma StaysSettled(w: World, step: Step, w': World, app: Application, hasher: Hasher, config: Config)
    requires Settled(w, app, hasher) && Cleaner.HasLabel(app.labels, "app", app.name)
    requires Next(w, step, w', app, hasher, config)
    ensures Quiet(w, step, w', app) && Settled(w', app, hasher) && KeepsSecrets(app, w.store.secrets, w'.store.secrets)
  {
    hide IsOwn, Cleaner.HasLabel, Cleaner.Cleans;
    match step
    case Clean(pass, others) => CleanIsQuiet(w, pass, others, w', app, hasher, config);
    case Reconcile(end, now) => RunIsQuiet(w, end, now, w', app, hasher, config);
    case PassBegins(key) =>
    case PassEnds(key) => PassIsElsewhere(w, key, w', app, hasher);
    case Elsewhere =>
  }

  lemma PassIsElsewhere(w: World, key: Key, w': World, app: Application, hasher: Hasher)
    requires Settled(w, app, hasher) && key in w.passes && OnlyUnder(key, w.store.secrets, w'.store.secrets)
    ensures !IsOwn(key, app) && KeepsSecrets(app, w.store.secrets, w'.store.secrets)
  {
    hide IsOwn, Cleaner.HasLabel;
    forall own | IsOwn(own, app) ensures own in w'.store.secrets && w'.store.secrets[own] == w.store.secrets[own] {
      assert own in w.store.secrets - {key} && (w.store.secrets - {key})[own] == (w'.store.secrets - {key})[own];
    }
  }

  /** Steady state. While an application whose `app` label is its name neither changes nor expires, no
      sequence of cleaning passes of any scope, of its own further runs, of finalizer passes that
      begin on Secrets that are being deleted, and of what others do elsewhere touches its Secrets or
      writes to Aiven on its behalf. */
  lemma {:induction false} SteadyState(
    worlds: seq<World>, steps: seq<Step>, n: nat, app: Application, hasher: Hasher, config: Config)
    requires |worlds| == |steps| + 1 && n <= |steps|
    requires forall i :: 0 <= i < |steps| ==> Next(worlds[i], steps[i], worlds[i + 1], app, hasher, config)
    requires Settled(worlds[0], app, hasher) && Cleaner.HasLabel(app.labels, "app", app.name)
    ensures Settled(worlds[n], app, hasher) && KeepsSecrets(app, worlds[0].store.secrets, worlds[n].store.secrets)
    ensures forall i :: 0 <= i < n ==> Quiet(worlds[i], steps[i], worlds[i + 1], app)
  {
    hide Next, Quiet;
    if n > 0 {
      SteadyState(worlds, steps, n - 1, app, hasher, config);
      StaysSettled(worlds[n - 1], steps[n - 1], worlds[n], app, hasher, config);
    }
  }

  /** A success settles an application, all of whose Secrets are made by its runs, if and only if none of
      those Secrets was being deleted: the run saves over such a Secret, reports success, and the
      deletion goes on. */
  lemma SuccessSettles(
    w: World, now: Time, status: Status, w': World, app: Application, hasher: Hasher, config: Config)
    requires app.Id() in w.apps && w.apps[app.Id()] == app
    requires Next(w, Reconcile(Ran(Synchronized, status, true), now), w', app, hasher, config)
    requires forall name :: !NeverMade(app.spec, name)
    ensures Settled(w', app, hasher) <==>
      forall key :: IsOwn(key, app) ==> Undisturbed(w, key)
  {
    hide Reconciler.IsChecked, IsOwn, NeverMade, Cleaner.HasLabel;
    OwnAreChecked(app);
    var marked := WithDeprecation(app);
    Convergence(hasher, config, w.resources, app, w.store, status, w'.store);
    DeletionsGoOn(Synchronized, hasher, config, w.resources, marked, w.store, status, w'.store);
    forall key | IsOwn(key, app)
      ensures key in w'.store.secrets && Cleaner.HasLabel(w'.store.secrets[key].labels, "app", app.name)
      ensures Undisturbed(w', key) <==> Undisturbed(w, key)
    {
      assert Key(app.namespace, key.name) == key;
      CheckedButNotProduced(app.spec, key.name);
      SavedIsLabelled(hasher, config, w.resources, marked, w.store, status, w'.store, key.name);
    }
  }

  /** Such a run, for every application with one Valkey request whose Secret is being deleted. */
  lemma SuccessOverDeletion(hasher: Hasher, config: Config, resources: Instances, app: Application, store: Store)
    requires app.spec.kafka.None? && app.spec.openSearch.None? && |app.spec.valkey| == 1
    requires Sound(store) && LiveSecrets.IsDoomed(store, Key(app.namespace, app.spec.valkey[0].secretName))
    requires HashOf(hasher, app).Some? && app.status.hash != HashOf(hasher, app).value
    ensures exists status, store' ::
      && Effect(Synchronized, hasher, config, resources, app, store, status, store')
      && LiveSecrets.IsDoomed(store', Key(app.namespace, app.spec.valkey[0].secretName))
  {
    hide Produced, SaveFirst, SecretsOf;
    SharedNames.ValkeySecrets(app, resources, config);
    var secrets := SecretsFor(app, resources, config);
    var store' := SavedOverDeletion(store, secrets);
    var status := SucceededStatus(app, HashOf(hasher, app).value);
    assert Effect(Synchronized, hasher, config, resources, app, store, status, store');
  }

  lemma SavedOverDeletion(store: Store, secrets: seq<Secret>) returns (store': Store)
    requires |secrets| == 1 && secrets[0].finalizers == [FINALIZER]
    requires Sound(store) && LiveSecrets.IsDoomed(store, secrets[0].Id())
    ensures SaveFirst(store, secrets, 1) == Done(store') && LiveSecrets.IsDoomed(store', secrets[0].Id())
  {
    assert SaveFirst(store, secrets, 0) == Done(store);
    store' := SaveIn(store, secrets[0]).value;
  }

  lemma SavedIsLabelled(
    hasher: Hasher, config: Config, resources: Instances, app: Application, store: Store, status: Status,
    store': Store, name: string)
    requires Effect(Synchronized, hasher, config, resources, app, store, status, store')
    requires name in ProducedNames(app.spec)
    ensures Key(app.namespace, name) in store'.secrets
    ensures Cleaner.HasLabel(store'.secrets[Key(app.namespace, name)].labels, APP_LABEL, app.name)
  {
    hide NeedsSync, Produced, SaveFirst, IsProduct, ProducedNames, SecretsOf, Cleaner.HasLabel;
    var produced := Produced(|HANDLERS|, app, resources, config).value;
    var secrets, key := SecretsFor(app, resources, config), Key(app.namespace, name);
    WriteDiscipline(Synchronized, hasher, config, resources, app, store, status, store');
    ProductsAreFinalizable(app, resources, config);
    SecretsHaveNames(app, resources, config);
    var i :| 0 <= i < |secrets| && secrets[i].name == name;
    assert secrets[i].Id() == key;
    assert SavedUnder(store.secrets, secrets, |secrets|, key, store'.secrets);
    var last := LastUnder(secrets, |secrets|, key).value;
    AllAreProducts(|HANDLERS|, app, resources, config);
    assert produced[last] in produced && produced[last].secret == secrets[last];
    ProductIsGenerated(produced[last], app, config);
    GeneratedIsInScope(secrets[last], app, config);
  }

  lemma ProductIsGenerated(p: Product, app: Application, config: Config)
    requires IsProduct(p, app, config)
    ensures IsGenerated(p.secret, app, config)
  {
  }
}
