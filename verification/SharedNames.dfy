/** Which users stored Secrets name after a run, so that a clean-up of a Secret finds them, and which are
    named by none any more: what becomes of requests that share the name of a Secret or share a user,
    and of the Secrets of earlier runs. */
module SharedNames {
  import opened Wrappers
  import opened Common
  import opened Resources
  import opened Annotations
  import opened Aiven
  import opened Secrets
  import opened Cluster
  import opened Credentials
  import opened Reconciler
  import opened Synchronization
  import Kafka
  import OpenSearch
  import Valkey

  lemma CopyNamesItsUser(stored: Secret, p: Product, app: Application, config: Config)
    requires IsCopy(stored, p.secret) && IsProduct(p, app, config)
    ensures NamedUsers(stored.annotations, config.pools) == {p.user}
  {
  }

  ghost predicate NamesUser(stored: Cluster.Secrets, key: Key, user: UserKey, pools: map<string, string>) {
    key in stored && user in NamedUsers(stored[key].annotations, pools)
  }

  /** Some stored Secret names the user. */
  ghost predicate IsNamedIn(stored: Cluster.Secrets, user: UserKey, pools: map<string, string>) {
    exists key :: NamesUser(stored, key, user, pools)
  }

  function ProductsFor(app: Application, resources: Instances, config: Config): seq<Product> {
    var produced := Produced(|HANDLERS|, app, resources, config);
    if produced.Some? then produced.value else []
  }

  /** After the first `n` Secrets of a run were saved, the last of them under `key` is for the user, or none
      is under `key` and what was there before named the user. */
  ghost predicate NamesAfter(
    key: Key, user: UserKey, products: seq<Product>, n: nat, before: Cluster.Secrets, pools: map<string, string>)
    requires n <= |products|
  {
    match LastUnder(SecretsOf(products), n, key)
    case Some(i) => products[i].user == user
    case None => NamesUser(before, key, user, pools)
  }

  lemma SavedNames(
    key: Key, user: UserKey, app: Application, resources: Instances, config: Config, n: nat,
    before: Cluster.Secrets, after: Cluster.Secrets)
    requires n <= |ProductsFor(app, resources, config)|
    requires SavedUnder(before, SecretsOf(ProductsFor(app, resources, config)), n, key, after)
    ensures NamesUser(after, key, user, config.pools) <==>
      NamesAfter(key, user, ProductsFor(app, resources, config), n, before, config.pools)
  {
    hide Produced, IsProduct, NamedUsers, IsCopy;
    var products := ProductsFor(app, resources, config);
    AllAreProducts(|HANDLERS|, app, resources, config);
    var last := LastUnder(SecretsOf(products), n, key);
    if last.Some? {
      assert products[last.value] in products;
      CopyNamesItsUser(after[key], products[last.value], app, config);
    }
  }

  /** Whom stored Secrets name after any run, however it ends: for every key, the user of the last Secret
      that the run saved there, or whom the Secret there named before. */
  lemma WhoIsNamed(
    end: Outcome, hasher: Hasher, config: Config, resources: Instances, app: Application, store: Store,
    status: Status, store': Store, user: UserKey)
    requires Effect(end, hasher, config, resources, app, store, status, store')
    ensures var products := ProductsFor(app, resources, config);
      var written := Written(end, SecretsFor(app, resources, config));
      && written <= |products|
      && (IsNamedIn(store'.secrets, user, config.pools) <==>
          exists key :: NamesAfter(key, user, products, written, store.secrets, config.pools))
  {
    hide NeedsSync, Produced, SaveFirst, NamedUsers, SavedUnder, NamesAfter, NamesUser;
    WriteDiscipline(end, hasher, config, resources, app, store, status, store');
    var products := ProductsFor(app, resources, config);
    var written := Written(end, SecretsFor(app, resources, config));
    assert SecretsOf(products) == SecretsFor(app, resources, config);
    forall key
      ensures NamesUser(store'.secrets, key, user, config.pools) <==>
        NamesAfter(key, user, products, written, store.secrets, config.pools)
    {
      assert SavedUnder(store.secrets, SecretsOf(products), written, key, store'.secrets);
      SavedNames(key, user, app, resources, config, written, store.secrets, store'.secrets);
    }
  }

  // After a success

  /** The last request of its name. */
  predicate IsLast(names: seq<string>, i: int) {
    0 <= i < |names| && forall j :: i < j < |names| ==> names[j] != names[i]
  }

  /** The last request of some name is for the user. */
  ghost predicate LastIsFor(user: UserKey, products: seq<Product>, names: seq<string>) {
    |products| == |names| && exists i :: IsLast(names, i) && products[i].user == user
  }

  predicate IsAmong(key: Key, namespace: string, names: seq<string>) {
    key.namespace == namespace && key.name in names
  }

  /** A Secret that the run does not write names the user. */
  ghost predicate IsNamedElsewhere(
    stored: Cluster.Secrets, user: UserKey, namespace: string, names: seq<string>, pools: map<string, string>)
  {
    exists key :: NamesUser(stored, key, user, pools) && !IsAmong(key, namespace, names)
  }

  lemma LastUnderIsLast(secrets: seq<Secret>, names: seq<string>, namespace: string, key: Key)
    requires HaveNames(secrets, names) && (forall s :: s in secrets ==> s.namespace == namespace)
    ensures LastUnder(secrets, |secrets|, key).Some? <==> IsAmong(key, namespace, names)
    ensures forall i: nat :: LastUnder(secrets, |secrets|, key) == Some(i) <==>
      IsLast(names, i) && key == Key(namespace, names[i])
  {
    hide LastUnder;
    assert forall i :: 0 <= i < |secrets| ==> secrets[i] in secrets && secrets[i].Id() == Key(namespace, names[i]);
    if IsAmong(key, namespace, names) {
      var i :| 0 <= i < |names| && names[i] == key.name;
      assert secrets[i].Id() == key;
    }
  }

  lemma NamesAfterSuccess(
    user: UserKey, products: seq<Product>, names: seq<string>, namespace: string, before: Cluster.Secrets,
    pools: map<string, string>)
    requires HaveNames(SecretsOf(products), names)
    requires forall s :: s in SecretsOf(products) ==> s.namespace == namespace
    ensures (exists key :: NamesAfter(key, user, products, |products|, before, pools)) <==>
      LastIsFor(user, products, names) || IsNamedElsewhere(before, user, namespace, names, pools)
  {
    hide LastUnder, NamesUser;
    forall key
      ensures LastUnder(SecretsOf(products), |products|, key).Some? <==> IsAmong(key, namespace, names)
      ensures forall i: nat :: LastUnder(SecretsOf(products), |products|, key) == Some(i) <==>
        IsLast(names, i) && key == Key(namespace, names[i])
    {
      LastUnderIsLast(SecretsOf(products), names, namespace, key);
    }
    if LastIsFor(user, products, names) {
      var i :| IsLast(names, i) && products[i].user == user;
      assert NamesAfter(Key(namespace, names[i]), user, products, |products|, before, pools);
    }
    if IsNamedElsewhere(before, user, namespace, names, pools) {
      var key :| NamesUser(before, key, user, pools) && !IsAmong(key, namespace, names);
      assert NamesAfter(key, user, products, |products|, before, pools);
    }
    if exists key :: NamesAfter(key, user, products, |products|, before, pools) {
      var key :| NamesAfter(key, user, products, |products|, before, pools);
      if LastUnder(SecretsOf(products), |products|, key).Some? {
        assert IsLast(names, LastUnder(SecretsOf(products), |products|, key).value);
      }
    }
  }

  /** After a success some stored Secret names a user if and only if the last request of some name is for
      that user, or a Secret that the run does not write named the user before. */
  lemma WhoIsNamedAfterSuccess(
    hasher: Hasher, config: Config, resources: Instances, app: Application, store: Store, status: Status, store': Store,
    user: UserKey)
    requires Effect(Synchronized, hasher, config, resources, app, store, status, store')
    ensures IsNamedIn(store'.secrets, user, config.pools) <==>
      || LastIsFor(user, ProductsFor(app, resources, config), ProducedNames(app.spec))
      || IsNamedElsewhere(store.secrets, user, app.namespace, ProducedNames(app.spec), config.pools)
    ensures |ProductsFor(app, resources, config)| == |ProducedNames(app.spec)|
  {
    hide NeedsSync, Produced, ProducedNames, SaveFirst, NamedUsers, LastIsFor, IsNamedElsewhere, NamesAfter;
    var products, names := ProductsFor(app, resources, config), ProducedNames(app.spec);
    WhoIsNamed(Synchronized, hasher, config, resources, app, store, status, store', user);
    SecretsHaveNames(app, resources, config);
    ProductsAreFinalizable(app, resources, config);
    NamesAfterSuccess(user, products, names, app.namespace, store.secrets, config.pools);
  }

  /** Exactly which users are lost: all the Secrets that named them are written by the run, and no last
      request of a name is for them. */
  lemma WhoIsLost(
    hasher: Hasher, config: Config, resources: Instances, app: Application, store: Store, status: Status, store': Store,
    user: UserKey)
    requires Effect(Synchronized, hasher, config, resources, app, store, status, store')
    requires IsNamedIn(store.secrets, user, config.pools)
    ensures !IsNamedIn(store'.secrets, user, config.pools) <==>
      && !LastIsFor(user, ProductsFor(app, resources, config), ProducedNames(app.spec))
      && forall key :: NamesUser(store.secrets, key, user, config.pools) ==>
           IsAmong(key, app.namespace, ProducedNames(app.spec))
  {
    hide Effect, ProductsFor, ProducedNames, NamesUser, IsAmong, LastIsFor;
    WhoIsNamedAfterSuccess(hasher, config, resources, app, store, status, store', user);
  }

  /** With distinct names every user of the run is named. */
  lemma DistinctNamesKeepTheirUsers(
    hasher: Hasher, config: Config, resources: Instances, app: Application, store: Store, status: Status, store': Store)
    requires Effect(Synchronized, hasher, config, resources, app, store, status, store')
    requires var names := ProducedNames(app.spec); forall i, j :: 0 <= i < j < |names| ==> names[i] != names[j]
    ensures forall p :: p in ProductsFor(app, resources, config) ==> IsNamedIn(store'.secrets, p.user, config.pools)
  {
    hide Effect, ProductsFor, ProducedNames, IsNamedIn, IsNamedElsewhere;
    var products, names := ProductsFor(app, resources, config), ProducedNames(app.spec);
    forall p | p in products ensures IsNamedIn(store'.secrets, p.user, config.pools) {
      WhoIsNamedAfterSuccess(hasher, config, resources, app, store, status, store', p.user);
      var i :| 0 <= i < |products| && products[i] == p;
      assert IsLast(names, i);
    }
  }

  // Whose users are the same

  /** Two Valkey requests of an application share a user exactly when they are for one instance and
      their accesses have one suffix. */
  lemma SameValkeyUser(app: Application, a: ValkeySpec, b: ValkeySpec, config: Config)
    ensures Valkey.UserFor(app, a, config) == Valkey.UserFor(app, b, config) <==>
      a.instance == b.instance && SelectSuffix(a.access) == SelectSuffix(b.access)
  {
    hide SelectSuffix, CreateSuffix;
    if Valkey.UserFor(app, a, config) == Valkey.UserFor(app, b, config) {
      Valkey.SameTail(
        app.name, SelectSuffix(a.access), SelectSuffix(b.access),
        CreateSuffix(config.checksum, app.generation, app.name));
      SameEnd("valkey-" + app.namespace + "-", a.instance, b.instance);
    }
  }

  lemma SameEnd(head: string, a: string, b: string)
    requires head + a == head + b
    ensures a == b
  {
    assert (head + a)[|head|..] == a && (head + b)[|head|..] == b;
  }

  // Which request is which

  function OpenSearchIndex(spec: Spec): nat {
    if spec.kafka.Some? && spec.kafka.value.pool != "" then 1 else 0
  }

  function ValkeyIndex(spec: Spec): nat {
    OpenSearchIndex(spec) + if spec.openSearch.Some? then 1 else 0
  }

  lemma NamesInOrder(spec: Spec)
    ensures |ProducedNames(spec)| == ValkeyIndex(spec) + |spec.valkey|
    ensures OpenSearchIndex(spec) == 1 ==> ProducedNames(spec)[0] == spec.kafka.value.secretName
    ensures spec.openSearch.Some? ==> ProducedNames(spec)[OpenSearchIndex(spec)] == spec.openSearch.value.secretName
    ensures forall k :: 0 <= k < |spec.valkey| ==>
      ProducedNames(spec)[ValkeyIndex(spec) + k] == spec.valkey[k].secretName
  {
    assert HANDLERS[0] == KafkaHandler && HANDLERS[1] == OpenSearchHandler && HANDLERS[2] == ValkeyHandler;
    assert NamesOfFirst(1, spec) == [] + PartNames(KafkaHandler, spec);
    assert NamesOfFirst(2, spec) == NamesOfFirst(1, spec) + PartNames(OpenSearchHandler, spec);
    assert ProducedNames(spec) == NamesOfFirst(2, spec) + PartNames(ValkeyHandler, spec);
  }

  /** The service that OpenSearch resolves an instance to. */
  function OpenSearchService(app: Application, resources: Instances): Option<string>
    requires app.spec.openSearch.Some?
  {
    OpenSearch.ResolvedName(resources, app.namespace, app.spec.openSearch.value.instance)
  }

  lemma KafkaPartUser(app: Application, resources: Instances, config: Config)
    requires Part(KafkaHandler, app, resources, config).Some?
    ensures var part := Part(KafkaHandler, app, resources, config).value;
      && |part| == OpenSearchIndex(app.spec)
      && (OpenSearchIndex(app.spec) == 1 ==>
        app.spec.kafka.value.pool in config.pools && Kafka.UserName(app, config).Some?
        && part[0].user == Kafka.UserFor(app, config))
  {
    hide Kafka.SecretFor, OpenSearch.SecretFor, Valkey.SecretFor, Kafka.UserFor, Kafka.UserName;
  }

  lemma OpenSearchPartUser(app: Application, resources: Instances, config: Config)
    requires Part(OpenSearchHandler, app, resources, config).Some?
    ensures var part := Part(OpenSearchHandler, app, resources, config).value;
      && |part| == (if app.spec.openSearch.Some? then 1 else 0)
      && (app.spec.openSearch.Some? ==>
        OpenSearchService(app, resources).Some?
        && part[0].user == OpenSearch.UserFor(app, OpenSearchService(app, resources).value, config))
  {
    hide Kafka.SecretFor, OpenSearch.SecretFor, Valkey.SecretFor, OpenSearch.UserFor, OpenSearch.ResolvedName;
  }

  lemma ValkeyPartUsers(app: Application, resources: Instances, config: Config)
    ensures var part := Part(ValkeyHandler, OpenSearch.WithAccess(app), resources, config);
      && part.Some? && |part.value| == |app.spec.valkey|
      && forall k :: 0 <= k < |app.spec.valkey| ==>
        part.value[k].user == Valkey.UserFor(app, app.spec.valkey[k], config)
  {
    hide Kafka.SecretFor, OpenSearch.SecretFor, Valkey.SecretFor;
  }

  lemma UsersInOrder(app: Application, resources: Instances, config: Config)
    requires Produced(|HANDLERS|, app, resources, config).Some?
    ensures var produced, spec := Produced(|HANDLERS|, app, resources, config).value, app.spec;
      && |produced| == ValkeyIndex(spec) + |spec.valkey|
      && (OpenSearchIndex(spec) == 1 ==>
        spec.kafka.value.pool in config.pools && Kafka.UserName(app, config).Some?
        && produced[0].user == Kafka.UserFor(app, config))
      && (spec.openSearch.Some? ==>
        OpenSearchService(app, resources).Some?
        && produced[OpenSearchIndex(spec)].user ==
             OpenSearch.UserFor(app, OpenSearchService(app, resources).value, config))
      && forall k :: 0 <= k < |spec.valkey| ==>
        produced[ValkeyIndex(spec) + k].user == Valkey.UserFor(app, spec.valkey[k], config)
  {
    hide Part, Produced, Kafka.UserFor, OpenSearch.UserFor, Valkey.UserFor, OpenSearchService, OpenSearch.WithAccess;
    ProducedInOrder(app, resources, config);
    KafkaPartUser(app, resources, config);
    OpenSearchPartUser(app, resources, config);
    ValkeyPartUsers(app, resources, config);
  }

  // The exact conditions, read off the spec

  /** Users of different services differ, unless a Kafka pool is the main project or OpenSearch resolves
      to a legacy name. */
  ghost predicate ServicesAreApart(app: Application, resources: Instances, config: Config) {
    && (app.spec.kafka.Some? ==> app.spec.kafka.value.pool != config.project)
    && (app.spec.openSearch.Some? ==>
      OpenSearchService(app, resources) ==
        Some(OpenSearch.NewStyleName(app.namespace, app.spec.openSearch.value.instance)))
  }

  lemma OpenSearchIsNotValkey(app: Application, service: string, spec: ValkeySpec, config: Config)
    requires app.spec.openSearch.Some?
    requires service == OpenSearch.NewStyleName(app.namespace, app.spec.openSearch.value.instance)
    ensures OpenSearch.UserFor(app, service, config) != Valkey.UserFor(app, spec, config)
  {
    assert service[0] == 'o' && Valkey.ServiceName(app.namespace, spec.instance)[0] == 'v';
  }

  lemma KafkaUsersAreApart(app: Application, config: Config)
    requires app.spec.kafka.Some? && app.spec.kafka.value.pool in config.pools && Kafka.UserName(app, config).Some?
    requires app.spec.kafka.value.pool != config.project
    ensures forall spec :: Valkey.UserFor(app, spec, config) != Kafka.UserFor(app, config)
    ensures app.spec.openSearch.Some? ==>
      forall service :: OpenSearch.UserFor(app, service, config) != Kafka.UserFor(app, config)
  {
  }

  predicate SameRequest(a: ValkeySpec, b: ValkeySpec) {
    a.instance == b.instance && SelectSuffix(a.access) == SelectSuffix(b.access)
  }

  /** Which Secrets of a run are for which user. */
  lemma ProductsOfUsers(app: Application, resources: Instances, config: Config, i: nat, k: nat)
    requires Produced(|HANDLERS|, app, resources, config).Some? && ServicesAreApart(app, resources, config)
    requires i < |ProductsFor(app, resources, config)|
    ensures var products, spec := ProductsFor(app, resources, config), app.spec;
      && |products| == ValkeyIndex(spec) + |spec.valkey|
      && (k < |spec.valkey| ==> (products[i].user == Valkey.UserFor(app, spec.valkey[k], config) <==>
            i >= ValkeyIndex(spec) && SameRequest(spec.valkey[i - ValkeyIndex(spec)], spec.valkey[k])))
      && (k < ValkeyIndex(spec) ==> (products[i].user == products[k].user <==> i == k))
  {
    hide Produced, Kafka.UserFor, OpenSearch.UserFor, Valkey.UserFor, OpenSearch.NewStyleName, OpenSearchService;
    var products, spec := ProductsFor(app, resources, config), app.spec;
    UsersInOrder(app, resources, config);
    if OpenSearchIndex(spec) == 1 {
      KafkaUsersAreApart(app, config);
    }
    if spec.openSearch.Some? {
      var service := OpenSearchService(app, resources).value;
      forall v ensures OpenSearch.UserFor(app, service, config) != Valkey.UserFor(app, v, config) {
        OpenSearchIsNotValkey(app, service, v, config);
      }
    }
    if i >= ValkeyIndex(spec) && k < |spec.valkey| {
      SameValkeyUser(app, spec.valkey[i - ValkeyIndex(spec)], spec.valkey[k], config);
    }
  }

  /** The request is the last Valkey request with its Secret's name. */
  predicate IsLastRequest(specs: seq<ValkeySpec>, m: int) {
    0 <= m < |specs| && forall j :: m < j < |specs| ==> specs[j].secretName != specs[m].secretName
  }

  lemma LastRequests(spec: Spec, m: int)
    requires 0 <= m < |spec.valkey|
    ensures ValkeyIndex(spec) + m < |ProducedNames(spec)|
    ensures IsLast(ProducedNames(spec), ValkeyIndex(spec) + m) <==> IsLastRequest(spec.valkey, m)
  {
    hide ProducedNames;
    NamesInOrder(spec);
    var names, first := ProducedNames(spec), ValkeyIndex(spec);
    if IsLast(names, first + m) {
      forall j | m < j < |spec.valkey| ensures spec.valkey[j].secretName != spec.valkey[m].secretName {
        assert names[first + j] != names[first + m];
      }
    }
    if IsLastRequest(spec.valkey, m) {
      forall j | first + m < j < |names| ensures names[j] != names[first + m] {
        assert spec.valkey[j - first].secretName == names[j];
      }
    }
  }

  lemma LastOfValkey(app: Application, resources: Instances, config: Config, m: int, k: nat)
    requires Produced(|HANDLERS|, app, resources, config).Some? && ServicesAreApart(app, resources, config)
    requires k < |app.spec.valkey|
    requires IsLastRequest(app.spec.valkey, m) && SameRequest(app.spec.valkey[m], app.spec.valkey[k])
    ensures LastIsFor(
      Valkey.UserFor(app, app.spec.valkey[k], config), ProductsFor(app, resources, config), ProducedNames(app.spec))
  {
    hide Produced, ProducedNames, SameRequest, Valkey.UserFor, ServicesAreApart, IsLast;
    SecretsHaveNames(app, resources, config);
    LastRequests(app.spec, m);
    ProductsOfUsers(app, resources, config, ValkeyIndex(app.spec) + m, k);
  }

  lemma ValkeyOfLast(app: Application, resources: Instances, config: Config, i: int, k: nat)
    requires Produced(|HANDLERS|, app, resources, config).Some? && ServicesAreApart(app, resources, config)
    requires k < |app.spec.valkey| && IsLast(ProducedNames(app.spec), i) && i < |ProductsFor(app, resources, config)|
    requires ProductsFor(app, resources, config)[i].user == Valkey.UserFor(app, app.spec.valkey[k], config)
    ensures var m := i - ValkeyIndex(app.spec);
      IsLastRequest(app.spec.valkey, m) && SameRequest(app.spec.valkey[m], app.spec.valkey[k])
  {
    hide Produced, ProducedNames, SameRequest, Valkey.UserFor, ServicesAreApart;
    NamesInOrder(app.spec);
    ProductsOfUsers(app, resources, config, i, k);
    LastRequests(app.spec, i - ValkeyIndex(app.spec));
  }

  lemma LastIsForValkey(app: Application, resources: Instances, config: Config, k: nat)
    requires Produced(|HANDLERS|, app, resources, config).Some? && ServicesAreApart(app, resources, config)
    requires k < |app.spec.valkey|
    ensures var user := Valkey.UserFor(app, app.spec.valkey[k], config);
      LastIsFor(user, ProductsFor(app, resources, config), ProducedNames(app.spec)) <==>
        exists m :: IsLastRequest(app.spec.valkey, m) && SameRequest(app.spec.valkey[m], app.spec.valkey[k])
  {
    hide Produced, ProductsFor, ProducedNames, SameRequest, Valkey.UserFor, ServicesAreApart;
    var user := Valkey.UserFor(app, app.spec.valkey[k], config);
    var products, names := ProductsFor(app, resources, config), ProducedNames(app.spec);
    if LastIsFor(user, products, names) {
      var i :| IsLast(names, i) && products[i].user == user;
      ValkeyOfLast(app, resources, config, i, k);
    }
    if exists m :: IsLastRequest(app.spec.valkey, m) && SameRequest(app.spec.valkey[m], app.spec.valkey[k]) {
      var m :| IsLastRequest(app.spec.valkey, m) && SameRequest(app.spec.valkey[m], app.spec.valkey[k]);
      LastOfValkey(app, resources, config, m, k);
    }
  }

  /** After a success a Valkey user is named if and only if some last Valkey request of a name is for the
      same instance and suffix of the access, or a Secret that the run does not write named it before. */
  lemma ValkeyUserIsNamed(
    hasher: Hasher, config: Config, resources: Instances, app: Application, store: Store, status: Status, store': Store,
    k: nat)
    requires Effect(Synchronized, hasher, config, resources, app, store, status, store') && k < |app.spec.valkey|
    requires ServicesAreApart(app, resources, config)
    ensures var user := Valkey.UserFor(app, app.spec.valkey[k], config);
      IsNamedIn(store'.secrets, user, config.pools) <==>
        || (exists m :: IsLastRequest(app.spec.valkey, m) && SameRequest(app.spec.valkey[m], app.spec.valkey[k]))
        || IsNamedElsewhere(store.secrets, user, app.namespace, ProducedNames(app.spec), config.pools)
  {
    hide NeedsSync, Produced, ProducedNames, SaveFirst, IsNamedIn, IsNamedElsewhere, SameRequest, Valkey.UserFor;
    hide ServicesAreApart, LastIsFor;
    WhoIsNamedAfterSuccess(
      hasher, config, resources, app, store, status, store', Valkey.UserFor(app, app.spec.valkey[k], config));
    LastIsForValkey(app, resources, config, k);
  }

  /** A Kafka or an OpenSearch user is named if and only if its request is the last of its name or a
      Secret that the run does not write named it before. */
  lemma OtherUserIsNamed(
    hasher: Hasher, config: Config, resources: Instances, app: Application, store: Store, status: Status, store': Store,
    k: nat)
    requires Effect(Synchronized, hasher, config, resources, app, store, status, store') && k < ValkeyIndex(app.spec)
    requires ServicesAreApart(app, resources, config)
    ensures k < |ProductsFor(app, resources, config)|
    ensures var user := ProductsFor(app, resources, config)[k].user;
      IsNamedIn(store'.secrets, user, config.pools) <==>
        || IsLast(ProducedNames(app.spec), k)
        || IsNamedElsewhere(store.secrets, user, app.namespace, ProducedNames(app.spec), config.pools)
  {
    hide NeedsSync, Produced, ProducedNames, SaveFirst, IsNamedIn, IsNamedElsewhere, ServicesAreApart;
    var products, names := ProductsFor(app, resources, config), ProducedNames(app.spec);
    NamesInOrder(app.spec);
    SecretsHaveNames(app, resources, config);
    WhoIsNamedAfterSuccess(hasher, config, resources, app, store, status, store', products[k].user);
    if LastIsFor(products[k].user, products, names) {
      var i :| IsLast(names, i) && products[i].user == products[k].user;
      ProductsOfUsers(app, resources, config, i, k);
    }
  }

  /** The Kafka request is the last of its name if no other request has that name, the OpenSearch request
      if no Valkey request has. */
  lemma OthersAreLast(spec: Spec)
    ensures OpenSearchIndex(spec) == 1 ==>
      (IsLast(ProducedNames(spec), 0) <==>
        && !OpenSearchAsksFor(spec, spec.kafka.value.secretName)
        && !ValkeyAsksFor(spec.valkey, spec.kafka.value.secretName))
    ensures spec.openSearch.Some? ==>
      (IsLast(ProducedNames(spec), OpenSearchIndex(spec)) <==>
        !ValkeyAsksFor(spec.valkey, spec.openSearch.value.secretName))
  {
    hide ProducedNames;
    NamesInOrder(spec);
    var names, first := ProducedNames(spec), ValkeyIndex(spec);
    forall name ensures ValkeyAsksFor(spec.valkey, name) <==> exists j :: first <= j < |names| && names[j] == name {
      if ValkeyAsksFor(spec.valkey, name) {
        var k :| 0 <= k < |spec.valkey| && spec.valkey[k].secretName == name;
        assert names[first + k] == name;
      }
      if exists j :: first <= j < |names| && names[j] == name {
        var j :| first <= j < |names| && names[j] == name;
        assert spec.valkey[j - first].secretName == name;
      }
    }
  }

  /** Two Secrets of a run that are stored under different names share their user if and only if their
      last requests, if both are for Valkey, are for one instance and one suffix of the access. */
  lemma SecretsShareUsers(
    hasher: Hasher, config: Config, resources: Instances, app: Application, store: Store, status: Status, store': Store,
    k: nat, m: nat)
    requires Effect(Synchronized, hasher, config, resources, app, store, status, store')
    requires IsLastRequest(app.spec.valkey, k) && IsLastRequest(app.spec.valkey, m)
    ensures var first, second := StoredFor(app, k), StoredFor(app, m);
      && first in store'.secrets && second in store'.secrets
      && (NamedUsers(store'.secrets[first].annotations, config.pools)
            !! NamedUsers(store'.secrets[second].annotations, config.pools) <==>
          !SameRequest(app.spec.valkey[k], app.spec.valkey[m]))
  {
    hide NeedsSync, Produced, SaveFirst, NamedUsers, Valkey.UserFor, IsLastRequest;
    StoredNamesItsUser(hasher, config, resources, app, store, status, store', k);
    StoredNamesItsUser(hasher, config, resources, app, store, status, store', m);
    RequestInRange(app.spec.valkey, k);
    RequestInRange(app.spec.valkey, m);
    SameValkeyUser(app, app.spec.valkey[k], app.spec.valkey[m], config);
  }

  lemma RequestInRange(specs: seq<ValkeySpec>, k: int)
    requires IsLastRequest(specs, k)
    ensures 0 <= k < |specs|
  {
  }

  function StoredFor(app: Application, k: nat): Key
    requires k < |app.spec.valkey|
  {
    Key(app.namespace, app.spec.valkey[k].secretName)
  }

  /** What is stored under a name is for the last request of that name. */
  lemma StoredNamesLast(
    hasher: Hasher, config: Config, resources: Instances, app: Application, store: Store, status: Status, store': Store,
    i: nat)
    requires Effect(Synchronized, hasher, config, resources, app, store, status, store')
    requires IsLast(ProducedNames(app.spec), i)
    ensures i < |ProductsFor(app, resources, config)|
    ensures var key := Key(app.namespace, ProducedNames(app.spec)[i]);
      && key in store'.secrets && store'.secrets[key].finalizers == [FINALIZER]
      && NamedUsers(store'.secrets[key].annotations, config.pools) == {ProductsFor(app, resources, config)[i].user}
  {
    hide NeedsSync, Produced, ProducedNames, SaveFirst, NamedUsers, LastUnder, IsProduct;
    var products, names := ProductsFor(app, resources, config), ProducedNames(app.spec);
    var key := Key(app.namespace, names[i]);
    WriteDiscipline(Synchronized, hasher, config, resources, app, store, status, store');
    SecretsHaveNames(app, resources, config);
    ProductsAreFinalizable(app, resources, config);
    LastUnderIsLast(SecretsOf(products), names, app.namespace, key);
    AllAreProducts(|HANDLERS|, app, resources, config);
    assert products[i] in products && SecretsOf(products)[i] in SecretsOf(products);
    assert SavedUnder(store.secrets, SecretsOf(products), |products|, key, store'.secrets);
    CopyNamesItsUser(store'.secrets[key], products[i], app, config);
  }

  lemma StoredNamesItsUser(
    hasher: Hasher, config: Config, resources: Instances, app: Application, store: Store, status: Status, store': Store,
    k: nat)
    requires Effect(Synchronized, hasher, config, resources, app, store, status, store')
    requires IsLastRequest(app.spec.valkey, k)
    ensures StoredFor(app, k) in store'.secrets && store'.secrets[StoredFor(app, k)].finalizers == [FINALIZER]
    ensures NamedUsers(store'.secrets[StoredFor(app, k)].annotations, config.pools) ==
      {Valkey.UserFor(app, app.spec.valkey[k], config)}
  {
    hide NeedsSync, Produced, ProducedNames, SaveFirst, NamedUsers, Valkey.UserFor, IsLast;
    NamesInOrder(app.spec);
    UsersInOrder(app, resources, config);
    LastRequests(app.spec, k);
    StoredNamesLast(hasher, config, resources, app, store, status, store', ValkeyIndex(app.spec) + k);
  }

  /** What a run returns for an application that asks for nothing but Valkey. */
  lemma ValkeySecrets(app: Application, resources: Instances, config: Config)
    requires app.spec.kafka.None? && app.spec.openSearch.None?
    ensures Produced(|HANDLERS|, app, resources, config).Some?
    ensures var secrets := SecretsFor(app, resources, config);
      && |secrets| == |app.spec.valkey|
      && forall i :: 0 <= i < |secrets| ==>
        secrets[i].Id() == Key(app.namespace, app.spec.valkey[i].secretName) && secrets[i].finalizers == [FINALIZER]
  {
    hide Produced, Part, NamesOfFirst, ProducedNames;
    ProducedInOrder(app, resources, config);
    NoOthers(app, resources, config);
    NamesInOrder(app.spec);
    SecretsHaveNames(app, resources, config);
    ProductsAreFinalizable(app, resources, config);
    var secrets := SecretsFor(app, resources, config);
    forall i | 0 <= i < |secrets|
      ensures secrets[i].Id() == Key(app.namespace, app.spec.valkey[i].secretName)
      ensures secrets[i].finalizers == [FINALIZER]
    {
      assert secrets[i] in secrets && ProducedNames(app.spec)[ValkeyIndex(app.spec) + i] == secrets[i].name;
    }
  }

  lemma NoOthers(app: Application, resources: Instances, config: Config)
    requires app.spec.kafka.None? && app.spec.openSearch.None?
    ensures Part(KafkaHandler, app, resources, config) == Part(OpenSearchHandler, app, resources, config) == Some([])
    ensures Part(ValkeyHandler, OpenSearch.WithAccess(app), resources, config).Some?
  {
  }
}
