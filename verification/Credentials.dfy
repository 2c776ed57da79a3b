/** pkg/credentials/manager.go: the handlers in their fixed order, and what a pass over all of them
    produces or takes back. */
module Credentials {
  import opened Wrappers
  import opened Resources
  import opened Annotations
  import opened Failures
  import opened Secrets
  import opened Aiven
  import opened Common
  import Cluster
  import ServiceUsers
  import Kafka
  import OpenSearch
  import Valkey
  import Text
  import Services

  datatype Handler = KafkaHandler | OpenSearchHandler | ValkeyHandler

  const HANDLERS := [KafkaHandler, OpenSearchHandler, ValkeyHandler]

  /** The users that one handler reads out of a Secret's annotations. */
  function NamedBy(h: Handler, a: Annotations, pools: map<string, string>): set<UserKey> {
    match h
    case KafkaHandler => TargetUsers(KafkaTarget(a, pools))
    case OpenSearchHandler => TargetUsers(OpenSearchTarget(a))
    case ValkeyHandler => ValkeyUsers(a)
  }

  function NamedByFirst(n: nat, a: Annotations, pools: map<string, string>): set<UserKey>
    requires n <= |HANDLERS|
  {
    if n == 0 then {} else NamedByFirst(n - 1, a, pools) + NamedBy(HANDLERS[n - 1], a, pools)
  }

  /** The handler finds nothing missing in the annotations that it looks for. */
  predicate IsReadableBy(h: Handler, a: Annotations, pools: map<string, string>) {
    match h
    case KafkaHandler => !KafkaTarget(a, pools).Broken?
    case OpenSearchHandler => !OpenSearchTarget(a).Broken?
    case ValkeyHandler => VALKEY_PROJECT in a || ValkeyPairs(a) == {}
  }

  ghost predicate IsReadable(a: Annotations, pools: map<string, string>) {
    forall h :: IsReadableBy(h, a, pools)
  }

  /** Valkey swallows the failures of its deletions; the others report theirs. */
  predicate Reports(h: Handler) {
    !h.ValkeyHandler?
  }

  /** What any handler's Cleanup does to the users of Aiven: nobody is touched who is not named; a
      success means that everybody named had a deletion requested, and that whom a reporting
      handler names is gone. */
  ghost predicate CleanupEffect(
    named: set<UserKey>, reports: bool, succeeded: bool,
    before: ServiceUsers.Users, requested: seq<UserKey>, after: ServiceUsers.Users, requested': seq<UserKey>)
  {
    && ServiceUsers.OnlyRemoved(named, before, after)
    && requested <= requested' && NewRequests(requested, requested') <= named
    && (succeeded ==> NewRequests(requested, requested') == named)
    && (succeeded && reports ==> named !! after.Keys)
  }

  ghost function NewRequests(requested: seq<UserKey>, requested': seq<UserKey>): set<UserKey> {
    set i | |requested| <= i < |requested'| :: requested'[i]
  }

  lemma OneTargetEffect(
    t: Target, succeeded: bool, before: ServiceUsers.Users, requested: seq<UserKey>, after: ServiceUsers.Users,
    requested': seq<UserKey>)
    requires after == before || after == before - TargetUsers(t)
    requires requested' == requested || (t.Named? && requested' == requested + [t.user])
    requires succeeded && t.Named? ==> t.user !in after && requested' == requested + [t.user]
    requires !t.Named? ==> requested' == requested
    ensures CleanupEffect(TargetUsers(t), true, succeeded, before, requested, after, requested')
  {
    if t.Named? && requested' != requested {
      assert requested'[|requested|] == t.user;
    }
  }

  lemma ValkeyEffect(
    a: Annotations, order: seq<string>, succeeded: bool, before: ServiceUsers.Users, requested: seq<UserKey>,
    after: ServiceUsers.Users, requested': seq<UserKey>)
    requires ServiceUsers.OnlyRemoved(ValkeyUsers(a), before, after)
    requires succeeded <==> !(VALKEY_PROJECT !in a && ValkeyPairs(a) != {})
    requires VALKEY_PROJECT !in a ==> requested' == requested
    requires VALKEY_PROJECT in a ==>
      multiset(order) == multiset(ValkeyPairs(a)) && Valkey.Attempted(requested, order, a, requested')
    ensures CleanupEffect(ValkeyUsers(a), false, succeeded, before, requested, after, requested')
  {
    if VALKEY_PROJECT in a {
      forall user | user in ValkeyUsers(a) ensures user in NewRequests(requested, requested') {
        var key :| key in ValkeyPairs(a) && user == ValkeyUser(a, key);
        assert key in multiset(order);
        var i :| 0 <= i < |order| && order[i] == key;
        assert requested'[|requested| + i] == user;
      }
      forall user | user in NewRequests(requested, requested') ensures user in ValkeyUsers(a) {
        var i :| |requested| <= i < |requested'| && requested'[i] == user;
        var key := order[i - |requested|];
        assert requested'[|requested| + (i - |requested|)] == ValkeyUser(a, key);
        assert key in ValkeyPairs(a);
      }
    }
  }

  /** The users that the first `n` handlers name and report on. */
  function ReportedByFirst(n: nat, a: Annotations, pools: map<string, string>): set<UserKey>
    requires n <= |HANDLERS|
  {
    if n == 0 then {}
    else ReportedByFirst(n - 1, a, pools) + if Reports(HANDLERS[n - 1]) then NamedBy(HANDLERS[n - 1], a, pools) else {}
  }

  /** The effect of a pass over the first `n` handlers, all of which succeeded. */
  ghost predicate PassEffect(
    n: nat, a: Annotations, pools: map<string, string>,
    before: ServiceUsers.Users, requested: seq<UserKey>, after: ServiceUsers.Users, requested': seq<UserKey>)
    requires n <= |HANDLERS|
  {
    && ServiceUsers.OnlyRemoved(NamedByFirst(n, a, pools), before, after)
    && requested <= requested' && NewRequests(requested, requested') == NamedByFirst(n, a, pools)
    && ReportedByFirst(n, a, pools) !! after.Keys
  }

  lemma RequestsAddUp(r: seq<UserKey>, r': seq<UserKey>, r'': seq<UserKey>)
    requires r <= r' <= r''
    ensures NewRequests(r, r'') == NewRequests(r, r') + NewRequests(r', r'')
  {
  }

  lemma PassGrows(
    n: nat, a: Annotations, pools: map<string, string>, succeeded: bool,
    start: ServiceUsers.Users, r: seq<UserKey>, before: ServiceUsers.Users, r': seq<UserKey>,
    after: ServiceUsers.Users, r'': seq<UserKey>)
    requires n < |HANDLERS|
    requires PassEffect(n, a, pools, start, r, before, r')
    requires CleanupEffect(NamedBy(HANDLERS[n], a, pools), Reports(HANDLERS[n]), succeeded, before, r', after, r'')
    ensures succeeded ==> PassEffect(n + 1, a, pools, start, r, after, r'')
    ensures ServiceUsers.OnlyRemoved(NamedByFirst(n + 1, a, pools), start, after)
    ensures r <= r'' && NewRequests(r, r'') <= NamedByFirst(n + 1, a, pools)
  {
    RequestsAddUp(r, r', r'');
  }

  lemma AllHandlersName(a: Annotations, pools: map<string, string>)
    ensures NamedByFirst(3, a, pools) == NamedUsers(a, pools)
    ensures ReportedByFirst(3, a, pools) == TargetUsers(KafkaTarget(a, pools)) + TargetUsers(OpenSearchTarget(a))
    ensures NamedByFirst(1, a, pools) <= NamedByFirst(2, a, pools) <= NamedUsers(a, pools)
  {
    hide KafkaTarget, OpenSearchTarget, ValkeyUsers, TargetUsers;
    assert NamedByFirst(1, a, pools) == {} + TargetUsers(KafkaTarget(a, pools));
    assert NamedByFirst(2, a, pools) == NamedByFirst(1, a, pools) + TargetUsers(OpenSearchTarget(a));
    assert ReportedByFirst(1, a, pools) == {} + TargetUsers(KafkaTarget(a, pools));
    assert ReportedByFirst(2, a, pools) == ReportedByFirst(1, a, pools) + TargetUsers(OpenSearchTarget(a));
  }

  lemma NothingYet(a: Annotations, pools: map<string, string>, users: ServiceUsers.Users, requested: seq<UserKey>)
    ensures PassEffect(0, a, pools, users, requested, users, requested) && NobodyOfFirst(0, a, pools, users)
  {
  }

  lemma NamedSoFar(n: nat, a: Annotations, pools: map<string, string>)
    requires n <= |HANDLERS|
    ensures NamedByFirst(n, a, pools) <= NamedUsers(a, pools)
  {
  }

  ghost predicate NobodyOfFirst(n: nat, a: Annotations, pools: map<string, string>, users: ServiceUsers.Users)
    requires n <= |HANDLERS|
  {
    NamedByFirst(n, a, pools) !! users.Keys
  }

  lemma StillNobody(
    n: nat, a: Annotations, pools: map<string, string>, before: ServiceUsers.Users, after: ServiceUsers.Users)
    requires n < |HANDLERS| && NobodyOfFirst(n, a, pools, before)
    requires NamedBy(HANDLERS[n], a, pools) !! after.Keys && after.Keys <= before.Keys
    ensures NobodyOfFirst(n + 1, a, pools, after)
  {
    hide NamedBy;
  }

  lemma ReadableByAll(a: Annotations, pools: map<string, string>)
    requires forall j :: 0 <= j < |HANDLERS| ==> IsReadableBy(HANDLERS[j], a, pools)
    ensures IsReadable(a, pools)
  {
    hide IsReadableBy;
    forall h ensures IsReadableBy(h, a, pools) {
      assert h == HANDLERS[0] || h == HANDLERS[1] || h == HANDLERS[2];
    }
  }

  lemma RemovedFromMore(few: set<UserKey>, many: set<UserKey>, before: ServiceUsers.Users, after: ServiceUsers.Users)
    requires ServiceUsers.OnlyRemoved(few, before, after) && few <= many
    ensures ServiceUsers.OnlyRemoved(many, before, after)
  {
  }

  lemma PassDone(
    a: Annotations, pools: map<string, string>,
    before: ServiceUsers.Users, requested: seq<UserKey>, after: ServiceUsers.Users, requested': seq<UserKey>)
    requires PassEffect(|HANDLERS|, a, pools, before, requested, after, requested')
    ensures ServiceUsers.OnlyRemoved(NamedUsers(a, pools), before, after)
    ensures requested <= requested' && NewRequests(requested, requested') == NamedUsers(a, pools)
    ensures TargetUsers(KafkaTarget(a, pools)) + TargetUsers(OpenSearchTarget(a)) !! after.Keys
  {
    AllHandlersName(a, pools);
  }

  lemma NobodyLeft(a: Annotations, pools: map<string, string>, users: ServiceUsers.Users)
    requires NobodyOfFirst(|HANDLERS|, a, pools, users)
    ensures NamedUsers(a, pools) !! users.Keys
  {
    AllHandlersName(a, pools);
  }

  /** A generated Secret and the user that was provisioned for it. */
  datatype Product = Product(secret: Secret, user: UserKey)

  /** What one handler returns for an application when it succeeds, and the users it provisions for
      the Secrets it returns; None where it cannot succeed. */
  function Part(h: Handler, app: Application, resources: Cluster.Instances, config: Config): Option<seq<Product>> {
    match h
    case KafkaHandler =>
      if app.spec.kafka.None? || app.spec.kafka.value.pool == "" then Some([])
      else if app.spec.kafka.value.pool !in config.pools || Kafka.UserName(app, config).None? then None
      else
        var user := Kafka.UserFor(app, config);
        Some([Product(Kafka.SecretFor(app, user, config), user)])
    case OpenSearchHandler =>
      if app.spec.openSearch.None? then Some([])
      else
        var service := OpenSearch.ResolvedName(resources, app.namespace, app.spec.openSearch.value.instance);
        if service.None? then None
        else
          var user := OpenSearch.UserFor(app, service.value, config);
          Some([Product(OpenSearch.SecretFor(app, service.value, config), user)])
    case ValkeyHandler =>
      Some(seq(|app.spec.valkey|, i requires 0 <= i < |app.spec.valkey| =>
        Product(Valkey.SecretFor(app, app.spec.valkey[i], config), Valkey.UserFor(app, app.spec.valkey[i], config))))
  }

  /** The application as the handlers leave it to the next. */
  function After(h: Handler, app: Application): Application {
    if h.OpenSearchHandler? then OpenSearch.WithAccess(app) else app
  }

  function AfterFirst(n: nat, app: Application): Application
    requires n <= |HANDLERS|
  {
    if n == 0 then app else After(HANDLERS[n - 1], AfterFirst(n - 1, app))
  }

  /** All Secrets of one run, each with its user, in the order in which the handlers return them. */
  function Produced(n: nat, app: Application, resources: Cluster.Instances, config: Config): Option<seq<Product>>
    requires n <= |HANDLERS|
  {
    if n == 0 then Some([])
    else
      var first := Produced(n - 1, app, resources, config);
      var part := Part(HANDLERS[n - 1], AfterFirst(n - 1, app), resources, config);
      if first.None? || part.None? then None else Some(first.value + part.value)
  }

  function SecretsOf(produced: seq<Product>): (secrets: seq<Secret>)
    ensures |secrets| == |produced| && forall i :: 0 <= i < |secrets| ==> secrets[i] == produced[i].secret
  {
    seq(|produced|, i requires 0 <= i < |produced| => produced[i].secret)
  }

  /** The users that an application requests from one service, and from all. */
  function OwnUsers(h: Handler, app: Application, resources: Cluster.Instances, config: Config): set<UserKey> {
    match h
    case KafkaHandler => Kafka.OwnUsers(app, config)
    case OpenSearchHandler => OpenSearch.OwnUsers(app, resources, config)
    case ValkeyHandler => Valkey.OwnUsers(app, config)
  }

  function OwnOfFirst(n: nat, app: Application, resources: Cluster.Instances, config: Config): set<UserKey>
    requires n <= |HANDLERS|
  {
    if n == 0 then {} else OwnOfFirst(n - 1, app, resources, config) + OwnUsers(HANDLERS[n - 1], app, resources, config)
  }

  type Acls = map<ServiceKey, seq<Acl>>

  /** What a run over the first `n` handlers does in Aiven. Nobody is touched but the users that the
      application requests; `all` says that those of these handlers must exist in the end. */
  ghost predicate Provides(
    n: nat, all: bool, app: Application, resources: Cluster.Instances, config: Config,
    before: ServiceUsers.Users, acls: Acls, after: ServiceUsers.Users, acls': Acls)
    requires n <= |HANDLERS|
  {
    && OpenSearch.TouchesOnly(OwnOfFirst(|HANDLERS|, app, resources, config), before, acls, after, acls')
    && (all ==> OwnOfFirst(n, app, resources, config) <= after.Keys)
  }

  /** What a whole run does in Aiven. Nobody is touched but the users that the application requests; after
      a success the OpenSearch user holds its rules, and with coherent caches all the users exist, those
      of Valkey with exactly the requested permissions. */
  ghost predicate AivenEffect(
    succeeded: bool, coherent: bool, app: Application, resources: Cluster.Instances, config: Config,
    before: ServiceUsers.Users, acls: Acls, after: ServiceUsers.Users, acls': Acls)
  {
    && Provides(|HANDLERS|, succeeded && coherent, app, resources, config, before, acls, after, acls')
    && (succeeded ==> OpenSearch.RulesGranted(acls', app, resources, config))
    && (succeeded && coherent ==> Valkey.AllGranted(after, OpenSearch.WithAccess(app), |app.spec.valkey|, config))
  }

  lemma NoAivenEffect(
    app: Application, resources: Cluster.Instances, config: Config, users: ServiceUsers.Users, acls: Acls)
    ensures forall coherent :: AivenEffect(false, coherent, app, resources, config, users, acls, users, acls)
  {
    hide OwnUsers;
  }

  function UsersOf(products: seq<Product>): set<UserKey> {
    set p | p in products :: p.user
  }

  lemma PartOwn(h: Handler, app: Application, resources: Cluster.Instances, config: Config)
    ensures var part := Part(h, app, resources, config);
      part.Some? ==> UsersOf(part.value) == OwnUsers(h, app, resources, config)
  {
    hide Kafka.SecretFor, OpenSearch.SecretFor, Valkey.SecretFor, Kafka.UserFor, OpenSearch.UserFor, Valkey.UserFor;
    hide OpenSearch.ResolvedName, Kafka.UserName;
    if h.ValkeyHandler? {
      var part := Part(h, app, resources, config).value;
      forall i | 0 <= i < |app.spec.valkey| ensures Valkey.UserFor(app, app.spec.valkey[i], config) in UsersOf(part) {
        assert part[i] in part;
      }
    }
  }

  lemma UsersOfSum(a: seq<Product>, b: seq<Product>)
    ensures UsersOf(a + b) == UsersOf(a) + UsersOf(b)
  {
    assert forall p :: p in a + b <==> p in a || p in b;
  }

  /** The requested users are those of the Secrets that a successful run returns. */
  lemma {:induction false} OwnAreProduced(n: nat, app: Application, resources: Cluster.Instances, config: Config)
    requires n <= |HANDLERS|
    ensures var produced := Produced(n, app, resources, config);
      produced.Some? ==> UsersOf(produced.value) == OwnOfFirst(n, app, resources, config)
  {
    hide Part, OwnUsers, AfterFirst;
    if n > 0 && Produced(n, app, resources, config).Some? {
      OwnAreProduced(n - 1, app, resources, config);
      var before := AfterFirst(n - 1, app);
      PartOwn(HANDLERS[n - 1], before, resources, config);
      SameOwn(HANDLERS[n - 1], n - 1, app, resources, config);
      UsersOfSum(Produced(n - 1, app, resources, config).value, Part(HANDLERS[n - 1], before, resources, config).value);
    }
  }

  lemma ProvidesNothing(
    all: bool, app: Application, resources: Cluster.Instances, config: Config, users: ServiceUsers.Users, acls: Acls)
    ensures Provides(0, all, app, resources, config, users, acls, users, acls)
  {
    hide OwnUsers;
  }

  lemma OwnOfOne(n: nat, app: Application, resources: Cluster.Instances, config: Config)
    requires n < |HANDLERS|
    ensures OwnUsers(HANDLERS[n], app, resources, config) <= OwnOfFirst(|HANDLERS|, app, resources, config)
  {
    hide OwnUsers;
    assert OwnOfFirst(1, app, resources, config) == {} + OwnUsers(KafkaHandler, app, resources, config);
    assert OwnOfFirst(2, app, resources, config) ==
      OwnOfFirst(1, app, resources, config) + OwnUsers(OpenSearchHandler, app, resources, config);
  }

  lemma ProvidesMore(
    n: nat, all: bool, app: Application, resources: Cluster.Instances, config: Config,
    start: ServiceUsers.Users, acls: Acls, before: ServiceUsers.Users, acls': Acls,
    after: ServiceUsers.Users, acls'': Acls)
    requires n < |HANDLERS| && Provides(n, all, app, resources, config, start, acls, before, acls')
    requires OpenSearch.TouchesOnly(OwnUsers(HANDLERS[n], app, resources, config), before, acls', after, acls'')
    requires acls' == acls || acls'' == acls'
    ensures Provides(|HANDLERS|, false, app, resources, config, start, acls, after, acls'')
    ensures all && before.Keys + OwnUsers(HANDLERS[n], app, resources, config) <= after.Keys ==>
      Provides(n + 1, true, app, resources, config, start, acls, after, acls'')
    ensures !all ==> Provides(n + 1, false, app, resources, config, start, acls, after, acls'')
  {
    hide OwnUsers, ServiceUsers.OnlyWithin, OpenSearch.AclsOnlyAt;
    OwnOfOne(n, app, resources, config);
    ServiceUsers.WithinMore(
      OwnUsers(HANDLERS[n], app, resources, config), OwnOfFirst(|HANDLERS|, app, resources, config),
      start, before, after);
  }

  lemma SameOwn(h: Handler, n: nat, app: Application, resources: Cluster.Instances, config: Config)
    requires n <= |HANDLERS|
    ensures OwnUsers(h, AfterFirst(n, app), resources, config) == OwnUsers(h, app, resources, config)
  {
    AfterFirstIs(n, app);
    hide CreateSuffix, SelectSuffix, OpenSearch.ResolvedName;
  }

  /** What one handler's Apply does: on success it returns its part for the application, whose default
      access it may fill in, and in any case it concerns nobody but the users of that part. */
  ghost predicate Applied(
    h: Handler, app: Application, resources: Cluster.Instances, config: Config, r: Result<seq<Secret>>,
    app': Application, before: ServiceUsers.Users, acls: Acls, after: ServiceUsers.Users, acls': Acls)
  {
    var part := Part(h, app, resources, config);
    && (OnlyConditions(app, app') || OnlyConditions(After(h, app), app'))
    && (r.Ok? ==> app' == After(h, app) && part.Some? && r.value == SecretsOf(part.value))
    && OpenSearch.TouchesOnly(OwnUsers(h, app, resources, config), before, acls, after, acls')
    && (!h.OpenSearchHandler? ==> acls' == acls)
    && (r.Ok? ==> before.Keys <= after.Keys)
  }

  /** What the request to a handler needs for it to succeed. */
  ghost predicate CanServe(
    h: Handler, resources: Cluster.Instances, components: map<ServiceKey, seq<Component>>, app: Application,
    config: Config)
  {
    match h
    case KafkaHandler => Kafka.CanServe(components, app, config)
    case OpenSearchHandler => OpenSearch.CanServe(resources, components, app, config)
    case ValkeyHandler => Valkey.CanServeAll(resources, components, app, config)
  }

  ghost predicate CanServeAll(
    resources: Cluster.Instances, components: map<ServiceKey, seq<Component>>, app: Application, config: Config)
  {
    forall h :: CanServe(h, resources, components, app, config)
  }

  /** What keeps the request to a handler from being served, and how it shows. */
  ghost predicate IsFault(
    h: Handler, fault: Fault, resources: Cluster.Instances, components: map<ServiceKey, seq<Component>>,
    app: Application, config: Config)
  {
    match h
    case KafkaHandler => Kafka.IsFault(fault, components, app, config)
    case OpenSearchHandler => OpenSearch.IsFault(fault, resources, components, app, config)
    case ValkeyHandler => Valkey.IsFirstFault(fault, resources, components, app, config)
  }

  lemma FaultsAreNeeds(
    h: Handler, fault: Fault, resources: Cluster.Instances, components: map<ServiceKey, seq<Component>>,
    app: Application, config: Config)
    requires IsFault(h, fault, resources, components, app, config)
    ensures !CanServe(h, resources, components, app, config)
  {
    hide Kafka.CanServe, Kafka.IsFault, OpenSearch.CanServe, OpenSearch.IsFault, Valkey.CanServe, Valkey.IsFault;
    match h
    case KafkaHandler => Kafka.FaultsAreNeeds(components, app, config);
    case OpenSearchHandler => OpenSearch.FaultsAreNeeds(resources, components, app, config);
    case ValkeyHandler =>
      var i :| 0 <= i < |app.spec.valkey|
        && Valkey.IsFault(fault, resources, components, app, app.spec.valkey[i], config);
      Valkey.FaultsAreNeeds(resources, components, app, app.spec.valkey[i], config);
  }

  lemma SameFaults(
    h: Handler, n: nat, fault: Fault, resources: Cluster.Instances, components: map<ServiceKey, seq<Component>>,
    app: Application, config: Config)
    requires n <= |HANDLERS|
    requires IsFault(h, fault, resources, components, AfterFirst(n, app), config)
    ensures IsFault(h, fault, resources, components, app, config)
  {
    hide CreateSuffix, Text.IsDNS1123Label, OpenSearch.CanUse, OpenSearch.IsServiceFault, Kafka.IsSecretFault;
    hide Valkey.IsServiceFault, Services.HasComponent;
    AfterFirstIs(n, app);
    if h.ValkeyHandler? {
      assert forall spec :: Valkey.CanServe(resources, components, OpenSearch.WithAccess(app), spec, config) <==>
        Valkey.CanServe(resources, components, app, spec, config);
      assert forall spec :: Valkey.IsFault(fault, resources, components, OpenSearch.WithAccess(app), spec, config) <==>
        Valkey.IsFault(fault, resources, components, app, spec, config);
    }
  }

  class Manager {
    const api: Api
    const cluster: Cluster.Server
    const config: Config
    const kafka: Kafka.Handler
    const openSearch: OpenSearch.Handler
    const valkey: Valkey.Handler

    ghost predicate Valid()
      reads kafka.users, openSearch.users, valkey.users, api`users
    {
      && kafka.api == openSearch.api == valkey.api == api
      && openSearch.cluster == valkey.cluster == cluster
      && kafka.config == openSearch.config == valkey.config == config
      && kafka.users != openSearch.users && kafka.users != valkey.users && openSearch.users != valkey.users
      && kafka.Valid() && openSearch.Valid() && valkey.Valid()
    }

    constructor (api: Api, cluster: Cluster.Server, config: Config)
      requires api.Valid()
      ensures Valid() && this.api == api && this.cluster == cluster && this.config == config
    {
      this.api, this.cluster, this.config := api, cluster, config;
      kafka := new Kafka.Handler(api, config);
      openSearch := new OpenSearch.Handler(api, cluster, config);
      valkey := new Valkey.Handler(api, cluster, config);
    }

    ghost predicate CachesCoherent()
      reads kafka.users, openSearch.users, valkey.users, kafka.users.api`users, openSearch.users.api`users
      reads valkey.users.api`users
    {
      kafka.users.IsCoherent() && openSearch.users.IsCoherent() && valkey.users.IsCoherent()
    }

    /** Nothing fails for reasons of its own, and the one handler that needs it has a coherent cache. */
    ghost predicate FaultFree()
      reads valkey.users, valkey.users.api`users
    {
      api.reliable && cluster.reliable && valkey.users.IsCoherent()
    }

    ghost function InAiven(): AivenState
      reads api`users, api`acls, api`deletions, api`components
    {
      AivenState(api.users, api.acls, api.deletions, api.components)
    }

    function CacheOf(h: Handler): ServiceUsers.Manager {
      match h
      case KafkaHandler => kafka.users
      case OpenSearchHandler => openSearch.users
      case ValkeyHandler => valkey.users
    }

    method CleanupWith(h: Handler, a: Annotations) returns (e: Option<Error>)
      requires Valid()
      modifies kafka.users`cache, openSearch.users`cache, valkey.users`cache, api`users, api`acls, api`deletions
      ensures Valid() && api.users.Keys <= old(api.users).Keys
      ensures CleanupEffect(NamedBy(h, a, config.pools), Reports(h), e.None?,
                            old(api.users), old(api.deletions), api.users, api.deletions)
      ensures !IsReadableBy(h, a, config.pools) ==> e.Some?
      ensures api.reliable && IsReadableBy(h, a, config.pools) ==>
        e.None? && NamedBy(h, a, config.pools) !! api.users.Keys
      ensures !h.OpenSearchHandler? ==> api.acls == old(api.acls)
      ensures h.OpenSearchHandler? ==> OpenSearch.AclEffect(OpenSearchTarget(a), e.None?, old(api.acls), api.acls)
    {
      hide OpenSearch.AclEffect, CleanupEffect, Valkey.Attempted;
      hide KafkaTarget, OpenSearchTarget, KafkaNames, OpenSearchNames, ValkeyNames, ValkeyPairs, ValkeyUsers;
      ghost var users, deletions := api.users, api.deletions;
      TargetsAre(a, config.pools);
      match h
      case KafkaHandler =>
        e := kafka.Cleanup(a);
        OneTargetEffect(KafkaTarget(a, config.pools), e.None?, users, deletions, api.users, api.deletions);
      case OpenSearchHandler =>
        e := openSearch.Cleanup(a);
        OneTargetEffect(OpenSearchTarget(a), e.None?, users, deletions, api.users, api.deletions);
      case ValkeyHandler =>
        ghost var order, outcomes;
        e, order, outcomes := valkey.Cleanup(a);
        ValkeyEffect(a, order, e.None?, users, deletions, api.users, api.deletions);
    }

    /** The handlers clean up in their order until one fails. Nobody is removed, and nobody's removal
        is requested, but the users the annotations name; on success the removal of every one of
        them was requested, those named for Kafka and OpenSearch are gone, and so is the access entry of
        the latter. Without faults this fails only on annotations that are incomplete, and otherwise
        leaves nobody whom they name. */
    method Cleanup(a: Annotations) returns (e: Option<Error>)
      requires Valid()
      modifies kafka.users`cache, openSearch.users`cache, valkey.users`cache, api`users, api`acls, api`deletions
      ensures Valid()
      ensures ServiceUsers.OnlyRemoved(NamedUsers(a, config.pools), old(api.users), api.users)
      ensures old(api.deletions) <= api.deletions
      ensures NewRequests(old(api.deletions), api.deletions) <= NamedUsers(a, config.pools)
      ensures e.None? ==> NewRequests(old(api.deletions), api.deletions) == NamedUsers(a, config.pools)
      ensures e.None? ==>
        TargetUsers(KafkaTarget(a, config.pools)) + TargetUsers(OpenSearchTarget(a)) !! api.users.Keys
      ensures OpenSearch.AclEffect(OpenSearchTarget(a), e.None?, old(api.acls), api.acls)
      ensures !IsReadable(a, config.pools) ==> e.Some?
      ensures api.reliable && IsReadable(a, config.pools) ==>
        e.None? && NamedUsers(a, config.pools) !! api.users.Keys
    {
      hide IsReadableBy;
      hide OpenSearch.AclEffect, CleanupEffect, PassEffect, NamedBy, NamedByFirst, ReportedByFirst, NewRequests;
      hide NamedUsers, TargetUsers, NobodyOfFirst;
      ghost var users, deletions := api.users, api.deletions;
      NothingYet(a, config.pools, users, deletions);
      AllHandlersName(a, config.pools);
      ghost var acls := api.acls;
      OpenSearch.NoAclEffect(OpenSearchTarget(a), acls);
      for i := 0 to |HANDLERS|
        invariant Valid()
        invariant PassEffect(i, a, config.pools, users, deletions, api.users, api.deletions)
        invariant forall j :: 0 <= j < i ==> IsReadableBy(HANDLERS[j], a, config.pools)
        invariant api.reliable ==> NobodyOfFirst(i, a, config.pools, api.users)
        invariant if i <= 1 then api.acls == acls else OpenSearch.AclEffect(OpenSearchTarget(a), true, acls, api.acls)
      {
        ghost var users', deletions' := api.users, api.deletions;
        e := CleanupWith(HANDLERS[i], a);
        if api.reliable && e.None? {
          StillNobody(i, a, config.pools, users', api.users);
        }
        PassGrows(i, a, config.pools, e.None?, users, deletions, users', deletions', api.users, api.deletions);
        if e.Some? {
          OpenSearch.WeakerAclEffect(OpenSearchTarget(a), acls, api.acls);
          NamedSoFar(i + 1, a, config.pools);
          RemovedFromMore(NamedByFirst(i + 1, a, config.pools), NamedUsers(a, config.pools), users, api.users);
          return;
        }
      }
      PassDone(a, config.pools, users, deletions, api.users, api.deletions);
      ReadableByAll(a, config.pools);
      if api.reliable {
        NobodyLeft(a, config.pools, api.users);
      }
      e := None;
    }

    method ApplyKafka(ref: ApplicationRef) returns (r: Result<seq<Secret>>)
      requires Valid()
      modifies ref, kafka.users`cache, kafka.services`cache, api`users, api`deletions
      ensures Valid()
      ensures Applied(KafkaHandler, old(ref.app), cluster.resources, config, r, ref.app,
        old(api.users), old(api.acls), api.users, api.acls)
      ensures r.Ok? && old(openSearch.users.IsCoherent()) ==> openSearch.users.IsCoherent()
      ensures r.Ok? && old(valkey.users.IsCoherent()) ==> valkey.users.IsCoherent()
      ensures r.Ok? && old(kafka.users.IsCoherent()) ==>
        OwnUsers(KafkaHandler, old(ref.app), cluster.resources, config) <= api.users.Keys
      ensures api.reliable && r.Err? ==>
        exists fault ::
          && Shows(fault, old(ref.app.status.conditions), r.error, ref.app.status.conditions)
          && Kafka.IsFault(fault, api.components, old(ref.app), config)
    {
      hide ServiceUsers.Coherent, Kafka.SecretFor, Kafka.UserName, ServiceUsers.OnlyWithin, KafkaTarget;
      hide Kafka.IsFault, Kafka.IsSecret, Shows;
      ghost var users := api.users;
      r := kafka.Apply(ref);
      if r.Ok? {
        CoherentWithMore(openSearch.users.cache, users, api.users);
        CoherentWithMore(valkey.users.cache, users, api.users);
      }
    }

    method ApplyOpenSearch(ref: ApplicationRef) returns (r: Result<seq<Secret>>)
      requires Valid()
      modifies ref, openSearch.users`cache, openSearch.services`cache, api`users, api`acls
      ensures Valid()
      ensures Applied(OpenSearchHandler, old(ref.app), cluster.resources, config, r, ref.app,
        old(api.users), old(api.acls), api.users, api.acls)
      ensures r.Ok? && old(valkey.users.IsCoherent()) ==> valkey.users.IsCoherent()
      ensures r.Ok? ==> OpenSearch.RulesGranted(api.acls, old(ref.app), cluster.resources, config)
      ensures r.Ok? && old(openSearch.users.IsCoherent()) ==>
        OwnUsers(OpenSearchHandler, old(ref.app), cluster.resources, config) <= api.users.Keys
      ensures api.reliable && cluster.reliable && r.Err? ==>
        exists fault ::
          && Shows(fault, old(ref.app.status.conditions), r.error, ref.app.status.conditions)
          && OpenSearch.IsFault(fault, cluster.resources, api.components, old(ref.app), config)
    {
      hide ServiceUsers.Coherent, OpenSearch.SecretFor, OpenSearch.UserName, OpenSearch.ResolvedName;
      hide OpenSearch.TouchesOnly, OpenSearch.Permitted, OpenSearch.IsFault, OpenSearch.IsSecret, Shows;
      hide OpenSearch.HasAccess, OpenSearch.ResolvesTo;
      ghost var users := api.users;
      r := openSearch.Apply(ref);
      if r.Ok? {
        CoherentWithMore(valkey.users.cache, users, api.users);
      }
    }

    method ApplyValkey(ref: ApplicationRef) returns (r: Result<seq<Secret>>)
      requires Valid()
      modifies ref, valkey.users`cache, valkey.services`cache, api`users
      ensures Valid()
      ensures Applied(ValkeyHandler, old(ref.app), cluster.resources, config, r, ref.app,
        old(api.users), old(api.acls), api.users, api.acls)
      ensures r.Ok? && old(valkey.users.IsCoherent()) ==>
        && valkey.users.IsCoherent() && Valkey.AllGranted(api.users, ref.app, |ref.app.spec.valkey|, config)
        && OwnUsers(ValkeyHandler, old(ref.app), cluster.resources, config) <= api.users.Keys
      ensures old(FaultFree()) && r.Err? ==>
        exists fault ::
          && Shows(fault, old(ref.app.status.conditions), r.error, ref.app.status.conditions)
          && Valkey.IsFirstFault(fault, cluster.resources, api.components, old(ref.app), config)
    {
      hide ServiceUsers.Coherent, Valkey.SecretFor, Valkey.UserFor, ServiceUsers.OnlyWithin;
      hide Valkey.IsFirstFault, Shows, Valkey.IsServed, Valkey.IsSecretFor;
      r := valkey.Apply(ref);
    }

    method Apply(h: Handler, ref: ApplicationRef) returns (r: Result<seq<Secret>>)
      requires Valid()
      modifies ref, kafka.users`cache, openSearch.users`cache, valkey.users`cache
      modifies kafka.services`cache, openSearch.services`cache, valkey.services`cache
      modifies api`users, api`acls, api`deletions
      ensures Valid()
      ensures Applied(h, old(ref.app), cluster.resources, config, r, ref.app,
        old(api.users), old(api.acls), api.users, api.acls)
      ensures r.Ok? && h.KafkaHandler? && old(openSearch.users.IsCoherent()) ==> openSearch.users.IsCoherent()
      ensures r.Ok? && old(valkey.users.IsCoherent()) ==>
        && valkey.users.IsCoherent()
        && (h.ValkeyHandler? ==> Valkey.AllGranted(api.users, ref.app, |ref.app.spec.valkey|, config))
      ensures r.Ok? && h.OpenSearchHandler? ==>
        OpenSearch.RulesGranted(api.acls, old(ref.app), cluster.resources, config)
      ensures r.Ok? && old(CacheOf(h).IsCoherent()) ==>
        OwnUsers(h, old(ref.app), cluster.resources, config) <= api.users.Keys
      ensures old(FaultFree()) && r.Err? ==>
        exists fault ::
          && Shows(fault, old(ref.app.status.conditions), r.error, ref.app.status.conditions)
          && IsFault(h, fault, cluster.resources, api.components, old(ref.app), config)
    {
      hide ServiceUsers.Coherent, Applied, Valkey.AllGranted, OwnUsers, OpenSearch.RulesGranted;
      hide Kafka.IsFault, OpenSearch.IsFault, Valkey.IsFirstFault, Shows;
      match h
      case KafkaHandler => r := ApplyKafka(ref);
      case OpenSearchHandler => r := ApplyOpenSearch(ref);
      case ValkeyHandler => r := ApplyValkey(ref);
    }

    /** A fold over the handlers that stops at the first failure: nothing is returned then. On success
        the Secrets are exactly those the handlers stand for, in their order, and with coherent caches
        every requested user is on the server, the Valkey users with exactly the permissions of their
        requests. In any case nobody is touched but the requested users. Without faults this succeeds if
        every request can be served. */
    method CreateSecret(ref: ApplicationRef) returns (r: Result<seq<Secret>>)
      requires Valid()
      modifies ref, kafka.users`cache, openSearch.users`cache, valkey.users`cache
      modifies kafka.services`cache, openSearch.services`cache, valkey.services`cache
      modifies api`users, api`acls, api`deletions
      ensures Valid()
      ensures OnlyConditions(old(ref.app), ref.app) || OnlyConditions(OpenSearch.WithAccess(old(ref.app)), ref.app)
      ensures r.Ok? ==> ref.app == OpenSearch.WithAccess(old(ref.app))
      ensures r.Ok? ==> var produced := Produced(|HANDLERS|, old(ref.app), cluster.resources, config);
        produced.Some? && r.value == SecretsOf(produced.value)
      ensures r.Ok? && old(valkey.users.IsCoherent()) ==>
        valkey.users.IsCoherent() && Valkey.AllGranted(api.users, ref.app, |ref.app.spec.valkey|, config)
      ensures AivenEffect(r.Ok?, old(CachesCoherent()), old(ref.app), cluster.resources, config,
        old(api.users), old(api.acls), api.users, api.acls)
      ensures old(FaultFree()) && r.Err? ==>
        && !CanServeAll(cluster.resources, api.components, old(ref.app), config)
        && exists fault, h ::
          && Shows(fault, old(ref.app.status.conditions), r.error, ref.app.status.conditions)
          && IsFault(h, fault, cluster.resources, api.components, old(ref.app), config)
    {
      hide Part, ServiceUsers.Coherent, Valkey.AllGranted, Provides, OwnUsers, OpenSearch.TouchesOnly, Produced;
      hide OpenSearch.RulesGranted, CanServe, IsFault, Shows;
      hide OpenSearch.WithAccess, OnlyConditions;
      AfterAll(ref.app);
      ghost var app, coherent := ref.app, valkey.users.IsCoherent();
      ghost var users, acls, all := api.users, api.acls, CachesCoherent();
      ProvidesNothing(all, app, cluster.resources, config, users, acls);
      ProducedNone(app, cluster.resources, config);
      var secrets: seq<Secret> := [];
      for i := 0 to |HANDLERS|
        invariant Valid() && ref.app == AfterFirst(i, app)
        invariant Produced(i, app, cluster.resources, config).Some?
        invariant secrets == SecretsOf(Produced(i, app, cluster.resources, config).value)
        invariant coherent ==> valkey.users.IsCoherent()
        invariant all ==> coherent
        invariant all && i == 0 ==> kafka.users.IsCoherent()
        invariant all && i <= 1 ==> openSearch.users.IsCoherent()
        invariant if i <= 1 then api.acls == acls else OpenSearch.RulesGranted(api.acls, app, cluster.resources, config)
        invariant Provides(i, all, app, cluster.resources, config, users, acls, api.users, api.acls)
        invariant coherent && i == |HANDLERS| ==>
          Valkey.AllGranted(api.users, ref.app, |ref.app.spec.valkey|, config)
      {
        ghost var before, users', acls' := ref.app, api.users, api.acls;
        AfterFirstIs(i, app);
        SameOwn(HANDLERS[i], i, app, cluster.resources, config);
        var individual := Apply(HANDLERS[i], ref);
        ProvidesMore(i, all, app, cluster.resources, config, users, acls, users', acls', api.users, api.acls);
        if individual.Err? {
          if old(FaultFree()) {
            var fault :|
              && Shows(fault, before.status.conditions, individual.error, ref.app.status.conditions)
              && IsFault(HANDLERS[i], fault, cluster.resources, api.components, before, config);
            SameFaults(HANDLERS[i], i, fault, cluster.resources, api.components, app, config);
            FaultsAreNeeds(HANDLERS[i], fault, cluster.resources, api.components, app, config);
          }
          FailedAt(i, app, ref.app);
          return Err(individual.error);
        }
        ProducedGrows(i, app, cluster.resources, config);
        secrets := secrets + individual.value;
      }
      r := Ok(secrets);
    }
  }

  lemma AfterAll(app: Application)
    ensures AfterFirst(0, app) == AfterFirst(1, app) == app && AfterFirst(|HANDLERS|, app) == OpenSearch.WithAccess(app)
    ensures forall after :: OnlyConditions(after, after)
    ensures OpenSearch.WithAccess(app).spec.valkey == app.spec.valkey
  {
    assert AfterFirst(0, app) == AfterFirst(1, app) == app;
    assert AfterFirst(2, app) == AfterFirst(3, app) == OpenSearch.WithAccess(app);
  }

  lemma FailedAt(n: nat, app: Application, after: Application)
    requires n < |HANDLERS|
    requires OnlyConditions(AfterFirst(n, app), after) || OnlyConditions(AfterFirst(n + 1, app), after)
    ensures OnlyConditions(app, after) || OnlyConditions(OpenSearch.WithAccess(app), after)
  {
    assert AfterFirst(0, app) == AfterFirst(1, app) == app;
    assert AfterFirst(2, app) == AfterFirst(3, app) == OpenSearch.WithAccess(app);
  }

  lemma ProducedGrows(n: nat, app: Application, resources: Cluster.Instances, config: Config)
    requires n < |HANDLERS|
    requires Produced(n, app, resources, config).Some?
    requires Part(HANDLERS[n], AfterFirst(n, app), resources, config).Some?
    ensures Produced(n + 1, app, resources, config).Some?
    ensures SecretsOf(Produced(n + 1, app, resources, config).value) ==
            SecretsOf(Produced(n, app, resources, config).value)
            + SecretsOf(Part(HANDLERS[n], AfterFirst(n, app), resources, config).value)
  {
    hide Part, AfterFirst;
  }

  /** What a run returns, handler by handler. */
  lemma ProducedInOrder(app: Application, resources: Cluster.Instances, config: Config)
    ensures var kafka := Part(KafkaHandler, app, resources, config);
      var openSearch := Part(OpenSearchHandler, app, resources, config);
      var valkey := Part(ValkeyHandler, OpenSearch.WithAccess(app), resources, config);
      Produced(|HANDLERS|, app, resources, config) ==
        if kafka.None? || openSearch.None? || valkey.None? then None
        else Some(kafka.value + openSearch.value + valkey.value)
  {
    hide Part, Produced;
    assert AfterFirst(0, app) == AfterFirst(1, app) == app && AfterFirst(2, app) == OpenSearch.WithAccess(app);
    ProducedNext(0, app, resources, config);
    ProducedNext(1, app, resources, config);
    ProducedNext(2, app, resources, config);
    ProducedNone(app, resources, config);
    var kafka := Part(KafkaHandler, app, resources, config);
    assert kafka.Some? ==> [] + kafka.value == kafka.value;
  }

  lemma ProducedNone(app: Application, resources: Cluster.Instances, config: Config)
    ensures Produced(0, app, resources, config) == Some([])
  {
  }

  lemma ProducedNext(n: nat, app: Application, resources: Cluster.Instances, config: Config)
    requires n < |HANDLERS|
    ensures var first := Produced(n, app, resources, config);
      var part := Part(HANDLERS[n], AfterFirst(n, app), resources, config);
      Produced(n + 1, app, resources, config) ==
        if first.None? || part.None? then None else Some(first.value + part.value)
  {
    hide Part, AfterFirst;
  }

  /** What the operator changes in Aiven, and the services, which it only reads. */
  datatype AivenState = AivenState(
    users: ServiceUsers.Users, acls: Acls, deletions: seq<UserKey>, components: map<ServiceKey, seq<Component>>)

  /** A cache stays coherent when users are only added. */
  lemma CoherentWithMore(c: ServiceUsers.Cache, before: ServiceUsers.Users, after: ServiceUsers.Users)
    requires forall k :: k in before ==> k in after && after[k] == before[k]
    ensures ServiceUsers.Coherent(c, before) ==> ServiceUsers.Coherent(c, after)
  {
  }

  /** The marks every generated Secret carries for the janitor and the finalizer. */
  ghost predicate IsGenerated(s: Secret, app: Application, config: Config) {
    && s.namespace == app.namespace && s.finalizers == [FINALIZER] && !s.terminating
    && s.labels == Merge(map[], CreateLabels(app))
    && KeepsBase(CreateAnnotations(app, config.codec), s.annotations)
  }

  /** A product for one application: marked for that application, and naming exactly its user in a way that
      no handler fails on. */
  ghost predicate IsProduct(p: Product, app: Application, config: Config) {
    && IsGenerated(p.secret, app, config) && NamedUsers(p.secret.annotations, config.pools) == {p.user}
    && IsReadable(p.secret.annotations, config.pools)
  }

  lemma KafkaProduct(app: Application, config: Config)
    requires app.spec.kafka.Some? && app.spec.kafka.value.pool in config.pools && Kafka.UserName(app, config).Some?
    ensures var user := Kafka.UserFor(app, config);
      IsProduct(Product(Kafka.SecretFor(app, user, config), user), app, config)
  {
    hide CreateAnnotations, CreateLabels, KafkaAnnotations, NamedUsers;
    var user := Kafka.UserFor(app, config);
    var base := IndividualSecret(app, app.spec.kafka.value.secretName, config.codec);
    IndividualSecretHasBaseKeys(app, base.name, config.codec);
    KafkaRoundTrip(base.annotations, user.user, user.project, config.pools);
    KafkaKeepsBase(base.annotations, user.user, user.project);
    assert base.annotations == CreateAnnotations(app, config.codec);
  }

  /** The Kafka handler's answer to missing credential stores also takes back a user that was there
      before, and a Secret that an earlier run stored for it then names a user that does not exist. */
  lemma TakenBackIsNamed(
    app: Application, config: Config, stored: Secret, before: ServiceUsers.Users, after: ServiceUsers.Users)
    requires app.spec.kafka.Some? && app.spec.kafka.value.pool in config.pools && Kafka.UserName(app, config).Some?
    requires var user := Kafka.UserFor(app, config);
      stored.annotations == Kafka.SecretFor(app, user, config).annotations && after == before - {user}
    ensures Kafka.UserFor(app, config) in before <==>
      exists user :: user in NamedUsers(stored.annotations, config.pools) && user in before && user !in after
  {
    hide NamedUsers, Kafka.SecretFor, Kafka.UserFor, IsGenerated;
    KafkaProduct(app, config);
  }

  lemma OpenSearchProduct(app: Application, service: string, config: Config)
    requires app.spec.openSearch.Some?
    ensures IsProduct(
      Product(OpenSearch.SecretFor(app, service, config), OpenSearch.UserFor(app, service, config)), app, config)
  {
    hide CreateAnnotations, CreateLabels, OpenSearchAnnotations, NamedUsers, OpenSearch.UserFor;
    var base := IndividualSecret(app, app.spec.openSearch.value.secretName, config.codec);
    IndividualSecretHasBaseKeys(app, base.name, config.codec);
    OpenSearchRoundTrip(base.annotations, OpenSearch.UserFor(app, service, config), config.pools);
    OpenSearchKeepsBase(base.annotations, OpenSearch.UserFor(app, service, config));
    assert base.annotations == CreateAnnotations(app, config.codec);
  }

  lemma ValkeyProduct(app: Application, spec: ValkeySpec, config: Config)
    ensures IsProduct(Product(Valkey.SecretFor(app, spec, config), Valkey.UserFor(app, spec, config)), app, config)
  {
    hide CreateAnnotations, CreateLabels, ValkeyAnnotations, NamedUsers, Valkey.UserFor;
    var base := IndividualSecret(app, spec.secretName, config.codec);
    IndividualSecretHasBaseKeys(app, base.name, config.codec);
    ValkeyRoundTrip(base.annotations, spec.instance, Valkey.UserFor(app, spec, config), config.pools);
    ValkeyKeepsBase(base.annotations, spec.instance, Valkey.UserFor(app, spec, config));
    assert base.annotations == CreateAnnotations(app, config.codec);
  }

  lemma SameMetadata(app: Application, other: Application, codec: TimeCodec)
    requires app.name == other.name && app.namespace == other.namespace
    requires app.labels == other.labels && app.annotations == other.annotations
    requires app.spec.protected == other.spec.protected && app.spec.expiresAt == other.spec.expiresAt
    ensures CreateLabels(app) == CreateLabels(other) && CreateAnnotations(app, codec) == CreateAnnotations(other, codec)
  {
  }

  lemma AccessIsNoMetadata(p: Product, app: Application, config: Config)
    requires IsProduct(p, OpenSearch.WithAccess(app), config)
    ensures IsProduct(p, app, config)
  {
    hide CreateLabels, CreateAnnotations, NamedUsers, KeepsBase;
    SameMetadata(OpenSearch.WithAccess(app), app, config.codec);
  }

  lemma PartOfProducts(h: Handler, app: Application, resources: Cluster.Instances, config: Config)
    ensures var part := Part(h, app, resources, config);
      part.Some? ==> forall p :: p in part.value ==> IsProduct(p, app, config)
  {
    hide IsProduct, Kafka.SecretFor, OpenSearch.SecretFor, Valkey.SecretFor;
    match h
    case KafkaHandler =>
      if app.spec.kafka.Some? && app.spec.kafka.value.pool in config.pools && Kafka.UserName(app, config).Some? {
        KafkaProduct(app, config);
      }
    case OpenSearchHandler =>
      if app.spec.openSearch.Some? {
        var service := OpenSearch.ResolvedName(resources, app.namespace, app.spec.openSearch.value.instance);
        if service.Some? {
          OpenSearchProduct(app, service.value, config);
        }
      }
    case ValkeyHandler =>
      forall i | 0 <= i < |app.spec.valkey|
        ensures IsProduct(
          Product(Valkey.SecretFor(app, app.spec.valkey[i], config), Valkey.UserFor(app, app.spec.valkey[i], config)),
          app, config)
      {
        ValkeyProduct(app, app.spec.valkey[i], config);
      }
  }

  /** Round trip: a clean-up of any Secret that a run returns is after exactly the user that the run
      provisioned for that Secret; the other handlers see nothing in it. */
  lemma {:induction false} AllAreProducts(n: nat, app: Application, resources: Cluster.Instances, config: Config)
    requires n <= |HANDLERS|
    ensures var produced := Produced(n, app, resources, config);
      produced.Some? ==> forall p :: p in produced.value ==> IsProduct(p, app, config)
  {
    hide IsProduct, Part;
    if n > 0 && Produced(n, app, resources, config).Some? {
      AllAreProducts(n - 1, app, resources, config);
      var before := AfterFirst(n - 1, app);
      AfterFirstIs(n - 1, app);
      PartOfProducts(HANDLERS[n - 1], before, resources, config);
      var part := Part(HANDLERS[n - 1], before, resources, config).value;
      forall p | p in part ensures IsProduct(p, app, config) {
        if before != app {
          AccessIsNoMetadata(p, app, config);
        }
      }
    }
  }

  function PartNames(h: Handler, spec: Spec): seq<string> {
    match h
    case KafkaHandler => if spec.kafka.Some? && spec.kafka.value.pool != "" then [spec.kafka.value.secretName] else []
    case OpenSearchHandler => if spec.openSearch.Some? then [spec.openSearch.value.secretName] else []
    case ValkeyHandler => seq(|spec.valkey|, i requires 0 <= i < |spec.valkey| => spec.valkey[i].secretName)
  }

  function NamesOfFirst(n: nat, spec: Spec): seq<string>
    requires n <= |HANDLERS|
  {
    if n == 0 then [] else NamesOfFirst(n - 1, spec) + PartNames(HANDLERS[n - 1], spec)
  }

  /** The names of the Secrets that a successful run returns, known from the spec alone. */
  function ProducedNames(spec: Spec): seq<string> {
    NamesOfFirst(|HANDLERS|, spec)
  }

  ghost predicate HaveNames(secrets: seq<Secret>, names: seq<string>) {
    |secrets| == |names| && forall i :: 0 <= i < |names| ==> secrets[i].name == names[i]
  }

  lemma PartHasNames(h: Handler, app: Application, resources: Cluster.Instances, config: Config)
    ensures var part := Part(h, app, resources, config);
      part.Some? ==> HaveNames(SecretsOf(part.value), PartNames(h, app.spec))
    ensures PartNames(h, OpenSearch.WithAccess(app).spec) == PartNames(h, app.spec)
  {
    hide CreateAnnotations, CreateLabels, KafkaAnnotations, OpenSearchAnnotations, ValkeyAnnotations;
  }

  lemma {:induction false} ProducedHasNames(n: nat, app: Application, resources: Cluster.Instances, config: Config)
    requires n <= |HANDLERS|
    ensures var produced := Produced(n, app, resources, config);
      produced.Some? ==> HaveNames(SecretsOf(produced.value), NamesOfFirst(n, app.spec))
  {
    hide Part, PartNames;
    if n > 0 && Produced(n, app, resources, config).Some? {
      ProducedHasNames(n - 1, app, resources, config);
      var before := AfterFirst(n - 1, app);
      AfterFirstIs(n - 1, app);
      PartHasNames(HANDLERS[n - 1], before, resources, config);
      PartHasNames(HANDLERS[n - 1], app, resources, config);
      ProducedGrows(n - 1, app, resources, config);
    }
  }

  lemma AfterFirstIs(n: nat, app: Application)
    requires n <= |HANDLERS|
    ensures AfterFirst(n, app) == app || AfterFirst(n, app) == OpenSearch.WithAccess(app)
    ensures AfterFirst(n, app).status == app.status
  {
  }

  lemma ProducedNamesAre(spec: Spec)
    ensures forall name :: name in ProducedNames(spec) <==>
      || (spec.kafka.Some? && spec.kafka.value.pool != "" && name == spec.kafka.value.secretName)
      || (spec.openSearch.Some? && name == spec.openSearch.value.secretName)
      || (exists i :: 0 <= i < |spec.valkey| && name == spec.valkey[i].secretName)
  {
    assert NamesOfFirst(1, spec) == [] + PartNames(KafkaHandler, spec);
    assert NamesOfFirst(2, spec) == NamesOfFirst(1, spec) + PartNames(OpenSearchHandler, spec);
    var valkey := PartNames(ValkeyHandler, spec);
    forall i | 0 <= i < |spec.valkey| ensures spec.valkey[i].secretName in valkey {
      assert valkey[i] == spec.valkey[i].secretName;
    }
  }
}
