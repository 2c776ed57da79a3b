/** pkg/services/opensearch/opensearch.go. */
module OpenSearch {
  import opened Wrappers
  import opened Common
  import opened Text
  import opened Resources
  import opened Annotations
  import opened Failures
  import opened Secrets
  import opened Aiven
  import opened Provisioning
  import Cluster
  import ServiceUsers
  import Services

  const DEFAULT_ACL_ACCESS := "read"

  function EffectiveAccess(access: string): string {
    if access == "" then DEFAULT_ACL_ACCESS else access
  }

  /** Apply leaves the default access behind in the application it was given. */
  function WithAccess(app: Application): Application {
    if app.spec.openSearch.None? then app
    else
      var spec := app.spec.openSearch.value;
      app.(spec := app.spec.(openSearch := Some(spec.(access := EffectiveAccess(spec.access)))))
  }

  function UserName(app: Application, access: string, config: Config): string {
    app.namespace + SelectSuffix(access) + "-" + CreateSuffix(config.checksum, app.generation, app.name)
  }

  function UserFor(app: Application, service: string, config: Config): UserKey
    requires app.spec.openSearch.Some?
  {
    UserKey(config.project, service, UserName(app, EffectiveAccess(app.spec.openSearch.value.access), config))
  }

  function SecretFor(app: Application, service: string, config: Config): Secret
    requires app.spec.openSearch.Some?
  {
    var s := IndividualSecret(app, app.spec.openSearch.value.secretName, config.codec);
    AddFinalizer(s.(annotations := OpenSearchAnnotations(s.annotations, UserFor(app, service, config))), FINALIZER)
  }

  function NewStyleName(namespace: string, instance: string): string {
    "opensearch-" + namespace + "-" + instance
  }

  /** The service that an instance name stands for. An existing resource under the new name settles
      the question, RUNNING or not; the legacy name is only for namespaces without one. */
  function ResolvedName(resources: Cluster.Instances, namespace: string, instance: string): Option<string> {
    var newStyle := Cluster.ResourceKey(Cluster.OpenSearchKind, Key(namespace, NewStyleName(namespace, instance)));
    var legacy := Cluster.ResourceKey(Cluster.OpenSearchKind, Key(namespace, instance));
    if newStyle in resources then
      if resources[newStyle] == Cluster.READY_STATE then Some(newStyle.key.name) else None
    else if legacy in resources && resources[legacy] == Cluster.READY_STATE then Some(instance)
    else None
  }

  /** The service of an instance, written out. */
  ghost predicate ResolvesTo(resources: Cluster.Instances, namespace: string, instance: string, service: string) {
    var newStyle := Cluster.ResourceKey(
      Cluster.OpenSearchKind, Key(namespace, "opensearch-" + namespace + "-" + instance));
    var legacy := Cluster.ResourceKey(Cluster.OpenSearchKind, Key(namespace, instance));
    if newStyle in resources then resources[newStyle] == "RUNNING" && service == newStyle.key.name
    else legacy in resources && resources[legacy] == "RUNNING" && service == instance
  }

  lemma ResolvedNameIs(resources: Cluster.Instances, namespace: string, instance: string)
    ensures forall service ::
      ResolvedName(resources, namespace, instance) == Some(service) <==>
        ResolvesTo(resources, namespace, instance, service)
  {
  }

  ghost predicate HasOpenSearch(components: map<ServiceKey, seq<Component>>, project: string, service: string) {
    var key := ServiceKey(project, service);
    key in components && Services.HasComponent(components[key], "opensearch", "primary")
  }

  /** What a request needs: a name for its Secret, and an instance that resolves to a service with a primary
      OpenSearch component. */
  ghost predicate CanServe(
    resources: Cluster.Instances, components: map<ServiceKey, seq<Component>>, app: Application, config: Config)
  {
    app.spec.openSearch.Some? ==>
      var spec := app.spec.openSearch.value;
      && IsDNS1123Label(spec.secretName)
      && exists service :: ResolvesTo(resources, app.namespace, spec.instance, service)
           && HasOpenSearch(components, config.project, service)
  }

  /** What can keep an instance from being used, how it shows, and when there is another try. */
  ghost predicate IsServiceFault(
    fault: Fault, resources: Cluster.Instances, components: map<ServiceKey, seq<Component>>, namespace: string,
    instance: string, config: Config)
  {
    var newStyle := Cluster.ResourceKey(
      Cluster.OpenSearchKind, Key(namespace, "opensearch-" + namespace + "-" + instance));
    var legacy := Cluster.ResourceKey(Cluster.OpenSearchKind, Key(namespace, instance));
    if newStyle !in resources && legacy !in resources then
      fault == Fault(LocalFailure, ResolveOpenSearchInstance, Some(100))
    else if resources[if newStyle in resources then newStyle else legacy] != "RUNNING" then
      fault == Fault(LocalFailure, ResolveOpenSearchInstance, Some(10))
    else
      var service := ServiceKey(config.project, if newStyle in resources then newStyle.key.name else instance);
      if service !in components then fault == Fault(AivenFailure, GetService, None)
      else
        && !Services.HasComponent(components[service], "opensearch", "primary")
        && fault == Fault(AivenFailure, GetService, Some(10))
  }

  ghost predicate IsFault(
    fault: Fault, resources: Cluster.Instances, components: map<ServiceKey, seq<Component>>, app: Application,
    config: Config)
  {
    && app.spec.openSearch.Some?
    && var spec := app.spec.openSearch.value;
    || IsServiceFault(fault, resources, components, app.namespace, spec.instance, config)
    || (!IsDNS1123Label(spec.secretName) && CanUse(resources, components, app.namespace, spec.instance, config)
        && fault == Fault(AivenFailure, GetOrInitSecret, None))
  }

  ghost predicate CanUse(
    resources: Cluster.Instances, components: map<ServiceKey, seq<Component>>, namespace: string, instance: string,
    config: Config)
  {
    exists service :: ResolvesTo(resources, namespace, instance, service)
      && HasOpenSearch(components, config.project, service)
  }

  lemma ServiceFaultIs(
    fault: Fault, resources: Cluster.Instances, components: map<ServiceKey, seq<Component>>, namespace: string,
    instance: string, service: string, config: Config)
    requires ResolvedName(resources, namespace, instance) == Some(service)
    requires !HasOpenSearch(components, config.project, service)
    ensures IsServiceFault(fault, resources, components, namespace, instance, config) <==>
      fault == Fault(AivenFailure, GetService,
        if ServiceKey(config.project, service) in components then Some(10) else None)
  {
    hide Services.HasComponent;
  }

  lemma ServiceFaultsAreNeeds(
    resources: Cluster.Instances, components: map<ServiceKey, seq<Component>>, namespace: string, instance: string,
    config: Config)
    ensures CanUse(resources, components, namespace, instance, config) <==>
      forall fault :: !IsServiceFault(fault, resources, components, namespace, instance, config)
  {
    hide Services.HasComponent;
    var newStyle := Cluster.ResourceKey(
      Cluster.OpenSearchKind, Key(namespace, "opensearch-" + namespace + "-" + instance));
    var service := if newStyle in resources then newStyle.key.name else instance;
    assert forall other :: ResolvesTo(resources, namespace, instance, other) ==> other == service;
    if forall fault :: !IsServiceFault(fault, resources, components, namespace, instance, config) {
      var ten := Fault(LocalFailure, ResolveOpenSearchInstance, Some(10));
      var hundred := Fault(LocalFailure, ResolveOpenSearchInstance, Some(100));
      assert !IsServiceFault(ten, resources, components, namespace, instance, config);
      assert !IsServiceFault(hundred, resources, components, namespace, instance, config);
      assert !IsServiceFault(
        Fault(AivenFailure, GetService, None), resources, components, namespace, instance, config);
      assert !IsServiceFault(
        Fault(AivenFailure, GetService, Some(10)), resources, components, namespace, instance, config);
      assert ResolvesTo(resources, namespace, instance, service) && HasOpenSearch(components, config.project, service);
    }
  }

  lemma FaultsAreNeeds(
    resources: Cluster.Instances, components: map<ServiceKey, seq<Component>>, app: Application, config: Config)
    ensures CanServe(resources, components, app, config) <==>
      forall fault :: !IsFault(fault, resources, components, app, config)
  {
    hide IsDNS1123Label, ResolvesTo, HasOpenSearch, IsServiceFault;
    if app.spec.openSearch.Some? {
      var spec := app.spec.openSearch.value;
      ServiceFaultsAreNeeds(resources, components, app.namespace, spec.instance, config);
      if !IsDNS1123Label(spec.secretName) && CanUse(resources, components, app.namespace, spec.instance, config) {
        assert IsFault(Fault(AivenFailure, GetOrInitSecret, None), resources, components, app, config);
      }
      forall fault | IsServiceFault(fault, resources, components, app.namespace, spec.instance, config)
        ensures IsFault(fault, resources, components, app, config)
      {
      }
    }
  }

  lemma Servable(
    resources: Cluster.Instances, components: map<ServiceKey, seq<Component>>, app: Application, config: Config)
    ensures app.spec.openSearch.None? ==> CanServe(resources, components, app, config)
    ensures app.spec.openSearch.Some? ==>
      var spec := app.spec.openSearch.value;
      var service := ResolvedName(resources, app.namespace, spec.instance);
      CanServe(resources, components, app, config) <==>
        IsDNS1123Label(spec.secretName) && service.Some? && HasOpenSearch(components, config.project, service.value)
  {
    hide ResolvedName, ResolvesTo, HasOpenSearch, IsDNS1123Label;
    if app.spec.openSearch.Some? {
      ResolvedNameIs(resources, app.namespace, app.spec.openSearch.value.instance);
    }
  }

  // The ACL list of the Aiven client library

  function AddRules(rules: seq<Rule>, more: seq<Rule>): seq<Rule>
    decreases more
  {
    if more == [] then rules
    else AddRules(if more[0] in rules then rules else rules + [more[0]], more[1..])
  }

  /** Add extends the user's entry by the rules it lacks, or appends an entry. */
  function AddAcl(config: seq<Acl>, acl: Acl): seq<Acl> {
    if config == [] then [acl]
    else if config[0].user == acl.user then [Acl(acl.user, AddRules(config[0].rules, acl.rules))] + config[1..]
    else [config[0]] + AddAcl(config[1..], acl)
  }

  /** Delete takes out the first entry equal to `acl`. */
  function DeleteAcl(config: seq<Acl>, acl: Acl): seq<Acl> {
    if config == [] then []
    else if config[0] == acl then config[1..]
    else [config[0]] + DeleteAcl(config[1..], acl)
  }

  ghost predicate OneEntryPerUser(config: seq<Acl>) {
    forall i, j :: 0 <= i < j < |config| ==> config[i].user != config[j].user
  }

  ghost predicate HasEntry(config: seq<Acl>, user: string) {
    exists acl :: acl in config && acl.user == user
  }

  ghost predicate HasRules(config: seq<Acl>, user: string, rules: seq<Rule>) {
    exists entry :: entry in config && entry.user == user && forall r :: r in rules ==> r in entry.rules
  }

  function RulesFor(access: string): seq<Rule> {
    [Rule("_*", access), Rule("*", access)]
  }

  lemma {:induction false} AddRulesCovers(rules: seq<Rule>, more: seq<Rule>)
    ensures forall r :: r in rules || r in more ==> r in AddRules(rules, more)
    ensures forall r :: r in AddRules(rules, more) ==> r in rules || r in more
    decreases more
  {
    if more != [] {
      AddRulesCovers(if more[0] in rules then rules else rules + [more[0]], more[1..]);
    }
  }

  /** Adding rules gives them to the user and takes nothing from anybody else. */
  lemma {:induction false} AddAclGrants(config: seq<Acl>, acl: Acl)
    ensures HasRules(AddAcl(config, acl), acl.user, acl.rules)
    ensures forall entry: Acl :: entry.user != acl.user ==> (entry in AddAcl(config, acl) <==> entry in config)
    ensures OneEntryPerUser(config) ==> OneEntryPerUser(AddAcl(config, acl))
  {
    if config == [] {
      assert acl in [acl];
    } else if config[0].user == acl.user {
      AddRulesCovers(config[0].rules, acl.rules);
      var entry := Acl(acl.user, AddRules(config[0].rules, acl.rules));
      assert entry in [entry] + config[1..];
    } else {
      AddAclGrants(config[1..], acl);
      var entry :| entry in AddAcl(config[1..], acl) && entry.user == acl.user
        && forall r :: r in acl.rules ==> r in entry.rules;
      assert entry in AddAcl(config, acl);
      if OneEntryPerUser(config) {
        assert OneEntryPerUser(config[1..]);
        forall other | other in AddAcl(config[1..], acl) ensures other.user != config[0].user {
          if other.user != acl.user {
            assert other in config[1..];
          }
        }
      }
    }
  }

  /** The user has no rule that it was not given, then or before. */
  lemma {:induction false} AddAclAddsNoMore(config: seq<Acl>, acl: Acl)
    ensures forall r :: RuleIn(AddAcl(config, acl), acl.user, r) ==> r in acl.rules || RuleIn(config, acl.user, r)
  {
    if config == [] {
    } else if config[0].user == acl.user {
      AddRulesCovers(config[0].rules, acl.rules);
      forall r | RuleIn(AddAcl(config, acl), acl.user, r) && r !in acl.rules ensures RuleIn(config, acl.user, r) {
        var entry :| entry in AddAcl(config, acl) && entry.user == acl.user && r in entry.rules;
        assert entry in config[1..] || r in config[0].rules;
      }
    } else {
      AddAclAddsNoMore(config[1..], acl);
      forall r | RuleIn(AddAcl(config, acl), acl.user, r) && r !in acl.rules ensures RuleIn(config, acl.user, r) {
        var entry :| entry in AddAcl(config, acl) && entry.user == acl.user && r in entry.rules;
        assert entry in AddAcl(config[1..], acl);
        assert RuleIn(config[1..], acl.user, r);
      }
    }
  }

  ghost predicate RuleIn(config: seq<Acl>, user: string, rule: Rule) {
    exists entry :: entry in config && entry.user == user && rule in entry.rules
  }

  /** Deleting an entry takes nothing from any other user. */
  lemma {:induction false} DeleteAclSpares(config: seq<Acl>, acl: Acl)
    ensures forall entry: Acl :: entry.user != acl.user ==> (entry in DeleteAcl(config, acl) <==> entry in config)
  {
    if config != [] && config[0] != acl {
      DeleteAclSpares(config[1..], acl);
    }
  }

  lemma {:induction false} DeleteAclRemoves(config: seq<Acl>, acl: Acl)
    requires OneEntryPerUser(config) && (HasEntry(config, acl.user) ==> acl in config)
    ensures !HasEntry(DeleteAcl(config, acl), acl.user)
  {
    if config != [] && config[0] != acl {
      assert OneEntryPerUser(config[1..]);
      if HasEntry(config[1..], acl.user) {
        assert HasEntry(config, acl.user);
      }
      DeleteAclRemoves(config[1..], acl);
    }
  }

  function ListAt(acls: map<ServiceKey, seq<Acl>>, key: UserKey): seq<Acl> {
    var service := ServiceKey(key.project, key.service);
    if service in acls then acls[service] else []
  }

  /** Nobody's entries changed but those of one user on its service. */
  ghost predicate AclsOnlyAt(key: UserKey, before: map<ServiceKey, seq<Acl>>, after: map<ServiceKey, seq<Acl>>) {
    && before - {ServiceKey(key.project, key.service)} == after - {ServiceKey(key.project, key.service)}
    && forall entry: Acl :: entry.user != key.user ==> (entry in ListAt(after, key) <==> entry in ListAt(before, key))
  }

  /** What Cleanup does to access lists: a success leaves the named user no entry. */
  ghost predicate AclEffect(
    target: Target, succeeded: bool, before: map<ServiceKey, seq<Acl>>, after: map<ServiceKey, seq<Acl>>)
  {
    if !target.Named? then after == before
    else
      && AclsOnlyAt(target.user, before, after)
      && (succeeded && OneEntryPerUser(ListAt(before, target.user)) ==>
          !HasEntry(ListAt(after, target.user), target.user.user))
  }

  lemma NoAclEffect(target: Target, acls: map<ServiceKey, seq<Acl>>)
    ensures AclEffect(target, false, acls, acls)
  {
  }

  lemma WeakerAclEffect(target: Target, before: map<ServiceKey, seq<Acl>>, after: map<ServiceKey, seq<Acl>>)
    ensures AclEffect(target, true, before, after) ==> AclEffect(target, false, before, after)
  {
  }

  /** The user that the application requests, if its instance resolves to a service. */
  function OwnUsers(app: Application, resources: Cluster.Instances, config: Config): set<UserKey> {
    if app.spec.openSearch.None? then {}
    else
      var service := ResolvedName(resources, app.namespace, app.spec.openSearch.value.instance);
      if service.None? then {} else {UserFor(app, service.value, config)}
  }

  /** Users and access lists as a call for one user may leave them. */
  ghost predicate TouchesOnly(
    own: set<UserKey>, before: ServiceUsers.Users, acls: map<ServiceKey, seq<Acl>>,
    after: ServiceUsers.Users, acls': map<ServiceKey, seq<Acl>>)
  {
    && ServiceUsers.OnlyWithin(own, before, after)
    && (acls' == acls || exists key :: key in own && AclsOnlyAt(key, acls, acls'))
  }

  /** The user may do on its service what the access stands for. */
  ghost predicate Permitted(acls: map<ServiceKey, seq<Acl>>, key: UserKey, access: string) {
    var service := ServiceKey(key.project, key.service);
    service in acls && HasRules(acls[service], key.user, RulesFor(access))
  }

  /** Both rules, written out, and none beside them that the user did not have. */
  ghost predicate HasAccess(
    before: map<ServiceKey, seq<Acl>>, key: UserKey, access: string, after: map<ServiceKey, seq<Acl>>)
  {
    var permission := if access == "" then "read" else access;
    && HasRule(after, key, Rule("_*", permission)) && HasRule(after, key, Rule("*", permission))
    && OnlyNewRules(before, key, {Rule("_*", permission), Rule("*", permission)}, after)
  }

  ghost predicate HasRule(acls: map<ServiceKey, seq<Acl>>, key: UserKey, rule: Rule) {
    RuleIn(ListAt(acls, key), key.user, rule)
  }

  lemma RulesGiven(acls: map<ServiceKey, seq<Acl>>, key: UserKey, access: string, config: seq<Acl>)
    requires access != "" && config == AddAcl(ListAt(acls, key), Acl(key.user, RulesFor(access)))
    ensures HasAccess(acls, key, access, acls[ServiceKey(key.project, key.service) := config])
  {
    hide AddAcl;
    AddAclGrants(ListAt(acls, key), Acl(key.user, RulesFor(access)));
    AddAclAddsNoMore(ListAt(acls, key), Acl(key.user, RulesFor(access)));
    var entry :| entry in config && entry.user == key.user && forall r :: r in RulesFor(access) ==> r in entry.rules;
    assert RulesFor(access)[0] in entry.rules && RulesFor(access)[1] in entry.rules;
  }

  ghost predicate OnlyNewRules(
    before: map<ServiceKey, seq<Acl>>, key: UserKey, granted: set<Rule>, after: map<ServiceKey, seq<Acl>>)
  {
    forall rule :: HasRule(after, key, rule) ==> rule in granted || HasRule(before, key, rule)
  }

  /** A Secret for the user of the access on the service, made from `base`. */
  ghost predicate IsSecret(s: Secret, base: Annotations, app: Application, user: UserKey, config: Config) {
    && app.spec.openSearch.Some?
    && var spec := app.spec.openSearch.value;
    && IsMadeFor(s, base, app, spec.secretName, config.codec)
    && Maps(s.annotations, "opensearch.aiven.nais.io/serviceUser", user.user)
    && Maps(s.annotations, "opensearch.aiven.nais.io/serviceName", user.service)
    && Maps(s.annotations, "opensearch.aiven.nais.io/project", config.project)
    && SameBut(base, s.annotations, {
      "opensearch.aiven.nais.io/serviceUser", "opensearch.aiven.nais.io/serviceName",
      "opensearch.aiven.nais.io/project"})
    && user.project == config.project
    && var suffix :=
      if spec.access == "admin" then "" else if spec.access == "write" then "-w"
      else if spec.access == "readwrite" then "-rw" else "-r";
    user.user == app.namespace + suffix + "-" + CreateSuffix(config.checksum, app.generation, app.name)
  }

  lemma SecretForIs(app: Application, service: string, config: Config)
    requires app.spec.openSearch.Some?
    ensures exists base :: IsSecret(SecretFor(app, service, config), base, app, UserFor(app, service, config), config)
  {
    hide IsMadeFor, Maps, SameBut, WithObjectMeta, CreateSuffix;
    var user, name := UserFor(app, service, config), app.spec.openSearch.value.secretName;
    var base := IndividualSecret(app, name, config.codec).annotations;
    OpenSearchWrites(base, user);
    IndividualIsMadeFor(app, name, OpenSearchAnnotations(base, user), config.codec);
    assert IsSecret(SecretFor(app, service, config), base, app, user, config);
  }

  /** A success gives the Secret of a user of the service that the instance resolves to, who has the access
      and is on the server if the cache was coherent. */
  ghost predicate Applied(
    coherent: bool, app: Application, resources: Cluster.Instances, config: Config, before: ServiceUsers.Users,
    acls: map<ServiceKey, seq<Acl>>, secrets: seq<Secret>, after: ServiceUsers.Users,
    acls': map<ServiceKey, seq<Acl>>)
  {
    if app.spec.openSearch.None? then secrets == [] && after == before && acls' == acls
    else
      var spec := app.spec.openSearch.value;
      var service := ResolvedName(resources, app.namespace, spec.instance);
      && service.Some? && ResolvesTo(resources, app.namespace, spec.instance, service.value)
      && var user := UserFor(app, service.value, config);
      && secrets == [SecretFor(app, service.value, config)]
      && (exists base :: IsSecret(secrets[0], base, app, user, config))
      && MayProvide(before, user, after) && (coherent ==> user in after)
      && HasAccess(acls, user, spec.access, acls') && Permitted(acls', user, EffectiveAccess(spec.access))
  }

  lemma NothingApplied(
    app: Application, resources: Cluster.Instances, config: Config, users: ServiceUsers.Users,
    acls: map<ServiceKey, seq<Acl>>)
    ensures app.spec.openSearch.None? ==>
      forall coherent :: Applied(coherent, app, resources, config, users, acls, [], users, acls)
  {
  }

  lemma ItIsApplied(
    coherent: bool, app: Application, resources: Cluster.Instances, service: string, config: Config,
    before: ServiceUsers.Users, acls: map<ServiceKey, seq<Acl>>, after: ServiceUsers.Users,
    acls': map<ServiceKey, seq<Acl>>)
    requires app.spec.openSearch.Some?
    requires ResolvedName(resources, app.namespace, app.spec.openSearch.value.instance) == Some(service)
    requires var user := UserFor(app, service, config);
      && MayProvide(before, user, after) && (coherent ==> user in after)
      && HasAccess(acls, user, app.spec.openSearch.value.access, acls')
      && Permitted(acls', user, EffectiveAccess(app.spec.openSearch.value.access))
    ensures Applied(
      coherent, app, resources, config, before, acls, [SecretFor(app, service, config)], after, acls')
  {
    hide IsSecret, SecretFor, UserFor, HasAccess, Permitted, ResolvedName, ResolvesTo;
    SecretForIs(app, service, config);
    ResolvedNameIs(resources, app.namespace, app.spec.openSearch.value.instance);
    var secrets := [SecretFor(app, service, config)];
    assert secrets[0] == SecretFor(app, service, config);
  }

  /** The user that the application requests holds the rules of the requested access. */
  ghost predicate RulesGranted(
    acls: map<ServiceKey, seq<Acl>>, app: Application, resources: Cluster.Instances, config: Config)
  {
    app.spec.openSearch.Some? ==>
      var spec := app.spec.openSearch.value;
      var service := ResolvedName(resources, app.namespace, spec.instance);
      service.Some? && Permitted(acls, UserFor(app, service.value, config), EffectiveAccess(spec.access))
  }

  /** A user name that the Secret carries already takes precedence. */
  function UserKeyFor(app: Application, service: string, annotations: Annotations, config: Config): UserKey
    requires app.spec.openSearch.Some?
  {
    if OPENSEARCH_SERVICE_USER in annotations
    then UserFor(app, service, config).(user := annotations[OPENSEARCH_SERVICE_USER])
    else UserFor(app, service, config)
  }

  lemma TouchesNothing(own: set<UserKey>, users: ServiceUsers.Users, acls: map<ServiceKey, seq<Acl>>)
    ensures TouchesOnly(own, users, acls, users, acls)
  {
  }

  lemma ProvidedTouches(
    own: set<UserKey>, key: UserKey, before: ServiceUsers.Users, acls: map<ServiceKey, seq<Acl>>,
    after: ServiceUsers.Users, acls': map<ServiceKey, seq<Acl>>)
    requires key in own && MayProvide(before, key, after) && AclsOnlyAt(key, acls, acls')
    ensures TouchesOnly(own, before, acls, after, acls')
  {
    assert after - own == before - own;
  }

  lemma NothingTouched(key: UserKey, acls: map<ServiceKey, seq<Acl>>)
    ensures AclsOnlyAt(key, acls, acls)
  {
  }

  lemma NoOpenSearchUserYet(app: Application, name: string, config: Config)
    ensures OPENSEARCH_SERVICE_USER !in IndividualSecret(app, name, config.codec).annotations
  {
  }

  class Handler {
    const api: Api
    const users: ServiceUsers.Manager
    const services: Services.Manager
    const cluster: Cluster.Server
    const config: Config

    ghost predicate Valid()
      reads users, api`users
    {
      users.api == api && services.api == api && users.Valid()
    }

    /** Nothing fails for reasons of its own. */
    ghost predicate FaultFree() {
      api.reliable && cluster.reliable
    }

    constructor (api: Api, cluster: Cluster.Server, config: Config)
      requires api.Valid()
      ensures Valid() && this.api == api && this.cluster == cluster && this.config == config
      ensures fresh(users) && fresh(services)
    {
      this.api, this.cluster, this.config := api, cluster, config;
      users := new ServiceUsers.Manager(api);
      services := new Services.Manager(api);
    }

    /** An existing resource that is not RUNNING never falls through to the legacy name. */
    method ResolveServiceName(namespace: string, instance: string) returns (r: Result<string>)
      ensures r.Ok? ==> ResolvedName(cluster.resources, namespace, instance) == Some(r.value)
      ensures cluster.reliable ==> (r.Err? <==> ResolvedName(cluster.resources, namespace, instance) == None)
      ensures cluster.reliable && r.Err? ==>
        IsServiceFault(Fault(LocalFailure, ResolveOpenSearchInstance, RequeueAfter(r.error)),
          cluster.resources, api.components, namespace, instance, config)
    {
      hide RequeueAfter, Services.HasComponent;
      Retries(Operation.ResolveOpenSearchInstance, "");
      var newStyleName := NewStyleName(namespace, instance);
      var newStyle := cluster.GetResourceInNamespace(Cluster.OpenSearchKind, newStyleName, namespace);
      if newStyle.Ok? {
        return Ok(newStyleName);
      } else if !Is(newStyle.error, NotFound) {
        return newStyle;
      }
      var legacy := cluster.GetResourceInNamespace(Cluster.OpenSearchKind, instance, namespace);
      if legacy.Ok? {
        return Ok(instance);
      }
      r := legacy;
    }

    method UpdateAcl(user: string, access: string, service: ServiceKey) returns (e: Option<Error>)
      modifies api`acls
      ensures e.Some? ==> api.acls == old(api.acls)
      ensures e.None? ==> Permitted(api.acls, UserKey(service.project, service.service, user), access)
      ensures e.None? && access != "" ==>
        HasAccess(old(api.acls), UserKey(service.project, service.service, user), access, api.acls)
      ensures api.reliable ==> e.None?
      ensures AclsOnlyAt(UserKey(service.project, service.service, user), old(api.acls), api.acls)
    {
      var acls := api.GetAcls(service);
      if acls.Err? {
        return Some(acls.error);
      }
      hide HasAccess;
      AddAclGrants(acls.value, Acl(user, RulesFor(access)));
      if access != "" {
        RulesGiven(api.acls, UserKey(service.project, service.service, user), access,
          AddAcl(acls.value, Acl(user, RulesFor(access))));
      }
      e := api.UpdateAcls(service, AddAcl(acls.value, Acl(user, RulesFor(access))));
    }

    method ProvideServiceUser(ref: ApplicationRef, service: string, annotations: Annotations)
      returns (r: Result<User>)
      requires Valid() && ref.app.spec.openSearch.Some?
      modifies ref, users`cache, api`users, api`acls
      ensures Valid()
      ensures old(users.IsCoherent()) ==> users.IsCoherent()
      ensures OnlyConditions(WithAccess(old(ref.app)), ref.app)
      ensures r.Ok? ==> ref.app == WithAccess(old(ref.app))
      ensures var key := UserKeyFor(old(ref.app), service, annotations, config);
        && MayProvide(old(api.users), key, api.users)
        && (r.Ok? ==> r.value.name == key.user)
        && (r.Ok? && old(users.IsCoherent()) ==> key in api.users)
        && (r.Ok? ==> Permitted(api.acls, key, EffectiveAccess(old(ref.app).spec.openSearch.value.access)))
        && AclsOnlyAt(key, old(api.acls), api.acls)
        && (r.Ok? ==> HasAccess(old(api.acls), key, old(ref.app).spec.openSearch.value.access, api.acls))
      ensures api.reliable ==> r.Ok?
    {
      hide HasRule, OnlyNewRules, IsRecorded, UnwrapAivenError;
      hide ServiceUsers.Coherent, Permitted, AclsOnlyAt, CreateSuffix, SelectSuffix, MayProvide;
      ref.app := WithAccess(ref.app);
      var access := ref.app.spec.openSearch.value.access;
      var name: string;
      if OPENSEARCH_SERVICE_USER in annotations {
        name := annotations[OPENSEARCH_SERVICE_USER];
      } else {
        name := UserName(ref.app, access, config);
      }
      var key := UserKey(config.project, service, name);
      NothingTouched(key, api.acls);
      r := GetOrCreate(users, ref, key);
      if r.Err? {
        return;
      }
      var e := UpdateAcl(r.value.name, access, ServiceKey(config.project, service));
      if e.Some? {
        var failure := AivenFail(Operation.UpdateACL, ref, e.value, false);
        return Err(failure);
      }
    }

    /** The first half of Apply: the name of a RUNNING service with a primary OpenSearch component. Without
        faults there is no other failure, and a service that does not exist is not asked for again. */
    method LocateService(ref: ApplicationRef, spec: OpenSearchSpec) returns (r: Result<string>)
      requires services.api == api
      modifies ref, services`cache
      ensures OnlyConditions(old(ref.app), ref.app)
      ensures r.Ok? ==> ref.app == old(ref.app)
      ensures r.Ok? ==> ResolvedName(cluster.resources, ref.app.namespace, spec.instance) == Some(r.value)
      ensures r.Ok? ==> HasOpenSearch(api.components, config.project, r.value)
      ensures FaultFree() && r.Err? ==>
        exists fault ::
          && Shows(fault, old(ref.app.status.conditions), r.error, ref.app.status.conditions)
          && IsServiceFault(
               fault, cluster.resources, api.components, old(ref.app.namespace), spec.instance, config)
    {
      hide ResolvedName, IsRecorded, FailedInAiven, FailedLocally, UnwrapAivenError, OnlyConditions, RequeueAfter;
      hide Services.AddressesOf, Services.HasComponent, Services.FetchEffect;
      ConditionsMayStay(ref.app);
      Retries(Operation.GetService, "not found");
      r := ResolveServiceName(ref.app.namespace, spec.instance);
      if r.Err? {
        LocalFail(Operation.ResolveOpenSearchInstance, ref);
        assert Shows(Fault(LocalFailure, ResolveOpenSearchInstance, RequeueAfter(r.error)),
          old(ref.app.status.conditions), r.error, ref.app.status.conditions);
        return;
      }
      var fetched := Now();
      var read := api.Answered(fetched);
      ghost var key := ServiceKey(config.project, r.value);
      if key in api.components {
        Services.UriTells(api.components[key], fetched);
      }
      var addresses := services.GetServiceAddresses(ServiceKey(config.project, r.value), fetched, read);
      if addresses.Err? {
        var failure := AivenFail(Operation.GetService, ref, addresses.error, false);
        if FaultFree() {
          ServiceFaultIs(Fault(AivenFailure, GetService, None), cluster.resources, api.components,
            ref.app.namespace, spec.instance, r.value, config);
          assert Shows(Fault(AivenFailure, GetService, None),
            old(ref.app.status.conditions), failure, ref.app.status.conditions);
        }
        return Err(failure);
      }
      if addresses.value.openSearch.uri == "" {
        var failure := AivenFail(Operation.GetService, ref, Plain(NoService), false);
        ServiceFaultIs(Fault(AivenFailure, GetService, Some(10)), cluster.resources, api.components,
          ref.app.namespace, spec.instance, r.value, config);
        assert Shows(Fault(AivenFailure, GetService, Some(10)),
          old(ref.app.status.conditions), failure, ref.app.status.conditions);
        return Err(failure);
      }
    }

    /** The service of the instance, and a Secret that is begun for it. */
    method BeginSecret(ref: ApplicationRef, spec: OpenSearchSpec) returns (r: Result<string>, individual: Secret)
      requires services.api == api
      modifies ref, services`cache
      ensures OnlyConditions(old(ref.app), ref.app)
      ensures r.Ok? ==>
        && ref.app == old(ref.app) && individual == IndividualSecret(ref.app, spec.secretName, config.codec)
        && IsDNS1123Label(spec.secretName) && HasOpenSearch(api.components, config.project, r.value)
        && ResolvedName(cluster.resources, ref.app.namespace, spec.instance) == Some(r.value)
      ensures FaultFree() && r.Err? && old(ref.app.spec.openSearch) == Some(spec) ==>
        exists fault ::
          && Shows(fault, old(ref.app.status.conditions), r.error, ref.app.status.conditions)
          && IsFault(fault, cluster.resources, api.components, old(ref.app), config)
    {
      hide ResolvesTo, HasOpenSearch, IsServiceFault;
      ResolvedNameIs(cluster.resources, ref.app.namespace, spec.instance);
      LabelsAreDNS1123(spec.secretName);
      Retries(Operation.GetOrInitSecret, "");
      hide OnlyConditions, IsRecorded, FailedInAiven, UnwrapAivenError, IsDNS1123Label, WithObjectMeta, ResolvedName;
      hide RequeueAfter;
      var final := new SecretRef(ref.app.namespace, spec.secretName);
      individual := final.secret;
      r := LocateService(ref, spec);
      if r.Ok? {
        var e := ApplyIndividualSecret(ref.app, final, api, config);
        if e.Some? {
          var failure := AivenFail(Operation.GetOrInitSecret, ref, e.value, false);
          if FaultFree() {
            assert Shows(Fault(AivenFailure, GetOrInitSecret, None),
              old(ref.app.status.conditions), failure, ref.app.status.conditions);
          }
          return Err(failure), individual;
        }
        individual := final.secret;
      }
    }

    /** A Secret is returned only for a RUNNING resource of the application's namespace; its user is
        then on the service with the rules of the requested access. Without faults this succeeds if and only
        if the request can be served. */
    method Apply(ref: ApplicationRef) returns (r: Result<seq<Secret>>)
      requires Valid()
      modifies ref, users`cache, services`cache, api`users, api`acls
      ensures Valid()
      ensures old(users.IsCoherent()) ==> users.IsCoherent()
      ensures old(ref.app).spec.openSearch.None? ==> r.Ok?
      ensures OnlyConditions(old(ref.app), ref.app) || OnlyConditions(WithAccess(old(ref.app)), ref.app)
      ensures r.Ok? ==> ref.app == WithAccess(old(ref.app))
      ensures r.Ok? ==> Applied(old(users.IsCoherent()), old(ref.app), cluster.resources, config,
        old(api.users), old(api.acls), r.value, api.users, api.acls)
      ensures r.Ok? ==> CanServe(cluster.resources, api.components, old(ref.app), config)
      ensures FaultFree() && r.Err? ==>
        exists fault ::
          && Shows(fault, old(ref.app.status.conditions), r.error, ref.app.status.conditions)
          && IsFault(fault, cluster.resources, api.components, old(ref.app), config)
      ensures TouchesOnly(
        OwnUsers(old(ref.app), cluster.resources, config), old(api.users), old(api.acls), api.users, api.acls)
    {
      hide ServiceUsers.Coherent, MayProvide, Permitted, ResolvedName, UserName, EffectiveAccess, HasAccess, Applied;
      hide WithObjectMeta, OpenSearchAnnotations, AddFinalizer, TouchesOnly, AclsOnlyAt, CanServe, OnlyConditions;
      hide IsFault, Shows;
      ghost var own := OwnUsers(ref.app, cluster.resources, config);
      TouchesNothing(own, api.users, api.acls);
      NothingApplied(ref.app, cluster.resources, config, api.users, api.acls);
      Servable(cluster.resources, api.components, ref.app, config);
      if ref.app.spec.openSearch.None? {
        ConditionsMayStay(ref.app);
        return Ok([]);
      }
      var spec := ref.app.spec.openSearch.value;
      var service, individual := BeginSecret(ref, spec);
      if service.Err? {
        return Err(service.error);
      }
      NoOpenSearchUserYet(ref.app, spec.secretName, config);
      ghost var app, key := ref.app, UserFor(ref.app, service.value, config);
      ConditionsMayStay(WithAccess(app));
      var user := ProvideServiceUser(ref, service.value, individual.annotations);
      ProvidedTouches(own, key, old(api.users), old(api.acls), api.users, api.acls);
      if user.Err? {
        return Err(user.error);
      }
      individual := individual.(annotations := OpenSearchAnnotations(
        individual.annotations, UserKey(config.project, service.value, user.value.name)));
      individual := AddFinalizer(individual, FINALIZER);
      ItIsApplied(old(users.IsCoherent()), app, cluster.resources, service.value, config,
        old(api.users), old(api.acls), api.users, api.acls);
      assert individual == SecretFor(app, service.value, config);
      r := Ok([individual]);
    }

    /** Takes the user's entry out of the access list. */
    method RemoveAcl(user: string, service: ServiceKey) returns (e: Option<Error>)
      modifies api`acls
      ensures e.Some? ==> api.acls == old(api.acls)
      ensures api.reliable ==> e.None?
      ensures var key := UserKey(service.project, service.service, user);
        AclEffect(Named(key), e.None?, old(api.acls), api.acls)
    {
      var acls := api.GetAcls(service);
      if acls.Err? {
        return Some(acls.error);
      }
      var aclToDelete := Acl("", []);
      for i := 0 to |acls.value|
        invariant aclToDelete == Acl("", [])
        invariant forall j :: 0 <= j < i ==> acls.value[j].user != user
      {
        if acls.value[i].user == user {
          aclToDelete := acls.value[i];
          break;
        }
      }
      if aclToDelete.user == user {
        DeleteAclSpares(acls.value, aclToDelete);
        if OneEntryPerUser(acls.value) {
          DeleteAclRemoves(acls.value, aclToDelete);
        }
        e := api.UpdateAcls(service, DeleteAcl(acls.value, aclToDelete));
        return;
      }
      e := None;
    }

    /** Success means that the named user was deleted just now or reported absent, and that its entry in
        the access list went before it. */
    method Cleanup(annotations: Annotations) returns (e: Option<Error>)
      requires Valid()
      modifies users`cache, api`users, api`acls, api`deletions
      ensures Valid()
      ensures var target := OpenSearchTarget(annotations);
        && (target.Broken? ==> e.Some?) && (target.Nothing? ==> e.None?)
        && (!target.Named? ==>
          api.users == old(api.users) && api.deletions == old(api.deletions) && api.acls == old(api.acls))
        && (api.deletions != old(api.deletions) ==>
          target.Named? && api.deletions == old(api.deletions) + [target.user])
        && (e.None? && target.Named? ==>
          target.user !in api.users && api.deletions == old(api.deletions) + [target.user])
      ensures api.users == old(api.users) || api.users == old(api.users) - TargetUsers(OpenSearchTarget(annotations))
      ensures AclEffect(OpenSearchTarget(annotations), e.None?, old(api.acls), api.acls)
      ensures forall user :: OpenSearchNames(annotations, user) ==>
        (e.None? ==> user !in api.users) && (api.reliable ==> e.None?)
      ensures forall user :: OpenSearchNames(annotations, user) && e.None? ==>
        OneEntryPerUser(ListAt(old(api.acls), user)) ==> !HasEntry(ListAt(api.acls, user), user.user)
      ensures "opensearch.aiven.nais.io/serviceName" !in annotations ==> e.None?
      ensures "opensearch.aiven.nais.io/serviceName" in annotations && e.None? ==>
        exists user :: OpenSearchNames(annotations, user)
    {
      hide OpenSearchNames;
      TargetsAre(annotations, map[]);
      hide AclsOnlyAt, OneEntryPerUser, HasEntry;
      if OPENSEARCH_SERVICE_NAME !in annotations {
        return None;
      }
      if OPENSEARCH_SERVICE_USER !in annotations {
        return Some(Plain(MissingAnnotation));
      }
      if OPENSEARCH_PROJECT !in annotations {
        return Some(Plain(MissingAnnotation));
      }
      var project, service := annotations[OPENSEARCH_PROJECT], annotations[OPENSEARCH_SERVICE_NAME];
      var user := annotations[OPENSEARCH_SERVICE_USER];
      e := RemoveAcl(user, ServiceKey(project, service));
      if e.Some? {
        return;
      }
      var now := Now();
      e := users.Delete(UserKey(project, service, user), now);
      if e.Some? && IsNotFound(e.value) {
        e := None;
      }
    }
  }
}
