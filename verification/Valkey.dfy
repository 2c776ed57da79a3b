/** pkg/services/valkey/valkey.go. */
module Valkey {
  import opened Wrappers
  import opened Common
  import opened Resources
  import opened Annotations
  import opened Text
  import opened Failures
  import opened Secrets
  import opened Aiven
  import Cluster
  import ServiceUsers
  import Services

  function AclCategories(access: string): seq<string> {
    var base := ["-@all", "+@connection", "+@scripting", "+@pubsub", "+@transaction"];
    if access == "admin" then base + ["+@admin", "+@write", "+@read"]
    else if access == "readwrite" then base + ["+@write", "+@read"]
    else if access == "write" then base + ["+@write"]
    else base + ["+@read"]
  }

  function AccessFor(access: string): AccessControl {
    AccessControl(AclCategories(access), ["+info", "+cluster|slots"], ["*"], ["*"])
  }

  function ServiceName(namespace: string, instance: string): string {
    "valkey-" + namespace + "-" + instance
  }

  function UserName(app: Application, access: string, config: Config): string {
    app.name + SelectSuffix(access) + "-" + CreateSuffix(config.checksum, app.generation, app.name)
  }

  /** The user that one requested instance gets on its service. */
  function UserFor(app: Application, spec: ValkeySpec, config: Config): UserKey {
    UserKey(config.project, ServiceName(app.namespace, spec.instance), UserName(app, spec.access, config))
  }

  function SecretFor(app: Application, spec: ValkeySpec, config: Config): Secret {
    var s := IndividualSecret(app, spec.secretName, config.codec);
    AddFinalizer(
      s.(annotations := ValkeyAnnotations(s.annotations, spec.instance, UserFor(app, spec, config))), FINALIZER)
  }

  /** The four access classes have four name suffixes and four permission sets. */
  lemma SuffixDeterminesAccess(a: string, b: string)
    requires SelectSuffix(a) == SelectSuffix(b)
    ensures AccessFor(a) == AccessFor(b)
  {
  }

  /** A Secret for the user of a request, made from `base`; `head` stands for the instance in its keys. */
  ghost predicate IsSecret(
    s: Secret, base: Annotations, head: string, app: Application, spec: ValkeySpec, config: Config)
  {
    var suffix :=
      if spec.access == "admin" then "" else if spec.access == "write" then "-w"
      else if spec.access == "readwrite" then "-rw" else "-r";
    var user := app.name + suffix + "-" + CreateSuffix(config.checksum, app.generation, app.name);
    var service := "valkey-" + app.namespace + "-" + spec.instance;
    && IsMadeFor(s, base, app, spec.secretName, config.codec) && IsKeyName(head, spec.instance)
    && Maps(s.annotations, head + ".valkey.aiven.nais.io/serviceUser", user)
    && Maps(s.annotations, head + ".valkey.aiven.nais.io/serviceName", service)
    && Maps(s.annotations, "valkey.aiven.nais.io/project", config.project)
    && SameBut(base, s.annotations, {
      head + ".valkey.aiven.nais.io/serviceUser", head + ".valkey.aiven.nais.io/serviceName",
      "valkey.aiven.nais.io/project"})
  }

  ghost predicate IsSecretFor(s: Secret, app: Application, spec: ValkeySpec, config: Config) {
    exists base, head :: IsSecret(s, base, head, app, spec, config)
  }

  lemma SecretForIs(app: Application, spec: ValkeySpec, config: Config)
    ensures IsSecretFor(SecretFor(app, spec, config), app, spec, config)
  {
    hide IsMadeFor, Maps, SameBut, WithObjectMeta, CreateSuffix, IsKeyName, ValkeyAnnotations, KeyName;
    var user, head := UserFor(app, spec, config), KeyName(spec.instance, "-");
    var base := IndividualSecret(app, spec.secretName, config.codec).annotations;
    KeyNameIs(spec.instance);
    ValkeyWrites(base, spec.instance, head, user);
    IndividualIsMadeFor(app, spec.secretName, ValkeyAnnotations(base, spec.instance, user), config.codec);
    assert IsSecret(SecretFor(app, spec, config), base, head, app, spec, config);
  }

  lemma SameTail(head: string, a: string, b: string, tail: string)
    requires head + a + "-" + tail == head + b + "-" + tail
    ensures a == b
  {
    var s := head + a + "-" + tail;
    assert |a| == |b|;
    assert s[|head|..|head| + |a|] == a && s[|head|..|head| + |a|] == b;
  }

  /** Within one application a user name stands for one set of permissions, so requests that meet
      in a user never disagree about it. */
  lemma EqualNamesHaveEqualAccess(app: Application, a: string, b: string, config: Config)
    requires UserName(app, a, config) == UserName(app, b, config)
    ensures AccessFor(a) == AccessFor(b)
  {
    SameTail(app.name, SelectSuffix(a), SelectSuffix(b), CreateSuffix(config.checksum, app.generation, app.name));
    SuffixDeterminesAccess(a, b);
  }

  /** The users that the application requests. */
  function OwnUsers(app: Application, config: Config): set<UserKey> {
    set i | 0 <= i < |app.spec.valkey| :: UserFor(app, app.spec.valkey[i], config)
  }

  /** No user changed but those that the application requests. */
  ghost predicate OnlyRequested(
    before: ServiceUsers.Users, after: ServiceUsers.Users, app: Application, config: Config)
  {
    ServiceUsers.OnlyWithin(OwnUsers(app, config), before, after)
  }

  /** The user of the request holds exactly the permissions of its access. */
  ghost predicate Granted(users: ServiceUsers.Users, app: Application, spec: ValkeySpec, config: Config) {
    Holds(users, UserFor(app, spec, config), spec.access)
  }

  ghost predicate Holds(users: ServiceUsers.Users, key: UserKey, access: string) {
    key in users && users[key] == User(key.user, AccessFor(access))
  }

  /** The base categories and, of the other three, exactly those that are asked for. */
  ghost predicate Lists(c: seq<string>, admin: bool, write: bool, read: bool) {
    && c != [] && c[0] == "-@all"
    && "+@connection" in c && "+@scripting" in c && "+@pubsub" in c && "+@transaction" in c
    && ("+@admin" in c <==> admin) && ("+@write" in c <==> write) && ("+@read" in c <==> read)
    && (forall x :: x in c ==> x in {
      "-@all", "+@connection", "+@scripting", "+@pubsub", "+@transaction", "+@admin", "+@write", "+@read"})
  }

  /** The permissions of an access, written out: nothing but the base set and what the access adds. */
  ghost predicate RightsAre(rights: AccessControl, access: string) {
    && Lists(rights.categories, access == "admin",
      access == "admin" || access == "readwrite" || access == "write", access != "write")
    && rights.commands == ["+info", "+cluster|slots"] && rights.keys == ["*"] && rights.channels == ["*"]
  }

  /** The base categories are none of the other three, told apart by a character. */
  lemma BaseLists(base: seq<string>)
    requires base == ["-@all", "+@connection", "+@scripting", "+@pubsub", "+@transaction"]
    ensures Lists(base, false, false, false)
  {
    assert base[0] == "-@all" && base[1] == "+@connection" && base[2] == "+@scripting";
    assert base[3] == "+@pubsub" && base[4] == "+@transaction";
    assert "+@write"[2] == 'w' && "+@admin"[2] == 'a' && "+@read"[2] == 'r' && "+@pubsub"[2] == 'p';
    assert "+@connection"[2] == 'c' && "+@scripting"[2] == 's' && "+@transaction"[2] == 't' && "-@all"[0] == '-';
  }

  lemma OneMoreListed(c: seq<string>, admin: bool, write: bool, read: bool, next: string)
    requires Lists(c, admin, write, read) && next in {"+@admin", "+@write", "+@read"}
    ensures Lists(c + [next], admin || next == "+@admin", write || next == "+@write", read || next == "+@read")
  {
    var d := c + [next];
    assert d[0] == c[0];
    assert forall x :: x in d <==> x in c || x == next;
    assert "+@write"[2] == 'w' && "+@admin"[2] == 'a' && "+@read"[2] == 'r';
  }

  lemma RightsOfAccess(access: string)
    ensures RightsAre(AccessFor(access), access)
  {
    hide Lists;
    var base := ["-@all", "+@connection", "+@scripting", "+@pubsub", "+@transaction"];
    assert "+@write"[2] == 'w' && "+@admin"[2] == 'a' && "+@read"[2] == 'r';
    BaseLists(base);
    if access == "admin" {
      OneMoreListed(base, false, false, false, "+@admin");
      OneMoreListed(base + ["+@admin"], true, false, false, "+@write");
      OneMoreListed(base + ["+@admin"] + ["+@write"], true, true, false, "+@read");
      assert base + ["+@admin"] + ["+@write"] + ["+@read"] == AclCategories(access);
    } else if access == "readwrite" {
      OneMoreListed(base, false, false, false, "+@write");
      OneMoreListed(base + ["+@write"], false, true, false, "+@read");
      assert base + ["+@write"] + ["+@read"] == AclCategories(access);
    } else if access == "write" {
      OneMoreListed(base, false, false, false, "+@write");
    } else {
      OneMoreListed(base, false, false, false, "+@read");
    }
  }

  /** The user of a request is on the service of its instance, under its name and with its permissions. */
  ghost predicate IsServed(users: ServiceUsers.Users, app: Application, spec: ValkeySpec, config: Config) {
    var suffix :=
      if spec.access == "admin" then "" else if spec.access == "write" then "-w"
      else if spec.access == "readwrite" then "-rw" else "-r";
    var name := app.name + suffix + "-" + CreateSuffix(config.checksum, app.generation, app.name);
    var key := UserKey(config.project, "valkey-" + app.namespace + "-" + spec.instance, name);
    key in users && users[key].name == name && RightsAre(users[key].access, spec.access)
  }

  lemma GrantedIsServed(users: ServiceUsers.Users, app: Application, spec: ValkeySpec, config: Config)
    requires Granted(users, app, spec, config)
    ensures IsServed(users, app, spec, config)
  {
    hide CreateSuffix, RightsAre, AccessFor;
    RightsOfAccess(spec.access);
  }

  /** What a request needs: a name for its Secret, a RUNNING resource, and a service with a primary Valkey
      component. */
  ghost predicate CanServe(
    resources: Cluster.Instances, components: map<ServiceKey, seq<Component>>, app: Application, spec: ValkeySpec,
    config: Config)
  {
    var name := "valkey-" + app.namespace + "-" + spec.instance;
    var resource := Cluster.ResourceKey(Cluster.ValkeyKind, Key(app.namespace, name));
    var service := ServiceKey(config.project, name);
    && IsDNS1123Label(spec.secretName)
    && resource in resources && resources[resource] == "RUNNING"
    && service in components && Services.HasComponent(components[service], "valkey", "primary")
  }

  /** What can keep a request from being served, how it shows, and when there is another try. */
  ghost predicate IsFault(
    fault: Fault, resources: Cluster.Instances, components: map<ServiceKey, seq<Component>>, app: Application,
    spec: ValkeySpec, config: Config)
  {
    var name := "valkey-" + app.namespace + "-" + spec.instance;
    var resource := Cluster.ResourceKey(Cluster.ValkeyKind, Key(app.namespace, name));
    if resource !in resources then fault == Fault(LocalFailure, ResolveValkeyInstance, Some(100))
    else if resources[resource] != "RUNNING" then fault == Fault(LocalFailure, ResolveValkeyInstance, Some(10))
    else if !IsDNS1123Label(spec.secretName) then fault == Fault(AivenFailure, GetOrInitSecret, None)
    else IsServiceFault(fault, components, ServiceKey(config.project, name))
  }

  ghost predicate IsServiceFault(fault: Fault, components: map<ServiceKey, seq<Component>>, service: ServiceKey) {
    if service !in components then fault == Fault(AivenFailure, GetService, Some(100))
    else
      && !Services.HasComponent(components[service], "valkey", "primary")
      && fault == Fault(AivenFailure, GetService, Some(10))
  }

  lemma FaultsAreNeeds(
    resources: Cluster.Instances, components: map<ServiceKey, seq<Component>>, app: Application, spec: ValkeySpec,
    config: Config)
    ensures CanServe(resources, components, app, spec, config) <==>
      forall fault :: !IsFault(fault, resources, components, app, spec, config)
  {
    hide Services.HasComponent, IsDNS1123Label;
    if forall fault :: !IsFault(fault, resources, components, app, spec, config) {
      assert !IsFault(
        Fault(LocalFailure, ResolveValkeyInstance, Some(100)), resources, components, app, spec, config);
      assert !IsFault(
        Fault(LocalFailure, ResolveValkeyInstance, Some(10)), resources, components, app, spec, config);
      assert !IsFault(Fault(AivenFailure, GetOrInitSecret, None), resources, components, app, spec, config);
      assert !IsFault(Fault(AivenFailure, GetService, Some(100)), resources, components, app, spec, config);
      assert !IsFault(Fault(AivenFailure, GetService, Some(10)), resources, components, app, spec, config);
    }
  }

  /** The first request that cannot be served is the one that shows. */
  ghost predicate IsFirstFault(
    fault: Fault, resources: Cluster.Instances, components: map<ServiceKey, seq<Component>>, app: Application,
    config: Config)
  {
    exists i :: 0 <= i < |app.spec.valkey| && IsFault(fault, resources, components, app, app.spec.valkey[i], config)
      && forall j :: 0 <= j < i ==> CanServe(resources, components, app, app.spec.valkey[j], config)
  }

  ghost predicate CanServeAll(
    resources: Cluster.Instances, components: map<ServiceKey, seq<Component>>, app: Application, config: Config)
  {
    forall i :: 0 <= i < |app.spec.valkey| ==> CanServe(resources, components, app, app.spec.valkey[i], config)
  }

  lemma WriteOnlyAt(key: UserKey, users: ServiceUsers.Users, user: User)
    ensures ServiceUsers.OnlyAt(key, users, users) && ServiceUsers.OnlyAt(key, users, users[key := user])
  {
  }

  /** A user name that the Secret carries already takes precedence. */
  function UserKeyFor(app: Application, spec: ValkeySpec, annotations: Annotations, config: Config): UserKey {
    if VALKEY_SERVICE_USER in annotations then UserFor(app, spec, config).(user := annotations[VALKEY_SERVICE_USER])
    else UserFor(app, spec, config)
  }

  /** Provisioning one more request spoils none of those already provisioned. */
  lemma GrantsSurvive(
    before: ServiceUsers.Users, after: ServiceUsers.Users, app: Application, done: ValkeySpec, next: ValkeySpec,
    config: Config)
    requires Granted(before, app, done, config) && Granted(after, app, next, config)
    requires ServiceUsers.OnlyAt(UserFor(app, next, config), before, after)
    ensures Granted(after, app, done, config)
  {
    var key := UserFor(app, done, config);
    assert key != UserFor(app, next, config) ==> key in (before - {UserFor(app, next, config)});
    if UserFor(app, done, config) == UserFor(app, next, config) {
      EqualNamesHaveEqualAccess(app, done.access, next.access, config);
    }
  }

  lemma OnlyRequestedGrows(
    start: ServiceUsers.Users, before: ServiceUsers.Users, after: ServiceUsers.Users, app: Application, i: nat,
    config: Config)
    requires i < |app.spec.valkey|
    requires OnlyRequested(start, before, app, config)
    requires ServiceUsers.OnlyAt(UserFor(app, app.spec.valkey[i], config), before, after)
    ensures OnlyRequested(start, after, app, config)
  {
    hide ServiceUsers.OnlyWithin, UserFor;
    ServiceUsers.WithinMore({UserFor(app, app.spec.valkey[i], config)}, OwnUsers(app, config), start, before, after);
  }

  /** The state that Apply establishes for the first `n` requests. */
  ghost predicate AllGranted(users: ServiceUsers.Users, app: Application, n: nat, config: Config)
    requires n <= |app.spec.valkey|
  {
    forall i :: 0 <= i < n ==> Granted(users, app, app.spec.valkey[i], config)
  }

  lemma AllGrantsSurvive(
    before: ServiceUsers.Users, after: ServiceUsers.Users, app: Application, n: nat, config: Config)
    requires n < |app.spec.valkey|
    requires AllGranted(before, app, n, config) && Granted(after, app, app.spec.valkey[n], config)
    requires ServiceUsers.OnlyAt(UserFor(app, app.spec.valkey[n], config), before, after)
    ensures AllGranted(after, app, n + 1, config)
  {
    forall i | 0 <= i < n ensures Granted(after, app, app.spec.valkey[i], config) {
      GrantsSurvive(before, after, app, app.spec.valkey[i], app.spec.valkey[n], config);
    }
  }

  lemma AllAreServed(users: ServiceUsers.Users, app: Application, config: Config)
    requires AllGranted(users, app, |app.spec.valkey|, config)
    ensures forall i :: 0 <= i < |app.spec.valkey| ==> IsServed(users, app, app.spec.valkey[i], config)
  {
    hide Granted, IsServed;
    forall i | 0 <= i < |app.spec.valkey| ensures IsServed(users, app, app.spec.valkey[i], config) {
      GrantedIsServed(users, app, app.spec.valkey[i], config);
    }
  }

  lemma OnlyRequestedReflexive(users: ServiceUsers.Users, app: Application, config: Config)
    ensures OnlyRequested(users, users, app, config)
  {
  }

  /** The deletion requests of `order` were made, one by one, after those of `before`. */
  ghost predicate Attempted(before: seq<UserKey>, order: seq<string>, a: Annotations, after: seq<UserKey>) {
    && VALKEY_PROJECT in a && |after| == |before| + |order| && before <= after
    && forall i :: 0 <= i < |order| ==>
      IsValkeyPair(a, order[i]) && after[|before| + i] == ValkeyUser(a, order[i])
  }

  /** The deletion was refused: it failed, and not because there was no such user. */
  predicate Refused(outcome: Option<Error>) {
    outcome.Some? && !IsNotFound(outcome.value)
  }

  /** Every attempt on the user was refused. */
  ghost predicate AllRefused(user: UserKey, order: seq<string>, outcomes: seq<Option<Error>>, a: Annotations)
    requires VALKEY_PROJECT in a && |outcomes| == |order| && forall key :: key in order ==> IsValkeyPair(a, key)
  {
    forall i :: 0 <= i < |order| && ValkeyUser(a, order[i]) == user ==> Refused(outcomes[i])
  }

  /** Who is left after these attempts with these outcomes. */
  ghost predicate OnlyRefusedRemain(
    before: ServiceUsers.Users, order: seq<string>, outcomes: seq<Option<Error>>, a: Annotations,
    after: ServiceUsers.Users)
  {
    && VALKEY_PROJECT in a && |outcomes| == |order| && (forall key :: key in order ==> IsValkeyPair(a, key))
    && forall user :: user in after <==> user in before && AllRefused(user, order, outcomes, a)
  }

  lemma NobodyRemains(
    before: ServiceUsers.Users, order: seq<string>, outcomes: seq<Option<Error>>, a: Annotations,
    after: ServiceUsers.Users)
    requires OnlyRefusedRemain(before, order, outcomes, a, after) && multiset(order) == multiset(ValkeyPairs(a))
    requires forall i :: 0 <= i < |outcomes| ==> !Refused(outcomes[i])
    ensures ValkeyUsers(a) !! after.Keys
  {
    forall user | user in ValkeyUsers(a) ensures user !in after {
      var key :| key in ValkeyPairs(a) && user == ValkeyUser(a, key);
      assert key in multiset(order);
      var i :| 0 <= i < |order| && order[i] == key;
      assert !Refused(outcomes[i]);
    }
  }

  lemma NobodyYetRefused(users: ServiceUsers.Users, a: Annotations)
    ensures VALKEY_PROJECT in a ==> OnlyRefusedRemain(users, [], [], a, users)
  {
  }

  lemma OneMoreOutcome(
    start: ServiceUsers.Users, order: seq<string>, outcomes: seq<Option<Error>>, a: Annotations,
    before: ServiceUsers.Users, key: string, outcome: Option<Error>, after: ServiceUsers.Users)
    requires OnlyRefusedRemain(start, order, outcomes, a, before) && IsValkeyPair(a, key)
    requires var user := ValkeyUser(a, key);
      && (Refused(outcome) ==> after == before)
      && (!Refused(outcome) ==> user !in after && (after == before || after == before - {user}))
    ensures OnlyRefusedRemain(start, order + [key], outcomes + [outcome], a, after)
  {
    forall user | user in start
      ensures AllRefused(user, order + [key], outcomes + [outcome], a) <==>
        AllRefused(user, order, outcomes, a) && (ValkeyUser(a, key) == user ==> Refused(outcome))
    {
      assert forall i :: 0 <= i < |order| ==> (order + [key])[i] == order[i];
      assert forall i :: 0 <= i < |order| ==> (outcomes + [outcome])[i] == outcomes[i];
      assert (order + [key])[|order|] == key;
    }
  }

  lemma AttemptedNone(before: seq<UserKey>, a: Annotations)
    ensures VALKEY_PROJECT in a ==> Attempted(before, [], a, before)
  {
  }

  lemma AttemptedNext(before: seq<UserKey>, order: seq<string>, a: Annotations, after: seq<UserKey>, key: string)
    requires Attempted(before, order, a, after) && IsValkeyPair(a, key)
    ensures Attempted(before, order + [key], a, after + [ValkeyUser(a, key)])
  {
  }

  lemma VisitNext(order: seq<string>, pairs: set<string>, rest: set<string>, key: string)
    requires key in rest
    ensures key !in pairs ==> pairs - (rest - {key}) == pairs - rest
    ensures key in pairs && multiset(order) == multiset(pairs - rest) ==>
      multiset(order + [key]) == multiset(pairs - (rest - {key}))
  {
  }

  lemma NoValkeyUserYet(app: Application, name: string, config: Config)
    ensures VALKEY_SERVICE_USER !in IndividualSecret(app, name, config.codec).annotations
  {
  }

  class Handler {
    const api: Api
    const users: ServiceUsers.Manager
    const services: Services.Manager
    const cluster: Cluster.Server
    const config: Config

    ghost predicate Valid()
      reads users, api`users
    {
      users.api == api && services.api == api && users.Valid()
    }

    /** Nothing fails for reasons of its own. */
    ghost predicate FaultFree() {
      api.reliable && cluster.reliable
    }

    constructor (api: Api, cluster: Cluster.Server, config: Config)
      requires api.Valid()
      ensures Valid() && this.api == api && this.cluster == cluster && this.config == config
      ensures fresh(users) && fresh(services) && users.cache == map[]
    {
      this.api, this.cluster, this.config := api, cluster, config;
      users := new ServiceUsers.Manager(api);
      services := new Services.Manager(api);
    }

    method ProvideServiceUser(ref: ApplicationRef, spec: ValkeySpec, annotations: Annotations)
      returns (r: Result<User>)
      requires Valid()
      modifies ref, users`cache, api`users
      ensures Valid()
      ensures old(users.IsCoherent()) ==> users.IsCoherent()
      ensures OnlyConditions(old(ref.app), ref.app)
      ensures r.Ok? ==> ref.app == old(ref.app)
      ensures var key := UserKeyFor(old(ref.app), spec, annotations, config);
        && (r.Ok? ==> r.value.name == key.user)
        && (r.Ok? && old(users.IsCoherent()) ==> Holds(api.users, key, spec.access))
        && (r.Err? ==> api.users == old(api.users))
        && ServiceUsers.OnlyAt(key, old(api.users), api.users) && old(api.users).Keys <= api.users.Keys
      ensures r.Ok? && old(users.IsCoherent()) ==>
        var key := UserKeyFor(old(ref.app), spec, annotations, config);
        key in api.users && RightsAre(api.users[key].access, spec.access)
      ensures api.reliable && old(users.IsCoherent()) ==> r.Ok?
    {
      hide RightsAre;
      RightsOfAccess(spec.access);
      hide ServiceUsers.Coherent, AccessFor, UserName, ServiceName, ServiceUsers.OnlyAt;
      hide ServiceUsers.GetEffect, ServiceUsers.CreateEffect, ServiceUsers.UpdateEffect, IsRecorded, UnwrapAivenError;
      hide AclCategories;
      var name: string;
      if VALKEY_SERVICE_USER in annotations {
        name := annotations[VALKEY_SERVICE_USER];
      } else {
        name := UserName(ref.app, spec.access, config);
      }
      var key := UserKey(config.project, ServiceName(ref.app.namespace, spec.instance), name);
      var access := AccessFor(spec.access);
      WriteOnlyAt(key, api.users, User(name, access));
      var now := Now();
      r := users.Get(key, now);
      if r.Ok? {
        if r.value.access == access {
          return;
        }
      } else if !IsNotFound(r.error) {
        var failure := AivenFail(Operation.GetServiceUser, ref, r.error, false);
        return Err(failure);
      }
      r := WriteUser(ref, key, access, r.Ok?);
    }

    /** Gives a user that is there the access, or creates it. */
    method WriteUser(ref: ApplicationRef, key: UserKey, access: AccessControl, found: bool) returns (r: Result<User>)
      requires Valid()
      modifies ref, users`cache, api`users
      ensures Valid()
      ensures old(users.IsCoherent()) ==> users.IsCoherent()
      ensures OnlyConditions(old(ref.app), ref.app)
      ensures r.Ok? ==> ref.app == old(ref.app) && r.value == User(key.user, access)
      ensures api.users == if r.Ok? then old(api.users)[key := User(key.user, access)] else old(api.users)
      ensures api.reliable && (found <==> key in old(api.users)) ==> r.Ok?
    {
      hide ServiceUsers.Coherent, ServiceUsers.CreateEffect, ServiceUsers.UpdateEffect, IsRecorded, UnwrapAivenError;
      hide OnlyConditions;
      ConditionsMayStay(ref.app);
      var now := Now();
      if found {
        r := users.Update(key, access, now);
        if r.Err? {
          var failure := AivenFail(Operation.UpdateServiceUser, ref, r.error, false);
          return Err(failure);
        }
      } else {
        r := users.Create(key, access, now);
        if r.Err? {
          var failure := AivenFail(Operation.CreateServiceUser, ref, r.error, false);
          return Err(failure);
        }
      }
    }

    /** Succeeds only for a service with a primary Valkey component; without faults it does so for every one,
        and a service that does not exist yet is asked for again. */
    method FindService(ref: ApplicationRef, serviceName: string) returns (e: Option<Error>)
      modifies ref, services`cache
      ensures OnlyConditions(old(ref.app), ref.app)
      ensures e.None? ==> ref.app == old(ref.app)
      ensures e.None? ==> var key := ServiceKey(config.project, serviceName);
        key in services.api.components
        && Services.HasComponent(services.api.components[key], "valkey", "primary")
      ensures services.api.reliable && e.Some? ==>
        exists fault ::
          && Shows(fault, old(ref.app.status.conditions), e.value, ref.app.status.conditions)
          && IsServiceFault(fault, services.api.components, ServiceKey(config.project, serviceName))
    {
      hide Services.AddressesOf, RequeueAfter, Services.HasComponent, Services.FetchEffect, UnwrapAivenError;
      var fetched := Now();
      var read := services.api.Answered(fetched);
      ghost var key := ServiceKey(config.project, serviceName);
      if key in services.api.components {
        Services.UriTells(services.api.components[key], fetched);
      }
      Retries(Operation.GetService, "not found");
      var addresses := services.GetServiceAddresses(ServiceKey(config.project, serviceName), fetched, read);
      if addresses.Err? {
        var failure := AivenFail(Operation.GetService, ref, addresses.error, true);
        if services.api.reliable {
          assert Shows(Fault(AivenFailure, GetService, Some(100)),
            old(ref.app.status.conditions), failure, ref.app.status.conditions);
        }
        return Some(failure);
      }
      if addresses.value.valkey.uri == "" {
        var failure := AivenFail(Operation.GetService, ref, Plain(NoService), true);
        assert Shows(Fault(AivenFailure, GetService, Some(10)),
          old(ref.app.status.conditions), failure, ref.app.status.conditions);
        return Some(failure);
      }
      e := None;
    }

    /** The first half of a turn: a Secret is begun exactly for a request that can be served. */
    method BeginSecret(ref: ApplicationRef, spec: ValkeySpec) returns (r: Result<Secret>)
      requires Valid()
      modifies ref, services`cache
      ensures Valid()
      ensures OnlyConditions(old(ref.app), ref.app)
      ensures r.Ok? ==>
        && ref.app == old(ref.app) && r.value == IndividualSecret(ref.app, spec.secretName, config.codec)
        && CanServe(cluster.resources, api.components, ref.app, spec, config)
      ensures FaultFree() && r.Err? ==>
        exists fault ::
          && Shows(fault, old(ref.app.status.conditions), r.error, ref.app.status.conditions)
          && IsFault(fault, cluster.resources, api.components, old(ref.app), spec, config)
    {
      assert services.api == api;
      hide IsServiceFault;
      LabelsAreDNS1123(spec.secretName);
      Retries(Operation.GetOrInitSecret, "");
      hide Valid, ServiceUsers.Coherent, IsDNS1123Label, IsRecorded, FailedInAiven, FailedLocally, OnlyConditions;
      hide WithObjectMeta, Services.HasComponent, RequeueAfter, UnwrapAivenError;
      var serviceName := ServiceName(ref.app.namespace, spec.instance);
      var instance := cluster.GetResourceInNamespace(Cluster.ValkeyKind, serviceName, ref.app.namespace);
      if instance.Err? {
        LocalFail(Operation.ResolveValkeyInstance, ref);
        assert Shows(Fault(LocalFailure, ResolveValkeyInstance, RequeueAfter(instance.error)),
          old(ref.app.status.conditions), instance.error, ref.app.status.conditions);
        return Err(instance.error);
      }
      var final := new SecretRef(ref.app.namespace, spec.secretName);
      var e := ApplyIndividualSecret(ref.app, final, api, config);
      if e.Some? {
        var failure := AivenFail(Operation.GetOrInitSecret, ref, e.value, false);
        if FaultFree() {
          assert Shows(Fault(AivenFailure, GetOrInitSecret, None),
            old(ref.app.status.conditions), failure, ref.app.status.conditions);
        }
        return Err(failure);
      }
      ConditionsMayStay(ref.app);
      var missing := FindService(ref, serviceName);
      if missing.Some? {
        return Err(missing.value);
      }
      r := Ok(final.secret);
    }

    /** One turn of the loop in Apply. */
    method ApplyInstance(ref: ApplicationRef, spec: ValkeySpec) returns (r: Result<Secret>)
      requires Valid()
      modifies ref, users`cache, services`cache, api`users
      ensures Valid()
      ensures old(users.IsCoherent()) ==> users.IsCoherent()
      ensures OnlyConditions(old(ref.app), ref.app)
      ensures ServiceUsers.OnlyAt(UserFor(old(ref.app), spec, config), old(api.users), api.users)
      ensures old(api.users).Keys <= api.users.Keys
      ensures r.Ok? ==>
        && ref.app == old(ref.app)
        && r.value == SecretFor(ref.app, spec, config)
        && (old(users.IsCoherent()) ==> Granted(api.users, ref.app, spec, config))
        && CanServe(cluster.resources, api.components, ref.app, spec, config)
      ensures FaultFree() && old(users.IsCoherent()) && r.Err? ==>
        exists fault ::
          && Shows(fault, old(ref.app.status.conditions), r.error, ref.app.status.conditions)
          && IsFault(fault, cluster.resources, api.components, old(ref.app), spec, config)
    {
      hide ServiceUsers.Coherent, AccessFor, UserName, ServiceName, Valid, ServiceUsers.OnlyAt, Holds, CanServe;
      hide IsFault, Shows, WithObjectMeta, ValkeyAnnotations, AddFinalizer, OnlyConditions;
      WriteOnlyAt(UserFor(ref.app, spec, config), api.users, User("", NO_ACCESS_CONTROL));
      var begun := BeginSecret(ref, spec);
      if begun.Err? {
        return begun;
      }
      NoValkeyUserYet(ref.app, spec.secretName, config);
      var final := begun.value;
      var user := ProvideServiceUser(ref, spec, final.annotations);
      if user.Err? {
        return Err(user.error);
      }
      var serviceName := ServiceName(ref.app.namespace, spec.instance);
      final := final.(annotations := ValkeyAnnotations(
        final.annotations, spec.instance, UserKey(config.project, serviceName, user.value.name)));
      r := Ok(AddFinalizer(final, FINALIZER));
    }

    /** With a coherent cache every requested user then is on its service and holds exactly the permissions of
        its request, however often instances repeat in the list. Without faults this succeeds if and only if
        every request can be served. */
    method Apply(ref: ApplicationRef) returns (r: Result<seq<Secret>>)
      requires Valid()
      modifies ref, users`cache, services`cache, api`users
      ensures Valid()
      ensures old(users.IsCoherent()) ==> users.IsCoherent()
      ensures OnlyConditions(old(ref.app), ref.app)
      ensures OnlyRequested(old(api.users), api.users, old(ref.app), config) && old(api.users).Keys <= api.users.Keys
      ensures r.Ok? ==>
        && ref.app == old(ref.app) && |r.value| == |ref.app.spec.valkey|
        && (old(users.IsCoherent()) ==> AllGranted(api.users, ref.app, |ref.app.spec.valkey|, config))
      ensures r.Ok? && old(users.IsCoherent()) ==>
        forall i :: 0 <= i < |r.value| ==> IsServed(api.users, ref.app, ref.app.spec.valkey[i], config)
      ensures r.Ok? ==> forall i :: 0 <= i < |r.value| ==>
        IsSecretFor(r.value[i], ref.app, ref.app.spec.valkey[i], config)
      ensures r.Ok? ==> CanServeAll(cluster.resources, api.components, ref.app, config)
      ensures r.Ok? ==> forall i :: 0 <= i < |r.value| ==>
        r.value[i] == SecretFor(ref.app, ref.app.spec.valkey[i], config)
      ensures FaultFree() && old(users.IsCoherent()) && r.Err? ==>
        exists fault ::
          && Shows(fault, old(ref.app.status.conditions), r.error, ref.app.status.conditions)
          && IsFirstFault(fault, cluster.resources, api.components, old(ref.app), config)
    {
      hide IsSecretFor, SecretFor, UserFor, ServiceUsers.OnlyAt, OnlyRequested, ServiceUsers.Coherent, Granted;
      hide IsServed, CanServe, IsFault, Shows;
      ghost var app, start, coherent := ref.app, api.users, users.IsCoherent();
      OnlyRequestedReflexive(start, app, config);
      var secrets := [];
      for i := 0 to |ref.app.spec.valkey|
        invariant Valid() && ref.app == app && |secrets| == i
        invariant coherent ==> users.IsCoherent() && AllGranted(api.users, app, i, config)
        invariant OnlyRequested(start, api.users, app, config) && start.Keys <= api.users.Keys
        invariant forall j :: 0 <= j < i ==> var spec := app.spec.valkey[j];
          && secrets[j] == SecretFor(app, spec, config)
          && IsSecretFor(secrets[j], app, spec, config)
          && CanServe(cluster.resources, api.components, app, spec, config)
      {
        ghost var before := api.users;
        var secret := ApplyInstance(ref, ref.app.spec.valkey[i]);
        OnlyRequestedGrows(start, before, api.users, app, i, config);
        if secret.Err? {
          return Err(secret.error);
        }
        if coherent {
          AllGrantsSurvive(before, api.users, app, i, config);
        }
        SecretForIs(app, app.spec.valkey[i], config);
        secrets := secrets + [secret.value];
      }
      if coherent {
        AllAreServed(api.users, app, config);
      }
      r := Ok(secrets);
    }

    /** With a project, the user of every complete pair of annotations has its deletion attempted
        exactly once, past all failures, in whatever order the map yields the pairs, and a user remains
        if and only if every attempt on it was refused, of which the result says nothing; without a
        project nothing is deleted, and that is an error exactly when there is a complete pair. */
    method Cleanup(annotations: Annotations)
      returns (e: Option<Error>, ghost order: seq<string>, ghost outcomes: seq<Option<Error>>)
      requires Valid()
      modifies users`cache, api`users, api`deletions
      ensures Valid()
      ensures e.Some? <==> VALKEY_PROJECT !in annotations && ValkeyPairs(annotations) != {}
      ensures VALKEY_PROJECT !in annotations ==> api.deletions == old(api.deletions) && api.users == old(api.users)
      ensures VALKEY_PROJECT in annotations ==>
        && multiset(order) == multiset(ValkeyPairs(annotations))
        && Attempted(old(api.deletions), order, annotations, api.deletions)
        && OnlyRefusedRemain(old(api.users), order, outcomes, annotations, api.users)
      ensures ServiceUsers.OnlyRemoved(ValkeyUsers(annotations), old(api.users), api.users)
      ensures api.reliable && e.None? ==> forall user :: ValkeyNames(annotations, user) ==> user !in api.users
    {

      hide HasSuffix, ValkeyServiceUserKeyFor, ServiceUsers.Coherent, ServiceUsers.DeleteEffect;
      hide Attempted, ServiceUsers.OnlyRemoved, OnlyRefusedRemain, ValkeyNames, IsNotFound;
      NotFoundIsNotFound();
      var rest := annotations.Keys;
      order, outcomes := [], [];
      NobodyYetRefused(api.users, annotations);
      AttemptedNone(api.deletions, annotations);
      ServiceUsers.NoneRemoved(ValkeyUsers(annotations), api.users);
      while rest != {}
        invariant Valid() && rest <= annotations.Keys
        invariant VALKEY_PROJECT !in annotations ==>
          api.deletions == old(api.deletions) && api.users == old(api.users) && ValkeyPairs(annotations) <= rest
        invariant VALKEY_PROJECT in annotations ==>
          && multiset(order) == multiset(ValkeyPairs(annotations) - rest)
          && Attempted(old(api.deletions), order, annotations, api.deletions)
          && OnlyRefusedRemain(old(api.users), order, outcomes, annotations, api.users)
        invariant api.reliable ==> forall i :: 0 <= i < |outcomes| ==> !Refused(outcomes[i])
        invariant ServiceUsers.OnlyRemoved(ValkeyUsers(annotations), old(api.users), api.users)
      {
        ghost var before := rest;
        var key :| key in rest;
        rest := rest - {key};
        VisitNext(order, ValkeyPairs(annotations), before, key);
        if HasSuffix(key, VALKEY_SERVICE_NAME) {
          var userKey := ValkeyServiceUserKeyFor(key);
          if userKey in annotations {
            if VALKEY_PROJECT !in annotations {
              return Some(Plain(MissingAnnotation)), order, outcomes;
            }
            AttemptedNext(old(api.deletions), order, annotations, api.deletions, key);
            ghost var present := api.users;
            var user := UserKey(annotations[VALKEY_PROJECT], annotations[key], annotations[userKey]);
            ServiceUsers.OneMoreRemoved(ValkeyUsers(annotations), old(api.users), api.users, user);
            var now := Now();
            var failure := users.Delete(user, now);
            OneMoreOutcome(old(api.users), order, outcomes, annotations, present, key, failure, api.users);
            order, outcomes := order + [key], outcomes + [failure];
          }
        }
      }
      if api.reliable && VALKEY_PROJECT in annotations {
        NobodyRemains(old(api.users), order, outcomes, annotations, api.users);
      }
      TargetsAre(annotations, map[]);
      e := None;
    }
  }
}
