/** pkg/credentials/cleaner.go: which Secrets nobody needs any more, and the passes of the janitor
    that ask for their deletion. */
module Cleaner {
  import opened Wrappers
  import opened Common
  import opened Resources
  import opened Annotations
  import opened Cluster

  datatype ObjectKind = AivenApplicationKind | ReplicaSetKind | CronJobKind | JobKind | OtherKind

  /** What may use a Secret; a volume is given by the name of the Secret it mounts, if it mounts one. */
  datatype Object =
    | App(app: Application)
    | ReplicaSet(labels: map<string, string>, volumes: seq<Option<string>>)
    | CronJob(labels: map<string, string>, volumes: seq<Option<string>>)
    | Job(labels: map<string, string>, volumes: seq<Option<string>>)
    | Other(labels: map<string, string>)
  {
    function Kind(): ObjectKind {
      match this
      case App(_) => AivenApplicationKind
      case ReplicaSet(_, _) => ReplicaSetKind
      case CronJob(_, _) => CronJobKind
      case Job(_, _) => JobKind
      case Other(_) => OtherKind
    }

    function Labels(): map<string, string> {
      match this
      case App(app) => app.labels
      case _ => labels
    }
  }

  /** A pod, by the Secrets that ListUsedAndUnusedSecretsForPods finds in it. */
  type Pod = set<Key>

  // Which Secrets go

  predicate SpecNames(spec: Spec, name: string) {
    || spec.secretName == name
    || KafkaAsksFor(spec, name) || OpenSearchAsksFor(spec, name) || ValkeyAsksFor(spec.valkey, name)
  }

  predicate Uses(user: Object, name: string) {
    match user
    case App(app) => SpecNames(app.spec, name)
    case Other(_) => false
    case _ => Some(name) in user.volumes
  }

  predicate HasProtected(a: Annotations) {
    PROTECTED in a && a[PROTECTED] == "true"
  }

  predicate HasTimeLimited(a: Annotations) {
    WITH_TIME_LIMIT in a && a[WITH_TIME_LIMIT] == "true"
  }

  function ExpiryOf(a: Annotations, codec: TimeCodec): Option<Time> {
    if EXPIRES_AT in a && a[EXPIRES_AT] != "" then codec.parse(a[EXPIRES_AT]) else None
  }

  /** Protection holds until a time limit with a readable expiry has passed. */
  predicate Shielded(a: Annotations, codec: TimeCodec, now: Time) {
    HasProtected(a) && (HasTimeLimited(a) && ExpiryOf(a, codec).Some? ==> now <= ExpiryOf(a, codec).value)
  }

  ghost predicate UsedByPods(secret: Secret, pods: seq<Pod>) {
    exists i :: 0 <= i < |pods| && secret.Id() in pods[i]
  }

  ghost predicate UsedByObjects(secret: Secret, users: set<Object>, scheme: set<ObjectKind>) {
    exists o :: o in users && o.Kind() in scheme && Uses(o, secret.name)
  }

  ghost predicate ShouldDelete(
    secret: Secret, pods: seq<Pod>, users: set<Object>, scheme: set<ObjectKind>, codec: TimeCodec, now: Time)
  {
    && !UsedByPods(secret, pods) && !UsedByObjects(secret, users, scheme)
    && !Shielded(secret.annotations, codec, now)
  }

  // The same, over the fields of the objects

  /** The object mounts the Secret of this name, or asks for it. */
  ghost predicate RefersTo(o: Object, name: string) {
    match o
    case App(app) => Names(app.spec, name)
    case ReplicaSet(_, volumes) => exists i :: 0 <= i < |volumes| && volumes[i] == Some(name)
    case CronJob(_, volumes) => exists i :: 0 <= i < |volumes| && volumes[i] == Some(name)
    case Job(_, volumes) => exists i :: 0 <= i < |volumes| && volumes[i] == Some(name)
    case Other(_) => false
  }

  ghost predicate Names(spec: Spec, name: string) {
    || spec.secretName == name
    || (spec.kafka.Some? && spec.kafka.value.secretName == name)
    || (spec.openSearch.Some? && spec.openSearch.value.secretName == name)
    || (exists i :: 0 <= i < |spec.valkey| && spec.valkey[i].secretName == name)
  }

  predicate IsKnown(o: Object, scheme: set<ObjectKind>) {
    match o
    case App(_) => AivenApplicationKind in scheme
    case ReplicaSet(_, _) => ReplicaSetKind in scheme
    case CronJob(_, _) => CronJobKind in scheme
    case Job(_, _) => JobKind in scheme
    case Other(_) => OtherKind in scheme
  }

  predicate IsLabelled(o: Object, appName: string) {
    match o
    case App(app) => Maps(app.labels, "app", appName)
    case ReplicaSet(labels, _) => Maps(labels, "app", appName)
    case CronJob(labels, _) => Maps(labels, "app", appName)
    case Job(labels, _) => Maps(labels, "app", appName)
    case Other(labels) => Maps(labels, "app", appName)
  }

  /** Protected, and not past a time limit that can be read. */
  predicate IsProtected(a: Annotations, codec: TimeCodec, now: Time) {
    var expires := "aivenator.aiven.nais.io/expires-at";
    && Maps(a, "aivenator.aiven.nais.io/protected", "true")
    && !(Maps(a, "aivenator.aiven.nais.io/with-time-limit", "true") && expires in a && a[expires] != ""
         && codec.parse(a[expires]).Some? && now > codec.parse(a[expires]).value)
  }

  lemma WhoUses(o: Object, name: string)
    ensures Uses(o, name) <==> RefersTo(o, name)
  {
    if !o.App? && !o.Other? {
      assert Some(name) in o.volumes <==> exists i :: 0 <= i < |o.volumes| && o.volumes[i] == Some(name);
    }
  }

  /** A Secret goes if and only if no pod has it, no object of a known kind mounts it or asks for it, and it is
      not protected, or past a limit that can be read. */
  lemma WhatGoes(
    secret: Secret, pods: seq<Pod>, users: set<Object>, scheme: set<ObjectKind>, codec: TimeCodec, now: Time)
    ensures ShouldDelete(secret, pods, users, scheme, codec, now) <==>
      && (forall i :: 0 <= i < |pods| ==> Key(secret.namespace, secret.name) !in pods[i])
      && (forall o :: o in users && IsKnown(o, scheme) ==> !RefersTo(o, secret.name))
      && !IsProtected(secret.annotations, codec, now)
  {
    hide Uses, RefersTo;
    forall o ensures Uses(o, secret.name) <==> RefersTo(o, secret.name) {
      WhoUses(o, secret.name);
    }
    assert forall o: Object :: o.Kind() in scheme <==> IsKnown(o, scheme);
  }

  /** What a pass looks at: the operator's Secrets, and those of one application only in its namespace. */
  ghost predicate LooksAt(secrets: seq<Secret>, stored: Secrets, scope: Scope) {
    forall s :: s in secrets <==>
      && Key(s.namespace, s.name) in stored && stored[Key(s.namespace, s.name)] == s
      && Maps(s.labels, "type", "aivenator.aiven.nais.io")
      && (scope.OfApplication? ==> Maps(s.labels, "app", scope.name) && s.namespace == scope.namespace)
  }

  lemma ListsIsLooksAt(secrets: seq<Secret>, stored: Secrets, scope: Scope)
    requires Lists(secrets, stored, scope)
    ensures LooksAt(secrets, stored, scope)
  {
    assert forall labels, key, value :: HasLabel(labels, key, value) <==> Maps(labels, key, value);
  }

  /** The moments at which the clock was read for the single Secrets. */
  type Times = map<Key, Time>

  /** Deletion is requested for exactly the Secrets that should be deleted, once each. */
  ghost predicate Exactly(
    requested: seq<Key>, secrets: seq<Secret>, times: Times, pods: seq<Pod>, users: set<Object>,
    scheme: set<ObjectKind>, codec: TimeCodec)
  {
    && (forall s :: s in secrets && !UsedByPods(s, pods) ==> s.Id() in times)
    && (forall s :: s in secrets ==> (s.Id() in requested <==>
      s.Id() in times && ShouldDelete(s, pods, users, scheme, codec, times[s.Id()])))
    && (forall key :: key in requested ==> exists s :: s in secrets && s.Id() == key)
    && (forall i, j :: 0 <= i < j < |requested| ==> requested[i] != requested[j])
  }

  /** The Secrets of the operator, of one application or of all. */
  datatype Scope = Everything | OfApplication(namespace: string, name: string)

  predicate HasLabel(labels: map<string, string>, key: string, value: string) {
    key in labels && labels[key] == value
  }

  predicate InScope(secret: Secret, scope: Scope) {
    && HasLabel(secret.labels, SECRET_TYPE_LABEL, SECRET_TYPE)
    && (scope.OfApplication? ==> HasLabel(secret.labels, APP_LABEL, scope.name) && secret.namespace == scope.namespace)
  }

  /** Possible users are told by the application's label, in whatever namespace; the empty name selects
      all of them. */
  predicate Selected(user: Object, appName: string) {
    appName == "" || HasLabel(user.Labels(), APP_LABEL, appName)
  }

  function AppName(scope: Scope): string {
    if scope.Everything? then "" else scope.name
  }

  ghost predicate Lists(secrets: seq<Secret>, stored: Secrets, scope: Scope) {
    && (forall s :: s in secrets <==> s.Id() in stored && stored[s.Id()] == s && InScope(s, scope))
    && (forall i, j :: 0 <= i < j < |secrets| ==> secrets[i] != secrets[j])
  }

  /** What deletion requests for `keys` can do: those Secrets are gone or marked, or still there. */
  ghost predicate OnlyDeleted(before: Secrets, keys: seq<Key>, after: Secrets) {
    && (forall key :: key in before && key !in keys ==> key in after && after[key] == before[key])
    && (forall key :: key in after ==> key in before)
    && (forall key :: key in after && after[key] != before[key] ==>
      after[key] == before[key].(version := after[key].version, terminating := true))
  }

  /** What was requested is gone or on its way. */
  ghost predicate AreGoing(requested: seq<Key>, secrets: Secrets) {
    forall key :: key in requested && key in secrets ==> secrets[key].terminating
  }

  lemma OneMoreGoing(requested: seq<Key>, store: Store, key: Key, store': Store)
    requires AreGoing(requested, store.secrets)
    requires DeleteIn(store, key) == Done(store') || (store' == store && DeleteIn(store, key) == Failed(Missing))
    ensures AreGoing(requested + [key], store'.secrets)
  {
  }

  lemma NothingDeleted(secrets: Secrets)
    ensures OnlyDeleted(secrets, [], secrets) && AreGoing([], secrets)
  {
  }

  lemma OneMoreDeleted(before: Secrets, keys: seq<Key>, store: Store, key: Key, store': Store)
    requires OnlyDeleted(before, keys, store.secrets)
    requires store' == store || DeleteIn(store, key) == Done(store')
    ensures OnlyDeleted(before, keys + [key], store'.secrets)
  {
  }

  /** One cleaning pass, as it changes the Secrets of the cluster. */
  datatype CleaningPass = CleaningPass(
    requested: seq<Key>, secrets: seq<Secret>, times: Times, scope: Scope, pods: seq<Pod>, users: set<Object>,
    scheme: set<ObjectKind>)

  /** A pass that fails requests nothing. */
  ghost predicate Cleans(before: Secrets, pass: CleaningPass, after: Secrets, codec: TimeCodec) {
    && OnlyDeleted(before, pass.requested, after)
    && (pass.requested == [] || (Lists(pass.secrets, before, pass.scope)
        && Exactly(pass.requested, pass.secrets, pass.times, pass.pods, pass.users, pass.scheme, codec)))
  }

  /** The other objects of the cluster that passes look at. */
  class Workloads {
    var replicaSets: seq<Object>
    var cronJobs: seq<Object>
    var jobs: seq<Object>
    var pods: seq<Pod>

    constructor (replicaSets: seq<Object>, cronJobs: seq<Object>, jobs: seq<Object>, pods: seq<Pod>)
      ensures this.replicaSets == replicaSets && this.cronJobs == cronJobs && this.jobs == jobs && this.pods == pods
    {
      this.replicaSets, this.cronJobs, this.jobs, this.pods := replicaSets, cronJobs, jobs, pods;
    }
  }

  /** Whether one object refers to the Secret; an object of another type is an error and no user. */
  method InUse(user: Object, secretName: string) returns (used: bool, e: Option<Error>)
    ensures used <==> Uses(user, secretName)
    ensures user.ReplicaSet? || user.Job? || user.CronJob? ==>
      (used <==> exists i :: 0 <= i < |user.volumes| && user.volumes[i] == Some(secretName))
    ensures user.App? ==> var spec := user.app.spec; used <==>
      || spec.secretName == secretName
      || (spec.kafka.Some? && spec.kafka.value.secretName == secretName)
      || (spec.openSearch.Some? && spec.openSearch.value.secretName == secretName)
      || (exists i :: 0 <= i < |spec.valkey| && spec.valkey[i].secretName == secretName)
    ensures e.Some? <==> user.Other?
  {
    e := None;
    var volumes: seq<Option<string>> := [];
    match user {
      case ReplicaSet(_, v) => volumes := v;
      case Job(_, v) => volumes := v;
      case CronJob(_, v) => volumes := v;
      case App(app) =>
        var spec := app.spec;
        if spec.secretName == secretName {
          return true, None;
        } else if spec.kafka.Some? && spec.kafka.value.secretName == secretName {
          return true, None;
        } else if spec.openSearch.Some? && spec.openSearch.value.secretName == secretName {
          return true, None;
        }
        for i := 0 to |spec.valkey|
          invariant forall j :: 0 <= j < i ==> spec.valkey[j].secretName != secretName
        {
          if spec.valkey[i].secretName == secretName {
            return true, None;
          }
        }
      case Other(_) =>
        return false, Some(Plain(UnsupportedType));
    }
    for i := 0 to |volumes|
      invariant Some(secretName) !in volumes[..i]
    {
      if volumes[i] == Some(secretName) {
        return true, None;
      }
    }
    used := false;
    assert volumes[..|volumes|] == volumes;
  }

  ghost predicate DistinctIds(secrets: seq<Secret>) {
    forall i, j :: 0 <= i < j < |secrets| ==> secrets[i].Id() != secrets[j].Id()
  }

  /** A partition, which keeps the order. */
  method ListUsedAndUnusedSecretsForPods(secrets: seq<Secret>, pods: seq<Pod>)
    returns (used: seq<Secret>, unused: seq<Secret>)
    ensures forall s :: s in used <==> s in secrets && UsedByPods(s, pods)
    ensures forall s :: s in unused <==> s in secrets && !UsedByPods(s, pods)
    ensures DistinctIds(secrets) ==> DistinctIds(unused)
  {
    used, unused := [], [];
    for i := 0 to |secrets|
      invariant forall s :: s in used <==> s in secrets[..i] && UsedByPods(s, pods)
      invariant forall s :: s in unused <==> s in secrets[..i] && !UsedByPods(s, pods)
      invariant DistinctIds(secrets) ==> DistinctIds(unused)
    {
      if exists j :: 0 <= j < |pods| && secrets[i].Id() in pods[j] {
        used := used + [secrets[i]];
      } else {
        forall s | s in unused && DistinctIds(secrets) ensures s.Id() != secrets[i].Id() {
          var j :| 0 <= j < i && secrets[j] == s;
        }
        unused := unused + [secrets[i]];
      }
    }
  }

  function AsSet(objects: seq<Object>): set<Object> {
    set o | o in objects
  }

  ghost function Select(objects: set<Object>, appName: string): set<Object> {
    set o | o in objects && Selected(o, appName)
  }

  lemma SetOfSum(a: seq<Object>, b: seq<Object>)
    ensures AsSet(a + b) == AsSet(a) + AsSet(b)
  {
  }

  lemma SelectOneMore(objects: set<Object>, o: Object, appName: string)
    ensures Select(objects + {o}, appName) == Select(objects, appName) + if Selected(o, appName) then {o} else {}
  {
  }

  class Cleaner {
    const cluster: Server
    const workloads: Workloads
    /** The kinds that the client knows; objects of others are passed over. */
    const scheme: set<ObjectKind>
    const codec: TimeCodec

    constructor (cluster: Server, workloads: Workloads, scheme: set<ObjectKind>, codec: TimeCodec)
      ensures this.cluster == cluster && this.workloads == workloads && this.scheme == scheme && this.codec == codec
    {
      this.cluster, this.workloads, this.scheme, this.codec := cluster, workloads, scheme, codec;
    }

    /** An object of the cluster, in whatever namespace, with the label that is looked for, if there is one. */
    ghost predicate IsPossible(o: Object, scope: Scope)
      reads cluster`apps, workloads
    {
      && (|| (o.App? && o.app in cluster.apps.Values)
          || o in workloads.replicaSets || o in workloads.cronJobs || o in workloads.jobs)
      && (scope.OfApplication? && scope.name != "" ==> IsLabelled(o, scope.name))
    }

    lemma WhoIsPossible(scope: Scope)
      ensures forall o :: o in PossibleUsers(AppName(scope)) <==> IsPossible(o, scope)
    {
      assert forall o: Object, name :: HasLabel(o.Labels(), APP_LABEL, name) <==> IsLabelled(o, name);
    }

    /** Some object of a known kind that the pass looks at mounts a Secret of this name or asks for it. */
    ghost predicate IsWanted(name: string, scope: Scope)
      reads cluster`apps, workloads
    {
      exists o :: IsPossible(o, scope) && IsKnown(o, scheme) && RefersTo(o, name)
    }

    ghost predicate IsInPods(key: Key)
      reads workloads
    {
      exists i :: 0 <= i < |workloads.pods| && key in workloads.pods[i]
    }

    /** The pass has looked at every Secret that no pod has, and requests it if and only if nobody wants it and
        it is not protected. */
    ghost predicate Decides(requested: seq<Key>, secrets: seq<Secret>, times: Times, scope: Scope)
      reads cluster`apps, workloads
    {
      forall s :: s in secrets ==> var key := Key(s.namespace, s.name);
        && (!IsInPods(key) ==> key in times)
        && (key in requested <==>
            !IsInPods(key) && !IsWanted(s.name, scope) && !IsProtected(s.annotations, codec, times[key]))
    }

    lemma ExactlyDecides(requested: seq<Key>, secrets: seq<Secret>, times: Times, scope: Scope)
      requires Exactly(requested, secrets, times, workloads.pods, PossibleUsers(AppName(scope)), scheme, codec)
      ensures Decides(requested, secrets, times, scope)
    {
      hide IsProtected, IsPossible, IsKnown, RefersTo, ShouldDelete, PossibleUsers;
      WhoIsPossible(scope);
      forall s | s in secrets && s.Id() in times {
        WhatGoes(s, workloads.pods, PossibleUsers(AppName(scope)), scheme, codec, times[s.Id()]);
      }
    }

    ghost function PossibleUsers(appName: string): set<Object>
      reads cluster`apps, workloads
    {
      Select(
        AllObjects(cluster.apps) + AsSet(workloads.replicaSets) + AsSet(workloads.cronJobs) + AsSet(workloads.jobs),
        appName)
    }

    /** A failed deletion is an error, except when the Secret is already gone. */
    method DeleteSecret(secret: Secret) returns (e: Option<Error>)
      modifies cluster`store, cluster`deletions
      ensures cluster.deletions == old(cluster.deletions) + [secret.Id()]
      ensures cluster.store == old(cluster.store) || DeleteIn(old(cluster.store), secret.Id()) == Done(cluster.store)
      ensures e.None? ==> DeleteIn(old(cluster.store), secret.Id()) in {Done(cluster.store), Failed(Missing)}
      ensures cluster.reliable ==> e.None?
    {
      var failed := cluster.DeleteSecret(secret.Id());
      e := if failed.Some? && failed.value != Missing then Some(Plain(ClusterUnavailable)) else None;
    }

    /** A deletion is requested if and only if the Secret should be deleted. */
    method CleanUnusedSecret(secret: Secret, objects: seq<Object>) returns (e: Option<Error>, ghost now: Time)
      modifies cluster`store, cluster`deletions
      ensures ShouldDelete(secret, [], AsSet(objects), scheme, codec, now) ==>
        && cluster.deletions == old(cluster.deletions) + [secret.Id()]
        && (cluster.store == old(cluster.store) || DeleteIn(old(cluster.store), secret.Id()) == Done(cluster.store))
        && (e.None? ==> DeleteIn(old(cluster.store), secret.Id()) in {Done(cluster.store), Failed(Missing)})
      ensures !ShouldDelete(secret, [], AsSet(objects), scheme, codec, now) ==>
        cluster.deletions == old(cluster.deletions) && cluster.store == old(cluster.store) && e == None
      ensures cluster.reliable ==> e.None?
    {
      var time := Now();
      now := time;
      for i := 0 to |objects|
        invariant cluster.store == old(cluster.store) && cluster.deletions == old(cluster.deletions)
        invariant forall j :: 0 <= j < i && objects[j].Kind() in scheme ==> !Uses(objects[j], secret.name)
      {
        if objects[i].Kind() !in scheme {
          continue;
        }
        var used, failure := InUse(objects[i], secret.name);
        if used {
          assert objects[i] in AsSet(objects);
          return None, now;
        }
      }
      var a := secret.annotations;
      if HasProtected(a) {
        if HasTimeLimited(a) {
          var text := if EXPIRES_AT in a then a[EXPIRES_AT] else "";
          if |text| == 0 {
            return None, now;
          }
          var parsed := codec.parse(text);
          if parsed.None? {
            return None, now;
          }
          if Expired(time, parsed.value) {
            e := DeleteSecret(secret);
          } else {
            e := None;
          }
          return;
        }
        return None, now;
      }
      e := DeleteSecret(secret);
    }

    method ListSecrets(scope: Scope) returns (r: Result<seq<Secret>>)
      requires Sound(cluster.store)
      ensures r.Ok? ==> Lists(r.value, cluster.store.secrets, scope)
      ensures cluster.reliable ==> r.Ok?
    {
      var up := cluster.Up();
      if !up {
        return Err(Plain(ClusterUnavailable));
      }
      var rest: set<Key>, listing: seq<Secret> := cluster.store.secrets.Keys, [];
      while rest != {}
        invariant rest <= cluster.store.secrets.Keys
        invariant forall s :: s in listing <==>
          s.Id() in cluster.store.secrets.Keys - rest && cluster.store.secrets[s.Id()] == s && InScope(s, scope)
        invariant forall i, j :: 0 <= i < j < |listing| ==> listing[i] != listing[j]
      {
        var key :| key in rest;
        rest := rest - {key};
        if InScope(cluster.store.secrets[key], scope) {
          listing := listing + [cluster.store.secrets[key]];
        }
      }
      r := Ok(listing);
    }

    method ListApplications(appName: string) returns (r: Result<seq<Object>>)
      ensures r.Ok? ==> AsSet(r.value) == Select(AllObjects(cluster.apps), appName)
      ensures cluster.reliable ==> r.Ok?
    {
      var up := cluster.Up();
      if !up {
        return Err(Plain(ClusterUnavailable));
      }
      var rest: set<Key>, listing: seq<Object> := cluster.apps.Keys, [];
      while rest != {}
        invariant rest <= cluster.apps.Keys
        invariant AsSet(listing) == Select(AllObjects(cluster.apps - rest), appName)
      {
        var key :| key in rest;
        var app := App(cluster.apps[key]);
        OneMoreApplication(cluster.apps, rest, key);
        SelectOneMore(AllObjects(cluster.apps - rest), app, appName);
        rest := rest - {key};
        if Selected(app, appName) {
          SetOfSum(listing, [app]);
          listing := listing + [app];
        }
      }
      assert cluster.apps - rest == cluster.apps;
      r := Ok(listing);
    }

    method ListObjects(objects: seq<Object>, appName: string) returns (r: Result<seq<Object>>)
      ensures r.Ok? ==> AsSet(r.value) == Select(AsSet(objects), appName)
      ensures cluster.reliable ==> r.Ok?
    {
      var up := cluster.Up();
      if !up {
        return Err(Plain(ClusterUnavailable));
      }
      var listing: seq<Object> := [];
      for i := 0 to |objects|
        invariant AsSet(listing) == Select(AsSet(objects[..i]), appName)
      {
        assert objects[..i + 1] == objects[..i] + [objects[i]];
        SetOfSum(objects[..i], [objects[i]]);
        SelectOneMore(AsSet(objects[..i]), objects[i], appName);
        if Selected(objects[i], appName) {
          SetOfSum(listing, [objects[i]]);
          listing := listing + [objects[i]];
        }
      }
      assert objects[..|objects|] == objects;
      r := Ok(listing);
    }

    method CollectPossibleUsers(appName: string) returns (r: Result<seq<Object>>)
      ensures r.Ok? ==> AsSet(r.value) == PossibleUsers(appName)
      ensures cluster.reliable ==> r.Ok?
    {
      var apps := ListApplications(appName);
      if apps.Err? {
        return apps;
      }
      var replicaSets := ListObjects(workloads.replicaSets, appName);
      if replicaSets.Err? {
        return replicaSets;
      }
      var cronJobs := ListObjects(workloads.cronJobs, appName);
      if cronJobs.Err? {
        return cronJobs;
      }
      var jobs := ListObjects(workloads.jobs, appName);
      if jobs.Err? {
        return jobs;
      }
      SetOfSum(apps.value, replicaSets.value);
      SetOfSum(apps.value + replicaSets.value, cronJobs.value);
      SetOfSum(apps.value + replicaSets.value + cronJobs.value, jobs.value);
      r := Ok(apps.value + replicaSets.value + cronJobs.value + jobs.value);
    }

    /** Works through the Secrets that no pod uses, whatever becomes of the single deletions. */
    method CleanSecrets(secrets: seq<Secret>, objects: seq<Object>)
      returns (r: Result<nat>, ghost requested: seq<Key>, ghost times: Times)
      requires DistinctIds(secrets)
      modifies cluster`store, cluster`deletions
      ensures cluster.deletions == old(cluster.deletions) + requested
      ensures OnlyDeleted(old(cluster.store.secrets), requested, cluster.store.secrets)
      ensures r.Err? ==> requested == []
      ensures r.Ok? ==> Exactly(requested, secrets, times, workloads.pods, AsSet(objects), scheme, codec)
      ensures cluster.reliable ==> r.Ok? && AreGoing(requested, cluster.store.secrets)
    {
      hide AreGoing, DeleteIn;
      requested, times := [], map[];
      NothingDeleted(cluster.store.secrets);
      var up := cluster.Up();
      if !up {
        return Err(Plain(ClusterUnavailable)), requested, times;
      }
      var used, unused := ListUsedAndUnusedSecretsForPods(secrets, workloads.pods);
      for i := 0 to |unused|
        invariant cluster.deletions == old(cluster.deletions) + requested
        invariant OnlyDeleted(old(cluster.store.secrets), requested, cluster.store.secrets)
        invariant Exactly(requested, unused[..i], times, [], AsSet(objects), scheme, codec)
        invariant cluster.reliable ==> AreGoing(requested, cluster.store.secrets)
      {
        ghost var before, done := cluster.store, requested;
        var e, now := CleanUnusedSecret(unused[i], objects);
        if ShouldDelete(unused[i], [], AsSet(objects), scheme, codec, now) {
          OneMoreDeleted(old(cluster.store.secrets), requested, before, unused[i].Id(), cluster.store);
          if cluster.reliable {
            OneMoreGoing(requested, before, unused[i].Id(), cluster.store);
          }
          requested := requested + [unused[i].Id()];
        }
        OneMoreCleaned(done, unused, i, times, AsSet(objects), scheme, codec, now);
        times := times[unused[i].Id() := now];
      }
      assert unused[..|unused|] == unused;
      AllCleaned(requested, secrets, unused, times, workloads.pods, AsSet(objects), scheme, codec);
      r := Ok(|used|);
    }

    /** A pass over all Secrets of the operator, or over those of one application. */
    method Pass(scope: Scope)
      returns (e: Option<Error>, ghost requested: seq<Key>, ghost secrets: seq<Secret>, ghost times: Times)
      requires Sound(cluster.store)
      modifies cluster`store, cluster`deletions
      ensures cluster.deletions == old(cluster.deletions) + requested
      ensures OnlyDeleted(old(cluster.store.secrets), requested, cluster.store.secrets)
      ensures e.Some? ==> requested == []
      ensures e.None? ==> Lists(secrets, old(cluster.store.secrets), scope)
      ensures e.None? ==>
        Exactly(requested, secrets, times, workloads.pods, PossibleUsers(AppName(scope)), scheme, codec)
      ensures var users := PossibleUsers(AppName(scope));
        var pass := CleaningPass(requested, secrets, times, scope, workloads.pods, users, scheme);
        Cleans(old(cluster.store.secrets), pass, cluster.store.secrets, codec)
      ensures e.None? ==>
        LooksAt(secrets, old(cluster.store.secrets), scope) && Decides(requested, secrets, times, scope)
      ensures cluster.reliable ==> e.None? && AreGoing(requested, cluster.store.secrets)
    {
      hide Decides, LooksAt, AreGoing, Exactly, Lists, OnlyDeleted, PossibleUsers, InScope;
      NothingDeleted(cluster.store.secrets);
      requested, secrets, times := [], [], map[];
      var listing := ListSecrets(scope);
      if listing.Err? {
        e := Some(listing.error);
        return;
      }
      secrets := listing.value;
      var objects := CollectPossibleUsers(AppName(scope));
      if objects.Err? {
        e := Some(objects.error);
        return;
      }
      DistinctSecrets(secrets, cluster.store.secrets, scope);
      var inUse: Result<nat>;
      inUse, requested, times := CleanSecrets(listing.value, objects.value);
      e := if inUse.Err? then Some(inUse.error) else None;
      if e.None? {
        ListsIsLooksAt(secrets, old(cluster.store.secrets), scope);
        ExactlyDecides(requested, secrets, times, scope);
      }
    }
  }

  lemma DistinctSecrets(secrets: seq<Secret>, stored: Secrets, scope: Scope)
    requires Lists(secrets, stored, scope)
    ensures DistinctIds(secrets)
  {
  }

  lemma OneMoreCleaned(
    requested: seq<Key>, secrets: seq<Secret>, i: nat, times: Times, users: set<Object>, scheme: set<ObjectKind>,
    codec: TimeCodec, now: Time)
    requires i < |secrets| && DistinctIds(secrets)
    requires Exactly(requested, secrets[..i], times, [], users, scheme, codec)
    ensures var s := secrets[i];
      Exactly(
        if ShouldDelete(s, [], users, scheme, codec, now) then requested + [s.Id()] else requested,
        secrets[..i + 1], times[s.Id() := now], [], users, scheme, codec)
  {
    hide ShouldDelete, UsedByPods;
    var last := secrets[i];
    forall s | s in secrets[..i] ensures s.Id() != last.Id() {
      var j :| 0 <= j < i && secrets[j] == s;
    }
    assert secrets[..i + 1] == secrets[..i] + [last];
    assert last.Id() !in requested;
    assert forall s :: s in secrets[..i] ==> times[last.Id() := now].Keys * {s.Id()} == times.Keys * {s.Id()};
  }

  /** What pods use is not deleted whoever else uses it. */
  lemma AllCleaned(
    requested: seq<Key>, secrets: seq<Secret>, unused: seq<Secret>, times: Times, pods: seq<Pod>,
    users: set<Object>, scheme: set<ObjectKind>, codec: TimeCodec)
    requires DistinctIds(secrets)
    requires forall s :: s in unused <==> s in secrets && !UsedByPods(s, pods)
    requires Exactly(requested, unused, times, [], users, scheme, codec)
    ensures Exactly(requested, secrets, times, pods, users, scheme, codec)
  {
  }

  lemma OneMoreApplication(apps: map<Key, Application>, rest: set<Key>, key: Key)
    requires key in rest && rest <= apps.Keys
    ensures AllObjects(apps - (rest - {key})) == AllObjects(apps - rest) + {App(apps[key])}
  {
    var less, more := apps - rest, apps - (rest - {key});
    assert key in more;
    forall k | k in less ensures App(less[k]) in AllObjects(more) {
      assert k in more && more[k] == less[k];
    }
    forall k | k in more ensures App(more[k]) in AllObjects(less) + {App(apps[key])} {
      if k != key {
        assert k in less && less[k] == more[k];
      }
    }
  }

  ghost function AllObjects(apps: map<Key, Application>): set<Object> {
    set key | key in apps :: App(apps[key])
  }

  // Scopes

  /** The pass over all Secrets deletes a Secret of an application if and only if the pass for that
      application does and nobody without the application's label uses the Secret. */
  lemma ScopesDiffer(
    secret: Secret, pods: seq<Pod>, objects: set<Object>, appName: string, scheme: set<ObjectKind>, codec: TimeCodec,
    now: Time)
    ensures ShouldDelete(secret, pods, Select(objects, ""), scheme, codec, now) <==>
      && ShouldDelete(secret, pods, Select(objects, appName), scheme, codec, now)
      && !UsedByObjects(secret, objects - Select(objects, appName), scheme)
  {
  }

  /** On one state of the cluster, what the pass over everything asks for among the Secrets of an
      application, a pass for that application that looks no earlier asks for too. */
  lemma ScopeMonotonicity(
    all: seq<Key>, secrets: seq<Secret>, times: Times, some: seq<Key>, secrets': seq<Secret>, times': Times,
    stored: Secrets, scope: Scope, pods: seq<Pod>, objects: set<Object>, scheme: set<ObjectKind>, codec: TimeCodec)
    requires Lists(secrets, stored, Everything) && Lists(secrets', stored, scope)
    requires Exactly(all, secrets, times, pods, Select(objects, ""), scheme, codec)
    requires Exactly(some, secrets', times', pods, Select(objects, AppName(scope)), scheme, codec)
    requires forall key :: key in times && key in times' ==> times[key] <= times'[key]
    ensures forall key :: key in all && InScope(stored[key], scope) ==> key in some
  {
  }
}
