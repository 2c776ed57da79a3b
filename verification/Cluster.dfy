/** The Kubernetes API server: versioned Secrets with finalizers, applications and the resources of
    Aiven services. Every call is atomic and may fail without effect. */
module Cluster {
  import opened Wrappers
  import opened Resources

  datatype ApiError = Missing | AlreadyExists | Conflict | Forbidden | Unavailable

  datatype ApiResult<+T> = Done(value: T) | Failed(error: ApiError)

  type Secrets = map<Key, Secret>

  /** `revision` is the newest resource version handed out. */
  datatype Store = Store(secrets: Secrets, revision: nat)

  /** Secrets are stored under their own names, with versions that the server handed out. */
  ghost predicate Sound(store: Store) {
    forall key :: key in store.secrets ==>
      store.secrets[key].Id() == key && store.secrets[key].version <= store.revision
  }

  function CreateIn(s: Store, secret: Secret): ApiResult<Store> {
    if secret.Id() in s.secrets then Failed(AlreadyExists)
    else
      var stored := secret.(version := s.revision + 1, terminating := false);
      Done(Store(s.secrets[secret.Id() := stored], s.revision + 1))
  }

  /** Compare-and-swap on the resource version. An update cannot take back a deletion or add a
      finalizer during one, and taking away the last finalizer completes it. */
  function UpdateIn(s: Store, secret: Secret): ApiResult<Store> {
    if secret.Id() !in s.secrets then Failed(Missing)
    else
      var current := s.secrets[secret.Id()];
      if current.version != secret.version then Failed(Conflict)
      else if current.terminating && exists f :: f in secret.finalizers && f !in current.finalizers then
        Failed(Forbidden)
      else if current.terminating && secret.finalizers == [] then
        Done(Store(s.secrets - {secret.Id()}, s.revision + 1))
      else
        var stored := secret.(version := s.revision + 1, terminating := current.terminating);
        Done(Store(s.secrets[secret.Id() := stored], s.revision + 1))
  }

  /** A Secret with finalizers is only marked; without them it goes at once. */
  function DeleteIn(s: Store, key: Key): ApiResult<Store> {
    if key !in s.secrets then Failed(Missing)
    else if s.secrets[key].finalizers == [] then Done(Store(s.secrets - {key}, s.revision + 1))
    else if s.secrets[key].terminating then Done(s)
    else
      var marked := s.secrets[key].(version := s.revision + 1, terminating := true);
      Done(Store(s.secrets[key := marked], s.revision + 1))
  }

  /** The kinds of Aiven service resources, whose state an instance check reads. */
  datatype Kind = OpenSearchKind | ValkeyKind
  datatype ResourceKey = ResourceKey(kind: Kind, key: Key)

  /** The state that each resource reports. */
  type Instances = map<ResourceKey, string>

  const READY_STATE := "RUNNING"

  class Server {
    /** A reliable server fails no call for reasons of its own. */
    const reliable: bool
    var store: Store
    var apps: map<Key, Application>
    var resources: Instances
    /** The keys of all deletion requests for Secrets, in order, whatever came of them. */
    ghost var deletions: seq<Key>

    constructor (store: Store, apps: map<Key, Application>, resources: Instances, reliable: bool)
      ensures this.store == store && this.apps == apps && this.resources == resources && deletions == []
      ensures this.reliable == reliable
    {
      this.reliable := reliable;
      this.store, this.apps, this.resources := store, apps, resources;
      deletions := [];
    }

    method GetSecret(key: Key) returns (r: ApiResult<Secret>)
      ensures r.Done? ==> key in store.secrets && r.value == store.secrets[key]
      ensures r.Failed? ==> (r.error == Missing && key !in store.secrets) || (r.error == Unavailable && !reliable)
    {
      var up := Up();
      r :=
        if !up then Failed(Unavailable)
        else if key in store.secrets then Done(store.secrets[key])
        else Failed(Missing);
    }

    method CreateSecret(secret: Secret) returns (e: Option<ApiError>)
      modifies this`store
      ensures e.None? ==> CreateIn(old(store), secret) == Done(store)
      ensures reliable ==> (e.None? <==> CreateIn(old(store), secret).Done?)
      ensures e.Some? ==> store == old(store)
    {
      var up := Up();
      var r := CreateIn(store, secret);
      if up && r.Done? {
        store := r.value;
        return None;
      }
      e := Some(if r.Failed? then r.error else Unavailable);
    }

    method UpdateSecret(secret: Secret) returns (e: Option<ApiError>)
      modifies this`store
      ensures e.None? ==> UpdateIn(old(store), secret) == Done(store)
      ensures reliable ==> (e.None? <==> UpdateIn(old(store), secret).Done?)
      ensures e.Some? ==> store == old(store)
    {
      var up := Up();
      var r := UpdateIn(store, secret);
      if up && r.Done? {
        store := r.value;
        return None;
      }
      e := Some(if r.Failed? then r.error else Unavailable);
    }

    method DeleteSecret(key: Key) returns (e: Option<ApiError>)
      modifies this`store, this`deletions
      ensures deletions == old(deletions) + [key]
      ensures e.None? ==> DeleteIn(old(store), key) == Done(store)
      ensures reliable && e.Some? ==> DeleteIn(old(store), key) == Failed(e.value)
      ensures e.Some? ==> store == old(store) && (e == Some(Missing) ==> key !in store.secrets)
    {
      deletions := deletions + [key];
      var up := Up();
      var r := DeleteIn(store, key);
      if up && r.Done? {
        store := r.value;
        return None;
      }
      e := Some(if r.Failed? then r.error else Unavailable);
    }

    method GetApplication(key: Key) returns (r: ApiResult<Application>)
      ensures r.Done? ==> key in apps && r.value == apps[key]
      ensures r.Failed? ==> (r.error == Missing && key !in apps) || (r.error == Unavailable && !reliable)
    {
      var up := Up();
      r := if !up then Failed(Unavailable) else if key in apps then Done(apps[key]) else Failed(Missing);
    }

    method DeleteApplication(key: Key) returns (e: Option<ApiError>)
      modifies this`apps
      ensures e.None? ==> key in old(apps) && apps == old(apps) - {key}
      ensures e.Some? ==> apps == old(apps)
      ensures e.Some? ==> (e.value == Missing && key !in apps) || (e.value == Unavailable && !reliable)
    {
      var up := Up();
      if !up {
        return Some(Unavailable);
      }
      if key !in apps {
        return Some(Missing);
      }
      apps := apps - {key};
      e := None;
    }

    /** The status subresource: nothing but the status of the stored object changes. */
    method UpdateStatus(key: Key, status: Status) returns (e: Option<ApiError>)
      modifies this`apps
      ensures e.None? ==> key in old(apps) && apps == old(apps)[key := old(apps)[key].(status := status)]
      ensures e.Some? ==> apps == old(apps)
      ensures reliable ==> (e.None? <==> key in old(apps))
    {
      var up := Up();
      if !up {
        return Some(Unavailable);
      }
      if key !in apps {
        return Some(Missing);
      }
      apps := apps[key := apps[key].(status := status)];
      e := None;
    }

    /** pkg/utils/instance_validation.go: only a RUNNING resource of the namespace is found. */
    method GetResourceInNamespace(kind: Kind, name: string, namespace: string) returns (r: Result<string>)
      ensures r.Ok? ==> IsRunning(kind, name, namespace)
      ensures reliable ==> (r.Ok? <==> IsRunning(kind, name, namespace))
      ensures reliable ==> r != Err(Wrapped(LookupFailed, Plain(ClusterUnavailable)))
      ensures r.Err? ==> r.error in {
        Wrapped(NotFoundInNamespace, NotFound),
        Wrapped(NotRunning, NotReady),
        Wrapped(LookupFailed, Plain(ClusterUnavailable))}
      ensures r == Err(Wrapped(NotFoundInNamespace, NotFound)) ==>
        ResourceKey(kind, Key(namespace, name)) !in resources
      ensures r == Err(Wrapped(NotRunning, NotReady)) ==>
        ResourceKey(kind, Key(namespace, name)) in resources && !IsRunning(kind, name, namespace)
    {
      var up := Up();
      var key := ResourceKey(kind, Key(namespace, name));
      if !up {
        return Err(Wrapped(LookupFailed, Plain(ClusterUnavailable)));
      }
      if key !in resources {
        return Err(Wrapped(NotFoundInNamespace, NotFound));
      }
      if resources[key] != READY_STATE {
        return Err(Wrapped(NotRunning, NotReady));
      }
      r := Ok(resources[key]);
    }

    ghost predicate IsRunning(kind: Kind, name: string, namespace: string)
      reads this`resources
    {
      var key := ResourceKey(kind, Key(namespace, name));
      key in resources && resources[key] == "RUNNING"
    }

    method Up() returns (up: bool)
      ensures reliable ==> up
    {
      up := *;
      if reliable {
        up := true;
      }
    }
  }
}
