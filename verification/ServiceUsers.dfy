/** pkg/aiven/serviceuser/serviceuser.go: the cache in front of the list of service users. */
module ServiceUsers {
  import opened Wrappers
  import opened Common
  import opened Failures
  import opened Aiven

  const CACHE_EXPIRATION: Time := 5 * 60 * SECOND

  datatype Entry = Entry(user: User, expires: Time)

  type Cache = map<UserKey, Entry>
  type Users = map<UserKey, User>

  /** The cache library serves an entry until its expiry has passed. */
  predicate Live(c: Cache, key: UserKey, now: Time) {
    key in c && now <= c[key].expires
  }

  /** What one user lookup on the server would answer. */
  function Lookup(users: Users, key: UserKey): Result<User> {
    if key in users then Ok(users[key])
    else Err(AivenError(404, "not found"))
  }

  /** The cache after all users of a service were listed and stored. */
  function Listed(c: Cache, users: Users, project: string, service: string, now: Time): Cache {
    c + map k | k in users && InService(k, project, service) :: Entry(users[k], now + CACHE_EXPIRATION)
  }

  function Stored(c: Cache, listing: seq<User>, project: string, service: string, now: Time): Cache {
    if listing == [] then c
    else
      var user := listing[|listing| - 1];
      Stored(c, listing[..|listing| - 1], project, service, now)
        [UserKey(project, service, user.name) := Entry(user, now + CACHE_EXPIRATION)]
  }

  ghost predicate GetEffect(c: Cache, users: Users, key: UserKey, now: Time, r: Result<User>, c': Cache) {
    if Live(c, key, now) then r == Ok(c[key].user) && c' == c
    else
      || (r.Err? && c' == c)
      || (r == Lookup(users, key) && c' == Listed(c, users, key.project, key.service, now))
  }

  ghost predicate ObserveEffect(c: Cache, users: Users, project: string, service: string, now: Time, c': Cache) {
    c' == c || c' == Listed(c, users, project, service, now)
  }

  ghost predicate CreateEffect(
    c: Cache, users: Users, key: UserKey, access: AccessControl, now: Time, r: Result<User>, c': Cache, users': Users)
  {
    if r.Err? then c' == c && users' == users
    else
      && key !in users && r.value == User(key.user, access) && users' == users[key := r.value]
      && ObserveEffect(c, users', key.project, key.service, now, c')
  }

  ghost predicate UpdateEffect(
    c: Cache, users: Users, key: UserKey, access: AccessControl, now: Time, r: Result<User>, c': Cache, users': Users)
  {
    if r.Err? then c' == c && users' == users
    else
      && key in users && r.value == User(key.user, access) && users' == users[key := r.value]
      && c' == c[key := Entry(r.value, now + CACHE_EXPIRATION)]
  }

  ghost predicate DeleteEffect(
    c: Cache, users: Users, key: UserKey, now: Time, e: Option<Error>, c': Cache, users': Users)
  {
    if e.Some? then c' == c && users' == users && (IsNotFound(e.value) ==> key !in users)
    else
      && key in users && users' == users - {key}
      && ObserveEffect(c - {key}, users', key.project, key.service, now, c')
  }

  /** All users of the service are cached for five minutes, and nobody else's entry has changed. */
  ghost predicate AreCached(before: Cache, users: Users, project: string, service: string, now: Time, after: Cache) {
    && (forall k :: k in users && k.project == project && k.service == service ==>
      k in after && after[k].user == users[k] && after[k].expires == now + 300 * 1_000_000_000)
    && (forall k :: !(k in users && k.project == project && k.service == service) ==>
      (k in after <==> k in before) && (k in before ==> after[k] == before[k]))
  }

  lemma ListedAreCached(c: Cache, users: Users, project: string, service: string, now: Time)
    ensures AreCached(c, users, project, service, now, Listed(c, users, project, service, now))
  {
  }

  /** Every entry, expired or not, is what the server holds. */
  ghost predicate Coherent(c: Cache, users: Users) {
    forall k :: k in c ==> k in users && users[k] == c[k].user
  }

  /** Users may have gone, but none beside `named`, and the rest is as it was. */
  ghost predicate OnlyRemoved(named: set<UserKey>, before: Users, after: Users) {
    && after.Keys <= before.Keys && before.Keys - after.Keys <= named
    && forall k :: k in after ==> after[k] == before[k]
  }

  /** Nothing changed but users among `keys`. */
  ghost predicate OnlyWithin(keys: set<UserKey>, before: Users, after: Users) {
    before - keys == after - keys
  }

  ghost predicate OnlyAt(key: UserKey, before: Users, after: Users) {
    OnlyWithin({key}, before, after)
  }

  lemma WithinMore(few: set<UserKey>, many: set<UserKey>, start: Users, before: Users, after: Users)
    requires OnlyWithin(many, start, before) && OnlyWithin(few, before, after) && few <= many
    ensures OnlyWithin(many, start, after)
  {
    forall key | key !in many ensures key in start <==> key in after {
      assert key in start - many <==> key in before - many;
      assert key in before - few <==> key in after - few;
    }
    forall key | key in start - many ensures (start - many)[key] == (after - many)[key] {
      assert (start - many)[key] == (before - many)[key];
      assert (before - few)[key] == (after - few)[key];
    }
  }

  lemma NoneRemoved(named: set<UserKey>, users: Users)
    ensures OnlyRemoved(named, users, users)
  {
  }

  lemma OneMoreRemoved(named: set<UserKey>, start: Users, before: Users, key: UserKey)
    requires OnlyRemoved(named, start, before) && key in named
    ensures OnlyRemoved(named, start, before - {key})
  {
  }

  class Manager {
    const api: Api
    var cache: Cache

    ghost predicate Valid()
      reads this`cache, api`users
    {
      && api.Valid()
      && forall k :: k in cache ==> cache[k].user.name == k.user
    }

    ghost predicate IsCoherent()
      reads this`cache, api`users
    {
      Coherent(cache, api.users)
    }

    constructor (api: Api)
      requires api.Valid()
      ensures this.api == api && cache == map[] && Valid()
    {
      this.api := api;
      cache := map[];
    }

    method Store(listing: seq<User>, project: string, service: string, now: Time)
      requires Valid() && IsListing(listing, api.users, project, service)
      modifies this`cache
      ensures Valid()
      ensures cache == Listed(old(cache), api.users, project, service, now)
    {
      for i := 0 to |listing|
        invariant cache == Stored(old(cache), listing[..i], project, service, now)
      {
        assert listing[..i + 1][..i] == listing[..i];
        cache := cache[UserKey(project, service, listing[i].name) := Entry(listing[i], now + CACHE_EXPIRATION)];
      }
      assert listing[..|listing|] == listing;
      StoredListing(old(cache), listing, api.users, project, service, now);
    }

    method Get(key: UserKey, now: Time) returns (r: Result<User>)
      requires Valid()
      modifies this`cache
      ensures Valid()
      ensures r.Ok? ==> r.value.name == key.user
      ensures GetEffect(old(cache), api.users, key, now, r, cache)
      ensures api.reliable && !(key in old(cache) && now <= old(cache)[key].expires) ==>
        AreCached(old(cache), api.users, key.project, key.service, now, cache)
      ensures api.reliable && r.Err? ==> r == Err(AivenError(404, "not found")) && key !in api.users
      ensures old(IsCoherent()) ==> IsCoherent() && (r.Ok? ==> key in api.users && api.users[key] == r.value)
    {
      hide AreCached;
      ListedAreCached(cache, api.users, key.project, key.service, now);
      if Live(cache, key, now) {
        return Ok(cache[key].user);
      }
      var listing := api.ListUsers(key.project, key.service);
      if listing.Err? {
        return Err(listing.error);
      }
      var found: Option<User> := None;
      for i := 0 to |listing.value|
        invariant cache == Stored(old(cache), listing.value[..i], key.project, key.service, now)
        invariant found.Some? ==> found.value in listing.value && found.value.name == key.user
        invariant found.None? ==> forall u :: u in listing.value[..i] ==> u.name != key.user
      {
        var u := listing.value[i];
        assert listing.value[..i + 1][..i] == listing.value[..i];
        cache := cache[UserKey(key.project, key.service, u.name) := Entry(u, now + CACHE_EXPIRATION)];
        if u.name == key.user {
          found := Some(u);
        }
      }
      assert listing.value[..|listing.value|] == listing.value;
      StoredListing(old(cache), listing.value, api.users, key.project, key.service, now);
      FoundIsLookup(listing.value, api.users, key, found);
      ListedIsSound(old(cache), api.users, key.project, key.service, now);
      if found.None? {
        return Err(AivenError(404, "not found"));
      }
      r := Ok(found.value);
    }

    method ObserveServiceUsersCount(project: string, service: string, now: Time)
      requires Valid()
      modifies this`cache
      ensures Valid()
      ensures ObserveEffect(old(cache), api.users, project, service, now, cache)
      ensures api.reliable ==> AreCached(old(cache), api.users, project, service, now, cache)
    {
      hide AreCached;
      ListedAreCached(cache, api.users, project, service, now);
      var listing := api.ListUsers(project, service);
      if listing.Ok? {
        Store(listing.value, project, service, now);
      }
    }

    method Create(key: UserKey, access: AccessControl, now: Time) returns (r: Result<User>)
      requires Valid()
      modifies this`cache, api`users
      ensures Valid()
      ensures CreateEffect(old(cache), old(api.users), key, access, now, r, cache, api.users)
      ensures api.reliable ==> (r.Ok? <==> key !in old(api.users))
      ensures api.reliable && r.Ok? ==>
        AreCached(old(cache), api.users, key.project, key.service, now, cache)
      ensures r.Ok? ==> r.value == User(key.user, access) && api.users == old(api.users)[key := r.value]
      ensures r.Err? ==> api.users == old(api.users)
      ensures old(IsCoherent()) ==> IsCoherent()
    {
      r := api.CreateUser(key, access);
      if r.Ok? {
        ObserveServiceUsersCount(key.project, key.service, now);
      }
    }

    method Update(key: UserKey, access: AccessControl, now: Time) returns (r: Result<User>)
      requires Valid()
      modifies this`cache, api`users
      ensures Valid()
      ensures UpdateEffect(old(cache), old(api.users), key, access, now, r, cache, api.users)
      ensures api.reliable ==> (r.Ok? <==> key in old(api.users))
      ensures r.Ok? ==> key in cache && cache[key] == Entry(r.value, now + 300 * 1_000_000_000)
      ensures r.Ok? ==> r.value == User(key.user, access) && api.users == old(api.users)[key := r.value]
      ensures r.Err? ==> api.users == old(api.users)
      ensures old(IsCoherent()) ==> IsCoherent()
    {
      r := api.UpdateUser(key, access);
      if r.Ok? {
        cache := cache[UserKey(key.project, key.service, r.value.name) := Entry(r.value, now + CACHE_EXPIRATION)];
      }
    }

    method Delete(key: UserKey, now: Time) returns (e: Option<Error>)
      requires Valid()
      modifies this`cache, api`users, api`deletions
      ensures Valid()
      ensures api.deletions == old(api.deletions) + [key]
      ensures e.Some? ==> Remote(e.value)
      ensures api.users == old(api.users) || api.users == old(api.users) - {key}
      ensures e.None? || IsNotFound(e.value) ==> key !in api.users
      ensures DeleteEffect(old(cache), old(api.users), key, now, e, cache, api.users)
      ensures api.reliable && e.Some? ==> e == Some(AivenError(404, "not found"))
      ensures api.reliable && e.None? ==>
        AreCached(old(cache) - {key}, api.users, key.project, key.service, now, cache)
      ensures old(IsCoherent()) ==> IsCoherent()
    {
      e := api.DeleteUser(key);
      if e.None? {
        cache := cache - {key};
        ObserveServiceUsersCount(key.project, key.service, now);
      }
    }
  }

  lemma FoundIsLookup(listing: seq<User>, users: Users, key: UserKey, found: Option<User>)
    requires IsListing(listing, users, key.project, key.service)
    requires forall k :: k in users ==> users[k].name == k.user
    requires found.Some? ==> found.value in listing && found.value.name == key.user
    requires found.None? ==> forall u :: u in listing ==> u.name != key.user
    ensures Lookup(users, key).Ok? <==> found.Some?
    ensures found.Some? ==> Lookup(users, key) == Ok(found.value)
  {
  }

  lemma ListedIsSound(c: Cache, users: Users, project: string, service: string, now: Time)
    requires forall k :: k in users ==> users[k].name == k.user
    ensures var listed := Listed(c, users, project, service, now);
      && ((forall k :: k in c ==> c[k].user.name == k.user) ==>
          forall k :: k in listed ==> listed[k].user.name == k.user)
      && (Coherent(c, users) ==> Coherent(listed, users))
  {
  }

  lemma {:induction false} StoredEntries(
    c: Cache, listing: seq<User>, users: Users, project: string, service: string, now: Time)
    requires forall u :: u in listing ==>
      UserKey(project, service, u.name) in users && users[UserKey(project, service, u.name)] == u
    ensures var stored := Stored(c, listing, project, service, now);
      && (forall k :: k in stored <==> k in c || exists u :: u in listing && k == UserKey(project, service, u.name))
      && (forall u :: u in listing ==>
        stored[UserKey(project, service, u.name)] == Entry(u, now + CACHE_EXPIRATION))
      && (forall k :: k in c && (forall u :: u in listing ==> k != UserKey(project, service, u.name)) ==>
        stored[k] == c[k])
  {
    if listing != [] {
      var shorter, last := listing[..|listing| - 1], listing[|listing| - 1];
      StoredEntries(c, shorter, users, project, service, now);
      assert listing == shorter + [last];
    }
  }

  /** Storing a listing in its order is storing the service's users in any order. */
  lemma StoredListing(c: Cache, listing: seq<User>, users: Users, project: string, service: string, now: Time)
    requires IsListing(listing, users, project, service)
    requires forall k :: k in users ==> users[k].name == k.user
    ensures Stored(c, listing, project, service, now) == Listed(c, users, project, service, now)
  {
    StoredEntries(c, listing, users, project, service, now);
    var stored, listed := Stored(c, listing, project, service, now), Listed(c, users, project, service, now);
    forall k
      ensures k in stored <==> k in listed
      ensures k in stored ==> stored[k] == listed[k]
    {
      if k in users && InService(k, project, service) {
        assert users[k] in listing && k == UserKey(project, service, users[k].name);
      }
    }
  }
}
