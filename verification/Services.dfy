/** pkg/aiven/service/service.go: addresses of a service and the cache in front of them. */
module Services {
  import opened Wrappers
  import opened Common
  import opened Text
  import opened Aiven

  const SERVICE_ADDRESS_CACHE_TTL: Time := 5 * 60 * SECOND

  datatype Address = Address(uri: string, host: string, port: int)

  const NO_ADDRESS := Address("", "", 0)

  datatype Addresses = Addresses(
    kafka: Address,
    schemaRegistry: Address,
    openSearch: Address,
    openSearchDashboard: Address,
    valkey: Address,
    valkeyReplica: Address,
    expires: Time)

  type Cache = map<ServiceKey, Addresses>

  predicate Matches(c: Component, needle: string, usage: string) {
    c.component == needle && c.usage == usage
  }

  /** The first component of the wanted kind and usage. */
  function FindComponent(needle: string, usage: string, haystack: seq<Component>): (found: Option<Component>)
    ensures found.None? <==> forall c :: c in haystack ==> !Matches(c, needle, usage)
    ensures found.Some? ==> IsFirstMatch(found.value, needle, usage, haystack)
  {
    if haystack == [] then None
    else if Matches(haystack[0], needle, usage) then Some(haystack[0])
    else
      var found := FindComponent(needle, usage, haystack[1..]);
      assert found.Some? ==> IsFirstMatch(found.value, needle, usage, haystack) by {
        if found.Some? {
          var i :| 0 <= i < |haystack[1..]| && haystack[1..][i] == found.value
            && forall j :: 0 <= j < i ==> !Matches(haystack[1..][j], needle, usage);
          assert haystack[i + 1] == found.value;
          assert forall j :: 1 <= j < i + 1 ==> haystack[j] == haystack[1..][j - 1];
        }
      }
      found
  }

  ghost predicate IsFirstMatch(c: Component, needle: string, usage: string, haystack: seq<Component>) {
    && Matches(c, needle, usage)
    && exists i :: 0 <= i < |haystack| && haystack[i] == c
         && forall j :: 0 <= j < i ==> !Matches(haystack[j], needle, usage)
  }

  /** An address has a URI exactly when the service has such a component. */
  function ServiceAddress(service: seq<Component>, component: string, scheme: string, usage: string): (a: Address)
    ensures a.uri == "" <==> FindComponent(component, usage, service).None?
  {
    match FindComponent(component, usage, service)
    case None => NO_ADDRESS
    case Some(c) =>
      var authority := c.host + ":" + Itoa(c.port);
      Address(if scheme == "" then authority else scheme + "://" + authority, c.host, c.port)
  }

  function AddressesOf(service: seq<Component>, now: Time): Addresses {
    Addresses(
      ServiceAddress(service, "kafka", "", "primary"),
      ServiceAddress(service, "schema_registry", "https", "primary"),
      ServiceAddress(service, "opensearch", "https", "primary"),
      ServiceAddress(service, "opensearch_dashboards", "https", "primary"),
      ServiceAddress(service, "valkey", "valkeys", "primary"),
      ServiceAddress(service, "valkey", "valkeys", "replica"),
      now + SERVICE_ADDRESS_CACHE_TTL)
  }

  ghost predicate IsFirst(service: seq<Component>, i: nat, component: string, usage: string) {
    && i < |service| && service[i].component == component && service[i].usage == usage
    && forall j :: 0 <= j < i ==> !(service[j].component == component && service[j].usage == usage)
  }

  ghost predicate HasComponent(service: seq<Component>, component: string, usage: string) {
    exists c :: c in service && c.component == component && c.usage == usage
  }

  /** The address is that of the first component of this name and usage, or none if there is no such one. */
  ghost predicate IsAddress(a: Address, service: seq<Component>, component: string, scheme: string, usage: string) {
    && (!HasComponent(service, component, usage) ==> a == Address("", "", 0))
    && (HasComponent(service, component, usage) ==>
      exists i: nat :: IsFirst(service, i, component, usage) && IsAddressOf(a, service[i], scheme))
  }

  predicate IsAddressOf(a: Address, c: Component, scheme: string) {
    && a.host == c.host && a.port == c.port
    && a.uri == (if scheme == "" then "" else scheme + "://") + (c.host + ":" + Itoa(c.port))
  }

  lemma AddressIs(service: seq<Component>, component: string, scheme: string, usage: string)
    ensures IsAddress(ServiceAddress(service, component, scheme, usage), service, component, scheme, usage)
  {
    var found := FindComponent(component, usage, service);
    if found.Some? {
      var i :| 0 <= i < |service| && service[i] == found.value
        && forall j :: 0 <= j < i ==> !Matches(service[j], component, usage);
      assert Matches(service[i], component, usage);
      assert forall j :: 0 <= j < i ==> (Matches(service[j], component, usage) <==>
        service[j].component == component && service[j].usage == usage);
      assert IsFirst(service, i, component, usage);
      var authority := found.value.host + ":" + Itoa(found.value.port);
      assert "" + authority == authority;
    }
  }

  /** The six addresses of a service, and when they expire. */
  lemma AddressesAre(service: seq<Component>, now: Time)
    ensures var a := AddressesOf(service, now);
      && IsAddress(a.kafka, service, "kafka", "", "primary")
      && IsAddress(a.schemaRegistry, service, "schema_registry", "https", "primary")
      && IsAddress(a.openSearch, service, "opensearch", "https", "primary")
      && IsAddress(a.openSearchDashboard, service, "opensearch_dashboards", "https", "primary")
      && IsAddress(a.valkey, service, "valkey", "valkeys", "primary")
      && IsAddress(a.valkeyReplica, service, "valkey", "valkeys", "replica")
      && a.expires == now + 300 * 1_000_000_000
  {
    hide ServiceAddress, IsAddress;
    AddressIs(service, "kafka", "", "primary");
    AddressIs(service, "schema_registry", "https", "primary");
    AddressIs(service, "opensearch", "https", "primary");
    AddressIs(service, "opensearch_dashboards", "https", "primary");
    AddressIs(service, "valkey", "valkeys", "primary");
    AddressIs(service, "valkey", "valkeys", "replica");
  }

  /** Whether a service can be used is told by the URI. */
  lemma UriTells(service: seq<Component>, now: Time)
    ensures AddressesOf(service, now).openSearch.uri == "" <==> !HasComponent(service, "opensearch", "primary")
    ensures AddressesOf(service, now).valkey.uri == "" <==> !HasComponent(service, "valkey", "primary")
  {
    hide ServiceAddress;
    AddressesAre(service, now);
    AddressWithUri(AddressesOf(service, now).openSearch, service, "opensearch", "https", "primary");
    AddressWithUri(AddressesOf(service, now).valkey, service, "valkey", "valkeys", "primary");
  }

  lemma AddressWithUri(a: Address, service: seq<Component>, component: string, scheme: string, usage: string)
    requires IsAddress(a, service, component, scheme, usage)
    ensures a.uri == "" <==> !HasComponent(service, component, usage)
  {
    if HasComponent(service, component, usage) {
      var i: nat :| IsFirst(service, i, component, usage) && IsAddressOf(a, service[i], scheme);
      assert |a.uri| >= |service[i].host + ":" + Itoa(service[i].port)| >= 1;
    }
  }

  /** Served from the cache unless its expiry lies strictly before now. */
  predicate Live(c: Cache, key: ServiceKey, now: Time) {
    key in c && !(c[key].expires < now)
  }

  /** A fetch at `fetched`, read back at `read`: on success the answer is the fetched one. */
  ghost predicate FetchEffect(
    c: Cache, services: map<ServiceKey, seq<Component>>, key: ServiceKey, fetched: Time, read: Time,
    r: Result<Addresses>, c': Cache)
  {
    || (r.Err? && c' == c)
    || (key in services && c' == c[key := AddressesOf(services[key], fetched)]
        && r == if Live(c', key, read) then Ok(c'[key]) else Err(Plain(AddressesExpired)))
  }

  class Manager {
    const api: Api
    var cache: Cache

    constructor (api: Api)
      ensures this.api == api && cache == map[]
    {
      this.api := api;
      cache := map[];
    }

    method Get(key: ServiceKey, now: Time) returns (r: Result<seq<Component>>)
      modifies this`cache
      ensures r.Err? ==> cache == old(cache)
      ensures r.Ok? ==> key in api.components && r.value == api.components[key]
      ensures r.Ok? ==> cache == old(cache)[key := AddressesOf(r.value, now)]
      ensures api.reliable && key in api.components ==> r.Ok?
      ensures api.reliable && key !in api.components ==> r == Err(AivenError(404, "not found"))
    {
      r := api.GetService(key);
      if r.Ok? {
        cache := cache[key := AddressesOf(r.value, now)];
      }
    }

    method FromCache(key: ServiceKey, now: Time) returns (r: Result<Addresses>)
      ensures r.Ok? <==> Live(cache, key, now)
      ensures r.Ok? ==> r.value == cache[key]
      ensures r.Err? && key in cache ==> r.error == Plain(AddressesExpired)
    {
      if key !in cache {
        return Err(Plain(AddressesNotCached));
      }
      if cache[key].expires < now {
        return Err(Plain(AddressesExpired));
      }
      r := Ok(cache[key]);
    }

    /** Success reflects the fetch just made, whatever the cache held before. */
    method GetServiceAddresses(key: ServiceKey, fetched: Time, read: Time) returns (r: Result<Addresses>)
      modifies this`cache
      ensures FetchEffect(old(cache), api.components, key, fetched, read, r, cache)
      ensures r.Ok? ==> key in api.components && r.value == AddressesOf(api.components[key], fetched)
      ensures r.Ok? ==> read - fetched <= 300 * 1_000_000_000
      ensures api.reliable && key in api.components && read - fetched <= 300 * 1_000_000_000 ==> r.Ok?
      ensures api.reliable && key !in api.components ==> r == Err(AivenError(404, "not found"))
    {
      var service := Get(key, fetched);
      if service.Err? {
        return Err(service.error);
      }
      r := FromCache(key, read);
    }

    method GetServiceAddressesFromCache(key: ServiceKey, now: Time, fetched: Time, read: Time)
      returns (r: Result<Addresses>)
      modifies this`cache
      ensures Live(old(cache), key, now) ==> r == Ok(old(cache)[key]) && cache == old(cache)
      ensures !Live(old(cache), key, now) ==> FetchEffect(old(cache), api.components, key, fetched, read, r, cache)
      ensures api.reliable && key in api.components && read - fetched <= 300 * 1_000_000_000 ==> r.Ok?
      ensures api.reliable && r.Err? && key !in api.components ==> r == Err(AivenError(404, "not found"))
    {
      r := FromCache(key, now);
      if r.Err? {
        r := GetServiceAddresses(key, fetched, read);
      }
    }
  }

  datatype State = State(services: map<ServiceKey, seq<Component>>, cache: Cache, now: Time)

  datatype Step =
    | Fetch(key: ServiceKey, addresses: Result<Addresses>)
    | Serve(key: ServiceKey, addresses: Result<Addresses>)
    | Tick
    | OutsideWrite

  ghost predicate Next(s: State, step: Step, s': State) {
    && (if step.Tick? then s.now <= s'.now else s'.now == s.now)
    && (step.OutsideWrite? || s'.services == s.services)
    && match step
       case Fetch(key, r) => FetchEffect(s.cache, s.services, key, s.now, s.now, r, s'.cache)
       case Serve(key, r) =>
         if Live(s.cache, key, s.now) then r == Ok(s.cache[key]) && s'.cache == s.cache
         else FetchEffect(s.cache, s.services, key, s.now, s.now, r, s'.cache)
       case _ => s'.cache == s.cache
  }

  ghost predicate Run(states: seq<State>, steps: seq<Step>) {
    && |states| == |steps| + 1
    && forall i :: 0 <= i < |steps| ==> Next(states[i], steps[i], states[i + 1])
  }

  ghost predicate FetchedAt(states: seq<State>, j: nat, key: ServiceKey, a: Addresses)
    requires j < |states|
  {
    key in states[j].services && a == AddressesOf(states[j].services[key], states[j].now)
  }

  lemma {:induction false} EntriesWereFetched(states: seq<State>, steps: seq<Step>, i: nat)
    requires Run(states, steps) && i <= |steps| && states[0].cache == map[]
    ensures forall k :: k in states[i].cache ==> exists j :: 0 <= j <= i && FetchedAt(states, j, k, states[i].cache[k])
  {
    hide AddressesOf;
    if i > 0 {
      EntriesWereFetched(states, steps, i - 1);
      var s, s' := states[i - 1], states[i];
      assert Next(s, steps[i - 1], s');
      forall k | k in s'.cache
        ensures exists j :: 0 <= j <= i && FetchedAt(states, j, k, s'.cache[k])
      {
        if k in s.cache && s'.cache[k] == s.cache[k] {
          var j :| 0 <= j <= i - 1 && FetchedAt(states, j, k, s.cache[k]);
        } else {
          assert FetchedAt(states, i - 1, k, s'.cache[k]);
        }
      }
    }
  }

  ghost predicate FetchedRecently(states: seq<State>, i: nat, key: ServiceKey, a: Addresses)
    requires i < |states|
  {
    exists j :: 0 <= j <= i && FetchedAt(states, j, key, a)
      && states[i].now - states[j].now <= 300 * 1_000_000_000
  }

  /** Addresses that are served, cached or not, were the server's own at most five minutes ago. */
  lemma BoundedStaleness(states: seq<State>, steps: seq<Step>, i: nat)
    requires Run(states, steps) && i < |steps| && states[0].cache == map[]
    requires (steps[i].Fetch? || steps[i].Serve?) && steps[i].addresses.Ok?
    ensures FetchedRecently(states, i, steps[i].key, steps[i].addresses.value)
  {
    hide ServiceAddress;
    EntriesWereFetched(states, steps, i);
    assert Next(states[i], steps[i], states[i + 1]);
    var key, a := steps[i].key, steps[i].addresses.value;
    if steps[i].Serve? && Live(states[i].cache, key, states[i].now) {
      var j :| 0 <= j <= i && FetchedAt(states, j, key, states[i].cache[key]);
    } else {
      assert FetchedAt(states, i, key, a);
    }
  }

  lemma {:induction false} StaysFetched(states: seq<State>, steps: seq<Step>, j: nat, i: nat, key: ServiceKey)
    requires Run(states, steps) && j < i <= |steps| && key in states[j + 1].cache
    requires states[i].now <= states[j + 1].cache[key].expires
    requires forall m :: j < m < i && steps[m].Fetch? ==> steps[m].key != key
    ensures key in states[i].cache && states[i].cache[key] == states[j + 1].cache[key]
  {
    hide AddressesOf;
    if i > j + 1 {
      assert Next(states[i - 1], steps[i - 1], states[i]);
      StaysFetched(states, steps, j, i - 1, key);
    }
  }

  /** For five minutes after a fetch, and until the next, addresses are served without one. */
  lemma ServedForFiveMinutes(states: seq<State>, steps: seq<Step>, j: nat, i: nat)
    requires Run(states, steps) && j < i < |steps| && steps[j].Fetch? && steps[j].addresses.Ok?
    requires forall m :: j < m < i && steps[m].Fetch? ==> steps[m].key != steps[j].key
    requires steps[i].Serve? && steps[i].key == steps[j].key
    requires states[i].now - states[j].now <= 300 * 1_000_000_000
    ensures steps[i].addresses == steps[j].addresses && states[i + 1].cache == states[i].cache
  {
    hide ServiceAddress;
    assert Next(states[j], steps[j], states[j + 1]);
    StaysFetched(states, steps, j, i, steps[j].key);
    assert Next(states[i], steps[i], states[i + 1]);
  }
}
