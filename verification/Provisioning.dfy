/** What provideServiceUser of the Kafka and the OpenSearch handler have in common: an existing user
    is taken as it is, a missing one is created without access control. */
module Provisioning {
  import opened Wrappers
  import opened Common
  import opened Resources
  import opened Failures
  import opened Aiven
  import ServiceUsers

  /** A user without access control may have been added, and nothing else changed. */
  predicate MayProvide(before: ServiceUsers.Users, key: UserKey, after: ServiceUsers.Users) {
    after == before || (key !in before && after == before[key := User(key.user, NO_ACCESS_CONTROL)])
  }

  /** Providing a user, and taking it back at most, concerns nobody else; once it is taken back it is gone
      even if it was there before. */
  lemma TakenBack(before: ServiceUsers.Users, key: UserKey, provided: ServiceUsers.Users, after: ServiceUsers.Users)
    requires MayProvide(before, key, provided) && (after == provided || after == provided - {key})
    ensures ServiceUsers.OnlyAt(key, before, after)
    ensures key !in after ==> after == before - {key}
  {
    assert provided - {key} == before - {key};
    assert (provided - {key}) - {key} == provided - {key};
    if key !in after {
      assert after - {key} == after;
    }
  }

  method GetOrCreate(users: ServiceUsers.Manager, ref: ApplicationRef, key: UserKey) returns (r: Result<User>)
    requires users.Valid()
    modifies ref, users`cache, users.api`users
    ensures users.Valid()
    ensures old(users.IsCoherent()) ==> users.IsCoherent() && (r.Ok? ==> key in users.api.users)
    ensures OnlyConditions(old(ref.app), ref.app)
    ensures r.Ok? ==> ref.app == old(ref.app) && r.value.name == key.user
    ensures MayProvide(old(users.api.users), key, users.api.users)
    ensures r.Err? ==> users.api.users == old(users.api.users) && r.error.Wrapped?
    ensures users.api.reliable ==> r.Ok?
    ensures key !in old(users.api.users) && key in users.api.users ==>
      users.api.users[key] == User(key.user, AccessControl([], [], [], []))
  {
    var now := Now();
    r := users.Get(key, now);
    if r.Ok? {
      return;
    }
    if !IsNotFound(r.error) {
      var failure := AivenFail(Operation.GetServiceUser, ref, r.error, false);
      return Err(failure);
    }
    now := Now();
    r := users.Create(key, NO_ACCESS_CONTROL, now);
    if r.Err? {
      var failure := AivenFail(Operation.CreateServiceUser, ref, r.error, false);
      return Err(failure);
    }
  }
}
