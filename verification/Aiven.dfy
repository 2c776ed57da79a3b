/** The Aiven API as the operator sees it: every call is atomic, may fail without effect, and may
    report any error when it does. A reliable API fails no call for reasons of its own, so that what
    is said about it is said about runs without faults. */
module Aiven {
  import opened Wrappers
  import opened Failures
  import opened Common

  datatype ServiceKey = ServiceKey(project: string, service: string)
  datatype UserKey = UserKey(project: string, service: string, user: string)

  datatype AccessControl = AccessControl(
    categories: seq<string>, commands: seq<string>, keys: seq<string>, channels: seq<string>)

  /** The zero value, which a request without access control leaves in place. */
  const NO_ACCESS_CONTROL := AccessControl([], [], [], [])

  datatype User = User(name: string, access: AccessControl)

  datatype Rule = Rule(index: string, permission: string)
  datatype Acl = Acl(user: string, rules: seq<Rule>)

  datatype Component = Component(component: string, usage: string, host: string, port: int)

  const CONNECTION_LOST := Plain(ConnectionLost)

  /** What a call to Aiven can fail with: an answer of the API, or none. */
  predicate Remote(e: Error) {
    e.AivenError? || e == CONNECTION_LOST
  }

  predicate InService(k: UserKey, project: string, service: string) {
    k.project == project && k.service == service
  }

  /** `listing` holds the users of one service, in whatever order. */
  ghost predicate IsListing(listing: seq<User>, users: map<UserKey, User>, project: string, service: string) {
    && (forall u :: u in listing ==>
      UserKey(project, service, u.name) in users && users[UserKey(project, service, u.name)] == u)
    && (forall k :: k in users && InService(k, project, service) ==> users[k] in listing)
  }

  class Api {
    const reliable: bool
    var users: map<UserKey, User>
    var acls: map<ServiceKey, seq<Acl>>
    var components: map<ServiceKey, seq<Component>>
    /** Every DeleteUser request, in order, whatever came of it. */
    ghost var deletions: seq<UserKey>

    constructor (reliable: bool)
      ensures Valid() && deletions == [] && users == map[] && this.reliable == reliable
    {
      this.reliable := reliable;
      users, acls, components := map[], map[], map[];
      deletions := [];
    }

    ghost predicate Valid()
      reads this`users
    {
      forall k :: k in users ==> users[k].name == k.user
    }

    method ListUsers(project: string, service: string) returns (r: Result<seq<User>>)
      requires Valid()
      ensures r.Ok? ==> IsListing(r.value, users, project, service)
      ensures reliable ==> r.Ok?
    {
      var fault := Outage();
      if fault.Some? {
        return Err(fault.value);
      }
      var rest: set<UserKey>, listing: seq<User> := users.Keys, [];
      while rest != {}
        invariant rest <= users.Keys
        invariant forall u :: u in listing ==>
          UserKey(project, service, u.name) in users && users[UserKey(project, service, u.name)] == u
        invariant forall k :: k in users && k !in rest && InService(k, project, service) ==> users[k] in listing
      {
        var k :| k in rest;
        rest := rest - {k};
        if InService(k, project, service) {
          listing := listing + [users[k]];
        }
      }
      r := Ok(listing);
    }

    method CreateUser(key: UserKey, access: AccessControl) returns (r: Result<User>)
      requires Valid()
      modifies this`users
      ensures Valid()
      ensures r.Err? ==> users == old(users)
      ensures reliable ==> (r.Ok? <==> key !in old(users))
      ensures r.Ok? ==> key !in old(users) && r.value == User(key.user, access) && users == old(users)[key := r.value]
    {
      var fault := Outage();
      if fault.Some? {
        return Err(fault.value);
      }
      if key in users {
        return Err(AivenError(409, "exists"));
      }
      users := users[key := User(key.user, access)];
      r := Ok(users[key]);
    }

    method UpdateUser(key: UserKey, access: AccessControl) returns (r: Result<User>)
      requires Valid()
      modifies this`users
      ensures Valid()
      ensures r.Err? ==> users == old(users)
      ensures reliable ==> (r.Ok? <==> key in old(users))
      ensures r.Ok? ==> key in old(users) && r.value == User(key.user, access) && users == old(users)[key := r.value]
    {
      var fault := Outage();
      if fault.Some? {
        return Err(fault.value);
      }
      if key !in users {
        return Err(AivenError(404, "not found"));
      }
      users := users[key := users[key].(access := access)];
      r := Ok(users[key]);
    }

    /** Only an absent user makes a deletion report 404. */
    method DeleteUser(key: UserKey) returns (e: Option<Error>)
      requires Valid()
      modifies this`users, this`deletions
      ensures Valid()
      ensures deletions == old(deletions) + [key]
      ensures e.Some? ==> users == old(users) && Remote(e.value) && (IsNotFound(e.value) ==> key !in users)
      ensures e.None? ==> key in old(users) && users == old(users) - {key}
      ensures reliable && e.Some? ==> e == Some(AivenError(404, "not found")) && key !in users
    {
      deletions := deletions + [key];
      if key !in users {
        return Some(AivenError(404, "not found"));
      }
      var fault := Outage();
      if fault.Some? {
        e := Some(if IsNotFound(fault.value) then CONNECTION_LOST else fault.value);
        return;
      }
      users := users - {key};
      e := None;
    }

    method GetAcls(key: ServiceKey) returns (r: Result<seq<Acl>>)
      ensures r.Ok? ==> r.value == if key in acls then acls[key] else []
      ensures reliable ==> r.Ok?
    {
      var fault := Outage();
      if fault.Some? {
        return Err(fault.value);
      }
      r := Ok(if key in acls then acls[key] else []);
    }

    method UpdateAcls(key: ServiceKey, config: seq<Acl>) returns (e: Option<Error>)
      modifies this`acls
      ensures e.Some? ==> acls == old(acls)
      ensures e.None? ==> acls == old(acls)[key := config]
      ensures reliable ==> e.None?
    {
      e := Outage();
      if e.None? {
        acls := acls[key := config];
      }
    }

    method GetService(key: ServiceKey) returns (r: Result<seq<Component>>)
      ensures r.Ok? ==> key in components && r.value == components[key]
      ensures reliable && key in components ==> r.Ok?
      ensures reliable && key !in components ==> r == Err(AivenError(404, "not found"))
    {
      var fault := Outage();
      if fault.Some? {
        return Err(fault.value);
      }
      r := if key in components then Ok(components[key]) else Err(AivenError(404, "not found"));
    }

    method GetCA(project: string) returns (e: Option<Error>)
      ensures reliable ==> e.None?
    {
      e := Outage();
    }

    /** Whether a call fails, and with which error, is up to the environment. */
    method Outage() returns (fault: Option<Error>)
      ensures fault.Some? ==> Remote(fault.value)
      ensures reliable ==> fault.None?
    {
      if reliable {
        return None;
      } else if * {
        var status: int := *;
        return Some(AivenError(status, ""));
      } else if * {
        return Some(CONNECTION_LOST);
      }
      fault := None;
    }

    /** The clock after a call that began at `asked`; a reliable answer comes within a minute. */
    method Answered(asked: Time) returns (now: Time)
      ensures reliable ==> 0 <= now - asked <= 60_000_000_000
    {
      now := Now();
      if reliable && !(0 <= now - asked <= 60_000_000_000) {
        now := asked;
      }
    }
  }
}
