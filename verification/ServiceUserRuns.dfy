/** Runs of one service-user Manager: any sequence of its calls, clock ticks and outside writes. */
module ServiceUserRuns {
  import opened Wrappers
  import opened Common
  import opened Aiven
  import opened ServiceUsers

  datatype State = State(users: Users, cache: Cache, now: Time)

  datatype Step =
    | Get(key: UserKey, found: Result<User>)
    | Observe(project: string, service: string)
    | Create(key: UserKey, access: AccessControl, created: Result<User>)
    | Update(key: UserKey, access: AccessControl, updated: Result<User>)
    | Delete(key: UserKey, failure: Option<Error>)
    | Tick
    | OutsideWrite

  ghost predicate Next(s: State, step: Step, s': State) {
    && (if step.Tick? then s.now <= s'.now else s'.now == s.now)
    && match step
       case Get(key, r) => s'.users == s.users && GetEffect(s.cache, s.users, key, s.now, r, s'.cache)
       case Observe(p, v) => s'.users == s.users && ObserveEffect(s.cache, s.users, p, v, s.now, s'.cache)
       case Create(key, a, r) => CreateEffect(s.cache, s.users, key, a, s.now, r, s'.cache, s'.users)
       case Update(key, a, r) => UpdateEffect(s.cache, s.users, key, a, s.now, r, s'.cache, s'.users)
       case Delete(key, e) => DeleteEffect(s.cache, s.users, key, s.now, e, s'.cache, s'.users)
       case Tick => s'.users == s.users && s'.cache == s.cache
       case OutsideWrite => s'.cache == s.cache
  }

  ghost predicate Run(states: seq<State>, steps: seq<Step>) {
    && |states| == |steps| + 1
    && forall i :: 0 <= i < |steps| ==> Next(states[i], steps[i], states[i + 1])
  }

  /** The outside writer left every user that the cache has seen as it was. New users are harmless. */
  ghost predicate SparesCached(s: State, s': State) {
    forall k :: k in s.cache && k in s.users ==> k in s'.users && s'.users[k] == s.users[k]
  }

  lemma StepKeepsCoherence(s: State, step: Step, s': State)
    requires Coherent(s.cache, s.users) && Next(s, step, s')
    ensures !step.OutsideWrite? ==> Coherent(s'.cache, s'.users)
    ensures step.OutsideWrite? ==> (Coherent(s'.cache, s'.users) <==> SparesCached(s, s'))
  {
  }

  lemma {:induction false} RunKeepsCoherence(states: seq<State>, steps: seq<Step>, i: nat)
    requires Run(states, steps) && i <= |steps|
    requires Coherent(states[0].cache, states[0].users)
    requires forall j :: 0 <= j < |steps| && steps[j].OutsideWrite? ==> SparesCached(states[j], states[j + 1])
    ensures Coherent(states[i].cache, states[i].users)
  {
    if i > 0 {
      RunKeepsCoherence(states, steps, i - 1);
      StepKeepsCoherence(states[i - 1], steps[i - 1], states[i]);
    }
  }

  /** In every run whose outside writers spare the cached users, a Get answers what a fresh lookup
      on the server would answer, 404 included, unless it missed and the listing itself failed. */
  lemma GetAgreesWithServer(states: seq<State>, steps: seq<Step>, i: nat)
    requires Run(states, steps) && i < |steps| && steps[i].Get?
    requires Coherent(states[0].cache, states[0].users)
    requires forall j :: 0 <= j < |steps| && steps[j].OutsideWrite? ==> SparesCached(states[j], states[j + 1])
    ensures
      || steps[i].found == Lookup(states[i].users, steps[i].key)
      || (steps[i].found.Err? && !Live(states[i].cache, steps[i].key, states[i].now))
  {
    RunKeepsCoherence(states, steps, i);
    assert Next(states[i], steps[i], states[i + 1]);
  }

  /** The user an entry holds was on the server at state `j` and expires five minutes after it. */
  ghost predicate SeenAt(states: seq<State>, j: nat, key: UserKey, entry: Entry)
    requires j < |states|
  {
    && key in states[j].users && states[j].users[key] == entry.user
    && entry.expires == states[j].now + 300 * 1_000_000_000
  }

  ghost predicate EntriesSeen(states: seq<State>, i: nat)
    requires i < |states|
  {
    forall k :: k in states[i].cache ==> exists j :: 0 <= j <= i && SeenAt(states, j, k, states[i].cache[k])
  }

  lemma {:induction false} EntriesWereSeen(states: seq<State>, steps: seq<Step>, i: nat)
    requires Run(states, steps) && i <= |steps|
    requires states[0].cache == map[]
    ensures EntriesSeen(states, i)
  {
    if i > 0 {
      EntriesWereSeen(states, steps, i - 1);
      var s, s' := states[i - 1], states[i];
      assert Next(s, steps[i - 1], s');
      forall k | k in s'.cache
        ensures exists j :: 0 <= j <= i && SeenAt(states, j, k, s'.cache[k])
      {
        if k in s.cache && s'.cache[k] == s.cache[k] {
          var j :| 0 <= j <= i - 1 && SeenAt(states, j, k, s.cache[k]);
        } else {
          assert SeenAt(states, i, k, s'.cache[k]);
        }
      }
    }
  }

  ghost predicate OnServerRecently(states: seq<State>, i: nat, key: UserKey, user: User)
    requires i < |states|
  {
    exists j :: 0 <= j <= i && key in states[j].users && states[j].users[key] == user
      && states[i].now - states[j].now <= 300 * 1_000_000_000
  }

  /** Whatever outside writers do, a user served by Get was on the server at most five minutes ago. */
  lemma BoundedStaleness(states: seq<State>, steps: seq<Step>, i: nat)
    requires Run(states, steps) && i < |steps| && steps[i].Get? && steps[i].found.Ok?
    requires states[0].cache == map[]
    ensures OnServerRecently(states, i, steps[i].key, steps[i].found.value)
  {
    EntriesWereSeen(states, steps, i);
    var key := steps[i].key;
    assert Next(states[i], steps[i], states[i + 1]);
    if Live(states[i].cache, key, states[i].now) {
      var j :| 0 <= j <= i && SeenAt(states, j, key, states[i].cache[key]);
    } else {
      assert states[i].now - states[i].now <= 300 * 1_000_000_000;
    }
  }

  // The other side

  /** A step after which what is cached for a user must still be cached: it neither lists the user's service
      again nor concerns a user of it, but for reads of that user. */
  predicate LeavesAlone(step: Step, key: UserKey) {
    match step
    case Get(k, _) => k == key || !InService(k, key.project, key.service)
    case Observe(project, service) => !InService(key, project, service)
    case Create(k, _, _) => !InService(k, key.project, key.service)
    case Update(k, _, _) => !InService(k, key.project, key.service)
    case Delete(k, _) => !InService(k, key.project, key.service)
    case Tick => true
    case OutsideWrite => true
  }

  /** A listing at `j`, for a user who was not cached, has cached every user of the service. */
  lemma ListingCaches(states: seq<State>, steps: seq<Step>, j: nat, key: UserKey)
    requires Run(states, steps) && j < |steps| && steps[j].Get? && steps[j].found.Ok?
    requires steps[j].key !in states[j].cache && InService(key, steps[j].key.project, steps[j].key.service)
    requires key in states[j].users
    ensures key in states[j + 1].cache
    ensures states[j + 1].cache[key] == Entry(states[j].users[key], states[j].now + 300 * 1_000_000_000)
  {
    assert Next(states[j], steps[j], states[j + 1]);
  }

  lemma {:induction false} StaysCached(states: seq<State>, steps: seq<Step>, j: nat, i: nat, key: UserKey)
    requires Run(states, steps) && j < i <= |steps| && key in states[j + 1].cache
    requires states[i].now <= states[j + 1].cache[key].expires
    requires forall m :: j < m < i ==> LeavesAlone(steps[m], key)
    ensures key in states[i].cache && states[i].cache[key] == states[j + 1].cache[key]
  {
    if i > j + 1 {
      assert Next(states[i - 1], steps[i - 1], states[i]);
      StaysCached(states, steps, j, i - 1, key);
    }
  }

  /** For five minutes after such a listing its users are served without another one. */
  lemma ServedForFiveMinutes(states: seq<State>, steps: seq<Step>, j: nat, i: nat, key: UserKey)
    requires Run(states, steps) && j < i < |steps| && steps[j].Get? && steps[j].found.Ok?
    requires steps[j].key !in states[j].cache && InService(key, steps[j].key.project, steps[j].key.service)
    requires key in states[j].users && forall m :: j < m < i ==> LeavesAlone(steps[m], key)
    requires steps[i].Get? && steps[i].key == key && states[i].now - states[j].now <= 300 * 1_000_000_000
    ensures steps[i].found == Ok(states[j].users[key]) && states[i + 1].cache == states[i].cache
  {
    ListingCaches(states, steps, j, key);
    StaysCached(states, steps, j, i, key);
    assert Next(states[i], steps[i], states[i + 1]);
  }
}
