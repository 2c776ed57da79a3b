/** The annotations through which Apply tells a later Cleanup which Aiven users belong to a Secret:
    what each handler writes, what each handler reads back, and that the two agree. */
module Annotations {
  import opened Text
  import opened Resources
  import opened Aiven

  const KAFKA_SERVICE_USER := "kafka.aiven.nais.io/serviceUser"
  const KAFKA_POOL := "kafka.aiven.nais.io/pool"
  const OPENSEARCH_SERVICE_USER := "opensearch.aiven.nais.io/serviceUser"
  const OPENSEARCH_SERVICE_NAME := "opensearch.aiven.nais.io/serviceName"
  const OPENSEARCH_PROJECT := "opensearch.aiven.nais.io/project"
  const VALKEY_SERVICE_USER := "valkey.aiven.nais.io/serviceUser"
  const VALKEY_SERVICE_NAME := "valkey.aiven.nais.io/serviceName"
  const VALKEY_PROJECT := "valkey.aiven.nais.io/project"

  type Annotations = map<string, string>

  /** MergeStringMap: the second map wins. */
  function Merge(src: Annotations, dst: Annotations): Annotations {
    src + dst
  }

  // What Apply writes

  function KafkaAnnotations(base: Annotations, user: string, pool: string): Annotations {
    Merge(base, map[KAFKA_SERVICE_USER := user, KAFKA_POOL := pool])
  }

  function OpenSearchAnnotations(base: Annotations, user: UserKey): Annotations {
    Merge(base, map[
      OPENSEARCH_SERVICE_USER := user.user,
      OPENSEARCH_SERVICE_NAME := user.service,
      OPENSEARCH_PROJECT := user.project])
  }

  /** namePattern.ReplaceAllString: whatever is not a lower-case letter or a digit is replaced. */
  function KeyName(instance: string, replacement: string): string {
    if instance == [] then []
    else (if IsLowerAlphanumeric(instance[0]) then [instance[0]] else replacement) + KeyName(instance[1..], replacement)
  }

  function ValkeyServiceUserKey(instance: string): string {
    KeyName(instance, "-") + "." + VALKEY_SERVICE_USER
  }

  function ValkeyServiceNameKey(instance: string): string {
    KeyName(instance, "-") + "." + VALKEY_SERVICE_NAME
  }

  function ValkeyAnnotations(base: Annotations, instance: string, user: UserKey): Annotations {
    Merge(base, map[
      ValkeyServiceUserKey(instance) := user.user,
      ValkeyServiceNameKey(instance) := user.service,
      VALKEY_PROJECT := user.project])
  }

  // What Cleanup reads

  datatype Target = Nothing | Broken | Named(user: UserKey)

  /** `pools` resolves a Kafka pool to its service. */
  function KafkaTarget(a: Annotations, pools: map<string, string>): Target {
    if KAFKA_SERVICE_USER !in a then Nothing
    else if KAFKA_POOL !in a || a[KAFKA_POOL] !in pools then Broken
    else Named(UserKey(a[KAFKA_POOL], pools[a[KAFKA_POOL]], a[KAFKA_SERVICE_USER]))
  }

  function OpenSearchTarget(a: Annotations): Target {
    if OPENSEARCH_SERVICE_NAME !in a then Nothing
    else if OPENSEARCH_SERVICE_USER !in a || OPENSEARCH_PROJECT !in a then Broken
    else Named(UserKey(a[OPENSEARCH_PROJECT], a[OPENSEARCH_SERVICE_NAME], a[OPENSEARCH_SERVICE_USER]))
  }

  function ValkeyServiceUserKeyFor(serviceNameKey: string): string {
    Split(serviceNameKey, '.')[0] + "." + VALKEY_SERVICE_USER
  }

  predicate IsValkeyPair(a: Annotations, key: string) {
    key in a && HasSuffix(key, VALKEY_SERVICE_NAME) && ValkeyServiceUserKeyFor(key) in a
  }

  /** The service-name keys of every prefix that has both annotations. */
  function ValkeyPairs(a: Annotations): set<string> {
    set key | key in a && IsValkeyPair(a, key)
  }

  function ValkeyUser(a: Annotations, key: string): UserKey
    requires IsValkeyPair(a, key) && VALKEY_PROJECT in a
  {
    UserKey(a[VALKEY_PROJECT], a[key], a[ValkeyServiceUserKeyFor(key)])
  }

  // What is written and read, key by key

  predicate Maps(m: map<string, string>, key: string, value: string) {
    key in m && m[key] == value
  }

  ghost predicate SameBut(before: map<string, string>, after: map<string, string>, keys: set<string>) {
    forall k :: k !in keys ==> (k in after <==> k in before) && (k in before ==> after[k] == before[k])
  }

  lemma TwoMerged(before: map<string, string>, k: seq<string>, v: seq<string>)
    requires |k| == |v| == 2 && k[0] != k[1]
    ensures var m := Merge(before, map[k[0] := v[0], k[1] := v[1]]);
      && Maps(m, k[0], v[0]) && Maps(m, k[1], v[1]) && SameBut(before, m, {k[0], k[1]})
  {
  }

  lemma KafkaWrites(base: Annotations, user: string, pool: string)
    ensures var a := KafkaAnnotations(base, user, pool);
      && Maps(a, "kafka.aiven.nais.io/serviceUser", user) && Maps(a, "kafka.aiven.nais.io/pool", pool)
      && SameBut(base, a, {"kafka.aiven.nais.io/serviceUser", "kafka.aiven.nais.io/pool"})
  {
    hide Maps, SameBut, Merge;
    assert |KAFKA_SERVICE_USER| == 31 && |KAFKA_POOL| == 24;
    TwoMerged(base, [KAFKA_SERVICE_USER, KAFKA_POOL], [user, pool]);
  }

  lemma ThreeMerged(before: map<string, string>, k: seq<string>, v: seq<string>)
    requires |k| == |v| == 3 && k[0] != k[1] && k[0] != k[2] && k[1] != k[2]
    ensures var m := Merge(before, map[k[0] := v[0], k[1] := v[1], k[2] := v[2]]);
      && Maps(m, k[0], v[0]) && Maps(m, k[1], v[1]) && Maps(m, k[2], v[2]) && SameBut(before, m, {k[0], k[1], k[2]})
  {
  }

  lemma OpenSearchWrites(base: Annotations, user: UserKey)
    ensures var a := OpenSearchAnnotations(base, user);
      && Maps(a, "opensearch.aiven.nais.io/serviceUser", user.user)
      && Maps(a, "opensearch.aiven.nais.io/serviceName", user.service)
      && Maps(a, "opensearch.aiven.nais.io/project", user.project)
      && SameBut(base, a, {
        "opensearch.aiven.nais.io/serviceUser", "opensearch.aiven.nais.io/serviceName",
        "opensearch.aiven.nais.io/project"})
  {
    hide Maps, SameBut, Merge;
    assert OPENSEARCH_SERVICE_USER[32] == 'U' && OPENSEARCH_SERVICE_NAME[32] == 'N' && |OPENSEARCH_PROJECT| == 32;
    ThreeMerged(base, [OPENSEARCH_SERVICE_USER, OPENSEARCH_SERVICE_NAME, OPENSEARCH_PROJECT],
      [user.user, user.service, user.project]);
  }

  /** The instance as it goes into a key: all but lower-case letters and digits is a dash. */
  ghost predicate IsKeyName(name: string, instance: string) {
    |name| == |instance|
    && forall i :: 0 <= i < |name| ==>
      name[i] == if 'a' <= instance[i] <= 'z' || '0' <= instance[i] <= '9' then instance[i] else '-'
  }

  lemma {:induction false} KeyNameIs(instance: string)
    ensures IsKeyName(KeyName(instance, "-"), instance)
  {
    if instance != [] {
      KeyNameIs(instance[1..]);
    }
  }

  lemma Dotted(head: string, tail: string, dotted: string)
    requires "." + tail == dotted
    ensures head + "." + tail == head + dotted
  {
  }

  lemma DottedKeys()
    ensures "." + VALKEY_SERVICE_USER == ".valkey.aiven.nais.io/serviceUser"
    ensures "." + VALKEY_SERVICE_NAME == ".valkey.aiven.nais.io/serviceName"
  {
  }

  lemma IsItsKeyName(instance: string, name: string)
    requires IsKeyName(name, instance)
    ensures name == KeyName(instance, "-")
  {
    hide KeyName;
    KeyNameIs(instance);
  }

  lemma ValkeyKeysAre(instance: string, name: string)
    requires IsKeyName(name, instance)
    ensures ValkeyServiceUserKey(instance) == name + ".valkey.aiven.nais.io/serviceUser"
    ensures ValkeyServiceNameKey(instance) == name + ".valkey.aiven.nais.io/serviceName"
    ensures VALKEY_PROJECT == "valkey.aiven.nais.io/project"
  {
    hide KeyName, IsKeyName;
    IsItsKeyName(instance, name);
    DottedKeys();
    Dotted(name, VALKEY_SERVICE_USER, ".valkey.aiven.nais.io/serviceUser");
    Dotted(name, VALKEY_SERVICE_NAME, ".valkey.aiven.nais.io/serviceName");
  }

  lemma ValkeyWrites(base: Annotations, instance: string, name: string, user: UserKey)
    requires IsKeyName(name, instance)
    ensures var a := ValkeyAnnotations(base, instance, user);
      && Maps(a, name + ".valkey.aiven.nais.io/serviceUser", user.user)
      && Maps(a, name + ".valkey.aiven.nais.io/serviceName", user.service)
      && Maps(a, "valkey.aiven.nais.io/project", user.project)
      && SameBut(base, a, {
        name + ".valkey.aiven.nais.io/serviceUser", name + ".valkey.aiven.nais.io/serviceName",
        "valkey.aiven.nais.io/project"})
  {
    hide HasSuffix, Maps, SameBut, Merge, KeyName, ValkeyServiceUserKey, ValkeyServiceNameKey;
    ValkeyKeysAre(instance, name);
    ValkeyKeysAreApart(instance);
    var k := [ValkeyServiceUserKey(instance), ValkeyServiceNameKey(instance), VALKEY_PROJECT];
    ThreeMerged(base, k, [user.user, user.service, user.project]);
  }

  ghost predicate KafkaNames(a: Annotations, pools: map<string, string>, user: UserKey) {
    && Maps(a, "kafka.aiven.nais.io/serviceUser", user.user) && Maps(a, "kafka.aiven.nais.io/pool", user.project)
    && Maps(pools, user.project, user.service)
  }

  ghost predicate OpenSearchNames(a: Annotations, user: UserKey) {
    && Maps(a, "opensearch.aiven.nais.io/project", user.project)
    && Maps(a, "opensearch.aiven.nais.io/serviceName", user.service)
    && Maps(a, "opensearch.aiven.nais.io/serviceUser", user.user)
  }

  ghost predicate ValkeyNames(a: Annotations, user: UserKey) {
    Maps(a, "valkey.aiven.nais.io/project", user.project) && exists key, head :: IsPair(a, key, head, user)
  }

  /** A service name and a user name whose keys begin alike, up to the first dot. */
  ghost predicate IsPair(a: Annotations, key: string, head: string, user: UserKey) {
    && '.' !in head && head <= key && (head == key || key[|head|] == '.')
    && HasSuffix(key, "valkey.aiven.nais.io/serviceName") && Maps(a, key, user.service)
    && Maps(a, head + ".valkey.aiven.nais.io/serviceUser", user.user)
  }

  lemma {:induction false} SplitFirst(key: string)
    ensures var head := Split(key, '.')[0]; '.' !in head && head <= key && (head == key || key[|head|] == '.')
  {
    if key != [] && key[0] != '.' {
      SplitFirst(key[1..]);
    }
  }

  lemma FirstIsUnique(key: string, head: string, other: string)
    requires '.' !in head && head <= key && (head == key || key[|head|] == '.')
    requires '.' !in other && other <= key && (other == key || key[|other|] == '.')
    ensures head == other
  {
    assert forall i :: 0 <= i < |head| ==> head[i] == key[i];
    assert forall i :: 0 <= i < |other| ==> other[i] == key[i];
  }

  lemma ValkeyPairsAre(a: Annotations, user: UserKey)
    ensures user in ValkeyUsers(a) <==> ValkeyNames(a, user)
  {
    hide Split, HasSuffix;
    assert forall head: string :: head + "." + VALKEY_SERVICE_USER == head + ".valkey.aiven.nais.io/serviceUser";
    if user in ValkeyUsers(a) {
      var key :| key in ValkeyPairs(a) && user == ValkeyUser(a, key);
      SplitFirst(key);
      assert IsPair(a, key, Split(key, '.')[0], user);
    }
    if ValkeyNames(a, user) {
      var key, head :| IsPair(a, key, head, user);
      SplitFirst(key);
      FirstIsUnique(key, head, Split(key, '.')[0]);
      assert key in ValkeyPairs(a);
    }
  }

  /** Whom each handler reads out of annotations, and what it takes for damaged ones. */
  lemma TargetsAre(a: Annotations, pools: map<string, string>)
    ensures forall user :: KafkaTarget(a, pools) == Named(user) <==> KafkaNames(a, pools, user)
    ensures KafkaTarget(a, pools).Nothing? <==> "kafka.aiven.nais.io/serviceUser" !in a
    ensures forall user :: OpenSearchTarget(a) == Named(user) <==> OpenSearchNames(a, user)
    ensures OpenSearchTarget(a).Nothing? <==> "opensearch.aiven.nais.io/serviceName" !in a
    ensures forall user :: user in ValkeyUsers(a) <==> ValkeyNames(a, user)
  {
    hide ValkeyNames, ValkeyUsers;
    forall user ensures user in ValkeyUsers(a) <==> ValkeyNames(a, user) {
      ValkeyPairsAre(a, user);
    }
  }

  // Who is named

  function TargetUsers(t: Target): set<UserKey> {
    if t.Named? then {t.user} else {}
  }

  function ValkeyUsers(a: Annotations): set<UserKey> {
    if VALKEY_PROJECT in a then set key | key in ValkeyPairs(a) :: ValkeyUser(a, key) else {}
  }

  function NamedUsers(a: Annotations, pools: map<string, string>): set<UserKey> {
    TargetUsers(KafkaTarget(a, pools)) + TargetUsers(OpenSearchTarget(a)) + ValkeyUsers(a)
  }

  // Round trips

  /** The annotations every generated Secret has, whatever service it is for. */
  const BASE_KEYS: set<string> := {CORRELATION_ID, PROTECTED, WITH_TIME_LIMIT, EXPIRES_AT}

  lemma BaseKeyIsNoServiceName(k: string)
    requires k in BASE_KEYS
    ensures !HasSuffix(k, VALKEY_SERVICE_NAME)
  {
  }

  lemma KafkaKeyIsNoServiceName(k: string)
    requires k in {KAFKA_SERVICE_USER, KAFKA_POOL}
    ensures !HasSuffix(k, VALKEY_SERVICE_NAME)
  {
  }

  lemma OpenSearchKeyIsNoServiceName(k: string)
    requires k in {OPENSEARCH_SERVICE_USER, OPENSEARCH_SERVICE_NAME, OPENSEARCH_PROJECT, VALKEY_PROJECT}
    ensures !HasSuffix(k, VALKEY_SERVICE_NAME)
  {
  }

  /** The Valkey keys of an instance meet no key that another handler looks for. */
  lemma ValkeyKeysAreApart(instance: string)
    ensures HasSuffix(ValkeyServiceNameKey(instance), VALKEY_SERVICE_NAME)
    ensures !HasSuffix(ValkeyServiceUserKey(instance), VALKEY_SERVICE_NAME)
    ensures ValkeyServiceNameKey(instance) !in {KAFKA_SERVICE_USER, OPENSEARCH_SERVICE_NAME, VALKEY_PROJECT}
    ensures ValkeyServiceUserKey(instance) !in {KAFKA_SERVICE_USER, OPENSEARCH_SERVICE_NAME, VALKEY_PROJECT}
  {
  }

  lemma LastOf(head: string, tail: string)
    requires tail != []
    ensures (head + tail)[|head + tail| - 1] == tail[|tail| - 1]
  {
  }

  lemma {:induction false} KeyNameAlphabet(instance: string)
    ensures forall c :: c in KeyName(instance, "-") ==> IsLowerAlphanumeric(c) || c == '-'
  {
    if instance != [] {
      KeyNameAlphabet(instance[1..]);
    }
  }

  /** Splitting a service-name key at its dots gives the instance part back. */
  lemma ServiceUserKeyIsRecovered(instance: string)
    ensures Split(ValkeyServiceNameKey(instance), '.')[0] == KeyName(instance, "-")
    ensures ValkeyServiceUserKeyFor(ValkeyServiceNameKey(instance)) == ValkeyServiceUserKey(instance)
  {
    KeyNameAlphabet(instance);
    SplitHead(KeyName(instance, "-"), '.', VALKEY_SERVICE_NAME);
    assert KeyName(instance, "-") + ['.'] + VALKEY_SERVICE_NAME == ValkeyServiceNameKey(instance);
  }

  lemma MarkersAreNoBaseKeys()
    ensures KAFKA_SERVICE_USER !in BASE_KEYS && OPENSEARCH_SERVICE_NAME !in BASE_KEYS
  {
  }

  lemma MarkersAreApart()
    ensures KAFKA_SERVICE_USER !in {
      OPENSEARCH_SERVICE_USER, OPENSEARCH_SERVICE_NAME, OPENSEARCH_PROJECT, VALKEY_PROJECT}
    ensures OPENSEARCH_SERVICE_NAME !in {KAFKA_SERVICE_USER, KAFKA_POOL, VALKEY_PROJECT}
  {
  }

  lemma KafkaTargetRecovered(base: Annotations, user: string, pool: string, pools: map<string, string>)
    requires pool in pools
    ensures KafkaTarget(KafkaAnnotations(base, user, pool), pools) == Named(UserKey(pool, pools[pool], user))
  {
  }

  lemma OpenSearchTargetRecovered(base: Annotations, user: UserKey)
    ensures OpenSearchTarget(OpenSearchAnnotations(base, user)) == Named(user)
  {
  }

  lemma NoValkeyPairs(a: Annotations)
    requires forall k :: k in a ==> !HasSuffix(k, VALKEY_SERVICE_NAME)
    ensures ValkeyPairs(a) == {} && ValkeyUsers(a) == {}
  {
  }

  lemma KafkaRoundTrip(base: Annotations, user: string, pool: string, pools: map<string, string>)
    requires base.Keys <= BASE_KEYS && pool in pools
    ensures var a := KafkaAnnotations(base, user, pool);
      && KafkaTarget(a, pools) == Named(UserKey(pool, pools[pool], user))
      && OpenSearchTarget(a) == Nothing && ValkeyPairs(a) == {}
      && NamedUsers(a, pools) == {UserKey(pool, pools[pool], user)}
  {
    var a := KafkaAnnotations(base, user, pool);
    KafkaTargetRecovered(base, user, pool, pools);
    MarkersAreNoBaseKeys();
    MarkersAreApart();
    forall k | k in a ensures !HasSuffix(k, VALKEY_SERVICE_NAME) {
      if k in base {
        BaseKeyIsNoServiceName(k);
      } else {
        KafkaKeyIsNoServiceName(k);
      }
    }
    NoValkeyPairs(a);
  }

  lemma OpenSearchRoundTrip(base: Annotations, user: UserKey, pools: map<string, string>)
    requires base.Keys <= BASE_KEYS
    ensures var a := OpenSearchAnnotations(base, user);
      && OpenSearchTarget(a) == Named(user)
      && KafkaTarget(a, pools) == Nothing && ValkeyPairs(a) == {}
      && NamedUsers(a, pools) == {user}
  {
    var a := OpenSearchAnnotations(base, user);
    OpenSearchTargetRecovered(base, user);
    MarkersAreNoBaseKeys();
    MarkersAreApart();
    forall k | k in a ensures !HasSuffix(k, VALKEY_SERVICE_NAME) {
      if k in base {
        BaseKeyIsNoServiceName(k);
      } else {
        OpenSearchKeyIsNoServiceName(k);
      }
    }
    NoValkeyPairs(a);
  }

  lemma ValkeyPairRecovered(base: Annotations, instance: string, user: UserKey)
    requires base.Keys <= BASE_KEYS
    ensures var a := ValkeyAnnotations(base, instance, user);
      && ValkeyPairs(a) == {ValkeyServiceNameKey(instance)} && ValkeyUsers(a) == {user}
  {
    var a := ValkeyAnnotations(base, instance, user);
    var nameKey := ValkeyServiceNameKey(instance);
    ValkeyKeysAreApart(instance);
    ServiceUserKeyIsRecovered(instance);
    OpenSearchKeyIsNoServiceName(VALKEY_PROJECT);
    forall k | k in a && k != nameKey ensures !IsValkeyPair(a, k) {
      if k in base {
        BaseKeyIsNoServiceName(k);
      }
    }
    assert IsValkeyPair(a, nameKey) && ValkeyUser(a, nameKey) == user;
    assert ValkeyPairs(a) == {nameKey};
  }

  lemma ValkeyRoundTrip(base: Annotations, instance: string, user: UserKey, pools: map<string, string>)
    requires base.Keys <= BASE_KEYS
    ensures var a := ValkeyAnnotations(base, instance, user);
      && ValkeyPairs(a) == {ValkeyServiceNameKey(instance)} && ValkeyUsers(a) == {user}
      && KafkaTarget(a, pools) == Nothing && OpenSearchTarget(a) == Nothing
      && NamedUsers(a, pools) == {user}
  {
    ValkeyPairRecovered(base, instance, user);
    ValkeyKeysAreApart(instance);
    MarkersAreNoBaseKeys();
    MarkersAreApart();
  }

  /** Merge leaves the annotations that every generated Secret has as they are, present or absent. */
  ghost predicate KeepsBase(base: Annotations, a: Annotations) {
    forall k :: k in BASE_KEYS ==> (k in a <==> k in base) && (k in base ==> a[k] == base[k])
  }

  lemma KafkaKeepsBase(base: Annotations, user: string, pool: string)
    requires base.Keys <= BASE_KEYS
    ensures KeepsBase(base, KafkaAnnotations(base, user, pool))
  {
  }

  lemma OpenSearchKeepsBase(base: Annotations, user: UserKey)
    requires base.Keys <= BASE_KEYS
    ensures KeepsBase(base, OpenSearchAnnotations(base, user))
  {
  }

  lemma BaseKeyIsNoValkeyKey(k: string)
    requires k in BASE_KEYS
    ensures !HasSuffix(k, VALKEY_SERVICE_NAME) && k != VALKEY_PROJECT && k[|k| - 1] != 'r'
  {
    BaseKeyIsNoServiceName(k);
    assert |VALKEY_PROJECT| == 28;
  }

  lemma ValkeyKeysAreNoBaseKeys(instance: string)
    ensures {ValkeyServiceUserKey(instance), ValkeyServiceNameKey(instance), VALKEY_PROJECT} !! BASE_KEYS
  {
    hide HasSuffix, KeyName;
    var user, name := ValkeyServiceUserKey(instance), ValkeyServiceNameKey(instance);
    ValkeyKeysAreApart(instance);
    LastOf(KeyName(instance, "-") + ".", VALKEY_SERVICE_USER);
    assert user[|user| - 1] == 'r';
    forall k | k in BASE_KEYS ensures k != user && k != name && k != VALKEY_PROJECT {
      BaseKeyIsNoValkeyKey(k);
    }
  }

  lemma ValkeyKeepsBase(base: Annotations, instance: string, user: UserKey)
    requires base.Keys <= BASE_KEYS
    ensures KeepsBase(base, ValkeyAnnotations(base, instance, user))
  {
    ValkeyKeysAreNoBaseKeys(instance);
  }
}
