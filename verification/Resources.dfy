/** The Kubernetes objects the operator reads and writes, and the constants they share. */
module Resources {
  import opened Wrappers
  import opened Common

  const FINALIZER := "aivenator.aiven.nais.io/finalizer"
  const APP_LABEL := "app"
  const TEAM_LABEL := "team"
  const SECRET_TYPE_LABEL := "type"
  const GENERATION_LABEL := "aiven.nais.io/secret-generation"
  const SECRET_TYPE := "aivenator.aiven.nais.io"
  const PROTECTED := "aivenator.aiven.nais.io/protected"
  const WITH_TIME_LIMIT := "aivenator.aiven.nais.io/with-time-limit"
  const EXPIRES_AT := "aivenator.aiven.nais.io/expires-at"
  const CORRELATION_ID := "nais.io/deploymentCorrelationID"

  datatype Key = Key(namespace: string, name: string)

  datatype KafkaSpec = KafkaSpec(pool: string, secretName: string)
  datatype OpenSearchSpec = OpenSearchSpec(instance: string, access: string, secretName: string)
  datatype ValkeySpec = ValkeySpec(instance: string, access: string, secretName: string)

  datatype Spec = Spec(
    secretName: string,
    protected: bool,
    expiresAt: Option<Time>,
    kafka: Option<KafkaSpec>,
    openSearch: Option<OpenSearchSpec>,
    valkey: seq<ValkeySpec>)

  predicate KafkaAsksFor(spec: Spec, name: string) {
    spec.kafka.Some? && spec.kafka.value.secretName == name
  }

  predicate OpenSearchAsksFor(spec: Spec, name: string) {
    spec.openSearch.Some? && spec.openSearch.value.secretName == name
  }

  predicate ValkeyAsksFor(specs: seq<ValkeySpec>, name: string) {
    exists i :: 0 <= i < |specs| && specs[i].secretName == name
  }

  datatype ConditionType = Succeeded | AivenFailure | LocalFailure | Deprecated
  datatype Condition = Condition(holds: bool, reason: Option<Operation>)

  /** SynchronizationState, where New stands for the empty string. */
  datatype SyncState = New | RolloutComplete | RolloutFailed

  datatype Status = Status(
    state: SyncState,
    hash: string,
    synchronizedGeneration: int,
    observedGeneration: int,
    conditions: map<ConditionType, Condition>)
  {
    /** Status.AddCondition of the API package: replaces the condition of the same type and drops
        the listed types. */
    function AddCondition(t: ConditionType, c: Condition, drop: set<ConditionType> := {}): Status {
      this.(conditions := (conditions - drop)[t := c])
    }

    predicate Holds(t: ConditionType) {
      t in conditions && conditions[t].holds
    }
  }

  datatype Application = Application(
    namespace: string,
    name: string,
    generation: int,
    labels: map<string, string>,
    annotations: map<string, string>,
    spec: Spec,
    status: Status)
  {
    function Id(): Key { Key(namespace, name) }
  }

  /** `version` is the resource version; the data of a Secret is not part of the model. */
  datatype Secret = Secret(
    namespace: string,
    name: string,
    version: nat,
    labels: map<string, string>,
    annotations: map<string, string>,
    finalizers: seq<string>,
    terminating: bool)
  {
    function Id(): Key { Key(namespace, name) }
  }

  /** The application a handler is given by pointer and whose spec and status it changes. */
  class ApplicationRef {
    var app: Application

    constructor (app: Application)
      ensures this.app == app
    {
      this.app := app;
    }
  }

  /** The Secret that a handler builds up in place. */
  class SecretRef {
    var secret: Secret

    constructor (namespace: string, name: string)
      ensures secret == Secret(namespace, name, 0, map[], map[], [], false)
    {
      secret := Secret(namespace, name, 0, map[], map[], [], false);
    }
  }

  /** controllerutil.AddFinalizer. */
  function AddFinalizer(s: Secret, finalizer: string): Secret {
    if finalizer in s.finalizers then s else s.(finalizers := s.finalizers + [finalizer])
  }

  /** controllerutil.RemoveFinalizer: every occurrence goes, the others keep their order. */
  function RemoveFinalizer(s: Secret, finalizer: string): Secret {
    s.(finalizers := Without(s.finalizers, finalizer))
  }

  function Without(names: seq<string>, name: string): (rest: seq<string>)
    ensures name !in rest
    ensures forall n :: n in names && n != name ==> n in rest
    ensures forall n :: n in rest ==> n in names
  {
    if names == [] then []
    else (if names[0] == name then [] else [names[0]]) + Without(names[1..], name)
  }

  lemma WithoutOnly(name: string)
    ensures Without([name], name) == []
  {
  }
}
