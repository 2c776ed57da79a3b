/** pkg/utils/error_handling.go, and the requeue decision that `fail` in the application reconciler
    takes from the errors it produces. */
module Failures {
  import opened Wrappers
  import opened Resources

  /** The error and everything it wraps, outermost first. */
  function Chain(e: Error): seq<Error> {
    [e] + if e.Wrapped? then Chain(e.cause) else []
  }

  /** errors.Is for a sentinel. */
  predicate Is(e: Error, sentinel: Error) {
    e == sentinel || (e.Wrapped? && Is(e.cause, sentinel))
  }

  /** errors.As for aiven.Error. */
  function AsAiven(e: Error): (found: Option<Error>)
    ensures found.Some? ==> found.value.AivenError?
  {
    match e
    case AivenError(_, _) => Some(e)
    case Wrapped(_, cause) => AsAiven(cause)
    case _ => None
  }

  /** aiven.IsNotFound. */
  predicate IsNotFound(e: Error) {
    AsAiven(e).Some? && AsAiven(e).value.status == 404
  }

  lemma NotFoundIsNotFound()
    ensures IsNotFound(AivenError(404, "not found"))
  {
  }

  function UnwrapAivenError(e: Error, notFoundIsRecoverable: bool): Error {
    match AsAiven(e)
    case Some(AivenError(status, text)) =>
      if status == 200 then Plain(UnknownError)
      else if status == 404 && notFoundIsRecoverable then Wrapped(Text(text), NotFound)
      else if 400 <= status < 500 then Wrapped(Text(text), Unrecoverable)
      else Plain(Text(text))
    case _ => e
  }

  function FailedInAiven(status: Status, operation: Operation): Status {
    status.AddCondition(AivenFailure, Condition(true, Some(operation)), {Succeeded})
  }

  function FailedLocally(status: Status, operation: Operation): Status {
    status.AddCondition(LocalFailure, Condition(true, Some(operation)), {Succeeded})
  }

  /** Nothing of the application changed but the conditions of its status. */
  predicate OnlyConditions(before: Application, after: Application) {
    after == before.(status := before.status.(conditions := after.status.conditions))
  }

  lemma ConditionsMayStay(app: Application)
    ensures OnlyConditions(app, app)
  {
  }

  type Conditions = map<ConditionType, Condition>

  /** The failure is true for that reason, there is no success any more, and every other condition is as it
      was. */
  ghost predicate IsRecorded(failure: ConditionType, operation: Operation, before: Conditions, after: Conditions) {
    && failure in after && after[failure].holds && after[failure].reason == Some(operation) && Succeeded !in after
    && after - {failure, Succeeded} == before - {failure, Succeeded}
  }

  method AivenFail(operation: Operation, ref: ApplicationRef, e: Error, notFoundIsRecoverable: bool)
    returns (failure: Error)
    modifies ref
    ensures ref.app == old(ref.app).(status := FailedInAiven(old(ref.app.status), operation))
    ensures failure == Wrapped(OperationFailed(operation), UnwrapAivenError(e, notFoundIsRecoverable))
    ensures IsRecorded(AivenFailure, operation, old(ref.app.status.conditions), ref.app.status.conditions)
    ensures OnlyConditions(old(ref.app), ref.app)
  {
    failure := Wrapped(OperationFailed(operation), UnwrapAivenError(e, notFoundIsRecoverable));
    ref.app := ref.app.(status :=
      ref.app.status.AddCondition(AivenFailure, Condition(true, Some(operation)), {Succeeded}));
  }

  method LocalFail(operation: Operation, ref: ApplicationRef)
    modifies ref
    ensures ref.app == old(ref.app).(status := FailedLocally(old(ref.app.status), operation))
    ensures IsRecorded(LocalFailure, operation, old(ref.app.status.conditions), ref.app.status.conditions)
    ensures OnlyConditions(old(ref.app), ref.app)
  {
    ref.app := ref.app.(status :=
      ref.app.status.AddCondition(LocalFailure, Condition(true, Some(operation)), {Succeeded}));
  }

  const REQUEUE_SECONDS := 10

  /** The delay `fail` asks for, in seconds. */
  function RequeueAfter(e: Error): Option<nat> {
    if Is(e, NotFound) then Some(REQUEUE_SECONDS * 10)
    else if !Is(e, Unrecoverable) then Some(REQUEUE_SECONDS)
    else None
  }

  lemma {:induction false} IsInChain(e: Error, sentinel: Error)
    requires !sentinel.Wrapped?
    ensures Is(e, sentinel) <==> sentinel in Chain(e)
  {
    if e.Wrapped? {
      IsInChain(e.cause, sentinel);
    }
  }

  ghost predicate FirstAiven(e: Error, found: Error) {
    exists i :: 0 <= i < |Chain(e)| && Chain(e)[i] == found && found.AivenError?
      && forall j :: 0 <= j < i ==> !Chain(e)[j].AivenError?
  }

  lemma {:induction false} AsAivenIsFirst(e: Error)
    ensures AsAiven(e).Some? ==> FirstAiven(e, AsAiven(e).value)
    ensures AsAiven(e).None? ==> forall x :: x in Chain(e) ==> !x.AivenError?
  {
    if e.Wrapped? {
      AsAivenIsFirst(e.cause);
      if AsAiven(e).Some? {
        var found := AsAiven(e).value;
        var i :| 0 <= i < |Chain(e.cause)| && Chain(e.cause)[i] == found
          && forall j :: 0 <= j < i ==> !Chain(e.cause)[j].AivenError?;
        assert Chain(e)[i + 1] == found;
        assert forall j :: 1 <= j < i + 1 ==> Chain(e)[j] == Chain(e.cause)[j - 1];
      }
    } else {
      assert Chain(e)[0] == e;
    }
  }

  lemma UnwrapIsIdempotent(e: Error, first: bool, second: bool)
    ensures UnwrapAivenError(UnwrapAivenError(e, first), second) == UnwrapAivenError(e, first)
  {
    if AsAiven(e).Some? {
      var message := Text(AsAiven(e).value.text);
      assert AsAiven(NotFound) == None && AsAiven(Unrecoverable) == None;
      assert AsAiven(Wrapped(message, NotFound)) == AsAiven(NotFound);
      assert AsAiven(Wrapped(message, Unrecoverable)) == AsAiven(Unrecoverable);
    }
  }

  /** What the operator does about a call that failed in Aiven depends on nothing but the first
      Aiven status in the chain; without one, on the sentinels, NotFound before Unrecoverable. */
  lemma RequeueDecision(operation: Operation, e: Error, notFoundIsRecoverable: bool)
    ensures var delay := RequeueAfter(Wrapped(OperationFailed(operation), UnwrapAivenError(e, notFoundIsRecoverable)));
      && (forall status, text :: FirstAiven(e, AivenError(status, text)) ==>
        delay == (if status == 404 && notFoundIsRecoverable then Some(100)
                  else if 400 <= status < 500 then None else Some(10)))
      && ((forall x :: x in Chain(e) ==> !x.AivenError?) ==>
        delay == (if NotFound in Chain(e) then Some(100)
                  else if Unrecoverable in Chain(e) then None else Some(10)))
  {
    AsAivenIsFirst(e);
    IsInChain(e, NotFound);
    IsInChain(e, Unrecoverable);
    var unwrapped := UnwrapAivenError(e, notFoundIsRecoverable);
    assert Is(Wrapped(OperationFailed(operation), unwrapped), NotFound) == Is(unwrapped, NotFound);
    assert Is(Wrapped(OperationFailed(operation), unwrapped), Unrecoverable) == Is(unwrapped, Unrecoverable);
    forall status, text | FirstAiven(e, AivenError(status, text))
      ensures AsAiven(e) == Some(AivenError(status, text))
    {
      FirstAivenIsFound(e, AivenError(status, text));
    }
    if AsAiven(e).Some? {
      var AivenError(status, text) := AsAiven(e).value;
      var message := Text(text);
      assert Is(NotFound, NotFound) && !Is(Unrecoverable, NotFound) && Is(Unrecoverable, Unrecoverable);
      assert Is(Wrapped(message, NotFound), NotFound) && !Is(Wrapped(message, Unrecoverable), NotFound);
      assert Is(unwrapped, NotFound) <==> status == 404 && notFoundIsRecoverable;
      assert Is(unwrapped, Unrecoverable) <==> 400 <= status < 500 && !Is(unwrapped, NotFound);
    }
  }

  /** How a failure shows: as a condition with an operation, and in whether and when there is another try. */
  datatype Fault = Fault(condition: ConditionType, operation: Operation, retry: Option<nat>)

  ghost predicate Shows(fault: Fault, before: Conditions, e: Error, after: Conditions) {
    IsRecorded(fault.condition, fault.operation, before, after) && RequeueAfter(e) == fault.retry
  }

  /** The failures that do not come from the servers themselves. */
  lemma Retries(operation: Operation, text: string)
    ensures forall flag ::
      RequeueAfter(Wrapped(OperationFailed(operation), UnwrapAivenError(AivenError(404, text), flag))) ==
        if flag then Some(100) else None
    ensures var invalid := UnwrapAivenError(Wrapped(InvalidSecretName, Unrecoverable), false);
      RequeueAfter(Wrapped(OperationFailed(operation), invalid)) == None
    ensures forall flag ::
      RequeueAfter(Wrapped(OperationFailed(operation), UnwrapAivenError(Plain(NoService), flag))) == Some(10)
    ensures RequeueAfter(Wrapped(NotFoundInNamespace, NotFound)) == Some(100)
    ensures RequeueAfter(Wrapped(NotRunning, NotReady)) == Some(10)
    ensures RequeueAfter(Wrapped(PoolNotAllowed, Unrecoverable)) == None
    ensures RequeueAfter(Wrapped(BadServiceUserName, Unrecoverable)) == None
  {
    assert Is(NotFound, NotFound) && Is(Unrecoverable, Unrecoverable) && !Is(Unrecoverable, NotFound);
    var missing := Wrapped(Text(text), NotFound);
    assert Is(missing, NotFound) && Is(Wrapped(OperationFailed(operation), missing), NotFound);
    var final := Wrapped(Text(text), Unrecoverable);
    assert Is(final, Unrecoverable) && !Is(final, NotFound);
    assert Is(Wrapped(OperationFailed(operation), final), Unrecoverable);
  }

  lemma {:induction false} FirstAivenIsFound(e: Error, found: Error)
    requires FirstAiven(e, found)
    ensures AsAiven(e) == Some(found)
  {
    AsAivenIsFirst(e);
    var i :| 0 <= i < |Chain(e)| && Chain(e)[i] == found && forall j :: 0 <= j < i ==> !Chain(e)[j].AivenError?;
    assert found in Chain(e);
    var x := AsAiven(e).value;
    var k :| 0 <= k < |Chain(e)| && Chain(e)[k] == x && forall j :: 0 <= j < k ==> !Chain(e)[j].AivenError?;
    assert i == k;
  }
}
