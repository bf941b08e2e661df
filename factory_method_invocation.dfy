/**
 * What happens when the container invokes a factory method: the reflective call
 * `factoryMethod.invoke(factoryBean, args)`, the code of the factory method itself
 * (which may ask which factory method is being invoked, and may re-enter the
 * container so that another factory method is invoked on the same thread), and the
 * thread's "currently invoked factory method" slot that is saved, set and restored
 * around each invocation. The functions here are the specification of
 * `SimpleInstantiationStrategy.InstantiateWithFactoryMethod`.
 */
module FactoryMethodInvocation {
  import opened Wrappers
  import opened BeanDefinitions

  /** How `Method.invoke` treats the receiver, the arguments and access before the body runs. */
  datatype Admission = Admitted | ArgumentsRejected | AccessRejected

  /** One invocation of a factory method on a factory bean. */
  datatype FactoryCall = FactoryCall(factoryBean: Value, factoryMethod: Method, args: seq<Value>,
                                     admission: Admission, body: Body)

  /** The code of a factory method, as far as the container can observe it. */
  datatype Body =
    | Return(value: Value)
      /** the body throws `cause` */
    | Throw(cause: Throwable)
      /** the body calls `getCurrentlyInvokedFactoryMethod()`, then goes on */
    | Observe(next: Body)
      /** the body asks the container for a bean made by another factory method;
          if that fails the failure propagates out of the body */
    | Reenter(nested: FactoryCall, next: Body)

  /** What `Method.invoke` returns or throws. */
  datatype Invocation =
    | Returned(value: Value)
    | IllegalArgument
    | IllegalAccess
    | InvocationTarget(target: Throwable)

  /** A call of `getCurrentlyInvokedFactoryMethod()` made by the body of factory method `frame`. */
  datatype Observation = Observation(frame: Method, seen: Option<Method>)

  datatype BodyRun = BodyRun(invocation: Invocation, seen: seq<Observation>, slotAfter: Option<Method>)

  datatype CallRun = CallRun(outcome: Result<Value, BeansError>, seen: seq<Observation>, slotAfter: Option<Method>)

  /** The three catch clauses around the reflective call. */
  function Classify(factoryMethod: Method, args: seq<Value>, invocation: Invocation): (r: Result<Value, BeansError>)
    ensures r.Success? <==> invocation.Returned?
    ensures r.Success? ==> r.value == invocation.value
    ensures r.Failure? ==> r.error.BeanDefinitionStoreException? && r.error.factoryMethod == factoryMethod
    ensures invocation.IllegalArgument? ==> r.error.cause == IllegalArguments(args)
    ensures invocation.IllegalAccess? ==> r.error.cause == CannotAccess
    ensures invocation.InvocationTarget? ==> r.error.cause == FactoryMethodThrew(invocation.target)
  {
    match invocation
    case Returned(v) => Success(v)
    case IllegalArgument => Failure(BeanDefinitionStoreException(factoryMethod, IllegalArguments(args)))
    case IllegalAccess => Failure(BeanDefinitionStoreException(factoryMethod, CannotAccess))
    case InvocationTarget(t) => Failure(BeanDefinitionStoreException(factoryMethod, FactoryMethodThrew(t)))
  }

  /**
   * Invoking `call` when the slot holds `slot`: the prior value is saved, the slot is
   * set to the factory method, the method is invoked, and on every exit the slot is
   * set back to the prior value, or emptied when there was none.
   */
  function RunFactoryCall(call: FactoryCall, slot: Option<Method>): CallRun
    decreases call
  {
    var prior := slot;
    var during := Some(call.factoryMethod);
    var invoked :=
      match call.admission
      case ArgumentsRejected => BodyRun(IllegalArgument, [], during)
      case AccessRejected => BodyRun(IllegalAccess, [], during)
      case Admitted => RunBody(call.factoryMethod, call.body, during);
    var restored := if prior.Some? then Some(prior.value) else None;
    CallRun(Classify(call.factoryMethod, call.args, invoked.invocation), invoked.seen, restored)
  }

  /** Running the body of factory method `frame` from slot value `slot`. */
  function RunBody(frame: Method, body: Body, slot: Option<Method>): BodyRun
    decreases body
  {
    match body
    case Return(v) => BodyRun(Returned(v), [], slot)
    case Throw(t) => BodyRun(InvocationTarget(t), [], slot)
    case Observe(next) =>
      var rest := RunBody(frame, next, slot);
      BodyRun(rest.invocation, [Observation(frame, slot)] + rest.seen, rest.slotAfter)
    case Reenter(nested, next) =>
      var inner := RunFactoryCall(nested, slot);
      if inner.outcome.Failure? then
        BodyRun(InvocationTarget(ContainerException(inner.outcome.error)), inner.seen, inner.slotAfter)
      else
        var rest := RunBody(frame, next, inner.slotAfter);
        BodyRun(rest.invocation, inner.seen + rest.seen, rest.slotAfter)
  }

  /** Every observation in `seen` found the slot naming the factory method whose body made it. */
  predicate SeesOwnFrame(seen: seq<Observation>) {
    forall i | 0 <= i < |seen| :: seen[i].seen == Some(seen[i].frame)
  }

  /** Whether the factory method returned or threw, the slot is back at its prior value. */
  lemma RunFactoryCallRestoresSlot(call: FactoryCall, slot: Option<Method>)
    ensures RunFactoryCall(call, slot).slotAfter == slot
  {
  }

  /** A body, nested invocations included, leaves the slot as it found it. */
  lemma {:induction false} RunBodyKeepsSlot(frame: Method, body: Body, slot: Option<Method>)
    ensures RunBody(frame, body, slot).slotAfter == slot
    decreases body
  {
    match body
    case Return(_) =>
    case Throw(_) =>
    case Observe(next) =>
      RunBodyKeepsSlot(frame, next, slot);
    case Reenter(nested, next) =>
      RunFactoryCallRestoresSlot(nested, slot);
      RunBodyKeepsSlot(frame, next, slot);
  }

  /**
   * At any depth of nesting, each call of `getCurrentlyInvokedFactoryMethod()` sees the
   * factory method whose body is making it, never a nested one that has finished nor
   * the outer one that is waiting.
   */
  lemma {:induction false} RunFactoryCallSeesOwnFrame(call: FactoryCall, slot: Option<Method>)
    ensures SeesOwnFrame(RunFactoryCall(call, slot).seen)
    decreases call
  {
    if call.admission.Admitted? {
      RunBodySeesOwnFrame(call.factoryMethod, call.body);
    }
  }

  lemma {:induction false} RunBodySeesOwnFrame(frame: Method, body: Body)
    ensures SeesOwnFrame(RunBody(frame, body, Some(frame)).seen)
    decreases body
  {
    match body
    case Return(_) =>
    case Throw(_) =>
    case Observe(next) =>
      RunBodySeesOwnFrame(frame, next);
    case Reenter(nested, next) =>
      RunFactoryCallSeesOwnFrame(nested, Some(frame));
      RunFactoryCallRestoresSlot(nested, Some(frame));
      RunBodySeesOwnFrame(frame, next);
  }

  /**
   * The observations the body of `call` makes itself, as opposed to those of
   * nested factory methods, all see `call.factoryMethod`.
   */
  lemma DuringCallSlotIsFactoryMethod(call: FactoryCall, slot: Option<Method>)
    ensures forall o | o in RunFactoryCall(call, slot).seen && o.frame == call.factoryMethod ::
              o.seen == Some(call.factoryMethod)
  {
    var seen := RunFactoryCall(call, slot).seen;
    RunFactoryCallSeesOwnFrame(call, slot);
    forall o | o in seen && o.frame == call.factoryMethod
      ensures o.seen == Some(call.factoryMethod)
    {
      var i :| 0 <= i < |seen| && seen[i] == o;
    }
  }

  /**
   * The three reflective failures and the successful return, as the caller sees them.
   * The outcome does not depend on the prior slot value.
   */
  lemma FactoryCallOutcome(call: FactoryCall, slot: Option<Method>, other: Option<Method>)
    ensures var r := RunFactoryCall(call, slot).outcome;
      && r == RunFactoryCall(call, other).outcome
      && (call.admission.ArgumentsRejected? ==>
            r == Failure(BeanDefinitionStoreException(call.factoryMethod, IllegalArguments(call.args))))
      && (call.admission.AccessRejected? ==>
            r == Failure(BeanDefinitionStoreException(call.factoryMethod, CannotAccess)))
      && (call.admission.Admitted? && call.body.Return? ==> r == Success(call.body.value))
      && (call.admission.Admitted? && call.body.Throw? ==>
            r == Failure(BeanDefinitionStoreException(call.factoryMethod, FactoryMethodThrew(call.body.cause))))
  {
  }

  /**
   * Factory method A observes, obtains a bean from factory method B (which observes),
   * and observes again: A sees A, B sees B, A sees A again, and afterwards the slot
   * is empty once more.
   */
  lemma NestedInvocationExample(a: Method, b: Method, bean: Value, made: Value)
    requires a != b
    ensures var inner := FactoryCall(bean, b, [], Admitted, Observe(Return(made)));
      var outer := FactoryCall(bean, a, [], Admitted, Observe(Reenter(inner, Observe(Return(made)))));
      var run := RunFactoryCall(outer, None);
      && run.seen == [Observation(a, Some(a)), Observation(b, Some(b)), Observation(a, Some(a))]
      && run.slotAfter == None
      && run.outcome == Success(made)
  {
    var inner := FactoryCall(bean, b, [], Admitted, Observe(Return(made)));
    assert RunBody(b, Return(made), Some(b)) == BodyRun(Returned(made), [], Some(b));
    assert RunBody(b, Observe(Return(made)), Some(b)) == BodyRun(Returned(made), [Observation(b, Some(b))], Some(b));
    assert RunFactoryCall(inner, Some(a)) == CallRun(Success(made), [Observation(b, Some(b))], Some(a));
    assert RunBody(a, Observe(Return(made)), Some(a)) == BodyRun(Returned(made), [Observation(a, Some(a))], Some(a));
    assert RunBody(a, Reenter(inner, Observe(Return(made))), Some(a))
        == BodyRun(Returned(made), [Observation(b, Some(b)), Observation(a, Some(a))], Some(a));
  }
}
