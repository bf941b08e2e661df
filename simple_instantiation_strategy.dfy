/**
 * The simple instantiation strategy of the bean factory: no-argument construction
 * through the definition's constructor cache, construction with a given constructor
 * and arguments, and factory-method invocation with the thread's
 * "currently invoked factory method" slot. Method injection is not supported at this
 * tier; its two hooks always fail.
 */
module SimpleInstantiation {
  import opened Wrappers
  import opened BeanDefinitions
  import opened FactoryMethodInvocation

  /**
   * One thread's entry of the strategy's static thread-local. Every strategy
   * instance on the thread shares it; None when the entry holds no value.
   */
  class FactoryMethodSlot {
    var value: Option<Method>

    /** A thread starts without a value in the entry. */
    constructor ()
      ensures value == None
    {
      value := None;
    }
  }

  class SimpleInstantiationStrategy {
    /** The thread-local as the running thread sees it, shared with the thread's other strategies. */
    const currentlyInvokedFactoryMethod: FactoryMethodSlot

    /** A new strategy refers to the thread's slot and leaves it as it is. */
    constructor (thread: FactoryMethodSlot)
      ensures currentlyInvokedFactoryMethod == thread
      ensures thread.value == old(thread.value)
    {
      currentlyInvokedFactoryMethod := thread;
    }

    /** The factory method being invoked by the container on this thread, if any. */
    static method GetCurrentlyInvokedFactoryMethod(thread: FactoryMethodSlot) returns (m: Option<Method>)
      ensures m == thread.value
    {
      m := thread.value;
    }

    /**
     * Instantiates the bean class through its no-argument constructor, resolving the
     * constructor once and caching it on the definition. Definitions that declare
     * method overrides go to the method-injection hook instead.
     */
    method Instantiate(beanDefinition: RootBeanDefinition, beanName: string, owner: BeanFactory,
                       instantiateClass: ClassInstantiator)
      returns (r: Result<Value, BeansError>)
      modifies beanDefinition
      ensures beanDefinition.methodOverrides != {} ==>
        r == InstantiateWithMethodInjection(beanDefinition, beanName, owner) &&
        r == Failure(UnsupportedOperationException) &&
        beanDefinition.resolvedConstructorOrFactoryMethod == old(beanDefinition.resolvedConstructorOrFactoryMethod)
      // a cached constructor is used as it is: no interface check, no lookup
      ensures beanDefinition.methodOverrides == {} && old(beanDefinition.resolvedConstructorOrFactoryMethod).Some? ==>
        r == instantiateClass(old(beanDefinition.resolvedConstructorOrFactoryMethod).value, []) &&
        beanDefinition.resolvedConstructorOrFactoryMethod == old(beanDefinition.resolvedConstructorOrFactoryMethod)
      ensures beanDefinition.methodOverrides == {} && old(beanDefinition.resolvedConstructorOrFactoryMethod).None? &&
              beanDefinition.beanClass.isInterface ==>
        r == Failure(BeanInstantiationException(beanDefinition.beanClass.name, SpecifiedClassIsInterface)) &&
        beanDefinition.resolvedConstructorOrFactoryMethod == None
      ensures beanDefinition.methodOverrides == {} && old(beanDefinition.resolvedConstructorOrFactoryMethod).None? &&
              !beanDefinition.beanClass.isInterface && beanDefinition.beanClass.declaredNoArgConstructor.None? ==>
        r == Failure(BeanInstantiationException(beanDefinition.beanClass.name, NoDefaultConstructorFound)) &&
        beanDefinition.resolvedConstructorOrFactoryMethod == None
      // a successful lookup is cached before the constructor is invoked
      ensures beanDefinition.methodOverrides == {} && old(beanDefinition.resolvedConstructorOrFactoryMethod).None? &&
              !beanDefinition.beanClass.isInterface && beanDefinition.beanClass.declaredNoArgConstructor.Some? ==>
        r == instantiateClass(beanDefinition.beanClass.declaredNoArgConstructor.value, []) &&
        beanDefinition.resolvedConstructorOrFactoryMethod == beanDefinition.beanClass.declaredNoArgConstructor
      ensures old(beanDefinition.CacheConsistent()) && beanDefinition.beanClass.WellFormed() ==>
        beanDefinition.CacheConsistent()
    {
      if beanDefinition.methodOverrides == {} {
        var constructorToUse: Constructor;
        // the lock on the definition serialises this block; calls here are sequential
        var cached := beanDefinition.resolvedConstructorOrFactoryMethod;
        if cached.None? {
          var clazz := beanDefinition.beanClass;
          if clazz.isInterface {
            return Failure(BeanInstantiationException(clazz.name, SpecifiedClassIsInterface));
          }
          match clazz.declaredNoArgConstructor {
            case None =>
              return Failure(BeanInstantiationException(clazz.name, NoDefaultConstructorFound));
            case Some(c) =>
              constructorToUse := c;
              beanDefinition.resolvedConstructorOrFactoryMethod := Some(c);
          }
        } else {
          constructorToUse := cached.value;
        }
        r := instantiateClass(constructorToUse, []);
      } else {
        r := InstantiateWithMethodInjection(beanDefinition, beanName, owner);
      }
    }

    /** Hook for method injection with the no-argument constructor; unsupported here. */
    function InstantiateWithMethodInjection(beanDefinition: RootBeanDefinition, beanName: string,
                                            owner: BeanFactory): (r: Result<Value, BeansError>)
      ensures r == Failure(UnsupportedOperationException)
    {
      Failure(UnsupportedOperationException)
    }

    /**
     * Instantiates through the given constructor and arguments. Having no reads
     * clause, it cannot consult the definition's constructor cache.
     */
    function InstantiateWithConstructor(beanDefinition: RootBeanDefinition, beanName: string, owner: BeanFactory,
                                        ctor: Constructor, args: seq<Value>,
                                        instantiateClass: ClassInstantiator): (r: Result<Value, BeansError>)
      ensures beanDefinition.methodOverrides == {} ==> r == instantiateClass(ctor, args)
      ensures beanDefinition.methodOverrides != {} ==>
        r == InstantiateWithMethodInjectionUsing(beanDefinition, beanName, owner, ctor, args) &&
        r == Failure(UnsupportedOperationException)
    {
      if beanDefinition.methodOverrides == {} then
        instantiateClass(ctor, args)
      else
        InstantiateWithMethodInjectionUsing(beanDefinition, beanName, owner, ctor, args)
    }

    /** Hook for method injection with a given constructor and arguments; unsupported here. */
    function InstantiateWithMethodInjectionUsing(beanDefinition: RootBeanDefinition, beanName: string,
                                                 owner: BeanFactory, ctor: Constructor,
                                                 args: seq<Value>): (r: Result<Value, BeansError>)
      ensures r == Failure(UnsupportedOperationException)
    {
      Failure(UnsupportedOperationException)
    }

    /**
     * Invokes a factory method on a factory bean. For the duration of the call the
     * thread's slot names the factory method; on every exit it holds its prior value
     * again.
     * Reflective failures are classified into store exceptions. Neither the method
     * overrides nor the constructor cache of any definition are touched.
     */
    method InstantiateWithFactoryMethod(call: FactoryCall) returns (r: Result<Value, BeansError>, seen: seq<Observation>)
      modifies currentlyInvokedFactoryMethod
      decreases call
      ensures r == RunFactoryCall(call, old(currentlyInvokedFactoryMethod.value)).outcome
      ensures seen == RunFactoryCall(call, old(currentlyInvokedFactoryMethod.value)).seen
      ensures currentlyInvokedFactoryMethod.value == old(currentlyInvokedFactoryMethod.value)
      ensures SeesOwnFrame(seen)
    {
      var factoryMethod := call.factoryMethod;
      var priorInvokedFactoryMethod := currentlyInvokedFactoryMethod.value;
      currentlyInvokedFactoryMethod.value := Some(factoryMethod);
      var invocation: Invocation;
      match call.admission {
        case ArgumentsRejected =>
          invocation, seen := IllegalArgument, [];
        case AccessRejected =>
          invocation, seen := IllegalAccess, [];
        case Admitted =>
          invocation, seen := RunFactoryMethodBody(factoryMethod, call.body);
      }
      // finally: restore the prior value, or remove the entry
      if priorInvokedFactoryMethod.Some? {
        currentlyInvokedFactoryMethod.value := priorInvokedFactoryMethod;
      } else {
        currentlyInvokedFactoryMethod.value := None;
      }
      r := Classify(factoryMethod, call.args, invocation);
      RunFactoryCallSeesOwnFrame(call, priorInvokedFactoryMethod);
    }

    /** Executes the code of factory method `frame` on this thread. */
    method RunFactoryMethodBody(frame: Method, body: Body) returns (invocation: Invocation, seen: seq<Observation>)
      modifies currentlyInvokedFactoryMethod
      decreases body
      ensures invocation == RunBody(frame, body, old(currentlyInvokedFactoryMethod.value)).invocation
      ensures seen == RunBody(frame, body, old(currentlyInvokedFactoryMethod.value)).seen
      ensures currentlyInvokedFactoryMethod.value == RunBody(frame, body, old(currentlyInvokedFactoryMethod.value)).slotAfter
    {
      match body
      case Return(v) =>
        invocation, seen := Returned(v), [];
      case Throw(t) =>
        invocation, seen := InvocationTarget(t), [];
      case Observe(next) =>
        var current := GetCurrentlyInvokedFactoryMethod(currentlyInvokedFactoryMethod);
        var rest;
        invocation, rest := RunFactoryMethodBody(frame, next);
        seen := [Observation(frame, current)] + rest;
      case Reenter(nested, next) =>
        var nestedResult, nestedSeen := InstantiateWithFactoryMethod(nested);
        if nestedResult.Failure? {
          invocation, seen := InvocationTarget(ContainerException(nestedResult.error)), nestedSeen;
        } else {
          var rest;
          invocation, rest := RunFactoryMethodBody(frame, next);
          seen := nestedSeen + rest;
        }
    }
  }

  /**
   * Two no-argument instantiations of one definition without overrides: once the
   * first has resolved a constructor, both go through that same constructor and the
   * cache keeps it; a failed resolution is not cached and fails the same way again.
   */
  method InstantiateTwice(strategy: SimpleInstantiationStrategy, beanDefinition: RootBeanDefinition,
                          beanName: string, owner: BeanFactory,
                          first: ClassInstantiator, second: ClassInstantiator)
    returns (r1: Result<Value, BeansError>, r2: Result<Value, BeansError>)
    requires beanDefinition.methodOverrides == {}
    modifies beanDefinition
    ensures old(beanDefinition.resolvedConstructorOrFactoryMethod).Some? ==>
      beanDefinition.resolvedConstructorOrFactoryMethod == old(beanDefinition.resolvedConstructorOrFactoryMethod)
    ensures beanDefinition.resolvedConstructorOrFactoryMethod.Some? ==>
      var c := beanDefinition.resolvedConstructorOrFactoryMethod.value;
      r1 == first(c, []) && r2 == second(c, [])
    ensures beanDefinition.resolvedConstructorOrFactoryMethod.None? ==> r1.Failure? && r2 == r1
  {
    r1 := strategy.Instantiate(beanDefinition, beanName, owner, first);
    r2 := strategy.Instantiate(beanDefinition, beanName, owner, second);
  }
}
