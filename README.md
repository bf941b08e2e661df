# Bean instantiation strategy and AOP proxy selection

A Dafny model of two decision cores of the Spring Framework (3.2.8):

- `SimpleInstantiationStrategy`, which turns a root bean definition into an
  instance: through the definition's cached no-argument constructor, through a
  given constructor and arguments, or by invoking a factory method on a factory
  bean while a per-thread slot names the factory method being invoked. Definitions
  with method overrides (lookup-method, replaced-method) are handed to the
  method-injection hooks, which this strategy does not support.
- `DefaultAopProxyFactory`, which chooses between a JDK dynamic proxy and a CGLIB
  proxy for an AOP configuration, or fails when a class proxy is needed but no
  target class is known.

Layout:

- `wrappers.dfy` (`Wrappers`): `Option` for Java's null, `Result` for a value or a thrown exception.
- `bean_definition.dfy` (`BeanDefinitions`): classes, constructors and methods as reflection reports
  them, the container's exceptions, and the `RootBeanDefinition` class with its mutable
  `resolvedConstructorOrFactoryMethod` cache.
- `factory_method_invocation.dfy` (`FactoryMethodInvocation`): the meaning of a factory-method
  invocation as functions. It covers the reflective call, the factory method's own code, and the slot
  threaded through nested invocations. The lemmas state that the slot is restored and what each call of
  `getCurrentlyInvokedFactoryMethod()` sees, at any depth of nesting.
- `simple_instantiation_strategy.dfy` (`SimpleInstantiation`): the running thread's entry of the static
  thread-local as a `FactoryMethodSlot` object, and the strategy as a class. Every strategy created on the
  thread refers to that one slot object, and creating a strategy leaves the slot as it is. The strategy's
  methods write the definition's cache and the shared slot as the source does.
- `default_aop_proxy_factory.dfy` (`DefaultAopProxyFactory`): the proxy selector as pure functions
  with lemmas that characterise it case by case.

Reflection is abstracted as data. `Class.getDeclaredConstructor()` is the
`declaredNoArgConstructor` field of a `BeanClass` (None when the lookup throws).
`BeanUtils.instantiateClass` is a function parameter of type `ClassInstantiator`.
`Method.invoke` is described by a `FactoryCall`. It names the factory bean (carried for
identity only, never inspected), the factory method and the arguments. It also says whether
the reflective call accepts the arguments and access, and gives a `Body` script for the
factory method's code. That script may return, throw, read the slot, or re-enter the container
for a bean built by another factory method.

Two behaviours that are easy to misread, stated as the code has them:

- Marker restoration works at every nesting depth, not just one level: every invocation keeps its own prior value in a local variable. The model does the same,
  and `RunBodyKeepsSlot` and `RunBodySeesOwnFrame` prove restoration at any depth.
- An interface bean class is rejected only when the definition has no method overrides and the cache is
  empty, not regardless of the overrides: overrides go to the hook first,
  and a cached constructor is used without any interface check.

## Model

| member | source | states |
|---|---|---|
| SimpleInstantiation.FactoryMethodSlot.constructor | spring-beans/src/main/java/org/springframework/beans/factory/support/SimpleInstantiationStrategy.java:45 | a thread starts with no currently invoked factory method in the thread-local |
| SimpleInstantiation.SimpleInstantiationStrategy.constructor | spring-beans/src/main/java/org/springframework/beans/factory/support/SimpleInstantiationStrategy.java:45 | a new strategy uses the thread's one shared slot and leaves its value unchanged |
| SimpleInstantiation.SimpleInstantiationStrategy.GetCurrentlyInvokedFactoryMethod | spring-beans/src/main/java/org/springframework/beans/factory/support/SimpleInstantiationStrategy.java:53-55 | a static read of the thread's shared slot: returns what it holds, None when no factory method is being invoked |
| SimpleInstantiation.SimpleInstantiationStrategy.Instantiate | spring-beans/src/main/java/org/springframework/beans/factory/support/SimpleInstantiationStrategy.java:58-93 | with overrides: UnsupportedOperationException and the cache untouched. A cached constructor is used as it is. Otherwise: an interface fails with "specified class is an interface", a failed lookup fails with "no default constructor found", and in both cases the cache stays empty. A found constructor is cached, then invoked with no arguments. Cache consistency with the bean class is preserved |
| SimpleInstantiation.SimpleInstantiationStrategy.InstantiateWithMethodInjection | spring-beans/src/main/java/org/springframework/beans/factory/support/SimpleInstantiationStrategy.java:101-106 | the no-argument method-injection hook always fails with UnsupportedOperationException |
| SimpleInstantiation.SimpleInstantiationStrategy.InstantiateWithConstructor | spring-beans/src/main/java/org/springframework/beans/factory/support/SimpleInstantiationStrategy.java:108-126 | without overrides the result is exactly instantiating through the given constructor and arguments; with overrides it is the hook's UnsupportedOperationException. Having no reads frame, it cannot read the cache |
| SimpleInstantiation.SimpleInstantiationStrategy.InstantiateWithMethodInjectionUsing | spring-beans/src/main/java/org/springframework/beans/factory/support/SimpleInstantiationStrategy.java:134-139 | the constructor-and-arguments method-injection hook always fails with UnsupportedOperationException |
| SimpleInstantiation.SimpleInstantiationStrategy.InstantiateWithFactoryMethod | spring-beans/src/main/java/org/springframework/beans/factory/support/SimpleInstantiationStrategy.java:141-184 | result and observations are those of RunFactoryCall. The slot afterwards equals its value before, whether the method returned or threw. Every slot observation sees its own factory method. Only the thread's slot is modified, never a bean definition |
| SimpleInstantiation.SimpleInstantiationStrategy.RunFactoryMethodBody | spring-beans/src/main/java/org/springframework/beans/factory/support/SimpleInstantiationStrategy.java:160 | running the invoked factory method's code on this thread matches RunBody: same outcome, same observations, same final slot |
| SimpleInstantiation.InstantiateTwice | spring-beans/src/main/java/org/springframework/beans/factory/support/SimpleInstantiationStrategy.java:62-87 | resolution is idempotent. Once a constructor is resolved, both calls instantiate through that same constructor and the cache keeps it. A failed resolution is not cached and fails identically on the second call |
| FactoryMethodInvocation.Classify | spring-beans/src/main/java/org/springframework/beans/factory/support/SimpleInstantiationStrategy.java:171-183 | IllegalArgumentException becomes an "illegal arguments" store exception carrying the arguments. IllegalAccessException becomes "cannot access". InvocationTargetException becomes a store exception whose cause is the unwrapped target exception. A normal return passes the value through |
| FactoryMethodInvocation.RunFactoryCallRestoresSlot | spring-beans/src/main/java/org/springframework/beans/factory/support/SimpleInstantiationStrategy.java:157-169 | after an invocation, returned or thrown, the slot holds its prior value, or is empty if it was empty |
| FactoryMethodInvocation.RunBodyKeepsSlot | spring-beans/src/main/java/org/springframework/beans/factory/support/SimpleInstantiationStrategy.java:157-169 | a factory method body, including any nested factory invocations, leaves the slot as it found it |
| FactoryMethodInvocation.RunFactoryCallSeesOwnFrame | spring-beans/src/main/java/org/springframework/beans/factory/support/SimpleInstantiationStrategy.java:157-169 | at any nesting depth, every getCurrentlyInvokedFactoryMethod() call sees the factory method whose code makes it |
| FactoryMethodInvocation.RunBodySeesOwnFrame | spring-beans/src/main/java/org/springframework/beans/factory/support/SimpleInstantiationStrategy.java:157-169 | while the slot names a factory method, its body's observations, before and after nested invocations, see it and nested ones see theirs |
| FactoryMethodInvocation.DuringCallSlotIsFactoryMethod | spring-beans/src/main/java/org/springframework/beans/factory/support/SimpleInstantiationStrategy.java:157-160 | during the invocation the slot equals the factory method being invoked |
| FactoryMethodInvocation.FactoryCallOutcome | spring-beans/src/main/java/org/springframework/beans/factory/support/SimpleInstantiationStrategy.java:141-184 | the three reflective failure classes and the successful return, case by case. The outcome does not depend on the prior slot value |
| FactoryMethodInvocation.NestedInvocationExample | spring-beans/src/main/java/org/springframework/beans/factory/support/SimpleInstantiationStrategy.java:157-169 | A invokes B: A sees A, B sees B, A sees A again, and the slot is empty after A returns |
| DefaultAopProxyFactory.HasNoUserSuppliedProxyInterfaces | spring-aop/src/main/java/org/springframework/aop/framework/DefaultAopProxyFactory.java:74-77 | true exactly when there is at most one proxied interface and none other than SpringProxy |
| DefaultAopProxyFactory.CreateCglibProxy | spring-aop/src/main/java/org/springframework/aop/framework/DefaultAopProxyFactory.java:84-88 | yields a CGLIB proxy over the unmodified configuration |
| DefaultAopProxyFactory.CreateAopProxy | spring-aop/src/main/java/org/springframework/aop/framework/DefaultAopProxyFactory.java:52-67 | fails exactly when a class proxy is requested and the target class is unknown. CGLIB exactly when requested and the target is a non-interface class. JDK exactly when not requested, or when the target is an interface. Every proxy wraps the unmodified configuration |
| DefaultAopProxyFactory.NoUserInterfacesMeansOnlyMarker | spring-aop/src/main/java/org/springframework/aop/framework/DefaultAopProxyFactory.java:74-77 | for distinct interfaces, "no user-supplied interfaces" holds exactly when no listed interface differs from SpringProxy |
| DefaultAopProxyFactory.ProxyFitsTarget | spring-aop/src/main/java/org/springframework/aop/framework/DefaultAopProxyFactory.java:52-67 | a CGLIB proxy is chosen only for a concrete target class. A JDK proxy is chosen only when there is a real interface: a user-supplied one or the target itself |
| DefaultAopProxyFactory.JdkPathIgnoresTargetClass | spring-aop/src/main/java/org/springframework/aop/framework/DefaultAopProxyFactory.java:53-66 | with optimize and proxyTargetClass off and a user interface given, the result is a JDK proxy whatever the target class, null included |
| DefaultAopProxyFactory.SelectionExamples | spring-aop/src/main/java/org/springframework/aop/framework/DefaultAopProxyFactory.java:52-77 | [SpringProxy, Foo] and [Foo] are user interfaces and [SpringProxy] is not. An empty list with a concrete target gives CGLIB, with an interface target JDK. proxyTargetClass with a concrete class gives CGLIB, with no target class an AopConfigException |

## Left out

- Java reflection is not modelled. The no-argument constructor lookup is a field of the bean class. Constructor invocation is a function parameter. `Method.invoke` is a `FactoryCall` script. `BeanUtils.instantiateClass` is not part of this model, and its failures pass through unchanged.
- `ReflectionUtils.makeAccessible`, the security-manager branches and `AccessController.doPrivileged` are left out. They give the same outcome as the direct path, and a `SecurityException` they might raise is not modelled.
- Concurrency is left out. The `synchronized` block on `constructorArgumentLock` is modelled as sequential access. The thread-local is modelled only for the running thread, as one shared `FactoryMethodSlot` object. Other threads' entries are not modelled, and neither is the guarantee for concurrent first resolutions.
- `resolvedConstructorOrFactoryMethod` is typed `Option<Constructor>`. In the source it is an `Object` that other parts of the container may fill with a factory method, in which case the cast would fail. Those parts are not part of this model.
- SimpleInstantiation.InstantiateTwice: "a new instance on every call" is captured only by giving each call its own instantiation oracle, because the model's instances are opaque values.
- SimpleInstantiation.SimpleInstantiationStrategy.InstantiateWithFactoryMethod: the bean definition, bean name and owner parameters are omitted. The source receives them on this path and never reads them.
- A factory method body re-enters the container only through the factory-method path of the same strategy. Another strategy on the same thread would share the same slot object. A failure of a nested invocation always propagates out of the body, which cannot catch it. A `NullPointerException` from a null receiver is not modelled.
- Method overrides are a constant set, because the strategy only tests it for emptiness.
- The method-injection hooks have only their default behaviour. The CGLIB subclassing strategy that overrides them is not part of this model.
- Actual JDK and CGLIB proxy construction, and loading the CGLIB classes late, are not modelled. The outcome is a tagged `AopProxy`. The proxy classes' own constructors can also raise `AopConfigException`, for instance for a configuration without advisors. Those classes are not part of this model, so the "exactly" in the `CreateAopProxy` row is about the selection logic only.
- Exception message texts are not modelled. Exceptions are kinds that carry the class, the factory method and the arguments.
