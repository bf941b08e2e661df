/**
 * The entities the instantiation strategy works on: classes and their members as
 * reflection reports them, the exceptions of the bean container, and the root bean
 * definition with its cache of the resolved constructor.
 */
module BeanDefinitions {
  import opened Wrappers

  type ClassName = string

  /** An opaque object: a bean instance, a factory bean or a constructor argument. */
  datatype Value = Value(id: nat)

  /** The owning bean factory; the strategy only passes it on to its hooks. */
  datatype BeanFactory = BeanFactory(id: nat)

  /** A reflective constructor of `declaringClass`. */
  datatype Constructor = Constructor(declaringClass: ClassName, parameterCount: nat)

  /** A reflective method of `declaringClass`, here always a factory method. */
  datatype Method = Method(declaringClass: ClassName, name: string)

  /**
   * A bean class as reflection sees it. `declaredNoArgConstructor` is what
   * `getDeclaredConstructor()` answers: the no-argument constructor, of any
   * visibility, or None when the lookup throws.
   */
  datatype BeanClass = BeanClass(name: ClassName, isInterface: bool, declaredNoArgConstructor: Option<Constructor>)
  {
    /** Reflection only ever reports a no-argument constructor declared by this very class. */
    predicate WellFormed() {
      declaredNoArgConstructor.Some? ==>
        declaredNoArgConstructor.value.declaringClass == name &&
        declaredNoArgConstructor.value.parameterCount == 0
    }
  }

  /** A lookup-method or replaced-method declaration on a bean definition. */
  datatype MethodOverride =
    | LookupOverride(methodName: string, beanName: string)
    | ReplaceOverride(methodName: string, methodReplacerBeanName: string)

  /** Anything a factory method body may throw. */
  datatype Throwable =
    | ApplicationException(id: nat)
    | ContainerException(error: BeansError)

  /** Why a `BeanInstantiationException` was raised. */
  datatype InstantiationProblem =
    | SpecifiedClassIsInterface
    | NoDefaultConstructorFound
    | ConstructorInvocationFailed(cause: Throwable)

  /** Why a `BeanDefinitionStoreException` was raised on the factory-method path. */
  datatype StoreProblem =
    | IllegalArguments(args: seq<Value>)
    | CannotAccess
    | FactoryMethodThrew(cause: Throwable)

  /** The exceptions the strategy raises, one constructor per exception class. */
  datatype BeansError =
    | BeanInstantiationException(beanClass: ClassName, reason: InstantiationProblem)
    | UnsupportedOperationException
    | BeanDefinitionStoreException(factoryMethod: Method, cause: StoreProblem)

  /**
   * `BeanUtils.instantiateClass(ctor, args)`: creates an instance through the
   * constructor or fails. That method only ever fails with a
   * `BeanInstantiationException`, but this type does not enforce it; the strategy
   * passes any failure on unchanged.
   */
  type ClassInstantiator = (Constructor, seq<Value>) -> Result<Value, BeansError>

  /**
   * A merged bean definition. Only the emptiness of `methodOverrides` and the
   * cache slot `resolvedConstructorOrFactoryMethod` matter to the strategy.
   */
  class RootBeanDefinition {
    const beanClass: BeanClass
    const methodOverrides: set<MethodOverride>
    var resolvedConstructorOrFactoryMethod: Option<Constructor>

    /** A cached constructor, once there is one, belongs to the bean class. */
    predicate CacheConsistent()
      reads this
    {
      resolvedConstructorOrFactoryMethod.Some? ==>
        resolvedConstructorOrFactoryMethod.value.declaringClass == beanClass.name
    }

    constructor (beanClass: BeanClass, methodOverrides: set<MethodOverride>)
      ensures this.beanClass == beanClass && this.methodOverrides == methodOverrides
      ensures resolvedConstructorOrFactoryMethod == None
      ensures CacheConsistent()
    {
      this.beanClass := beanClass;
      this.methodOverrides := methodOverrides;
      resolvedConstructorOrFactoryMethod := None;
    }
  }
}
