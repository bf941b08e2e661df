/**
 * The default AOP proxy factory: from the proxy configuration it decides between a
 * JDK dynamic proxy (implementing the proxied interfaces) and a CGLIB proxy
 * (subclassing the target class), or reports that the target class is unknown.
 */
module DefaultAopProxyFactory {
  import opened Wrappers

  /** A class or interface as the proxy configuration refers to it. */
  datatype ClassRef = ClassRef(name: string, isInterface: bool)

  /** The marker interface every Spring proxy implements. */
  const SpringProxy: ClassRef := ClassRef("org.springframework.aop.SpringProxy", true)

  /** The part of `AdvisedSupport` the factory reads. */
  datatype AdvisedSupport = AdvisedSupport(optimize: bool, proxyTargetClass: bool,
                                           proxiedInterfaces: seq<ClassRef>, targetClass: Option<ClassRef>)

  /** The proxy chosen; either kind wraps the configuration it was created from. */
  datatype AopProxy = JdkDynamicAopProxy(config: AdvisedSupport) | CglibAopProxy(config: AdvisedSupport)

  /** Raised when a class proxy is called for but no target class can be determined. */
  datatype AopConfigException = TargetClassUndetermined

  /** An interface other than the SpringProxy marker is among the proxied interfaces. */
  predicate UserInterfaceSupplied(config: AdvisedSupport) {
    exists i | 0 <= i < |config.proxiedInterfaces| :: config.proxiedInterfaces[i] != SpringProxy
  }

  /** `AdvisedSupport` adds an interface only when it is not already listed. */
  predicate DistinctInterfaces(config: AdvisedSupport) {
    forall i, j | 0 <= i < j < |config.proxiedInterfaces| ::
      config.proxiedInterfaces[i] != config.proxiedInterfaces[j]
  }

  /** No proxy interfaces were given, or only the SpringProxy marker. */
  function HasNoUserSuppliedProxyInterfaces(config: AdvisedSupport): (b: bool)
    ensures b <==> |config.proxiedInterfaces| <= 1 && !UserInterfaceSupplied(config)
  {
    var interfaces := config.proxiedInterfaces;
    |interfaces| == 0 || (|interfaces| == 1 && SpringProxy == interfaces[0])
  }

  /** The condition under which a class proxy is considered. */
  predicate ClassProxyRequested(config: AdvisedSupport) {
    config.optimize || config.proxyTargetClass || HasNoUserSuppliedProxyInterfaces(config)
  }

  /** Creates the CGLIB proxy; kept apart so the CGLIB library is needed only on this path. */
  function CreateCglibProxy(advisedSupport: AdvisedSupport): (p: AopProxy)
    ensures p.CglibAopProxy? && p.config == advisedSupport
  {
    CglibAopProxy(advisedSupport)
  }

  /**
   * Chooses the proxy for `config`. A class proxy is considered when optimisation is
   * on, target-class proxying is asked for, or no user interface is given; it then
   * needs a target class, and an interface target still gets a JDK proxy.
   */
  function CreateAopProxy(config: AdvisedSupport): (r: Result<AopProxy, AopConfigException>)
    ensures r.Success? ==> r.value.config == config
    ensures r.Failure? <==> ClassProxyRequested(config) && config.targetClass.None?
    ensures r.Success? && r.value.CglibAopProxy? <==>
      ClassProxyRequested(config) && config.targetClass.Some? && !config.targetClass.value.isInterface
    ensures r.Success? && r.value.JdkDynamicAopProxy? <==>
      !ClassProxyRequested(config) || (config.targetClass.Some? && config.targetClass.value.isInterface)
  {
    if config.optimize || config.proxyTargetClass || HasNoUserSuppliedProxyInterfaces(config) then
      match config.targetClass
      case None => Failure(TargetClassUndetermined)
      case Some(targetClass) =>
        if targetClass.isInterface then
          Success(JdkDynamicAopProxy(config))
        else
          Success(CreateCglibProxy(config))
    else
      Success(JdkDynamicAopProxy(config))
  }

  /** With distinct interfaces, "no user-supplied interfaces" means no interface but the marker. */
  lemma NoUserInterfacesMeansOnlyMarker(config: AdvisedSupport)
    requires DistinctInterfaces(config)
    ensures HasNoUserSuppliedProxyInterfaces(config) <==> !UserInterfaceSupplied(config)
  {
    var interfaces := config.proxiedInterfaces;
    if |interfaces| > 1 {
      // two distinct entries cannot both be the marker
      assert interfaces[0] != interfaces[1];
    }
  }

  /**
   * The chosen mechanism fits the configuration: a CGLIB proxy only for a concrete
   * target class, a JDK proxy only when there is a real interface to implement,
   * either a user-supplied one or the target class itself.
   */
  lemma ProxyFitsTarget(config: AdvisedSupport)
    requires DistinctInterfaces(config)
    ensures var r := CreateAopProxy(config);
      && (r.Success? && r.value.CglibAopProxy? ==> !config.targetClass.value.isInterface)
      && (r.Success? && r.value.JdkDynamicAopProxy? ==>
            UserInterfaceSupplied(config) || (config.targetClass.Some? && config.targetClass.value.isInterface))
  {
    NoUserInterfacesMeansOnlyMarker(config);
  }

  /** Without a reason for a class proxy the target class is never consulted, even if unknown. */
  lemma JdkPathIgnoresTargetClass(config: AdvisedSupport, other: Option<ClassRef>)
    requires !config.optimize && !config.proxyTargetClass && !HasNoUserSuppliedProxyInterfaces(config)
    ensures CreateAopProxy(config) == Success(JdkDynamicAopProxy(config))
    ensures CreateAopProxy(config.(targetClass := other)) == Success(JdkDynamicAopProxy(config.(targetClass := other)))
  {
  }

  /** Proxy-interface lists and the decisions they lead to. */
  lemma SelectionExamples(foo: ClassRef, concrete: ClassRef)
    requires foo != SpringProxy && foo.isInterface && !concrete.isInterface
    ensures !HasNoUserSuppliedProxyInterfaces(AdvisedSupport(false, false, [SpringProxy, foo], None))
    ensures !HasNoUserSuppliedProxyInterfaces(AdvisedSupport(false, false, [foo], None))
    ensures HasNoUserSuppliedProxyInterfaces(AdvisedSupport(false, false, [SpringProxy], None))
    ensures var c := AdvisedSupport(false, false, [], Some(concrete)); CreateAopProxy(c) == Success(CglibAopProxy(c))
    ensures var c := AdvisedSupport(false, false, [], Some(foo)); CreateAopProxy(c) == Success(JdkDynamicAopProxy(c))
    ensures var c := AdvisedSupport(false, false, [foo], None); CreateAopProxy(c) == Success(JdkDynamicAopProxy(c))
    ensures var c := AdvisedSupport(false, true, [foo], Some(concrete)); CreateAopProxy(c) == Success(CglibAopProxy(c))
    ensures CreateAopProxy(AdvisedSupport(false, true, [foo], None)) == Failure(TargetClassUndetermined)
  {
  }
}
