/**
 * The worker-pool factory of the RPC layer (`ThreadPoolExecutorFactory`):
 * it turns the per-role configuration into the parameters of a
 * `ThreadPoolExecutor`. Every step is a lookup or a switch with a fallback,
 * so the model is a set of functions over the configuration, and the
 * executor itself is the record of what would be passed to its constructor.
 */
module ExecutorFactory {
  import opened Wrappers
  import opened JavaText

  /** The role a pool serves: the calling side or the serving side of an RPC. */
  datatype Target = Consumer | Provider

  /** The two queue disciplines a pool may use, in declaration order. */
  datatype WorkerQueueType = LinkedBlockingQueue | ArrayBlockingQueue

  /** `WorkerQueueType.values()`. */
  function Values(): seq<WorkerQueueType> {
    [LinkedBlockingQueue, ArrayBlockingQueue]
  }

  /** `WorkerQueueType.name()`. */
  function Name(t: WorkerQueueType): string {
    match t
    case LinkedBlockingQueue => "LINKED_BLOCKING_QUEUE"
    case ArrayBlockingQueue => "ARRAY_BLOCKING_QUEUE"
  }

  /** The system-property keys the factory reads, one of each kind per role. */
  datatype ConfigKey =
    | ConsumerExecutorQueueType
    | ProviderExecutorQueueType
    | ConsumerThreadPoolRejectedHandler
    | ProviderThreadPoolRejectedHandler

  /** The process's system properties; a key that is absent reads as null. */
  type SystemProperties = map<ConfigKey, string>

  /** `SystemPropertyUtil.get(key)`. */
  function Get(props: SystemProperties, key: ConfigKey): Option<string> {
    if key in props then Some(props[key]) else None
  }

  /** The sizes `coreWorks`, `maxWorks` and `queueCapacity` that the base factory computes for a role. */
  datatype Sizing = Sizing(coreWorks: int, maxWorks: int, queueCapacity: int)

  /** How a constructor behaves when reflection invokes it. */
  datatype Construction = Constructs | ThrowsException | ThrowsError

  /**
   * What reflection can see of a loadable class: whether its instances are
   * `RejectedExecutionHandler`s, its public constructor taking one `String`
   * (if any) and its no-argument constructor usable by `Class.newInstance`
   * (if any). A constructor that exists but cannot be accessed behaves as one
   * that throws an exception, since reflection then throws `IllegalAccessException`.
   */
  datatype LoadedClass = LoadedClass(isHandler: bool, stringCtor: Option<Construction>, noArgCtor: Option<Construction>)

  /** The classes `Class.forName` can load, by fully qualified name; any other name is not found. */
  type ClassRegistry = map<string, LoadedClass>

  /** Everything the factory reads from outside: properties, sizes per role and loadable classes. */
  datatype Environment = Environment(props: SystemProperties, sizing: Target -> Sizing, classes: ClassRegistry)

  /** A bounded blocking queue as built by the factory. */
  datatype BlockingQueue = BlockingQueue(kind: WorkerQueueType, capacity: int)

  /** A rejection handler: the default reporting policy, or an instance of a configured class. */
  datatype Handler =
    | RejectedTaskPolicyWithReport(poolName: string)
    | Custom(className: string, ctorArg: Option<string>)

  /** What can escape from the factory. */
  datatype Throwable =
    | IllegalArgumentException
    | UncaughtError(className: string)

  /** The arguments of the `ThreadPoolExecutor` that `newExecutor` constructs. */
  datatype ThreadPoolExecutor = ThreadPoolExecutor(
    corePoolSize: int,
    maximumPoolSize: int,
    keepAliveSeconds: int,
    workQueue: BlockingQueue,
    threadFactoryName: string,
    handler: Handler)

  /** Idle threads above the core size are reclaimed after this many seconds. */
  const KEEP_ALIVE_SECONDS: int := 120

  /** The argument handed to a handler's `String` constructor. */
  const HANDLER_CTOR_ARG: string := "processor"

  /** The first of `types` whose name matches `name` ignoring case: the loop of `parse`. */
  function FindByName(types: seq<WorkerQueueType>, name: Option<string>): (r: Option<WorkerQueueType>)
    ensures r.Some? ==> r.value in types && EqualsIgnoreCase(Name(r.value), name)
    ensures r.None? ==> forall k :: 0 <= k < |types| ==> !EqualsIgnoreCase(Name(types[k]), name)
  {
    if types == [] then None
    else if EqualsIgnoreCase(Name(types[0]), name) then Some(types[0])
    else FindByName(types[1..], name)
  }

  /** `WorkerQueueType.parse`: the constant named `name` ignoring case, or null. */
  function Parse(name: Option<string>): (r: Option<WorkerQueueType>)
    ensures r.Some? ==> EqualsIgnoreCase(Name(r.value), name)
    ensures r.None? ==> forall t :: !EqualsIgnoreCase(Name(t), name)
    ensures name.None? ==> r.None?
  {
    assert Values()[0] == LinkedBlockingQueue && Values()[1] == ArrayBlockingQueue;
    FindByName(Values(), name)
  }

  /** No two constant names match each other ignoring case. */
  lemma NamesDistinctIgnoringCase(t: WorkerQueueType, u: WorkerQueueType)
    requires EqualsIgnoreCase(Name(t), Some(Name(u)))
    ensures t == u
  {
  }

  /** `parse` returns a constant exactly when the string is that constant's name ignoring case. */
  lemma {:induction false} ParseIff(s: string, t: WorkerQueueType)
    ensures Parse(Some(s)) == Some(t) <==> EqualsIgnoreCase(Name(t), Some(s))
  {
    var r := Parse(Some(s));
    if EqualsIgnoreCase(Name(t), Some(s)) {
      var u := r.value;
      EqualsIgnoreCaseSymmetric(Name(u), s);
      EqualsIgnoreCaseTransitive(Name(t), s, Name(u));
      NamesDistinctIgnoringCase(t, u);
    }
  }

  /** Strings that match ignoring case parse to the same result. */
  lemma {:induction false} ParseIgnoresCase(s: string, s': string)
    requires EqualsIgnoreCase(s, Some(s'))
    ensures Parse(Some(s)) == Parse(Some(s'))
  {
    EqualsIgnoreCaseSymmetric(s, s');
    forall t | EqualsIgnoreCase(Name(t), Some(s))
      ensures EqualsIgnoreCase(Name(t), Some(s'))
    {
      EqualsIgnoreCaseTransitive(Name(t), s, s');
    }
    forall t | EqualsIgnoreCase(Name(t), Some(s'))
      ensures EqualsIgnoreCase(Name(t), Some(s))
    {
      EqualsIgnoreCaseTransitive(Name(t), s', s);
    }
    var r := Parse(Some(s));
    if r.Some? {
      ParseIff(s', r.value);
    } else if Parse(Some(s')).Some? {
      ParseIff(s, Parse(Some(s')).value);
    }
  }

  /** Every constant parses back from its own name. */
  lemma ParseName(t: WorkerQueueType)
    ensures Parse(Some(Name(t))) == Some(t)
  {
    ParseIff(Name(t), t);
  }

  /** The property key naming a role's queue type. */
  function QueueTypeKey(target: Target): ConfigKey {
    match target
    case Consumer => ConsumerExecutorQueueType
    case Provider => ProviderExecutorQueueType
  }

  /** The property key naming a role's rejection handler class. */
  function RejectedHandlerKey(target: Target): ConfigKey {
    match target
    case Consumer => ConsumerThreadPoolRejectedHandler
    case Provider => ProviderThreadPoolRejectedHandler
  }

  /** `queueType`: the role's configured queue type, or `defaultType` when it is unset or names no constant. */
  function QueueType(target: Target, defaultType: WorkerQueueType, props: SystemProperties): (r: WorkerQueueType)
    ensures forall t :: EqualsIgnoreCase(Name(t), Get(props, QueueTypeKey(target))) ==> r == t
    ensures (forall t :: !EqualsIgnoreCase(Name(t), Get(props, QueueTypeKey(target)))) ==> r == defaultType
  {
    var parsed := match target
      case Consumer => Parse(Get(props, ConsumerExecutorQueueType))
      case Provider => Parse(Get(props, ProviderExecutorQueueType));
    forall t | EqualsIgnoreCase(Name(t), Get(props, QueueTypeKey(target))) ensures parsed == Some(t) {
      ParseIff(props[QueueTypeKey(target)], t);
    }
    if parsed.None? then defaultType else parsed.value
  }

  /** A role's queue type depends on that role's queue-type property and on nothing else. */
  lemma QueueTypeReadsOnlyRoleKey(target: Target, defaultType: WorkerQueueType, p: SystemProperties, q: SystemProperties)
    requires Get(p, QueueTypeKey(target)) == Get(q, QueueTypeKey(target))
    ensures QueueType(target, defaultType, p) == QueueType(target, defaultType, q)
  {
  }

  /** `workQueue`: a queue of the role's resolved kind (array-backed by default) and configured capacity. */
  function WorkQueue(target: Target, env: Environment): (r: Result<BlockingQueue, Throwable>)
    ensures r.Success? <==> env.sizing(target).queueCapacity > 0
    ensures r.Failure? ==> r.error == IllegalArgumentException
    ensures r.Success? ==> r.value.capacity == env.sizing(target).queueCapacity
    ensures r.Success? ==> r.value.kind == QueueType(target, ArrayBlockingQueue, env.props)
    ensures r.Success? && (forall t :: !EqualsIgnoreCase(Name(t), Get(env.props, QueueTypeKey(target)))) ==>
              r.value.kind == ArrayBlockingQueue
  {
    var queueType := QueueType(target, ArrayBlockingQueue, env.props);
    var queueCapacity := env.sizing(target).queueCapacity;
    // Both queue constructors refuse a capacity that is not positive.
    if queueCapacity <= 0 then Failure(IllegalArgumentException)
    else match queueType
      case LinkedBlockingQueue => Success(BlockingQueue(LinkedBlockingQueue, queueCapacity))
      case ArrayBlockingQueue => Success(BlockingQueue(ArrayBlockingQueue, queueCapacity))
  }

  /**
   * `createRejectedPolicy`: instantiate the role's configured handler class,
   * through its `String` constructor when it has one and through its no-argument
   * constructor otherwise, and fall back to `defaultHandler` on every exception.
   * The one failure that is not an exception and escapes is an error thrown by
   * the no-argument constructor, which `Class.newInstance` passes on unwrapped.
   */
  function CreateRejectedPolicy(target: Target, defaultHandler: Handler, props: SystemProperties, classes: ClassRegistry)
    : (r: Result<Handler, Throwable>)
    ensures !IsNotBlank(Get(props, RejectedHandlerKey(target))) ==> r == Success(defaultHandler)
    ensures r.Success? && r.value != defaultHandler ==>
              && r.value.Custom?
              && Get(props, RejectedHandlerKey(target)) == Some(r.value.className)
              && r.value.className in classes
              && classes[r.value.className].isHandler
              && (r.value.ctorArg == Some(HANDLER_CTOR_ARG) <==> classes[r.value.className].stringCtor == Some(Constructs))
              && (r.value.ctorArg == None <==> classes[r.value.className].stringCtor == None)
    ensures var n := Get(props, RejectedHandlerKey(target));
            IsNotBlank(n) && n.value in classes && classes[n.value].stringCtor == None ==>
              && (classes[n.value].noArgCtor == Some(Constructs) && classes[n.value].isHandler ==>
                    r == Success(Custom(n.value, None)))
              && (classes[n.value].noArgCtor == Some(ThrowsError) ==> r == Failure(UncaughtError(n.value)))
    ensures r.Failure? ==>
              && r.error.UncaughtError?
              && Get(props, RejectedHandlerKey(target)) == Some(r.error.className)
              && r.error.className in classes
              && classes[r.error.className].stringCtor == None
              && classes[r.error.className].noArgCtor == Some(ThrowsError)
  {
    var handlerClass := match target
      case Consumer => Get(props, ConsumerThreadPoolRejectedHandler)
      case Provider => Get(props, ProviderThreadPoolRejectedHandler);
    if !IsNotBlank(handlerClass) then Success(defaultHandler)
    else
      var name := handlerClass.value;
      if name !in classes then
        // ClassNotFoundException, caught
        Success(defaultHandler)
      else
        var cls := classes[name];
        match cls.stringCtor
        case Some(ctor) =>
          // anything the constructor throws arrives wrapped in an InvocationTargetException
          // and is caught, and so is the ClassCastException of a non-handler instance
          if ctor == Constructs && cls.isHandler then Success(Custom(name, Some(HANDLER_CTOR_ARG)))
          else Success(defaultHandler)
        case None =>
          // NoSuchMethodException: try the no-argument constructor
          match cls.noArgCtor
          case None => Success(defaultHandler)
          case Some(Constructs) => if cls.isHandler then Success(Custom(name, None)) else Success(defaultHandler)
          case Some(ThrowsException) => Success(defaultHandler)
          case Some(ThrowsError) => Failure(UncaughtError(name))
  }

  /** A class with a working `String` constructor yields an instance built with the argument "processor". */
  lemma StringConstructorPreferred(target: Target, defaultHandler: Handler, props: SystemProperties, classes: ClassRegistry, name: string)
    requires Get(props, RejectedHandlerKey(target)) == Some(name) && IsNotBlank(Some(name))
    requires name in classes && classes[name].isHandler && classes[name].stringCtor == Some(Constructs)
    ensures CreateRejectedPolicy(target, defaultHandler, props, classes) == Success(Custom(name, Some(HANDLER_CTOR_ARG)))
  {
  }

  /**
   * A loadable handler class without a `String` constructor is instantiated
   * through its no-argument constructor; an error that constructor throws escapes.
   */
  lemma NoArgConstructorFallback(target: Target, defaultHandler: Handler, props: SystemProperties, classes: ClassRegistry, name: string)
    requires Get(props, RejectedHandlerKey(target)) == Some(name) && IsNotBlank(Some(name))
    requires name in classes && classes[name].stringCtor == None
    ensures classes[name].noArgCtor == Some(Constructs) && classes[name].isHandler ==>
              CreateRejectedPolicy(target, defaultHandler, props, classes) == Success(Custom(name, None))
    ensures classes[name].noArgCtor == Some(ThrowsError) ==>
              CreateRejectedPolicy(target, defaultHandler, props, classes) == Failure(UncaughtError(name))
  {
  }

  /** When a `String` constructor exists the no-argument constructor is never consulted, and nothing escapes. */
  lemma StringConstructorNotRetried(target: Target, defaultHandler: Handler, props: SystemProperties, classes: ClassRegistry, name: string, noArg: Option<Construction>)
    requires Get(props, RejectedHandlerKey(target)) == Some(name)
    requires name in classes && classes[name].stringCtor.Some?
    ensures var other := classes[name := classes[name].(noArgCtor := noArg)];
            CreateRejectedPolicy(target, defaultHandler, props, classes) == CreateRejectedPolicy(target, defaultHandler, props, other)
    ensures CreateRejectedPolicy(target, defaultHandler, props, classes).Success?
  {
  }

  /** An unknown class, a constructor throwing an exception, or an instance of the wrong type all yield the default. */
  lemma FailuresFallBackToDefault(target: Target, defaultHandler: Handler, props: SystemProperties, classes: ClassRegistry, name: string)
    requires Get(props, RejectedHandlerKey(target)) == Some(name)
    requires name !in classes
          || (!classes[name].isHandler && classes[name].noArgCtor != Some(ThrowsError))
          || (classes[name].stringCtor.Some? && classes[name].stringCtor != Some(Constructs))
          || (classes[name].stringCtor == None && classes[name].noArgCtor in {None, Some(ThrowsException)})
    ensures CreateRejectedPolicy(target, defaultHandler, props, classes) == Success(defaultHandler)
  {
  }

  /** A role's handler depends on that role's handler property and on nothing else in the properties. */
  lemma RejectedPolicyReadsOnlyRoleKey(target: Target, defaultHandler: Handler, p: SystemProperties, q: SystemProperties, classes: ClassRegistry)
    requires Get(p, RejectedHandlerKey(target)) == Get(q, RejectedHandlerKey(target))
    ensures CreateRejectedPolicy(target, defaultHandler, p, classes) == CreateRejectedPolicy(target, defaultHandler, q, classes)
  {
  }

  /**
   * `newExecutor`: the pool for `target`, with the role's sizes, a keep-alive of
   * 120 seconds, the role's work queue, a thread factory named `name` and the
   * resolved rejection handler, whose default is a reporting policy named `name`.
   * The arguments are evaluated left to right, so a bad queue capacity is
   * reported before the handler is resolved, and the executor's own check of
   * the pool sizes comes last.
   */
  function NewExecutor(target: Target, name: string, env: Environment): (r: Result<ThreadPoolExecutor, Throwable>)
    ensures r.Success? ==>
              && r.value.keepAliveSeconds == KEEP_ALIVE_SECONDS
              && r.value.threadFactoryName == name
              && r.value.corePoolSize == env.sizing(target).coreWorks
              && r.value.maximumPoolSize == env.sizing(target).maxWorks
              && 0 <= r.value.corePoolSize <= r.value.maximumPoolSize && 0 < r.value.maximumPoolSize
              && Success(r.value.workQueue) == WorkQueue(target, env)
              && Success(r.value.handler) == CreateRejectedPolicy(target, RejectedTaskPolicyWithReport(name), env.props, env.classes)
    ensures r.Success? <==>
              && env.sizing(target).queueCapacity > 0
              && CreateRejectedPolicy(target, RejectedTaskPolicyWithReport(name), env.props, env.classes).Success?
              && 0 <= env.sizing(target).coreWorks <= env.sizing(target).maxWorks
              && 0 < env.sizing(target).maxWorks
    ensures env.sizing(target).queueCapacity <= 0 ==> r == Failure(IllegalArgumentException)
    ensures var h := CreateRejectedPolicy(target, RejectedTaskPolicyWithReport(name), env.props, env.classes);
            env.sizing(target).queueCapacity > 0 && h.Failure? ==> r == Failure(h.error)
    ensures r.Failure? && CreateRejectedPolicy(target, RejectedTaskPolicyWithReport(name), env.props, env.classes).Success? ==>
              r.error == IllegalArgumentException
  {
    var sizing := env.sizing(target);
    var queue := WorkQueue(target, env);
    if queue.Failure? then Failure(queue.error)
    else
      var handler := CreateRejectedPolicy(target, RejectedTaskPolicyWithReport(name), env.props, env.classes);
      if handler.Failure? then Failure(handler.error)
      else if sizing.coreWorks < 0 || sizing.maxWorks <= 0 || sizing.maxWorks < sizing.coreWorks then
        Failure(IllegalArgumentException)
      else
        Success(ThreadPoolExecutor(sizing.coreWorks, sizing.maxWorks, KEEP_ALIVE_SECONDS,
                                   queue.value, name, handler.value))
  }

  /**
   * With a positive capacity, valid sizes and no handler configured, the pool is
   * built with the reporting policy named after it and an array-backed queue
   * when the queue type is unset or unknown.
   */
  lemma DefaultsWhenUnconfigured(target: Target, name: string, env: Environment)
    requires RejectedHandlerKey(target) !in env.props
    requires forall t :: !EqualsIgnoreCase(Name(t), Get(env.props, QueueTypeKey(target)))
    requires env.sizing(target).queueCapacity > 0
    requires 0 <= env.sizing(target).coreWorks <= env.sizing(target).maxWorks && 0 < env.sizing(target).maxWorks
    ensures NewExecutor(target, name, env) == Success(ThreadPoolExecutor(
              env.sizing(target).coreWorks, env.sizing(target).maxWorks, KEEP_ALIVE_SECONDS,
              BlockingQueue(ArrayBlockingQueue, env.sizing(target).queueCapacity),
              name, RejectedTaskPolicyWithReport(name)))
  {
  }
}
