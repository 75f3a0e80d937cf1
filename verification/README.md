# Jupiter RPC dispatch core: worker-pool factory and request ids

This project models two pieces of the Jupiter RPC framework's dispatch layer
in Dafny and proves properties of them.

* **`ThreadPoolExecutorFactory`** (module `ExecutorFactory`, file
  `executor_factory.dfy`). It builds the worker pool for a role: consumer or
  provider. The factory reads the role's queue-type and rejection-handler
  system properties. It parses the queue type ignoring case, falling back to an
  array-backed queue. It builds a bounded queue of the role's capacity. It
  instantiates a configured rejection handler by reflection, falling back to a
  reporting policy named after the pool. It assembles a `ThreadPoolExecutor`
  with a fixed 120-second keep-alive. Every step is a lookup or a switch, so the
  model is a set of functions. The executor is the record of its constructor's
  arguments. Reflection is a registry from class name to what its constructors
  do. Java's `null` is `Option.None`. A thrown exception is `Result.Failure`.
* **`JRequestBytes`** (module `RequestBytes`, file `request_bytes.dfy`). This is
  the request envelope of the transport layer. It has a final invoke id and a
  mutable timestamp. Default construction draws the id from a process-wide
  counter that starts at 0. The counter advances by `getAndIncrement` with
  two's-complement wrap-around over the signed 64-bit range. The counter is a
  class with a mutable `value` and a ghost history of the ids handed out. The
  envelope is a class with a `const invokeId` and a `var timestamp`.
* `JavaText` (file `java_text.dfy`) holds the Java string operations the
  factory relies on: `String.equalsIgnoreCase` and `Strings.isNotBlank` (via
  `Character.isWhitespace`). `Wrappers` (file `wrappers.dfy`) holds `Option`
  and `Result`.

Inputs that come from outside the modelled code are parameters:

* the system properties, a map from key to string;
* the pool sizes `coreWorks`, `maxWorks` and `queueCapacity`, which the base
  class `AbstractExecutorFactory` computes (that file is not part of this
  model);
* the classes reflection can load.

The model keeps these details of the code as written:

* A custom handler's `String` constructor receives the fixed string
  `"processor"`, not the pool's name.
* The timestamp setter may be called any number of times.
* The JDK refuses some arguments: `ArrayBlockingQueue` and
  `LinkedBlockingQueue` throw `IllegalArgumentException` for a capacity that is
  not positive, and `ThreadPoolExecutor` throws it for bad pool sizes. The
  model keeps those errors and the left-to-right order in which
  `newExecutor`'s arguments are evaluated. So a misconfigured queue type never
  throws, and a misconfigured handler name throws only through the `Error`s
  described below; a capacity or pool sizes that the JDK refuses give
  `IllegalArgumentException`.
* The handler lookup catches `Exception`, not `Error`. `Class.newInstance`
  passes on whatever the no-argument constructor throws. So an `Error` from that
  constructor escapes. The same `Error` from a `String` constructor does not
  escape: `Constructor.newInstance` wraps it in an `InvocationTargetException`,
  which is caught. The model keeps this difference.

## Model

| member | source | states |
|---|---|---|
| `ExecutorFactory.FindByName` | jupiter-rpc/src/main/java/org/jupiter/rpc/executor/ThreadPoolExecutorFactory.java:121-126 | the search over the constants returns one of them whose name matches ignoring case, or none when no constant matches |
| `ExecutorFactory.Parse` | jupiter-rpc/src/main/java/org/jupiter/rpc/executor/ThreadPoolExecutorFactory.java:120-127 | a returned constant's name equals the argument ignoring case; null comes back when no name matches, and always for a null argument |
| `ExecutorFactory.NamesDistinctIgnoringCase` | jupiter-rpc/src/main/java/org/jupiter/rpc/executor/ThreadPoolExecutorFactory.java:116-118 | the two constant names do not match each other ignoring case, so at most one constant can match a string |
| `ExecutorFactory.ParseIff` | jupiter-rpc/src/main/java/org/jupiter/rpc/executor/ThreadPoolExecutorFactory.java:120-127 | `parse(s)` is constant `t` if and only if `s` equals `t`'s name ignoring case |
| `ExecutorFactory.ParseIgnoresCase` | jupiter-rpc/src/main/java/org/jupiter/rpc/executor/ThreadPoolExecutorFactory.java:122 | two strings equal ignoring case parse to the same result |
| `ExecutorFactory.ParseName` | jupiter-rpc/src/main/java/org/jupiter/rpc/executor/ThreadPoolExecutorFactory.java:120-127 | every constant parses back from its own `name()` |
| `ExecutorFactory.QueueType` | jupiter-rpc/src/main/java/org/jupiter/rpc/executor/ThreadPoolExecutorFactory.java:72-84 | when the role's property names a constant ignoring case, that constant is the result; when it is unset or names none, the default is |
| `ExecutorFactory.QueueTypeReadsOnlyRoleKey` | jupiter-rpc/src/main/java/org/jupiter/rpc/executor/ThreadPoolExecutorFactory.java:74-81 | the queue type of a role depends only on that role's queue-type property |
| `ExecutorFactory.WorkQueue` | jupiter-rpc/src/main/java/org/jupiter/rpc/executor/ThreadPoolExecutorFactory.java:56-70 | a queue is built exactly when the capacity is positive, otherwise `IllegalArgumentException`; it has the resolved kind and the role's capacity, and it is array-backed when the property is unset or unknown |
| `ExecutorFactory.CreateRejectedPolicy` | jupiter-rpc/src/main/java/org/jupiter/rpc/executor/ThreadPoolExecutorFactory.java:86-114 | a blank or absent name gives the default handler; any other handler is an instance of the configured, loadable handler class, built with `"processor"` exactly when the class has a working `String` constructor and without an argument exactly when it has no `String` constructor; a handler class with no `String` constructor and a working no-argument constructor yields that instance, and an error from that constructor escapes, which is the only escape |
| `ExecutorFactory.StringConstructorPreferred` | jupiter-rpc/src/main/java/org/jupiter/rpc/executor/ThreadPoolExecutorFactory.java:99-102 | a loadable handler class with a working `String` constructor is instantiated with `"processor"` |
| `ExecutorFactory.NoArgConstructorFallback` | jupiter-rpc/src/main/java/org/jupiter/rpc/executor/ThreadPoolExecutorFactory.java:103-104 | a loadable handler class without a `String` constructor and with a working no-argument constructor is instantiated without an argument; an error thrown by that constructor escapes |
| `ExecutorFactory.StringConstructorNotRetried` | jupiter-rpc/src/main/java/org/jupiter/rpc/executor/ThreadPoolExecutorFactory.java:100-105 | when a `String` constructor exists, the no-argument constructor does not influence the result, even if the `String` constructor throws, and nothing escapes |
| `ExecutorFactory.FailuresFallBackToDefault` | jupiter-rpc/src/main/java/org/jupiter/rpc/executor/ThreadPoolExecutorFactory.java:98-113 | an unknown class, a constructor throwing an exception, or an instance that is not a handler gives exactly the default handler |
| `ExecutorFactory.RejectedPolicyReadsOnlyRoleKey` | jupiter-rpc/src/main/java/org/jupiter/rpc/executor/ThreadPoolExecutorFactory.java:89-96 | the handler of a role depends only on that role's handler property |
| `ExecutorFactory.NewExecutor` | jupiter-rpc/src/main/java/org/jupiter/rpc/executor/ThreadPoolExecutorFactory.java:45-54 | a built pool has keep-alive 120 s, a thread factory named `name`, the role's sizes and work queue, and exactly the handler that `createRejectedPolicy` resolves with the reporting policy named `name` as its default; it is built exactly when the capacity is positive, the handler lookup does not escape and the sizes are valid; with a positive capacity an error escaping the handler lookup is thrown before the sizes are checked, and otherwise every failure is `IllegalArgumentException` |
| `ExecutorFactory.DefaultsWhenUnconfigured` | jupiter-rpc/src/main/java/org/jupiter/rpc/executor/ThreadPoolExecutorFactory.java:45-70 | with no handler configured and no valid queue type, the pool gets an array-backed queue and the reporting policy named after the pool |
| `RequestBytes.Increment` | jupiter-transport/jupiter-transport-api/src/main/java/org/jupiter/transport/payload/JRequestBytes.java:33-36 | the counter's step adds one below `Long.MAX_VALUE` and goes from `Long.MAX_VALUE` to `Long.MIN_VALUE` |
| `RequestBytes.AdvanceClosedForm` | jupiter-transport/jupiter-transport-api/src/main/java/org/jupiter/transport/payload/JRequestBytes.java:33-36 | within one cycle, k steps add k and subtract 2^64 once the sum passes `Long.MAX_VALUE` |
| `RequestBytes.AdvanceDistinct` | jupiter-transport/jupiter-transport-api/src/main/java/org/jupiter/transport/payload/JRequestBytes.java:33-37 | any two of 2^64 consecutive counter values differ |
| `RequestBytes.AdvanceFullCycle` | jupiter-transport/jupiter-transport-api/src/main/java/org/jupiter/transport/payload/JRequestBytes.java:33-36 | after exactly 2^64 steps the counter returns to its start, so ids are reused only after a full cycle |
| `RequestBytes.InvokeIdGenerator.constructor` | jupiter-transport/jupiter-transport-api/src/main/java/org/jupiter/transport/payload/JRequestBytes.java:37 | the counter starts at 0 with nothing handed out |
| `RequestBytes.InvokeIdGenerator.GetAndIncrement` | jupiter-transport/jupiter-transport-api/src/main/java/org/jupiter/transport/payload/JRequestBytes.java:37-45 | returns the current value and advances the counter by one step; within 2^64 draws the id differs from every earlier one |
| `RequestBytes.IssuedIdsDistinct` | jupiter-transport/jupiter-transport-api/src/main/java/org/jupiter/transport/payload/JRequestBytes.java:31-37 | the ids handed out, up to 2^64 of them, are pairwise distinct |
| `RequestBytes.JRequestBytes.constructor` | jupiter-transport/jupiter-transport-api/src/main/java/org/jupiter/transport/payload/JRequestBytes.java:44-46 | the default constructor takes the counter's current value as its id and advances the counter by exactly one step |
| `RequestBytes.JRequestBytes.WithInvokeId` | jupiter-transport/jupiter-transport-api/src/main/java/org/jupiter/transport/payload/JRequestBytes.java:48-50 | the id is exactly the argument and the counter is untouched |
| `RequestBytes.JRequestBytes.InvokeId` | jupiter-transport/jupiter-transport-api/src/main/java/org/jupiter/transport/payload/JRequestBytes.java:52-54 | returns the id fixed at construction |
| `RequestBytes.JRequestBytes.Timestamp` | jupiter-transport/jupiter-transport-api/src/main/java/org/jupiter/transport/payload/JRequestBytes.java:56-58 | returns the current timestamp |
| `RequestBytes.JRequestBytes.SetTimestamp` | jupiter-transport/jupiter-transport-api/src/main/java/org/jupiter/transport/payload/JRequestBytes.java:60-62 | sets the timestamp and changes nothing else: not the id, not the counter |
| `RequestBytes.FirstRequests` | jupiter-transport/jupiter-transport-api/src/main/java/org/jupiter/transport/payload/JRequestBytes.java:37-62 | in a fresh process the first default-constructed requests get ids 0 and 1, an explicit id is kept, and a timestamp read after a set returns the value set |
| `RequestBytes.WrapAround` | jupiter-transport/jupiter-transport-api/src/main/java/org/jupiter/transport/payload/JRequestBytes.java:33-37 | drawing at `Long.MAX_VALUE` yields it and moves on to `Long.MIN_VALUE` without failing |

## Left out

- Thread-pool runtime behaviour is not modelled: scheduling, growth from core to maximum size, reclaiming idle threads, and rejecting at saturation. Nor is thread creation by `NamedThreadFactory` or what `RejectedTaskPolicyWithReport` does on rejection. These live in `java.util.concurrent` and in files that are not part of this model. The model records only the arguments passed to the executor.
- The mechanics of reflection are replaced by a registry from class name to the behaviour of its constructors. Failures of `Class.forName` other than "not found" are not modelled. These are a static initialiser that fails and a linkage error, both `Error`s that would escape.
- Logging of a failed handler construction has no effect on results and is left out.
- `AbstractExecutorFactory` is not part of this model. Its `coreWorks`, `maxWorks`, `queueCapacity` and the literal property key strings are inputs. The keys are an enumeration of four distinct keys.
- ExecutorFactory.Parse: the model folds ASCII letters only. Java's `equalsIgnoreCase` compares the characters, then their upper case, then the lower case of the upper case, under full Unicode rules. So Java also matches dotless ı (U+0131), capital İ (U+0130) and the Kelvin sign (U+212A) to `I`, `I` and `K`; for such spellings the model's `Parse` returns null.
- Java strings are UTF-16 code units; the model's characters are Unicode scalar values, so unpaired surrogates are not represented.
- The atomicity of `AtomicLong` is not modelled. The counter is a sequential field of an object passed to the default constructor, not a static. Thread-safety is the concurrent aspect and is out of scope.
- The `BytesHolder` payload of an envelope is opaque and not part of this model.
- The pending-call table, the dispatcher and timeout handling do not appear in the modelled files and are not part of this model.
