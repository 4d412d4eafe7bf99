# JMockDataManager as a verified Dafny model

jmockdata generates sample values for Java types. `JMockDataManager` keeps its
registry of value generators ("mock data beans"). It owns three pieces of state:

- a table from a class key (a string) to a generator;
- an ordered list of interceptors;
- the maximum self-reference level that composite generators obey.

Its constructor seeds the table with built-in generators for the primitive,
boxed, array, `String`, `BigDecimal`, `BigInteger` and `Date` classes. Each of
them is wrapped in a proxy. The constructor then puts an unwrapped default-null
generator under the reserved key `"$_DEFAULT"`. Callers register their own
generators and look generators up by class. A lookup answers the registered
entry, or else a new composite ("bean") generator for that class. Callers also
register interceptor classes, which the manager instantiates and appends to
its list.

The model has three modules:

- `MockTypes` (types.dfy): class descriptors (`JClass`), generic type
  descriptors (`JType`), generators (`Gen`: `BuiltIn`, `Custom`, `Proxy`, `Bean`,
  `DefaultNull`), interceptors and the reserved key.
- `Registry` (registry.dfy): the table and the interceptor list as values.
  `Registered` is what one `registerMockData` call does to the table.
  `Constructed` is what one `interceptors(Class...)` call appends. `SeedTable`
  is the table the constructor builds. The lemmas state what these mean and
  how they compose.
- `Manager` (manager.dfy): class `JMockDataManager`, with the table, the list
  and the level as mutable fields. The loops of `registerMockData` and
  `interceptors(Class...)` become `for` loops whose invariants tie the fields
  to the `Registry` functions. The lookups are functions that read the object.

The three reflective operations the manager calls are not part of this model:
`ReflectionUtil.getClassName`, `Class.getName` and `ReflectionUtil.newInstance`.
They are constructor parameters of the class, kept as three `const` fields:

- `className`: the key that registration and lookup use;
- `getName`: the key that `isHas` uses;
- `newInstance`: answers `None` where the Java call throws one of the three
  exceptions the manager catches (`ClassNotFoundException`,
  `InstantiationException`, `IllegalAccessException`).

Every property below therefore holds whatever those operations do. `className`
and `getName` stay distinct, as in the code.

Java `null` for the class arrays of `registerMockData` and
`interceptors(Class...)` is modelled as `None`. The Java `proxy` helper is the
`Proxy` constructor of `Gen`. The getters `interceptors()`, `getInterceptors`,
`getMockDataMappings` and `getMaxSelfRefLevel` are plain field reads
(`Interceptors`, `GetInterceptors`, `GetMockDataMappings`, `GetMaxSelfRefLevel`).
The setters' contracts are stated through them.

The constructor makes the source's 32 `registerMockData` calls in the source's
order, grouped per type by two helper methods (`RegisterPrimitiveBuiltIns`,
`RegisterReferenceBuiltIns`). The grouping keeps each proof small. It does not
change which registrations happen or their order.

Three things the code does that a reader might not expect, all modelled:

- `getMockDataBean` answers the stored entry or a new bean, never the
  default-null generator, except for a class whose registry key is
  `"$_DEFAULT"`. The default-null generator otherwise comes only from
  `getDefaultMockDataBean`.
- `isHas` keys on `Class.getName`, while registration and lookup key on
  `ReflectionUtil.getClassName` (see `Registry.IsHasAfterRegister`).
- When an interceptor cannot be constructed, its stack trace is printed and
  the loop continues with the next class (see `Registry.ConstructedSkipsFailure`).

## Model

| member | source | states |
|---|---|---|
| `Registry.RegisteredSpec` | src/main/java/com/github/jsonzou/jmockdata/mockdata/JMockDataManager.java:186-191 | after registering g for classes cs, the table's keys are the old keys plus the keys of cs; each key of cs holds the proxy of g; every other key keeps its old entry |
| `Registry.RegisteredConcat` | src/main/java/com/github/jsonzou/jmockdata/mockdata/JMockDataManager.java:186-191 | registering classes a and then classes b in two calls gives the same table as registering a + b in one call |
| `Registry.RegisteredIdempotent` | src/main/java/com/github/jsonzou/jmockdata/mockdata/JMockDataManager.java:189 | repeating a registration leaves the table as one registration left it |
| `Registry.LookupAfterRegister` | src/main/java/com/github/jsonzou/jmockdata/mockdata/JMockDataManager.java:136-142 | after a registration, looking up any registered class answers the proxy of the new generator, whatever the table held before |
| `Registry.LookupUnaffected` | src/main/java/com/github/jsonzou/jmockdata/mockdata/JMockDataManager.java:136-142 | a lookup of a key the registration did not name answers what it answered before |
| `Registry.ReRegisterOverwrites` | src/main/java/com/github/jsonzou/jmockdata/mockdata/JMockDataManager.java:189 | when a class is registered again with another generator, a lookup answers the new proxy and never the old one |
| `Registry.IsHasAfterRegister` | src/main/java/com/github/jsonzou/jmockdata/mockdata/JMockDataManager.java:176-178 | after a registration, a class's binary name is in the table iff it was there already or it equals the registry key of one of the registered classes; so `isHas` of a registered class is guaranteed only when its two keys agree |
| `Registry.Constructed` | src/main/java/com/github/jsonzou/jmockdata/mockdata/JMockDataManager.java:209-223 | the interceptors appended are at most as many as the classes given, and each is the instance created for one of them |
| `Registry.ConstructedConcat` | src/main/java/com/github/jsonzou/jmockdata/mockdata/JMockDataManager.java:211-221 | the interceptors constructed for classes a + b are those for a followed by those for b, so the argument order is kept |
| `Registry.ConstructedSkipsFailure` | src/main/java/com/github/jsonzou/jmockdata/mockdata/JMockDataManager.java:212-220 | a class whose instance cannot be created adds nothing, and the classes after it are still constructed and appended |
| `Registry.ConstructedKeepsSuccess` | src/main/java/com/github/jsonzou/jmockdata/mockdata/JMockDataManager.java:211-213 | a class whose instance can be created contributes it in its own place: after the interceptors of the classes before it and before those of the classes after it, whatever those classes do |
| `Registry.ConstructedAllSucceed` | src/main/java/com/github/jsonzou/jmockdata/mockdata/JMockDataManager.java:211-213 | when every instance can be created, one interceptor is appended per class, the i-th being the instance of the i-th class |
| `Registry.ConstructedAllFail` | src/main/java/com/github/jsonzou/jmockdata/mockdata/JMockDataManager.java:212-220 | when no instance can be created, nothing is appended |
| `Registry.SeedTable` | src/main/java/com/github/jsonzou/jmockdata/mockdata/JMockDataManager.java:102 | the constructor's table holds the unwrapped default-null generator under `"$_DEFAULT"` |
| `Registry.RegisterAllConcat` | src/main/java/com/github/jsonzou/jmockdata/mockdata/JMockDataManager.java:54-100 | making a sequence of registrations a + b is making a and then b on the resulting table |
| `Registry.PrimitiveGroupRegistered` | src/main/java/com/github/jsonzou/jmockdata/mockdata/JMockDataManager.java:54-56 | the three registrations for a primitive type (scalar with its boxed class, primitive array, boxed array) are made one after the other |
| `Registry.ReferenceGroupRegistered` | src/main/java/com/github/jsonzou/jmockdata/mockdata/JMockDataManager.java:90-91 | the two registrations for a reference type (class, then array class) are made one after the other |
| `Registry.SeedTableByGroups` | src/main/java/com/github/jsonzou/jmockdata/mockdata/JMockDataManager.java:53-103 | the constructor's table is the result of the type groups' registrations in source order, then the default entry |
| `Registry.RegisterAllKeys` | src/main/java/com/github/jsonzou/jmockdata/mockdata/JMockDataManager.java:54-100 | a sequence of registrations adds exactly the keys of the classes it names |
| `Registry.RegisterAllProxies` | src/main/java/com/github/jsonzou/jmockdata/mockdata/JMockDataManager.java:54-100 | every entry that a sequence of built-in registrations adds is a proxy of one of its generators |
| `Registry.SeededBuiltIn` | src/main/java/com/github/jsonzou/jmockdata/mockdata/JMockDataManager.java:53-103 | after construction, every built-in class's key is in the table and holds a proxy of a built-in generator, unless that key is `"$_DEFAULT"` |
| `Registry.SeedTableKeys` | src/main/java/com/github/jsonzou/jmockdata/mockdata/JMockDataManager.java:53-103 | after construction, the table's keys are exactly the built-in classes' keys and `"$_DEFAULT"` |
| `Manager.JMockDataManager.constructor` | src/main/java/com/github/jsonzou/jmockdata/mockdata/JMockDataManager.java:47-103 | a new manager keeps the given reflection operations; its table is the seeded table; its interceptor list is empty; its maximum self-reference level is 3 |
| `Manager.JMockDataManager.RegisterPrimitiveBuiltIns` | src/main/java/com/github/jsonzou/jmockdata/mockdata/JMockDataManager.java:54-88 | the constructor's registrations for one primitive type change the table as that group's registrations do |
| `Manager.JMockDataManager.RegisterReferenceBuiltIns` | src/main/java/com/github/jsonzou/jmockdata/mockdata/JMockDataManager.java:90-100 | the constructor's registrations for one reference type change the table as that group's registrations do |
| `Manager.JMockDataManager.GetMockDataBean` | src/main/java/com/github/jsonzou/jmockdata/mockdata/JMockDataManager.java:136-142 | answers exactly the stored entry when the class's registry key is in the table, and otherwise a composite bean for that class with no generic type; it only reads the object |
| `Manager.JMockDataManager.GetMockDataBeanWithType` | src/main/java/com/github/jsonzou/jmockdata/mockdata/JMockDataManager.java:152-158 | has the same precedence as `GetMockDataBean`, and its fallback bean carries the generic type it was given |
| `Manager.JMockDataManager.GetDefaultMockDataBean` | src/main/java/com/github/jsonzou/jmockdata/mockdata/JMockDataManager.java:166-168 | always answers the default-null generator, independent of the table |
| `Manager.JMockDataManager.IsHas` | src/main/java/com/github/jsonzou/jmockdata/mockdata/JMockDataManager.java:176-178 | true iff the class's binary name (not its registry key) is a key of the table; it only reads the object |
| `Manager.JMockDataManager.RegisterMockData` | src/main/java/com/github/jsonzou/jmockdata/mockdata/JMockDataManager.java:186-192 | a null or empty class list leaves the table unchanged; otherwise the new table is the old one after putting a proxy of the generator under each class's key (see `RegisteredSpec`); no other field changes |
| `Manager.JMockDataManager.RegisterInterceptors` | src/main/java/com/github/jsonzou/jmockdata/mockdata/JMockDataManager.java:209-223 | a null list changes nothing; otherwise the old list is kept as a prefix, followed by exactly the instances that could be created, in argument order; the table and the level are untouched |
| `Manager.JMockDataManager.SetInterceptors` | src/main/java/com/github/jsonzou/jmockdata/mockdata/JMockDataManager.java:247-249 | the getter then answers the given list, and only the list changes |
| `Manager.JMockDataManager.SetMockDataMappings` | src/main/java/com/github/jsonzou/jmockdata/mockdata/JMockDataManager.java:255-257 | the getter then answers the given table, and only the table changes |
| `Manager.JMockDataManager.SetMaxSelfRefLevel` | src/main/java/com/github/jsonzou/jmockdata/mockdata/JMockDataManager.java:259-265 | the getter then answers the given level, and the table and the interceptor list are unchanged |
| `Manager.BuiltInLookupAfterConstruction` | src/main/java/com/github/jsonzou/jmockdata/mockdata/JMockDataManager.java:53-103 | on a fresh manager, a lookup of any built-in class answers a proxy of a built-in generator, not a bean, unless its key is `"$_DEFAULT"` |
| `Manager.OverrideScenario` | src/main/java/com/github/jsonzou/jmockdata/mockdata/JMockDataManager.java:136-142 | on a fresh manager, a class's lookup first answers the seeded entry or a bean. After registering a generator for it, the lookup answers that generator's proxy. After registering a second generator, it answers the second proxy and not the first |
| `Manager.InterceptorScenario` | src/main/java/com/github/jsonzou/jmockdata/mockdata/JMockDataManager.java:209-223 | registering interceptor classes a, b, c where only b cannot be instantiated leaves the list [a's instance, c's instance] and the table as constructed |

Some members carry no contract of their own and so have no row. The
specification functions are pinned down by the lemmas in the table:
`Registry.Registered` is the loop body of `registerMockData`
(JMockDataManager.java:188-189, see `RegisteredSpec`), `Registry.Lookup` is the
table-or-fallback choice of both `getMockDataBean` overloads (:137-141 and
:153-157, see `GetMockDataBean`), and `Registry.BuiltInRegistrations` is the
constructor's list of registrations (:54-100, see `SeedTableByGroups`,
`SeededBuiltIn` and `SeedTableKeys`). The getters `Interceptors` (:199-201),
`GetInterceptors` (:243-245), `GetMockDataMappings` (:251-253) and
`GetMaxSelfRefLevel` (:259-261) are plain field reads; the setters' contracts
are stated through them.

## Left out

- Reflection: the implementations of `ReflectionUtil.getClassName`, `Class.getName` and `ReflectionUtil.newInstance` are not part of this model. They are the arbitrary functions `className`, `getName` and `newInstance` given to the constructor.
- Concurrency: `ConcurrentHashMap` is modelled as a sequential map of one object. Atomicity and visibility across threads are not modelled.
- The lazy singleton holder and `getInstance` are left out. The model constructs managers explicitly.
- Configuration: `config(String)`, `config()`, `getConfig`, `setConfig` and the `JmockdataConfig` they read are left out. Reading configuration is classpath I/O.
- The template field and its getter and setter (`getMockTemplate`, `setMockTemplate`) are left out. They are plain field access on a collaborator outside the core.
- The generators themselves are opaque values: `MockDataProxy`, `MockDataBean`, `MockDataDefaultNull` and the built-in `MockData*` classes. Their bodies are not part of this model. So value generation, the composite recursion, the self-reference cycle guard and the order in which a proxy invokes interceptors are not modelled.
- Manager.JMockDataManager.RegisterInterceptors: an unchecked exception from `ReflectionUtil.newInstance`, or a `ClassCastException` from the cast to `Interceptor`, is not caught by the manager. It ends the call at once: the interceptors appended before stay, and the remaining classes are never constructed. The model has no such outcome; `newInstance` answers `None` only for the three caught exceptions, after which the loop continues.
- The `printStackTrace` reporting of interceptor construction failures is left out. Only skip-and-continue is modelled.
- Aliasing: the Java getters hand out the live list and map, and the setters store the caller's object. The model copies values, so a caller mutating a returned list (`interceptors().add(...)`) is not modelled.
- Object identity: Java creates a new bean, proxy or default-null object on each call. The model's generators are values, so two such results compare equal when they wrap the same things.
- Java `null` is modelled only for the class arrays of `registerMockData` and `interceptors(Class...)`. A null generator, class element, generic type, interceptor list, table or level is not modelled.
- `maxSelfRefLevel` is a Java `Integer`, modelled as an unbounded `int`. The manager does no arithmetic on it.
