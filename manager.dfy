/** The mock-data manager: the table from class keys to generators, the
    ordered interceptor list and the maximum self-reference level, with the
    operations that register and look up generators and interceptors. */
module Manager {
  import opened MockTypes
  import opened Registry

  class JMockDataManager {
    /** The mapping table from class keys to generators. */
    var mappings: map<Key, Gen>
    /** The registered interceptors, in registration order. */
    var interceptors: seq<Interceptor>
    /** How deep a composite generator may nest a class inside itself. */
    var maxSelfRefLevel: int

    /** The reflection facility the manager consults, fixed at construction:
        the registry key of a class (ReflectionUtil.getClassName), the binary
        name of a class (Class.getName), and the creation of an interceptor
        instance from its class (ReflectionUtil.newInstance), None when that
        throws one of the three exceptions the manager catches. */
    const className: JClass -> Key
    const getName: JClass -> Key
    const newInstance: JClass -> Option<Interceptor>

    /** Seeds the table with the built-in generators, each wrapped in a proxy,
        and the unwrapped default-null generator under the reserved key. */
    constructor (className: JClass -> Key, getName: JClass -> Key, newInstance: JClass -> Option<Interceptor>)
      ensures this.className == className && this.getName == getName && this.newInstance == newInstance
      ensures mappings == SeedTable(className)
      ensures interceptors == [] && maxSelfRefLevel == 3
    {
      this.className, this.getName, this.newInstance := className, getName, newInstance;
      mappings := map[];
      new;
      RegisterPrimitiveBuiltIns(Byte, MockDataByte, MockDataByteUnboxingArray, MockDataByteBoxingArray);
      RegisterPrimitiveBuiltIns(Short, MockDataShort, MockDataShortUnboxingArray, MockDataShortBoxingArray);
      RegisterPrimitiveBuiltIns(Int, MockDataInteger, MockDataIntegerUnboxingArray, MockDataIntegerBoxingArray);
      RegisterPrimitiveBuiltIns(Long, MockDataLong, MockDataLongUnboxingArray, MockDataLongBoxingArray);
      RegisterPrimitiveBuiltIns(Float, MockDataFloat, MockDataFloatUnboxingArray, MockDataFloatBoxingArray);
      RegisterPrimitiveBuiltIns(Double, MockDataDouble, MockDataDoubleUnboxingArray, MockDataDoubleBoxingArray);
      RegisterPrimitiveBuiltIns(Boolean, MockDataBoolean, MockDataBooleanUnboxingArray, MockDataBooleanBoxingArray);
      RegisterPrimitiveBuiltIns(Char, MockDataCharacter, MockDataCharacterUnboxingArray, MockDataCharacterBoxingArray);
      RegisterReferenceBuiltIns("java.lang.String", MockDataString, MockDataStringArray);
      RegisterReferenceBuiltIns("java.math.BigDecimal", MockDataBigDecimal, MockDataBigDecimalArray);
      RegisterReferenceBuiltIns("java.math.BigInteger", MockDataBigInteger, MockDataBigIntegerArray);
      RegisterReferenceBuiltIns("java.util.Date", MockDataDate, MockDataDateArray);
      SeedTableByGroups(className);
      mappings := mappings[DEFAULT_KEY := DefaultNull];
      // The registrations above leave the other fields alone, so their
      // initial values can be given last.
      interceptors, maxSelfRefLevel := [], 3;
    }

    /** The constructor's three registrations for a primitive type: the scalar
        generator for the primitive and its boxed class, then the generators for
        the primitive array class and the boxed array class. */
    method RegisterPrimitiveBuiltIns(p: Primitive, scalar: BuiltIn, unboxingArray: BuiltIn, boxingArray: BuiltIn)
      modifies this`mappings
      ensures mappings == RegisterAll(old(mappings), className, PrimitiveGroup(p, scalar, unboxingArray, boxingArray))
    {
      RegisterMockData(BuiltIn(scalar), Some([PrimitiveClass(p), Boxed(p)]));
      RegisterMockData(BuiltIn(unboxingArray), Some([ArrayClass(PrimitiveClass(p))]));
      RegisterMockData(BuiltIn(boxingArray), Some([ArrayClass(Boxed(p))]));
      PrimitiveGroupRegistered(old(mappings), className, p, scalar, unboxingArray, boxingArray);
    }

    /** The constructor's two registrations for a reference type: the generator
        for the class, then the one for its array class. */
    method RegisterReferenceBuiltIns(qualifiedName: string, single: BuiltIn, arrayOf: BuiltIn)
      modifies this`mappings
      ensures mappings == RegisterAll(old(mappings), className, ReferenceGroup(qualifiedName, single, arrayOf))
    {
      RegisterMockData(BuiltIn(single), Some([NamedClass(qualifiedName)]));
      RegisterMockData(BuiltIn(arrayOf), Some([ArrayClass(NamedClass(qualifiedName))]));
      ReferenceGroupRegistered(old(mappings), className, qualifiedName, single, arrayOf);
    }

    /** The generator for a class: its registered entry if its key is in the
        table, otherwise a new composite generator for that class. */
    function GetMockDataBean(clazz: JClass): (r: Gen)
      reads this
      ensures className(clazz) in mappings ==> r == mappings[className(clazz)]
      ensures className(clazz) !in mappings ==> r == Bean(clazz, None)
    {
      Lookup(mappings, className(clazz), Bean(clazz, None))
    }

    /** As GetMockDataBean, but a composite generator made for a missing key
        carries the generic type it was asked for. */
    function GetMockDataBeanWithType(clazz: JClass, genericType: JType): (r: Gen)
      reads this
      ensures className(clazz) in mappings ==> r == mappings[className(clazz)]
      ensures className(clazz) !in mappings ==> r == Bean(clazz, Some(genericType))
    {
      Lookup(mappings, className(clazz), Bean(clazz, Some(genericType)))
    }

    /** A new default-null generator, whatever the table holds. */
    function GetDefaultMockDataBean(clazz: JClass): (r: Gen)
      ensures r == DefaultNull
    {
      DefaultNull
    }

    /** Whether the table has an entry under the binary name of the class. */
    function IsHas(clazz: JClass): (b: bool)
      reads this
      ensures b <==> getName(clazz) in mappings
    {
      getName(clazz) in mappings
    }

    /** Puts a proxy of mockData under the key of each class, in order; a null
        (None) or empty class list leaves the table as it was. */
    method RegisterMockData(mockData: Gen, registerClazz: Option<seq<JClass>>)
      modifies this`mappings
      ensures (registerClazz.None? || registerClazz.value == []) ==> mappings == old(mappings)
      ensures registerClazz.Some? ==> mappings == Registered(old(mappings), className, mockData, registerClazz.value)
    {
      if registerClazz.Some? && |registerClazz.value| > 0 {
        var classes := registerClazz.value;
        for i := 0 to |classes|
          invariant mappings == Registered(old(mappings), className, mockData, classes[..i])
        {
          assert classes[..i + 1][..i] == classes[..i];
          mappings := mappings[className(classes[i]) := Proxy(mockData)];
        }
        assert classes[..|classes|] == classes;
      }
    }

    /** The interceptor list (the getter `interceptors()`). */
    function Interceptors(): (list: seq<Interceptor>)
      reads this
    {
      interceptors
    }

    /** Creates an instance of each interceptor class, in order, and appends
        each one that could be created; a class whose instance cannot be created
        is skipped and the rest are still processed. */
    method RegisterInterceptors(classes: Option<seq<JClass>>)
      modifies this`interceptors
      ensures classes.None? ==> interceptors == old(interceptors)
      ensures classes.Some? ==> interceptors == old(interceptors) + Constructed(newInstance, classes.value)
      ensures mappings == old(mappings) && maxSelfRefLevel == old(maxSelfRefLevel)
    {
      if classes.Some? && |classes.value| > 0 {
        var cs := classes.value;
        for i := 0 to |cs|
          invariant interceptors == old(interceptors) + Constructed(newInstance, cs[..i])
        {
          assert cs[..i + 1][..i] == cs[..i];
          var created := newInstance(cs[i]);
          if created.Some? {
            interceptors := interceptors + [created.value];
          }
        }
        assert cs[..|cs|] == cs;
      }
    }

    /** The interceptor list (the getter `getInterceptors`). */
    function GetInterceptors(): (list: seq<Interceptor>)
      reads this
    {
      interceptors
    }

    /** Replaces the interceptor list. */
    method SetInterceptors(list: seq<Interceptor>)
      modifies this`interceptors
      ensures GetInterceptors() == list
    {
      interceptors := list;
    }

    /** The mapping table. */
    function GetMockDataMappings(): (table: map<Key, Gen>)
      reads this
    {
      mappings
    }

    /** Replaces the mapping table. */
    method SetMockDataMappings(table: map<Key, Gen>)
      modifies this`mappings
      ensures GetMockDataMappings() == table
    {
      mappings := table;
    }

    /** The maximum self-reference level. */
    function GetMaxSelfRefLevel(): (level: int)
      reads this
    {
      maxSelfRefLevel
    }

    /** Replaces the maximum self-reference level. */
    method SetMaxSelfRefLevel(level: int)
      modifies this`maxSelfRefLevel
      ensures GetMaxSelfRefLevel() == level
      ensures mappings == old(mappings) && interceptors == old(interceptors)
    {
      maxSelfRefLevel := level;
    }
  }

  /** On a freshly constructed manager, looking up any built-in class answers a
      proxy of a built-in generator, never a composite bean (unless its key is
      the reserved default key, whose entry is the default-null generator). */
  lemma BuiltInLookupAfterConstruction(manager: JMockDataManager, clazz: JClass)
    requires manager.mappings == SeedTable(manager.className)
    requires clazz in ClassesOf(BuiltInRegistrations)
    ensures manager.className(clazz) != DEFAULT_KEY ==>
              manager.GetMockDataBean(clazz).Proxy? && manager.GetMockDataBean(clazz).target.BuiltIn?
    ensures manager.className(clazz) == DEFAULT_KEY ==> manager.GetMockDataBean(clazz) == DefaultNull
  {
    SeededBuiltIn(manager.className, clazz);
  }

  /** A caller registers its own generator for a class, then a second one: a
      lookup answers the built-in table's entry (or a bean) before, a proxy of
      the first generator after the first registration, and a proxy of the
      second one after the second, never the first one again. */
  method OverrideScenario(className: JClass -> Key, getName: JClass -> Key, newInstance: JClass -> Option<Interceptor>,
                          clazz: JClass, first: Gen, second: Gen)
    returns (initial: Gen, afterFirst: Gen, afterSecond: Gen)
    requires first != second
    ensures initial == Lookup(SeedTable(className), className(clazz), Bean(clazz, None))
    ensures afterFirst == Proxy(first)
    ensures afterSecond == Proxy(second) && afterSecond != afterFirst
  {
    var manager := new JMockDataManager(className, getName, newInstance);
    initial := manager.GetMockDataBean(clazz);
    manager.RegisterMockData(first, Some([clazz]));
    LookupAfterRegister(SeedTable(className), className, first, [clazz], clazz, Bean(clazz, None));
    afterFirst := manager.GetMockDataBean(clazz);
    ghost var table := manager.mappings;
    manager.RegisterMockData(second, Some([clazz]));
    LookupAfterRegister(table, className, second, [clazz], clazz, Bean(clazz, None));
    afterSecond := manager.GetMockDataBean(clazz);
  }

  /** A caller registers three interceptor classes of which the middle one
      cannot be instantiated: the first and the third are appended, in that
      order, and the mapping table is untouched. */
  method InterceptorScenario(className: JClass -> Key, getName: JClass -> Key, newInstance: JClass -> Option<Interceptor>,
                             a: JClass, b: JClass, c: JClass)
    returns (registered: seq<Interceptor>, table: map<Key, Gen>)
    requires newInstance(a).Some? && newInstance(b).None? && newInstance(c).Some?
    ensures registered == [newInstance(a).value, newInstance(c).value]
    ensures table == SeedTable(className)
  {
    var manager := new JMockDataManager(className, getName, newInstance);
    manager.RegisterInterceptors(Some([a, b, c]));
    assert [a, b, c][..2] == [a, b] && [a, b][..1] == [a] && [a][..0] == [];
    assert Constructed(newInstance, [a, b]) == Constructed(newInstance, [a]);
    registered := manager.Interceptors();
    table := manager.GetMockDataMappings();
  }
}
