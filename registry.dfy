/** The manager's mapping table and interceptor list as values: what one
    registration does to the table, what a lookup answers, which interceptors a
    registration call appends, and the table the constructor seeds. The class in
    module Manager is proved against these functions. */
module Registry {
  import opened MockTypes

  type Table = map<Key, Gen>

  /** The keys that registering the classes cs installs, under the key function `key`. */
  function KeySet(key: JClass -> Key, cs: seq<JClass>): (keys: set<Key>)
  {
    set c | c in cs :: key(c)
  }

  /** The table after putting a proxy of g under the key of each class of cs, in order. */
  function Registered(m: Table, key: JClass -> Key, g: Gen, cs: seq<JClass>): (r: Table)
    decreases |cs|
  {
    if cs == [] then m
    else Registered(m, key, g, cs[..|cs| - 1])[key(cs[|cs| - 1]) := Proxy(g)]
  }

  /** What a registration leaves in the table: the keys of the registered
      classes are added, each of them holds the proxy of g, and every other key
      keeps its entry. */
  lemma {:induction false} RegisteredSpec(m: Table, key: JClass -> Key, g: Gen, cs: seq<JClass>)
    ensures Registered(m, key, g, cs).Keys == m.Keys + KeySet(key, cs)
    ensures forall k :: k in KeySet(key, cs) ==> Registered(m, key, g, cs)[k] == Proxy(g)
    ensures forall k :: k in m && k !in KeySet(key, cs) ==> Registered(m, key, g, cs)[k] == m[k]
    decreases |cs|
  {
    if cs != [] {
      var init := cs[..|cs| - 1];
      assert cs == init + [cs[|cs| - 1]];
      assert KeySet(key, cs) == KeySet(key, init) + {key(cs[|cs| - 1])};
      RegisteredSpec(m, key, g, init);
    }
  }

  /** Exact-key lookup with a fallback generator for a missing key. */
  function Lookup(m: Table, k: Key, fallback: Gen): (r: Gen)
  {
    if k in m then m[k] else fallback
  }

  /** Registering classes one call at a time is registering them all in one call. */
  lemma {:induction false} RegisteredConcat(m: Table, key: JClass -> Key, g: Gen, a: seq<JClass>, b: seq<JClass>)
    ensures Registered(Registered(m, key, g, a), key, g, b) == Registered(m, key, g, a + b)
    decreases |b|
  {
    if b == [] {
      assert a + b == a;
    } else {
      var init, last := b[..|b| - 1], b[|b| - 1];
      assert (a + b)[..|a + b| - 1] == a + init && (a + b)[|a + b| - 1] == last;
      calc {
        Registered(Registered(m, key, g, a), key, g, b);
        Registered(Registered(m, key, g, a), key, g, init)[key(last) := Proxy(g)];
        { RegisteredConcat(m, key, g, a, init); }
        Registered(m, key, g, a + init)[key(last) := Proxy(g)];
        Registered(m, key, g, a + b);
      }
    }
  }

  /** After registering g for the classes cs, looking up any of them answers the
      proxy of g, whatever the table held before. */
  lemma {:induction false} LookupAfterRegister(m: Table, key: JClass -> Key, g: Gen, cs: seq<JClass>, c: JClass, fallback: Gen)
    requires c in cs
    ensures Lookup(Registered(m, key, g, cs), key(c), fallback) == Proxy(g)
  {
    RegisteredSpec(m, key, g, cs);
  }

  /** A lookup of a key that the registration did not name answers what it answered before. */
  lemma {:induction false} LookupUnaffected(m: Table, key: JClass -> Key, g: Gen, cs: seq<JClass>, k: Key, fallback: Gen)
    requires k !in KeySet(key, cs)
    ensures Lookup(Registered(m, key, g, cs), k, fallback) == Lookup(m, k, fallback)
  {
    RegisteredSpec(m, key, g, cs);
  }

  /** Re-registering a class overwrites its entry: the later generator wins and
      the earlier one is no longer answered. */
  lemma {:induction false} ReRegisterOverwrites(m: Table, key: JClass -> Key, g1: Gen, cs1: seq<JClass>,
                                               g2: Gen, cs2: seq<JClass>, c: JClass, fallback: Gen)
    requires c in cs1 && c in cs2 && g1 != g2
    ensures var r := Registered(Registered(m, key, g1, cs1), key, g2, cs2);
            Lookup(r, key(c), fallback) == Proxy(g2) && Lookup(r, key(c), fallback) != Proxy(g1)
  {
    RegisteredSpec(Registered(m, key, g1, cs1), key, g2, cs2);
  }

  /** The membership test keys on the binary name of a class, registration on
      its registry key: after a registration, the binary name of c is in the
      table exactly when it was already there or is the registry key of one of
      the registered classes. */
  lemma {:induction false} IsHasAfterRegister(m: Table, className: JClass -> Key, getName: JClass -> Key, g: Gen, cs: seq<JClass>, c: JClass)
    ensures getName(c) in Registered(m, className, g, cs) <==> getName(c) in m || getName(c) in KeySet(className, cs)
  {
    RegisteredSpec(m, className, g, cs);
  }

  /** Registering the same generator for the same classes twice changes nothing more. */
  lemma RegisteredIdempotent(m: Table, key: JClass -> Key, g: Gen, cs: seq<JClass>)
    ensures Registered(Registered(m, key, g, cs), key, g, cs) == Registered(m, key, g, cs)
  {
    var once := Registered(m, key, g, cs);
    RegisteredSpec(m, key, g, cs);
    RegisteredSpec(once, key, g, cs);
  }

  /** The interceptors that a registration call appends: for each class in
      order, the instance created for it, skipping the classes whose instance
      could not be created. */
  function Constructed(newInstance: JClass -> Option<Interceptor>, cs: seq<JClass>): (r: seq<Interceptor>)
    ensures |r| <= |cs|
    ensures forall x :: x in r ==> exists c :: c in cs && newInstance(c) == Some(x)
    decreases |cs|
  {
    if cs == [] then []
    else
      var init := cs[..|cs| - 1];
      var last := cs[|cs| - 1];
      assert forall c :: c in init ==> c in cs;
      match newInstance(last)
      case Some(x) => Constructed(newInstance, init) + [x]
      case None => Constructed(newInstance, init)
  }

  /** Constructing the interceptors of a + b appends those of b to those of a. */
  lemma {:induction false} ConstructedConcat(newInstance: JClass -> Option<Interceptor>, a: seq<JClass>, b: seq<JClass>)
    ensures Constructed(newInstance, a + b) == Constructed(newInstance, a) + Constructed(newInstance, b)
    decreases |b|
  {
    if b == [] {
      assert a + b == a;
    } else {
      var init := b[..|b| - 1];
      assert b == init + [b[|b| - 1]];
      assert (a + b)[..|a + b| - 1] == a + init;
      ConstructedConcat(newInstance, a, init);
    }
  }

  /** A class whose interceptor cannot be created is skipped, and the classes
      after it are still constructed. */
  lemma ConstructedSkipsFailure(newInstance: JClass -> Option<Interceptor>, cs: seq<JClass>, i: nat)
    requires i < |cs| && newInstance(cs[i]).None?
    ensures Constructed(newInstance, cs) == Constructed(newInstance, cs[..i]) + Constructed(newInstance, cs[i + 1..])
  {
    assert cs == cs[..i] + [cs[i]] + cs[i + 1..];
    ConstructedConcat(newInstance, cs[..i] + [cs[i]], cs[i + 1..]);
    ConstructedConcat(newInstance, cs[..i], [cs[i]]);
  }

  /** A class whose interceptor can be created contributes it in its place:
      after the interceptors of the classes before it and before those of the
      classes after it, whatever the other classes do. */
  lemma ConstructedKeepsSuccess(newInstance: JClass -> Option<Interceptor>, cs: seq<JClass>, i: nat)
    requires i < |cs| && newInstance(cs[i]).Some?
    ensures Constructed(newInstance, cs)
         == Constructed(newInstance, cs[..i]) + [newInstance(cs[i]).value] + Constructed(newInstance, cs[i + 1..])
  {
    assert cs == cs[..i] + [cs[i]] + cs[i + 1..];
    assert [cs[i]][..0] == [];
    ConstructedConcat(newInstance, cs[..i] + [cs[i]], cs[i + 1..]);
    ConstructedConcat(newInstance, cs[..i], [cs[i]]);
  }

  /** When every instance can be created, the i-th appended interceptor is the
      one created for the i-th class. */
  lemma {:induction false} ConstructedAllSucceed(newInstance: JClass -> Option<Interceptor>, cs: seq<JClass>)
    requires forall c :: c in cs ==> newInstance(c).Some?
    ensures |Constructed(newInstance, cs)| == |cs|
    ensures forall i :: 0 <= i < |cs| ==> Constructed(newInstance, cs)[i] == newInstance(cs[i]).value
    decreases |cs|
  {
    if cs != [] {
      var init, last := cs[..|cs| - 1], cs[|cs| - 1];
      assert forall c :: c in init ==> c in cs;
      ConstructedAllSucceed(newInstance, init);
      assert last in cs;
      var r := Constructed(newInstance, cs);
      assert r == Constructed(newInstance, init) + [newInstance(last).value];
      forall i | 0 <= i < |cs|
        ensures r[i] == newInstance(cs[i]).value
      {
        if i < |cs| - 1 {
          assert cs[i] == init[i];
        }
      }
    }
  }

  /** When no instance can be created, nothing is appended. */
  lemma {:induction false} ConstructedAllFail(newInstance: JClass -> Option<Interceptor>, cs: seq<JClass>)
    requires forall c :: c in cs ==> newInstance(c).None?
    ensures Constructed(newInstance, cs) == []
    decreases |cs|
  {
    if cs != [] {
      var init := cs[..|cs| - 1];
      assert forall c :: c in init ==> c in cs;
      ConstructedAllFail(newInstance, init);
    }
  }

  /** One registerMockData call of the constructor: a built-in generator and
      the classes it is registered for. */
  type Registration = (BuiltIn, seq<JClass>)

  /** The three registrations the constructor makes for a primitive type: the
      scalar generator for the primitive and its boxed class, then the generators
      for the primitive array and the boxed array. */
  function PrimitiveGroup(p: Primitive, scalar: BuiltIn, unboxingArray: BuiltIn, boxingArray: BuiltIn): seq<Registration>
  {
    [(scalar, [PrimitiveClass(p), Boxed(p)]),
     (unboxingArray, [ArrayClass(PrimitiveClass(p))]),
     (boxingArray, [ArrayClass(Boxed(p))])]
  }

  /** The two registrations the constructor makes for a reference type: the
      generator for the class, then the one for its array class. */
  function ReferenceGroup(qualifiedName: string, single: BuiltIn, arrayOf: BuiltIn): seq<Registration>
  {
    [(single, [NamedClass(qualifiedName)]),
     (arrayOf, [ArrayClass(NamedClass(qualifiedName))])]
  }

  /** The registrations the manager's constructor makes, in order. */
  const BuiltInRegistrations: seq<Registration> :=
    PrimitiveGroup(Byte, MockDataByte, MockDataByteUnboxingArray, MockDataByteBoxingArray)
    + PrimitiveGroup(Short, MockDataShort, MockDataShortUnboxingArray, MockDataShortBoxingArray)
    + PrimitiveGroup(Int, MockDataInteger, MockDataIntegerUnboxingArray, MockDataIntegerBoxingArray)
    + PrimitiveGroup(Long, MockDataLong, MockDataLongUnboxingArray, MockDataLongBoxingArray)
    + PrimitiveGroup(Float, MockDataFloat, MockDataFloatUnboxingArray, MockDataFloatBoxingArray)
    + PrimitiveGroup(Double, MockDataDouble, MockDataDoubleUnboxingArray, MockDataDoubleBoxingArray)
    + PrimitiveGroup(Boolean, MockDataBoolean, MockDataBooleanUnboxingArray, MockDataBooleanBoxingArray)
    + PrimitiveGroup(Char, MockDataCharacter, MockDataCharacterUnboxingArray, MockDataCharacterBoxingArray)
    + ReferenceGroup("java.lang.String", MockDataString, MockDataStringArray)
    + ReferenceGroup("java.math.BigDecimal", MockDataBigDecimal, MockDataBigDecimalArray)
    + ReferenceGroup("java.math.BigInteger", MockDataBigInteger, MockDataBigIntegerArray)
    + ReferenceGroup("java.util.Date", MockDataDate, MockDataDateArray)

  /** The table after making the registrations regs, in order. */
  function RegisterAll(m: Table, key: JClass -> Key, regs: seq<Registration>): (r: Table)
    decreases |regs|
  {
    if regs == [] then m
    else
      var last := regs[|regs| - 1];
      Registered(RegisterAll(m, key, regs[..|regs| - 1]), key, BuiltIn(last.0), last.1)
  }

  /** Making the registrations a + b is making a and then b. */
  lemma {:induction false} RegisterAllConcat(m: Table, key: JClass -> Key, a: seq<Registration>, b: seq<Registration>)
    ensures RegisterAll(m, key, a + b) == RegisterAll(RegisterAll(m, key, a), key, b)
    decreases |b|
  {
    if b == [] {
      assert a + b == a;
    } else {
      assert (a + b)[..|a + b| - 1] == a + b[..|b| - 1];
      RegisterAllConcat(m, key, a, b[..|b| - 1]);
    }
  }

  /** The three registrations of a primitive group, one after the other. */
  lemma PrimitiveGroupRegistered(m: Table, key: JClass -> Key, p: Primitive, scalar: BuiltIn, unboxingArray: BuiltIn, boxingArray: BuiltIn)
    ensures RegisterAll(m, key, PrimitiveGroup(p, scalar, unboxingArray, boxingArray))
         == Registered(Registered(Registered(m, key, BuiltIn(scalar), [PrimitiveClass(p), Boxed(p)]),
                                  key, BuiltIn(unboxingArray), [ArrayClass(PrimitiveClass(p))]),
                       key, BuiltIn(boxingArray), [ArrayClass(Boxed(p))])
  {
    var g := PrimitiveGroup(p, scalar, unboxingArray, boxingArray);
    var first := Registered(m, key, BuiltIn(scalar), [PrimitiveClass(p), Boxed(p)]);
    assert g[..1][..0] == [] && g[..2][..1] == g[..1] && g[..|g| - 1] == g[..2];
    assert RegisterAll(m, key, g[..1]) == first;
    assert RegisterAll(m, key, g[..2]) == Registered(first, key, BuiltIn(unboxingArray), [ArrayClass(PrimitiveClass(p))]);
  }

  /** The two registrations of a reference group, one after the other. */
  lemma ReferenceGroupRegistered(m: Table, key: JClass -> Key, qualifiedName: string, single: BuiltIn, arrayOf: BuiltIn)
    ensures RegisterAll(m, key, ReferenceGroup(qualifiedName, single, arrayOf))
         == Registered(Registered(m, key, BuiltIn(single), [NamedClass(qualifiedName)]),
                       key, BuiltIn(arrayOf), [ArrayClass(NamedClass(qualifiedName))])
  {
    var g := ReferenceGroup(qualifiedName, single, arrayOf);
    assert g[..1][..0] == [] && g[..|g| - 1] == g[..1];
    assert RegisterAll(m, key, g[..1]) == Registered(m, key, BuiltIn(single), [NamedClass(qualifiedName)]);
  }

  /** Every class that the registrations regs name. */
  function ClassesOf(regs: seq<Registration>): (cs: seq<JClass>)
    decreases |regs|
  {
    if regs == [] then [] else ClassesOf(regs[..|regs| - 1]) + regs[|regs| - 1].1
  }

  /** Every generator that the registrations regs install. */
  function GeneratorsOf(regs: seq<Registration>): (gens: set<Gen>)
  {
    set r | r in regs :: BuiltIn(r.0)
  }

  /** The table the manager's constructor builds: each built-in generator
      registered for its primitive, boxed and array classes, then the unwrapped
      default-null generator put under the reserved key. */
  function SeedTable(key: JClass -> Key): (m: Table)
    ensures DEFAULT_KEY in m && m[DEFAULT_KEY] == DefaultNull
  {
    RegisterAll(map[], key, BuiltInRegistrations)[DEFAULT_KEY := DefaultNull]
  }

  /** The table after the constructor's registrations, made one type group at a time. */
  function SeededGroups(key: JClass -> Key): (m: Table)
  {
    var m := RegisterAll(map[], key, PrimitiveGroup(Byte, MockDataByte, MockDataByteUnboxingArray, MockDataByteBoxingArray));
    var m := RegisterAll(m, key, PrimitiveGroup(Short, MockDataShort, MockDataShortUnboxingArray, MockDataShortBoxingArray));
    var m := RegisterAll(m, key, PrimitiveGroup(Int, MockDataInteger, MockDataIntegerUnboxingArray, MockDataIntegerBoxingArray));
    var m := RegisterAll(m, key, PrimitiveGroup(Long, MockDataLong, MockDataLongUnboxingArray, MockDataLongBoxingArray));
    var m := RegisterAll(m, key, PrimitiveGroup(Float, MockDataFloat, MockDataFloatUnboxingArray, MockDataFloatBoxingArray));
    var m := RegisterAll(m, key, PrimitiveGroup(Double, MockDataDouble, MockDataDoubleUnboxingArray, MockDataDoubleBoxingArray));
    var m := RegisterAll(m, key, PrimitiveGroup(Boolean, MockDataBoolean, MockDataBooleanUnboxingArray, MockDataBooleanBoxingArray));
    var m := RegisterAll(m, key, PrimitiveGroup(Char, MockDataCharacter, MockDataCharacterUnboxingArray, MockDataCharacterBoxingArray));
    var m := RegisterAll(m, key, ReferenceGroup("java.lang.String", MockDataString, MockDataStringArray));
    var m := RegisterAll(m, key, ReferenceGroup("java.math.BigDecimal", MockDataBigDecimal, MockDataBigDecimalArray));
    var m := RegisterAll(m, key, ReferenceGroup("java.math.BigInteger", MockDataBigInteger, MockDataBigIntegerArray));
    RegisterAll(m, key, ReferenceGroup("java.util.Date", MockDataDate, MockDataDateArray))
  }

  /** The constructor's table, built group by group: the registrations of each
      primitive and reference type made in turn on the table left by the
      previous ones. */
  lemma SeedTableByGroups(key: JClass -> Key)
    ensures SeedTable(key) == SeededGroups(key)[DEFAULT_KEY := DefaultNull]
  {
    var done := PrimitiveGroup(Byte, MockDataByte, MockDataByteUnboxingArray, MockDataByteBoxingArray);
    RegisterAllConcat(map[], key, done, PrimitiveGroup(Short, MockDataShort, MockDataShortUnboxingArray, MockDataShortBoxingArray));
    done := done + PrimitiveGroup(Short, MockDataShort, MockDataShortUnboxingArray, MockDataShortBoxingArray);
    RegisterAllConcat(map[], key, done, PrimitiveGroup(Int, MockDataInteger, MockDataIntegerUnboxingArray, MockDataIntegerBoxingArray));
    done := done + PrimitiveGroup(Int, MockDataInteger, MockDataIntegerUnboxingArray, MockDataIntegerBoxingArray);
    RegisterAllConcat(map[], key, done, PrimitiveGroup(Long, MockDataLong, MockDataLongUnboxingArray, MockDataLongBoxingArray));
    done := done + PrimitiveGroup(Long, MockDataLong, MockDataLongUnboxingArray, MockDataLongBoxingArray);
    RegisterAllConcat(map[], key, done, PrimitiveGroup(Float, MockDataFloat, MockDataFloatUnboxingArray, MockDataFloatBoxingArray));
    done := done + PrimitiveGroup(Float, MockDataFloat, MockDataFloatUnboxingArray, MockDataFloatBoxingArray);
    RegisterAllConcat(map[], key, done, PrimitiveGroup(Double, MockDataDouble, MockDataDoubleUnboxingArray, MockDataDoubleBoxingArray));
    done := done + PrimitiveGroup(Double, MockDataDouble, MockDataDoubleUnboxingArray, MockDataDoubleBoxingArray);
    RegisterAllConcat(map[], key, done, PrimitiveGroup(Boolean, MockDataBoolean, MockDataBooleanUnboxingArray, MockDataBooleanBoxingArray));
    done := done + PrimitiveGroup(Boolean, MockDataBoolean, MockDataBooleanUnboxingArray, MockDataBooleanBoxingArray);
    RegisterAllConcat(map[], key, done, PrimitiveGroup(Char, MockDataCharacter, MockDataCharacterUnboxingArray, MockDataCharacterBoxingArray));
    done := done + PrimitiveGroup(Char, MockDataCharacter, MockDataCharacterUnboxingArray, MockDataCharacterBoxingArray);
    RegisterAllConcat(map[], key, done, ReferenceGroup("java.lang.String", MockDataString, MockDataStringArray));
    done := done + ReferenceGroup("java.lang.String", MockDataString, MockDataStringArray);
    RegisterAllConcat(map[], key, done, ReferenceGroup("java.math.BigDecimal", MockDataBigDecimal, MockDataBigDecimalArray));
    done := done + ReferenceGroup("java.math.BigDecimal", MockDataBigDecimal, MockDataBigDecimalArray);
    RegisterAllConcat(map[], key, done, ReferenceGroup("java.math.BigInteger", MockDataBigInteger, MockDataBigIntegerArray));
    done := done + ReferenceGroup("java.math.BigInteger", MockDataBigInteger, MockDataBigIntegerArray);
    RegisterAllConcat(map[], key, done, ReferenceGroup("java.util.Date", MockDataDate, MockDataDateArray));
    done := done + ReferenceGroup("java.util.Date", MockDataDate, MockDataDateArray);
  }

  /** Making registrations adds exactly the keys of the classes they name. */
  lemma {:induction false} RegisterAllKeys(m: Table, key: JClass -> Key, regs: seq<Registration>)
    ensures RegisterAll(m, key, regs).Keys == m.Keys + KeySet(key, ClassesOf(regs))
    decreases |regs|
  {
    if regs != [] {
      var init, last := regs[..|regs| - 1], regs[|regs| - 1];
      RegisterAllKeys(m, key, init);
      RegisteredSpec(RegisterAll(m, key, init), key, BuiltIn(last.0), last.1);
      assert KeySet(key, ClassesOf(init) + last.1) == KeySet(key, ClassesOf(init)) + KeySet(key, last.1);
    }
  }

  /** Every entry that registrations add or overwrite is a proxy of one of their generators. */
  lemma {:induction false} RegisterAllProxies(m: Table, key: JClass -> Key, regs: seq<Registration>, k: Key)
    requires k in RegisterAll(m, key, regs) && k !in m
    ensures RegisterAll(m, key, regs)[k].Proxy?
    ensures RegisterAll(m, key, regs)[k].target in GeneratorsOf(regs)
    decreases |regs|
  {
    if regs != [] {
      var init, last := regs[..|regs| - 1], regs[|regs| - 1];
      assert last in regs;
      RegisterAllKeys(m, key, init);
      RegisteredSpec(RegisterAll(m, key, init), key, BuiltIn(last.0), last.1);
      if k !in KeySet(key, last.1) {
        assert forall r :: r in init ==> r in regs;
        RegisterAllProxies(m, key, init, k);
      }
    }
  }

  /** After construction, the key of each built-in class is in the table and
      holds a proxy of a built-in generator, unless that key is the reserved
      default key, which holds the unwrapped default-null generator. */
  lemma SeededBuiltIn(key: JClass -> Key, c: JClass)
    requires c in ClassesOf(BuiltInRegistrations)
    ensures key(c) in SeedTable(key)
    ensures key(c) != DEFAULT_KEY ==> SeedTable(key)[key(c)].Proxy? && SeedTable(key)[key(c)].target.BuiltIn?
  {
    RegisterAllKeys(map[], key, BuiltInRegistrations);
    assert key(c) in KeySet(key, ClassesOf(BuiltInRegistrations));
    if key(c) != DEFAULT_KEY {
      RegisterAllProxies(map[], key, BuiltInRegistrations, key(c));
    }
  }

  /** The constructor's table holds exactly the built-in classes' keys and the reserved key. */
  lemma SeedTableKeys(key: JClass -> Key)
    ensures SeedTable(key).Keys == KeySet(key, ClassesOf(BuiltInRegistrations)) + {DEFAULT_KEY}
  {
    RegisterAllKeys(map[], key, BuiltInRegistrations);
  }
}
