/**
 * `object DefinitionFactory`: builds complete definitions.  The reified
 * overloads take their type from `T::class`; here the type is always passed
 * explicitly, so each reified overload and its `KClass` twin are one member.
 */
module DefinitionFactory {
  import opened Wrappers
  import opened BeanDefinitions

  /**
   * `createDefinition`: a fresh definition for `clazz` and `name` whose closure
   * and kind are the arguments (kind Single by default), with a holder built
   * after the kind was set, no scope name and default options.
   */
  method CreateDefinition(clazz: KClass, name: Option<string>, definition: Definition, kind: Kind := Single)
    returns (d: BeanDefinition)
    ensures fresh(d)
    ensures d.definition.Some?
    ensures d.Snapshot() == BeanRecord(clazz, name, kind, None, Options(false, false), definition)
    ensures d.instance == Some(InstanceHolder(kind))
  {
    d := new BeanDefinition(name, clazz);
    d.definition := Some(definition);
    d.kind := kind;
    d.CreateInstanceHolder();
  }

  /** `createDefinitionAny`: the same steps for `BeanDefinition<Any>`; the type argument is erased here. */
  method CreateDefinitionAny(clazz: KClass, name: Option<string>, definition: Definition, kind: Kind := Single)
    returns (d: BeanDefinition)
    ensures fresh(d)
    ensures d.definition.Some?
    ensures d.Snapshot() == BeanRecord(clazz, name, kind, None, Options(false, false), definition)
    ensures d.instance == Some(InstanceHolder(kind))
  {
    d := CreateDefinition(clazz, name, definition, kind);
  }

  /** `createSingle` (both overloads): a Single definition. */
  method CreateSingle(clazz: KClass, name: Option<string>, definition: Definition) returns (d: BeanDefinition)
    ensures fresh(d)
    ensures d.definition.Some?
    ensures d.Snapshot() == BeanRecord(clazz, name, Single, None, Options(false, false), definition)
    ensures d.instance == Some(InstanceHolder(Single))
  {
    d := CreateDefinition(clazz, name, definition);
  }

  /** `createSingleAny`: a Single definition through `createDefinitionAny`. */
  method CreateSingleAny(clazz: KClass, name: Option<string>, definition: Definition) returns (d: BeanDefinition)
    ensures fresh(d)
    ensures d.definition.Some?
    ensures d.Snapshot() == BeanRecord(clazz, name, Single, None, Options(false, false), definition)
    ensures d.instance == Some(InstanceHolder(Single))
  {
    d := CreateDefinitionAny(clazz, name, definition);
  }

  /** `createFactory` (both overloads): a Factory definition. */
  method CreateFactory(clazz: KClass, name: Option<string>, definition: Definition) returns (d: BeanDefinition)
    ensures fresh(d)
    ensures d.definition.Some?
    ensures d.Snapshot() == BeanRecord(clazz, name, Factory, None, Options(false, false), definition)
    ensures d.instance == Some(InstanceHolder(Factory))
  {
    d := CreateDefinition(clazz, name, definition, Factory);
  }

  /**
   * `createScope`: a Scope definition whose scope name is `scopeName` when one
   * is given and stays unset otherwise.
   */
  method CreateScope(clazz: KClass, name: Option<string>, scopeName: Option<string>, definition: Definition)
    returns (d: BeanDefinition)
    ensures fresh(d)
    ensures d.definition.Some?
    ensures d.Snapshot() == BeanRecord(clazz, name, Scope, scopeName, Options(false, false), definition)
    ensures d.instance == Some(InstanceHolder(Scope))
  {
    d := CreateDefinition(clazz, name, definition, Scope);
    if scopeName.Some? {
      d.SetScopeName(scopeName.value);
    }
  }

  /**
   * The `equals definitions` scenarios: two Single definitions of one type
   * with different closures are equal, and so are a Single and a Factory one.
   */
  method EqualsDefinitions(clazz: KClass, f1: Definition, f2: Definition)
    returns (sameKind: bool, differentKinds: bool)
    ensures sameKind && differentKinds
  {
    var def1 := CreateSingle(clazz, None, f1);
    var def2 := CreateSingle(clazz, None, f2);
    sameKind := def1.Equals(def2);
    var def3 := CreateFactory(clazz, None, f2);
    differentKinds := def1.Equals(def3);
  }

  /** The `scope definition` scenario: a definition made for a scope carries its name and kind Scope. */
  method ScopeDefinitionScenario(clazz: KClass, scopeId: string, f: Definition)
    returns (scopeName: Option<string>, kind: Kind)
    ensures scopeName == Some(scopeId) && kind == Scope
  {
    var def1 := CreateScope(clazz, None, Some(scopeId), f);
    scopeName := def1.scopeName;
    kind := def1.kind;
  }
}
