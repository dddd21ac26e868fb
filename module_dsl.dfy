/**
 * `org.koin.core.module.Module`: a builder that appends definitions and scope
 * declarations, in order, to two lists, and merges each definition's options
 * with the module-level flags.
 */
module Modules {
  import opened Wrappers
  import opened BeanDefinitions
  import DefinitionFactory

  /** `ScopeDefinition(scopeName, module)`; the back reference to the module is left out. */
  datatype ScopeDefinition = ScopeDefinition(scopeName: string)

  /**
   * One `scoped(name, override) { … }` call made inside a `scope(scopeName) { … }`
   * body: the body of such a block is modelled as the list of these calls.
   */
  datatype ScopedDeclaration = ScopedDeclaration(
    primaryType: KClass,
    name: Option<string>,
    override: bool,
    definition: Definition)

  class Module {
    const isCreatedAtStart: bool
    const override: bool
    var definitions: seq<BeanDefinition>
    var scopes: seq<ScopeDefinition>

    /** A module-level `true` is `true` in the options of every declared definition. */
    predicate Enforces(o: Options)
    {
      (isCreatedAtStart ==> o.isCreatedAtStart) && (override ==> o.override)
    }

    ghost predicate Valid()
      reads this, definitions
    {
      forall d :: d in definitions ==> Enforces(d.options)
    }

    /** The options a definition declared with `declared` ends up with in this module. */
    function Merged(declared: Options): (o: Options)
      ensures Enforces(o)
      ensures declared.isCreatedAtStart ==> o.isCreatedAtStart
      ensures declared.override ==> o.override
      ensures !declared.isCreatedAtStart && !isCreatedAtStart ==> !o.isCreatedAtStart
      ensures !declared.override && !override ==> !o.override
    {
      Options(declared.isCreatedAtStart || isCreatedAtStart, declared.override || override)
    }

    constructor (isCreatedAtStart: bool, override: bool)
      ensures this.isCreatedAtStart == isCreatedAtStart && this.override == override
      ensures definitions == [] && scopes == []
      ensures Valid()
    {
      this.isCreatedAtStart := isCreatedAtStart;
      this.override := override;
      definitions := [];
      scopes := [];
    }

    /** `updateOptions`: each flag becomes the declared flag OR the module flag. */
    method UpdateOptions(d: BeanDefinition, options: Options)
      requires Valid()
      modifies d`options
      ensures Valid()
      ensures d.options == Merged(options)
    {
      d.options := d.options.(isCreatedAtStart := options.isCreatedAtStart || isCreatedAtStart);
      d.options := d.options.(override := options.override || override);
    }

    /**
     * `declareDefinition`: merges the options, then appends `definition` at the
     * end; earlier entries keep their order and every other object its state.
     */
    method DeclareDefinition(definition: BeanDefinition, options: Options)
      requires Valid()
      modifies this, definition
      ensures Valid()
      ensures definitions == old(definitions) + [definition] && scopes == old(scopes)
      ensures definition.options == Merged(options)
      ensures definition.definition == old(definition.definition) && definition.kind == old(definition.kind)
      ensures definition.scopeName == old(definition.scopeName) && definition.instance == old(definition.instance)
      ensures forall d :: d in old(definitions) && d != definition ==> d.options == old(d.options)
    {
      UpdateOptions(definition, options);
      definitions := definitions + [definition];
    }

    /** `declareScope`: appends one scope declaration. */
    method DeclareScope(scope: ScopeDefinition)
      requires Valid()
      modifies this`scopes
      ensures Valid()
      ensures scopes == old(scopes) + [scope]
    {
      scopes := scopes + [scope];
    }

    /** `single` (both overloads): declares and returns a Single definition. */
    method Single(clazz: KClass, name: Option<string>, createdAtStart: bool, override: bool, definition: Definition)
      returns (d: BeanDefinition)
      requires Valid()
      modifies this
      ensures Valid() && fresh(d)
      ensures definitions == old(definitions) + [d] && scopes == old(scopes)
      ensures d.definition.Some?
      ensures d.Snapshot() == BeanRecord(clazz, name, Kind.Single, None, Merged(Options(createdAtStart, override)), definition)
      ensures d.instance == Some(InstanceHolder(Kind.Single))
    {
      d := DefinitionFactory.CreateSingle(clazz, name, definition);
      DeclareDefinition(d, Options(createdAtStart, override));
    }

    /** `singleAny`: the same declaration through `createSingleAny`. */
    method SingleAny(clazz: KClass, name: Option<string>, createdAtStart: bool, override: bool, definition: Definition)
      returns (d: BeanDefinition)
      requires Valid()
      modifies this
      ensures Valid() && fresh(d)
      ensures definitions == old(definitions) + [d] && scopes == old(scopes)
      ensures d.definition.Some?
      ensures d.Snapshot() == BeanRecord(clazz, name, Kind.Single, None, Merged(Options(createdAtStart, override)), definition)
      ensures d.instance == Some(InstanceHolder(Kind.Single))
    {
      d := DefinitionFactory.CreateSingleAny(clazz, name, definition);
      DeclareDefinition(d, Options(createdAtStart, override));
    }

    /**
     * `factory` (both overloads): declares a Factory definition whose own
     * created-at-start flag is false, so only the module flag can set it.
     */
    method Factory(clazz: KClass, name: Option<string>, override: bool, definition: Definition)
      returns (d: BeanDefinition)
      requires Valid()
      modifies this
      ensures Valid() && fresh(d)
      ensures definitions == old(definitions) + [d] && scopes == old(scopes)
      ensures d.definition.Some?
      ensures d.Snapshot() == BeanRecord(clazz, name, Kind.Factory, None, Merged(Options(false, override)), definition)
      ensures d.options.isCreatedAtStart == isCreatedAtStart
      ensures d.instance == Some(InstanceHolder(Kind.Factory))
    {
      d := DefinitionFactory.CreateFactory(clazz, name, definition);
      DeclareDefinition(d, Options(false, override));
    }

    /** `scoped` at module level: a Scope definition with no scope name. */
    method Scoped(clazz: KClass, name: Option<string>, override: bool, definition: Definition)
      returns (d: BeanDefinition)
      requires Valid()
      modifies this
      ensures Valid() && fresh(d)
      ensures definitions == old(definitions) + [d] && scopes == old(scopes)
      ensures d.definition.Some?
      ensures d.Snapshot() == BeanRecord(clazz, name, Kind.Scope, None, Merged(Options(false, override)), definition)
      ensures d.instance == Some(InstanceHolder(Kind.Scope))
    {
      d := DefinitionFactory.CreateScope(clazz, name, None, definition);
      DeclareDefinition(d, Options(false, override));
    }

    /** What a `scoped` call inside a `scope(scopeName)` block leaves in the module. */
    ghost predicate DeclaredIn(d: BeanDefinition, decl: ScopedDeclaration, scopeName: string)
      reads d
    {
      && d.definition.Some?
      && d.Snapshot() == BeanRecord(decl.primaryType, decl.name, Kind.Scope, Some(scopeName),
                                    Merged(Options(false, decl.override)), decl.definition)
      && d.instance == Some(InstanceHolder(Kind.Scope))
    }

    /**
     * `scope(scopeName) { … }`: runs the body, whose `scoped` calls declare
     * Scope definitions carrying `scopeName`, and only then appends one scope
     * declaration carrying that name.
     */
    method Scope(scopeName: string, body: seq<ScopedDeclaration>)
      requires Valid()
      modifies this
      ensures Valid()
      ensures scopes == old(scopes) + [ScopeDefinition(scopeName)]
      ensures |definitions| == |old(definitions)| + |body|
      ensures definitions[..|old(definitions)|] == old(definitions)
      ensures forall k :: |old(definitions)| <= k < |definitions| ==>
                fresh(definitions[k]) && DeclaredIn(definitions[k], body[k - |old(definitions)|], scopeName)
    {
      ghost var added: seq<BeanDefinition> := [];
      var i := 0;
      while i < |body|
        invariant 0 <= i <= |body| && |added| == i
        invariant Valid()
        invariant scopes == old(scopes)
        invariant definitions == old(definitions) + added
        invariant forall k :: 0 <= k < i ==> fresh(added[k]) && DeclaredIn(added[k], body[k], scopeName)
      {
        var decl := body[i];
        var d := DefinitionFactory.CreateScope(decl.primaryType, decl.name, Some(scopeName), decl.definition);
        DeclareDefinition(d, Options(false, decl.override));
        added := added + [d];
        i := i + 1;
      }
      DeclareScope(ScopeDefinition(scopeName));
    }

    /** `scope<T> { … }`: the same with the full name of `T` as the scope name. */
    method ScopeOf(clazz: KClass, body: seq<ScopedDeclaration>)
      requires Valid()
      modifies this
      ensures Valid()
      ensures scopes == old(scopes) + [ScopeDefinition(GetFullName(clazz))]
      ensures |definitions| == |old(definitions)| + |body|
      ensures definitions[..|old(definitions)|] == old(definitions)
      ensures forall k :: |old(definitions)| <= k < |definitions| ==>
                fresh(definitions[k]) && DeclaredIn(definitions[k], body[k - |old(definitions)|], GetFullName(clazz))
    {
      Scope(GetFullName(clazz), body);
    }

    /** `m1 + m2`: the list holding this module and then `other`. */
    function Plus(other: Module): (r: seq<Module>)
      ensures |r| == 2 && r[0] == this && r[1] == other
    {
      [this, other]
    }
  }

  /** `List<Module> + m`: the list with `m` added after its last element. */
  function PlusModule(modules: seq<Module>, m: Module): (r: seq<Module>)
    ensures |r| == |modules| + 1
    ensures r[..|modules|] == modules && r[|modules|] == m
  {
    modules + [m]
  }

  /**
   * The `definition kind` and `definition name` scenarios: in a module that
   * declares `single("A") { A }` and then `factory { B }`, the first definition
   * is a Single named "A" and the second an unnamed Factory, in that order.
   */
  method DefinitionKindScenario(a: KClass, b: KClass, fa: Definition, fb: Definition)
    returns (kindA: Kind, nameA: Option<string>, kindB: Kind, nameB: Option<string>, declaredInOrder: bool)
    ensures kindA == Kind.Single && nameA == Some("A")
    ensures kindB == Kind.Factory && nameB == None
    ensures declaredInOrder
  {
    var m := new Module(false, false);
    var defA := m.Single(a, Some("A"), false, false, fa);
    var defB := m.Factory(b, None, false, fb);
    kindA, nameA := defA.kind, defA.name;
    kindB, nameB := defB.kind, defB.name;
    declaredInOrder := m.definitions == [defA, defB];
  }
}
