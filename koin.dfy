/**
 * `org.koin.core.Koin`: the resolution front end.  It looks a definition up by
 * (type, name), checks that a scoped definition fits the scope instance it is
 * resolved through, hands the definition to its instance holder, and keeps the
 * bookkeeping of scope instances and properties.
 *
 * The three registries it delegates to are not part of this model; they are
 * the fields of `Koin` below, holding only what Koin.kt relies on.
 */
module KoinCore {
  import opened Wrappers
  import opened BeanDefinitions

  /** A scope instance: its id, the name of its scope (if any) and whether it was registered with a container. */
  datatype ScopeInstance = ScopeInstance(id: string, scopeName: Option<string>, registered: bool)

  /** An opaque token for the caller's `ParametersDefinition`. */
  datatype Parameters = Parameters(id: nat)

  /** An opaque token for a property value. */
  datatype PropertyValue = PropertyValue(id: nat)

  datatype KoinError =
    /** `NoBeanDefFoundException`: nothing is registered for the requested type and name. */
    | NoBeanDefFound(clazz: KClass, name: Option<string>)
    /** `BadScopeInstanceException`: the definition needs scope `required`, the instance `supplied` does not have it. */
    | BadScopeInstance(required: string, supplied: ScopeInstance)
    /** The scope registry already holds an instance with this id. */
    | ScopeAlreadyCreated(scopeId: string)
    /** The scope registry holds no instance with this id. */
    | ScopeNotFound(scopeId: string)
    /** `error("ScopeInstance … is not registered")` in `getScope`. */
    | ScopeNotRegistered(scopeId: string)

  /**
   * A call the container makes into a collaborator that is not part of this
   * model, recorded so that order and multiplicity can be stated.
   */
  datatype Call =
    /** The definition's holder resolves it with the given scope and parameters. */
    | ResolveInstance(definition: BeanRecord, scope: Option<ScopeInstance>, parameters: Option<Parameters>)
    | CloseScopeRegistry
    | CloseBeanRegistry
    | ClosePropertyRegistry

  predicate Matches(d: BeanRecord, name: Option<string>, clazz: KClass)
  {
    d.primaryType == clazz && d.name == name
  }

  /**
   * `beanRegistry.findDefinition(name, clazz)`: a registered definition with
   * that key, or `None` exactly when there is none.  (The registry's own
   * choice among several is not modelled; this one takes the earliest.)
   */
  function FindDefinition(definitions: seq<BeanRecord>, name: Option<string>, clazz: KClass): (r: Option<BeanRecord>)
    ensures r.Some? ==> r.value in definitions && Matches(r.value, name, clazz)
    ensures r.None? ==> forall d :: d in definitions ==> !Matches(d, name, clazz)
  {
    if definitions == [] then None
    else if Matches(definitions[0], name, clazz) then Some(definitions[0])
    else FindDefinition(definitions[1..], name, clazz)
  }

  /**
   * `checkScopeResolution`: a definition fits a scope instance when both scope
   * names agree (both absent included) or the definition names no scope; it is
   * refused when the names differ and the instance has no name or both have one.
   */
  function CheckScopeResolution(definition: BeanRecord, scope: ScopeInstance): (r: Outcome<KoinError>)
    ensures definition.scopeName == scope.scopeName ==> r == Pass
    ensures definition.scopeName.None? ==> r == Pass
    ensures definition.scopeName != scope.scopeName && scope.scopeName.None? ==>
              r == Fail(BadScopeInstance(definition.scopeName.value, scope))
    ensures definition.scopeName != scope.scopeName && definition.scopeName.Some? && scope.scopeName.Some? ==>
              r == Fail(BadScopeInstance(definition.scopeName.value, scope))
  {
    var scopeInstanceName := scope.scopeName;
    var beanScopeName := definition.scopeName;
    if beanScopeName != scopeInstanceName then
      if scopeInstanceName.None? then Fail(BadScopeInstance(beanScopeName.value, scope))
      else if beanScopeName.Some? then Fail(BadScopeInstance(beanScopeName.value, scope))
      else Pass
    else Pass
  }

  /**
   * `prepareResolution`: fails with `NoBeanDefFound` exactly when no definition
   * has the requested key; runs the scope check only for a scoped definition
   * resolved through a scope instance; otherwise passes the definition and the
   * given scope (possibly none) through unchanged.
   */
  function PrepareResolution(definitions: seq<BeanRecord>, name: Option<string>, clazz: KClass, scope: Option<ScopeInstance>)
    : (r: Result<(BeanRecord, Option<ScopeInstance>), KoinError>)
    ensures r == Failure(NoBeanDefFound(clazz, name)) <==> forall d :: d in definitions ==> !Matches(d, name, clazz)
    ensures r.Success? ==> r.value.0 in definitions && Matches(r.value.0, name, clazz) && r.value.1 == scope
    ensures r.Failure? ==> r.error.NoBeanDefFound? || (r.error.BadScopeInstance? && scope == Some(r.error.supplied))
    ensures FindDefinition(definitions, name, clazz).Some? ==>
              var found := FindDefinition(definitions, name, clazz).value;
              && (!found.IsScoped() || scope.None? ==> r == Success((found, scope)))
              && (found.IsScoped() && scope.Some? ==>
                    (r.Success? <==> found.scopeName == scope.value.scopeName || found.scopeName.None?))
  {
    match FindDefinition(definitions, name, clazz)
    case None => Failure(NoBeanDefFound(clazz, name))
    case Some(definition) =>
      if definition.IsScoped() && scope.Some? then
        match CheckScopeResolution(definition, scope.value)
        case Fail(e) => Failure(e)
        case Pass => Success((definition, scope))
      else
        Success((definition, scope))
  }

  /**
   * `beanRegistry.findAllCreatedAtStartDefinition()`: the definitions flagged
   * created-at-start, in registration order.
   */
  function CreatedAtStart(definitions: seq<BeanRecord>): (r: seq<BeanRecord>)
    ensures |r| <= |definitions|
    ensures forall d :: d in r ==> d in definitions && d.options.isCreatedAtStart
    ensures forall d :: d in definitions && d.options.isCreatedAtStart ==> d in r
  {
    if definitions == [] then []
    else if definitions[0].options.isCreatedAtStart then [definitions[0]] + CreatedAtStart(definitions[1..])
    else CreatedAtStart(definitions[1..])
  }

  /** Filtering distributes over registration order: definitions registered later come later. */
  lemma {:induction false} CreatedAtStartAppend(a: seq<BeanRecord>, b: seq<BeanRecord>)
    ensures CreatedAtStart(a + b) == CreatedAtStart(a) + CreatedAtStart(b)
  {
    if a == [] {
      assert a + b == b;
    } else {
      assert (a + b)[0] == a[0] && (a + b)[1..] == a[1..] + b;
      CreatedAtStartAppend(a[1..], b);
    }
  }

  /** In a registry where every definition is flagged (a module declared created-at-start), all of them start eagerly. */
  lemma {:induction false} CreatedAtStartAll(definitions: seq<BeanRecord>)
    requires forall d :: d in definitions ==> d.options.isCreatedAtStart
    ensures CreatedAtStart(definitions) == definitions
  {
    if definitions != [] {
      CreatedAtStartAll(definitions[1..]);
    }
  }

  /** With no flagged definition, eager start-up makes no call at all. */
  lemma {:induction false} NoEagerCallsWithoutFlags(definitions: seq<BeanRecord>)
    requires forall d :: d in definitions ==> !d.options.isCreatedAtStart
    ensures CreatedAtStart(definitions) == [] && EagerCalls(CreatedAtStart(definitions)) == []
  {
    if definitions != [] {
      NoEagerCallsWithoutFlags(definitions[1..]);
    }
  }

  /** The calls eager start-up makes: one resolution per definition, in order, with no scope and no parameters. */
  function EagerCalls(definitions: seq<BeanRecord>): seq<Call>
  {
    if definitions == [] then []
    else [ResolveInstance(definitions[0], None, None)] + EagerCalls(definitions[1..])
  }

  /** Each definition gets exactly one eager resolution call, at its own position. */
  lemma {:induction false} EagerCallsAt(definitions: seq<BeanRecord>, k: nat)
    requires k < |definitions|
    ensures |EagerCalls(definitions)| == |definitions|
    ensures EagerCalls(definitions)[k] == ResolveInstance(definitions[k], None, None)
  {
    if k > 0 {
      EagerCallsAt(definitions[1..], k - 1);
    } else if |definitions| > 1 {
      EagerCallsAt(definitions[1..], 0);
    }
  }

  /** One more definition adds its call at the end. */
  lemma {:induction false} EagerCallsSnoc(definitions: seq<BeanRecord>, d: BeanRecord)
    ensures EagerCalls(definitions + [d]) == EagerCalls(definitions) + [ResolveInstance(d, None, None)]
  {
    if definitions != [] {
      assert (definitions + [d])[1..] == definitions[1..] + [d];
      EagerCallsSnoc(definitions[1..], d);
    }
  }

  class Koin {
    /** The bean registry: the declared definitions, in registration order. */
    var definitions: seq<BeanRecord>
    /** The scope registry: scope instances by id. */
    var scopes: map<string, ScopeInstance>
    /** The property registry. */
    var properties: map<string, PropertyValue>
    /** The calls made so far into instance holders and registries. */
    ghost var calls: seq<Call>

    /** Every scope instance is filed under its own id. */
    ghost predicate Valid()
      reads this
    {
      forall id :: id in scopes ==> scopes[id].id == id
    }

    constructor ()
      ensures Valid()
      ensures definitions == [] && scopes == map[] && properties == map[] && calls == []
    {
      definitions := [];
      scopes := map[];
      properties := map[];
      calls := [];
    }

    /**
     * `resolve`: prepares the resolution and, when it succeeds, hands the
     * definition to its holder with the given scope and parameters; the
     * result is the definition whose instance is returned.
     */
    method Resolve(name: Option<string>, clazz: KClass, scope: Option<ScopeInstance>, parameters: Option<Parameters>)
      returns (r: Result<BeanRecord, KoinError>)
      modifies this`calls
      ensures match PrepareResolution(definitions, name, clazz, scope)
              case Success(p) => r == Success(p.0) && calls == old(calls) + [ResolveInstance(p.0, p.1, parameters)]
              case Failure(e) => r == Failure(e) && calls == old(calls)
    {
      var prepared := PrepareResolution(definitions, name, clazz, scope);
      if prepared.Failure? {
        return Failure(prepared.error);
      }
      var (definition, targetScopeInstance) := prepared.value;
      calls := calls + [ResolveInstance(definition, targetScopeInstance, parameters)];
      r := Success(definition);
    }

    /** `get(kclass, name, scope, parameters)`: `resolve`, without the lock and the timing log. */
    method Get(clazz: KClass, name: Option<string>, scope: Option<ScopeInstance>, parameters: Option<Parameters>)
      returns (r: Result<BeanRecord, KoinError>)
      modifies this`calls
      ensures match PrepareResolution(definitions, name, clazz, scope)
              case Success(p) => r == Success(p.0) && calls == old(calls) + [ResolveInstance(p.0, p.1, parameters)]
              case Failure(e) => r == Failure(e) && calls == old(calls)
    {
      r := Resolve(name, clazz, scope, parameters);
    }

    /**
     * `createEagerInstances`: resolves every created-at-start definition once,
     * in registration order, with no scope and no parameters.
     */
    method CreateEagerInstances()
      modifies this`calls
      ensures calls == old(calls) + EagerCalls(CreatedAtStart(definitions))
    {
      var eager := CreatedAtStart(definitions);
      if |eager| > 0 {
        var i := 0;
        while i < |eager|
          invariant 0 <= i <= |eager|
          invariant calls == old(calls) + EagerCalls(eager[..i])
        {
          EagerCallsSnoc(eager[..i], eager[i]);
          assert eager[..i + 1] == eager[..i] + [eager[i]];
          calls := calls + [ResolveInstance(eager[i], None, None)];
          i := i + 1;
        }
        assert eager[..i] == eager;
      }
    }

    /** The scope registry's lookup by id, which gives none for an unknown id. */
    function GetScopeInstanceOrNull(scopeId: string): Option<ScopeInstance>
      reads this
    {
      if scopeId in scopes then Some(scopes[scopeId]) else None
    }

    /**
     * `createScope`: files a new scope instance under `scopeId` and registers
     * it with this container; an id already in use is refused.
     */
    method CreateScope(scopeId: string, scopeName: Option<string>) returns (r: Result<ScopeInstance, KoinError>)
      requires Valid()
      modifies this`scopes
      ensures Valid()
      ensures scopeId in old(scopes) ==> r == Failure(ScopeAlreadyCreated(scopeId)) && scopes == old(scopes)
      ensures scopeId !in old(scopes) ==>
                r == Success(ScopeInstance(scopeId, scopeName, true)) && scopes == old(scopes)[scopeId := r.value]
    {
      // The scope registry refuses a used id, else files a new, unregistered instance.
      if scopeId in scopes {
        return Failure(ScopeAlreadyCreated(scopeId));
      }
      var created := ScopeInstance(scopeId, scopeName, false);
      scopes := scopes[scopeId := created];
      // The new instance is then registered with this container.
      created := created.(registered := true);
      scopes := scopes[scopeId := created];
      r := Success(created);
    }

    /** `createScopeWithType<T>`: `createScope` with the full name of `T` as the scope name. */
    method CreateScopeWithType(scopeId: string, clazz: KClass) returns (r: Result<ScopeInstance, KoinError>)
      requires Valid()
      modifies this`scopes
      ensures Valid()
      ensures scopeId in old(scopes) ==> r == Failure(ScopeAlreadyCreated(scopeId)) && scopes == old(scopes)
      ensures scopeId !in old(scopes) ==>
                r == Success(ScopeInstance(scopeId, Some(GetFullName(clazz)), true))
                && scopes == old(scopes)[scopeId := r.value]
    {
      r := CreateScope(scopeId, Some(GetFullName(clazz)));
    }

    /**
     * `getOrCreateScope`: the instance already filed under `scopeId`, leaving
     * the registry as it was, or else a new registered one with `scopeName`.
     */
    method GetOrCreateScope(scopeId: string, scopeName: Option<string>) returns (s: ScopeInstance)
      requires Valid()
      modifies this`scopes
      ensures Valid() && s.id == scopeId
      ensures scopeId in old(scopes) ==> s == old(scopes)[scopeId] && scopes == old(scopes)
      ensures scopeId !in old(scopes) ==> s == ScopeInstance(scopeId, scopeName, true) && scopes == old(scopes)[scopeId := s]
    {
      var existing := GetScopeInstanceOrNull(scopeId);
      if existing.Some? {
        s := existing.value;
      } else {
        var created := CreateScope(scopeId, scopeName);
        s := created.value;
      }
    }

    /** `getOrCreateScopeWithType<T>`: the same with the full name of `T` as the scope name. */
    method GetOrCreateScopeWithType(scopeId: string, clazz: KClass) returns (s: ScopeInstance)
      requires Valid()
      modifies this`scopes
      ensures Valid() && s.id == scopeId
      ensures scopeId in old(scopes) ==> s == old(scopes)[scopeId] && scopes == old(scopes)
      ensures scopeId !in old(scopes) ==>
                s == ScopeInstance(scopeId, Some(GetFullName(clazz)), true) && scopes == old(scopes)[scopeId := s]
    {
      s := GetOrCreateScope(scopeId, Some(GetFullName(clazz)));
    }

    /**
     * `getScope`: the instance filed under `scopeId`, provided it is registered;
     * a missing id and an unregistered instance are errors.
     */
    function GetScope(scopeId: string): (r: Result<ScopeInstance, KoinError>)
      reads this
      ensures r.Success? <==> scopeId in scopes && scopes[scopeId].registered
      ensures r.Success? ==> r.value == scopes[scopeId]
      ensures scopeId !in scopes ==> r == Failure(ScopeNotFound(scopeId))
      ensures scopeId in scopes && !scopes[scopeId].registered ==> r == Failure(ScopeNotRegistered(scopeId))
    {
      // The scope registry fails for an unknown id.
      if scopeId !in scopes then Failure(ScopeNotFound(scopeId))
      else
        var scope := scopes[scopeId];
        if !scope.registered then Failure(ScopeNotRegistered(scopeId))
        else Success(scope)
    }

    /** `deleteScope`: drops the instance filed under `scopeId`, if any. */
    method DeleteScope(scopeId: string)
      requires Valid()
      modifies this`scopes
      ensures Valid()
      ensures scopes == old(scopes) - {scopeId}
      ensures GetScopeInstanceOrNull(scopeId) == None
    {
      scopes := scopes - {scopeId};
    }

    /** `getProperty`: the value stored under `key`, or `None`. */
    function GetProperty(key: string): (r: Option<PropertyValue>)
      reads this
      ensures r.Some? <==> key in properties
      ensures r.Some? ==> r.value == properties[key]
    {
      if key in properties then Some(properties[key]) else None
    }

    /** `setProperty`: stores `value` under `key`, replacing any earlier value. */
    method SetProperty(key: string, value: PropertyValue)
      modifies this`properties
      ensures properties == old(properties)[key := value]
      ensures GetProperty(key) == Some(value)
      ensures forall k :: k != key ==> GetProperty(k) == old(GetProperty(k))
    {
      properties := properties[key := value];
    }

    /**
     * `close`: closes the scope registry, then the bean registry, then the
     * property registry; afterwards every lookup fails with `NoBeanDefFound`.
     */
    method Close()
      modifies this`scopes, this`definitions, this`properties, this`calls
      ensures Valid()
      ensures scopes == map[] && definitions == [] && properties == map[]
      ensures calls == old(calls) + [CloseScopeRegistry, CloseBeanRegistry, ClosePropertyRegistry]
      ensures forall name, clazz, scope :: PrepareResolution(definitions, name, clazz, scope) == Failure(NoBeanDefFound(clazz, name))
    {
      scopes := map[];
      calls := calls + [CloseScopeRegistry];
      definitions := [];
      calls := calls + [CloseBeanRegistry];
      properties := map[];
      calls := calls + [ClosePropertyRegistry];
    }
  }
}
