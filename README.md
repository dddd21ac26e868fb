# Koin resolution core, modelled in Dafny

This project models the core of the Koin dependency-injection container (Kotlin) and proves properties of that model:

- the resolution front end of `Koin`: it looks up a definition by type and optional name, checks that a scoped definition fits the scope instance it is resolved through, and hands the definition to its instance holder;
- the container's bookkeeping: scope instances (create, get-or-create, get, delete), properties, eager start-up of created-at-start definitions, and `close`;
- the `Module` builder, which appends definitions and scope declarations in order and merges each definition's options with the module flags;
- `DefinitionFactory`, which builds definitions of each kind.

Files and modules:

- `wrappers.dfy` (`Wrappers`): `Option` stands for a Kotlin nullable value. `Result` and `Outcome` stand for a call that may throw.
- `bean_definition.dfy` (`BeanDefinitions`): the definition entity.
  - Type tokens (`KClass`) and factory closures (`Definition`) are opaque.
  - `BeanDefinition` is a class, because the factory and the module set its fields one step at a time.
  - `BeanRecord` is the value the registries keep for a complete definition (`BeanDefinition.Snapshot`).
- `definition_factory.dfy` (`DefinitionFactory`): the factory, plus two scenarios from `BeanDefinitionTest`.
- `module_dsl.dfy` (`Modules`): the `Module` class. Its `Valid` invariant says that a module-level `true` flag is `true` on every declared definition.
- `koin.dfy` (`KoinCore`):
  - pure decision functions: lookup, scope check, resolution preparation, created-at-start filter;
  - the `Koin` class, whose fields stand for the three registries.

The bean, scope and property registries and the instance holders are not part of this model. `Koin` holds only what `Koin.kt` relies on:

- a sequence of `BeanRecord`s, keyed by (type, name);
- a map from scope id to `ScopeInstance(id, scopeName, registered)`;
- a map from property key to an opaque value.

The calls `Koin` makes into collaborators outside the model are appended to a ghost log, `calls`. These are `resolveInstance` on a definition and `close` on each registry. The log lets the contracts state order and multiplicity.

In two places the code behaves differently from what a reader of the API might expect, and the model follows the code:

- A scoped definition resolved with no scope instance is not rejected. The scope check runs only when a scope instance is supplied (`Koin.kt:118`).
- A definition that names no scope is accepted through any scope instance, named or not (`Koin.kt:128-132`).

`Koin.kt` has no "container closed" error either. The model assumes that each registry's own `close` empties it, so after `close` every lookup fails with `NoBeanDefFound` (`KoinCore.Koin.Close`).

## Model

| member | source | states |
|---|---|---|
| `KoinCore.FindDefinition` | koin-projects/koin-core/src/main/kotlin/org/koin/core/Koin.kt:115 | a found definition is registered and has the requested type and name; nothing is found exactly when no registered definition has that key |
| `KoinCore.CheckScopeResolution` | koin-projects/koin-core/src/main/kotlin/org/koin/core/Koin.kt:125-134 | accepts when the definition's scope name equals the instance's (both absent included) or the definition has none; rejects with `BadScopeInstance` naming the required scope when the names differ and the instance is unnamed or both are named |
| `KoinCore.PrepareResolution` | koin-projects/koin-core/src/main/kotlin/org/koin/core/Koin.kt:110-123 | fails with `NoBeanDefFound(type, name)` exactly when no definition has the key; the scope check decides only for a scoped definition with a supplied scope instance; otherwise the found definition and the given scope, possibly none, pass through unchanged |
| `KoinCore.Koin.Resolve` | koin-projects/koin-core/src/main/kotlin/org/koin/core/Koin.kt:99-108 | on success, exactly one `resolveInstance` call for the prepared definition, with the prepared scope and the caller's parameters; on failure, the error and no call |
| `KoinCore.Koin.Get` | koin-projects/koin-core/src/main/kotlin/org/koin/core/Koin.kt:82-97 | the same outcome and calls as `resolve` |
| `KoinCore.CreatedAtStart` | koin-projects/koin-core/src/main/kotlin/org/koin/core/Koin.kt:137 | keeps exactly the registered definitions flagged created-at-start, and no others |
| `KoinCore.CreatedAtStartAppend` | koin-projects/koin-core/src/main/kotlin/org/koin/core/Koin.kt:137 | the created-at-start definitions keep registration order: filtering a concatenation concatenates the filtered parts |
| `KoinCore.CreatedAtStartAll` | koin-projects/koin-core/src/main/kotlin/org/koin/core/Koin.kt:137 | when every definition is flagged (a module declared created-at-start), all of them are started, in order |
| `KoinCore.NoEagerCallsWithoutFlags` | koin-projects/koin-core/src/main/kotlin/org/koin/core/Koin.kt:136-143 | with no flagged definition, eager start-up makes no call |
| `KoinCore.EagerCallsAt` | koin-projects/koin-core/src/main/kotlin/org/koin/core/Koin.kt:139-141 | eager start-up makes one call per created-at-start definition, at its own position, with no scope and no parameters |
| `KoinCore.EagerCallsSnoc` | koin-projects/koin-core/src/main/kotlin/org/koin/core/Koin.kt:139-141 | each further definition adds its one call at the end |
| `KoinCore.Koin.CreateEagerInstances` | koin-projects/koin-core/src/main/kotlin/org/koin/core/Koin.kt:136-143 | appends exactly the eager resolution calls for the created-at-start definitions, in registration order, and nothing else |
| `KoinCore.Koin.constructor` | koin-projects/koin-core/src/main/kotlin/org/koin/core/Koin.kt:42-45 | a new container has empty registries |
| `KoinCore.Koin.CreateScope` | koin-projects/koin-core/src/main/kotlin/org/koin/core/Koin.kt:150-154 | an unused id gets a new scope instance with the given name, registered with the container and filed under that id; a used id is refused and the registry is unchanged |
| `KoinCore.Koin.CreateScopeWithType` | koin-projects/koin-core/src/main/kotlin/org/koin/core/Koin.kt:161-166 | as `createScope`, with the type's full name as the scope name |
| `KoinCore.Koin.GetOrCreateScope` | koin-projects/koin-core/src/main/kotlin/org/koin/core/Koin.kt:173-175 | a known id returns the existing instance and leaves the registry unchanged; an unknown id creates and files a registered instance with the given name |
| `KoinCore.Koin.GetOrCreateScopeWithType` | koin-projects/koin-core/src/main/kotlin/org/koin/core/Koin.kt:181-184 | as `getOrCreateScope`, with the type's full name as the scope name |
| `KoinCore.Koin.GetScope` | koin-projects/koin-core/src/main/kotlin/org/koin/core/Koin.kt:190-196 | returns the instance filed under the id exactly when there is one and it is registered; otherwise fails with "not found" or "not registered" |
| `KoinCore.Koin.DeleteScope` | koin-projects/koin-core/src/main/kotlin/org/koin/core/Koin.kt:201-203 | removes the id, and only that id, from the scope registry |
| `KoinCore.Koin.GetProperty` | koin-projects/koin-core/src/main/kotlin/org/koin/core/Koin.kt:209-211 | returns a value exactly when the key is stored, and then the stored value |
| `KoinCore.Koin.SetProperty` | koin-projects/koin-core/src/main/kotlin/org/koin/core/Koin.kt:218-220 | afterwards the key reads back the new value and every other key reads as before |
| `KoinCore.Koin.Close` | koin-projects/koin-core/src/main/kotlin/org/koin/core/Koin.kt:225-229 | closes the scope registry, then the bean registry, then the property registry; afterwards every lookup fails with `NoBeanDefFound` |
| `Modules.Module.constructor` | koin-projects/koin-core/src/main/kotlin/org/koin/core/module/Module.kt:32-37 | a new module keeps its two flags and has empty definition and scope lists |
| `Modules.Module.Merged` | koin-projects/koin-core/src/main/kotlin/org/koin/core/module/Module.kt:106-109 | each merged flag is true exactly when the declared flag or the module flag is true, so a module-level `true` forces `true` |
| `Modules.Module.UpdateOptions` | koin-projects/koin-core/src/main/kotlin/org/koin/core/module/Module.kt:106-109 | the definition's options become the merged options |
| `Modules.Module.DeclareDefinition` | koin-projects/koin-core/src/main/kotlin/org/koin/core/module/Module.kt:42-45 | appends exactly one definition at the end; earlier entries keep their order and options; the scope list is unchanged; the module invariant holds |
| `Modules.Module.DeclareScope` | koin-projects/koin-core/src/main/kotlin/org/koin/core/module/Module.kt:50-52 | appends exactly one scope declaration |
| `Modules.Module.Single` | koin-projects/koin-core/src/main/kotlin/org/koin/core/module/Module.kt:61-85 | declares and returns one new Single definition with the given type, name and closure, and merged options |
| `Modules.Module.SingleAny` | koin-projects/koin-core/src/main/kotlin/org/koin/core/module/Module.kt:94-104 | the same declaration as `single` |
| `Modules.Module.Factory` | koin-projects/koin-core/src/main/kotlin/org/koin/core/module/Module.kt:152-177 | declares a new Factory definition; it is created-at-start exactly when the module flag is set |
| `Modules.Module.Scoped` | koin-projects/koin-core/src/main/kotlin/org/koin/core/module/Module.kt:136-144 | declares a new Scope definition with no scope name |
| `Modules.Module.Scope` | koin-projects/koin-core/src/main/kotlin/org/koin/core/module/Module.kt:115-118 | the body's `scoped` declarations are appended in order, each carrying the scope name; then exactly one scope declaration with that name is appended |
| `Modules.Module.ScopeOf` | koin-projects/koin-core/src/main/kotlin/org/koin/core/module/Module.kt:123-127 | as `scope`, with the type's full name as the scope name |
| `Modules.Module.Plus` | koin-projects/koin-core/src/main/kotlin/org/koin/core/module/Module.kt:182 | `m1 + m2` is the two-element list `[m1, m2]` |
| `Modules.PlusModule` | koin-projects/koin-core/src/main/kotlin/org/koin/core/module/Module.kt:188 | `list + m` keeps `list` as its prefix and has `m` as its last element |
| `Modules.DefinitionKindScenario` | koin-projects/koin-core/src/test/kotlin/org/koin/dsl/BeanDefinitionTest.kt:43-77 | `single("A")` then `factory` in one module give a Single named "A" and an unnamed Factory, declared in that order |
| `BeanDefinitions.BeanDefinition.constructor` | koin-projects/koin-core/src/main/kotlin/org/koin/core/definition/DefinitionFactory.kt:68 | a new definition has the given key, default options, and no closure, scope name or holder yet |
| `BeanDefinitions.BeanDefinition.CreateInstanceHolder` | koin-projects/koin-core/src/main/kotlin/org/koin/core/definition/DefinitionFactory.kt:71 | the holder is built for the kind the definition has at that moment |
| `BeanDefinitions.BeanDefinition.SetScopeName` | koin-projects/koin-core/src/main/kotlin/org/koin/core/definition/DefinitionFactory.kt:37 | the definition's scope name becomes the given one |
| `DefinitionFactory.CreateDefinition` | koin-projects/koin-core/src/main/kotlin/org/koin/core/definition/DefinitionFactory.kt:56-73 | a new definition whose type, name, closure and kind are exactly the arguments (kind Single by default), with no scope name and default options, and a holder built for that final kind |
| `DefinitionFactory.CreateDefinitionAny` | koin-projects/koin-core/src/main/kotlin/org/koin/core/definition/DefinitionFactory.kt:75-86 | the same definition as `createDefinition` |
| `DefinitionFactory.CreateSingle` | koin-projects/koin-core/src/main/kotlin/org/koin/core/definition/DefinitionFactory.kt:8-21 | a new Single definition with a Single holder |
| `DefinitionFactory.CreateSingleAny` | koin-projects/koin-core/src/main/kotlin/org/koin/core/definition/DefinitionFactory.kt:23-29 | a new Single definition with a Single holder |
| `DefinitionFactory.CreateFactory` | koin-projects/koin-core/src/main/kotlin/org/koin/core/definition/DefinitionFactory.kt:41-54 | a new Factory definition with a Factory holder |
| `DefinitionFactory.CreateScope` | koin-projects/koin-core/src/main/kotlin/org/koin/core/definition/DefinitionFactory.kt:31-39 | a new Scope definition whose scope name is the given one when there is one and stays unset otherwise |
| `BeanDefinitions.BeanDefinition.Equals` | koin-projects/koin-core/src/test/kotlin/org/koin/dsl/BeanDefinitionTest.kt:18-41 | assumed from the tests: equal exactly when primary type and name agree, so kind and closure are not compared; reflexive |
| `DefinitionFactory.EqualsDefinitions` | koin-projects/koin-core/src/test/kotlin/org/koin/dsl/BeanDefinitionTest.kt:18-41 | two definitions with the same type and name are equal whatever their closures, and also when one is Single and the other Factory |
| `DefinitionFactory.ScopeDefinitionScenario` | koin-projects/koin-core/src/test/kotlin/org/koin/dsl/BeanDefinitionTest.kt:26-34 | a definition made for scope "scope" carries that scope name and kind Scope |

## Left out

- Reflection-based construction (`InstanceBuilder.kt`, `ModuleExt.kt`) is left out. It looks up Java constructors and caches them; the model has explicit closures only.
- Logging and timing in `get` are left out. This instrumentation includes `measureDuration`, which works in floating point.
- The `synchronized` lock in `get` is left out. `Get` is a plain sequential call.
- `inject` is left out. It only wraps `get` in a Kotlin `Lazy`.
- Reified type parameters are not modelled. A reified overload and its `KClass` twin are one member that takes the type explicitly.
- The `*Any` variants differ from the others only in the erased type argument.
- The bean registry's internals are not part of this model: its override and conflict rules and its ambiguity errors are not kept.
- KoinCore.FindDefinition: a request without a name matches only definitions without a name, so lookup by type alone (finding the one definition of a type whatever its name) is not modelled in any case.
- KoinCore.FindDefinition: takes the earliest matching record. The real registry's choice among records with equal keys is not modelled, and the contract promises only a matching record.
- KoinCore.Koin.CreateScope: the scope registry is not part of this model. The model assumes that it refuses an id already in use.
- KoinCore.Koin.Close: the registries' own close is not shown; the model assumes each one empties its registry, so later lookups fail with `NoBeanDefFound`.
- KoinCore.CreatedAtStart: the registry's filter is not shown; the model assumes it returns the flagged definitions in registration order.
- KoinCore.Koin.GetScope: the model assumes the scope registry fails for an unknown id.
- KoinCore.Koin.CreateScope: the scope registry's mapping from a scope name to a declared `ScopeDefinition` is not modelled. The instance carries the given name directly.
- Instance holders and `resolveInstance` are not modelled: single-instance caching, per-call factories and per-scope caches. `Resolve` returns the definition whose instance would be produced and records the call. It does not model the instance or a failure inside the factory, so eager start-up cannot abort part-way.
- KoinCore.Koin.DeleteScope: releasing the holders owned by the deleted scope instance happens inside the registry and is not modelled.
- Modules.Module.Scope: the body of `scope(name) { … }` is modelled as a list of `scoped` declarations. Each is forwarded to the module as `createScope(name, scopeName)` followed by `declareDefinition`. Arbitrary other code in the body is not modelled, and `ScopeDefinition.kt` is not part of this model.
- `BeanDefinition.kt` is not part of this model. Its constructor promises nothing about `kind` before the factory sets it.
- BeanDefinitions.BeanDefinition.Equals: `equals` is assumed to compare primary type and name only, as the definition tests assert; its own source is not part of this model.
- `BuilderTest.kt` is not modelled; it targets an older API. The Gradle build scripts are not modelled either.
