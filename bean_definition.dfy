/**
 * The definition entity handed around by the factory, the module builder and
 * the container: `org.koin.core.definition.BeanDefinition`, its options and
 * its instance holder.  BeanDefinition.kt is not part of this model: only the
 * fields the modelled files read and write appear here, and `Equals` takes
 * the behaviour of `equals` from what the definition tests assert.
 */
module BeanDefinitions {
  import opened Wrappers

  /** A Kotlin class reference, an opaque token known only by its full name. */
  datatype KClass = KClass(fullName: string)

  /** `KClass.getFullName()`: the string used as a scope name for a type. */
  function GetFullName(c: KClass): string
  {
    c.fullName
  }

  /** An opaque token for the factory closure (`Definition<T>`) of a definition. */
  datatype Definition = Definition(id: nat)

  /** The lifecycle of a definition. */
  datatype Kind = Single | Factory | Scope

  /** `Options(isCreatedAtStart, override)`: both default to false. */
  datatype Options = Options(isCreatedAtStart: bool, override: bool)

  /** The instance holder a definition builds; it is made for one kind. */
  datatype InstanceHolder = InstanceHolder(kind: Kind)

  /**
   * The value the registries hold for a declared definition: its key
   * (primary type, optional name) and everything the container decides on.
   */
  datatype BeanRecord = BeanRecord(
    primaryType: KClass,
    name: Option<string>,
    kind: Kind,
    scopeName: Option<string>,
    options: Options,
    definition: Definition)
  {
    predicate IsScoped()
    {
      kind == Scope
    }
  }

  /**
   * A definition under construction.  The factory sets `definition`, `kind`,
   * the instance holder and the scope name one step at a time, and a module
   * later rewrites `options`.
   */
  class BeanDefinition {
    const name: Option<string>
    const primaryType: KClass
    /** `lateinit var definition`: `None` until the factory sets it. */
    var definition: Option<Definition>
    var kind: Kind
    /** The `scopeName` attribute, absent unless `setScopeName` was called. */
    var scopeName: Option<string>
    var options: Options
    /** `lateinit var instance`: `None` until `createInstanceHolder()`. */
    var instance: Option<InstanceHolder>

    /** `BeanDefinition(name, primaryType)`; nothing is promised about `kind` before it is set. */
    constructor (name: Option<string>, primaryType: KClass)
      ensures this.name == name && this.primaryType == primaryType
      ensures definition == None && scopeName == None && instance == None
      ensures options == Options(false, false)
    {
      this.name := name;
      this.primaryType := primaryType;
      definition := None;
      kind := Single;
      scopeName := None;
      options := Options(false, false);
      instance := None;
    }

    /** Builds the holder for the kind the definition has at this moment. */
    method CreateInstanceHolder()
      modifies this`instance
      ensures instance == Some(InstanceHolder(kind))
    {
      instance := Some(InstanceHolder(kind));
    }

    /** `setScopeName`: stores the scope name among the definition's attributes. */
    method SetScopeName(s: string)
      modifies this`scopeName
      ensures scopeName == Some(s)
    {
      scopeName := Some(s);
    }

    /**
     * `equals`, as the definition tests use it: two definitions are equal when
     * their primary types and names are; kind, closure, scope name, options
     * and holder are not compared.  It is reflexive.
     */
    predicate Equals(other: BeanDefinition): (r: bool)
      reads this, other
      ensures this == other ==> r
      ensures r <==> other.primaryType == primaryType && other.name == name
    {
      primaryType == other.primaryType && name == other.name
    }

    /** The record the registries keep for this definition once it is complete. */
    function Snapshot(): BeanRecord
      reads this
      requires definition.Some?
    {
      BeanRecord(primaryType, name, kind, scopeName, options, definition.value)
    }
  }
}
