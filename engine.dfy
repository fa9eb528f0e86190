/**
 * Stand-ins for the plugin and engine types that an ability blueprint only refers to:
 * the ability kinds, combat statistics, damage descriptors, runtime classes seen
 * through reflection, containers and the owning psychic concept.
 */
module Engine {

  /** PASSIVE applies by itself, ACTIVE is used directly, TOGGLE can be switched on and off. */
  datatype AbilityType = Passive | Active | Toggle

  /** A combat statistic of the caster; only its identity matters to the blueprint. */
  datatype EsperStatistic = EsperStatistic(key: string)

  /** A damage descriptor; the blueprint reads only the statistic behind it. */
  datatype Damage = Damage(stats: EsperStatistic)

  /**
   * A runtime class as reflection sees it: its name and the names of all of its
   * proper supertypes (superclasses and interfaces, transitively).
   */
  datatype ClassDesc = ClassDesc(name: string, supertypes: set<string>)

  /** `sub` is `sup` itself or one of its descendants. */
  predicate IsSubclassOf(sub: ClassDesc, sup: ClassDesc)
  {
    sub.name == sup.name || sup.name in sub.supertypes
  }

  /**
   * Java's `target.isAssignableFrom(source)`: target is the same class as source
   * or one of its superclasses or superinterfaces.
   */
  predicate IsAssignableFrom(target: ClassDesc, source: ClassDesc)
  {
    IsSubclassOf(source, target)
  }

  /**
   * The class object `ActiveAbility::class.java`. Its declaration is not part of
   * this model: that its supertypes are exactly `Ability` and `Object` is an
   * assumption from its name and its use as an ability base class.
   */
  const ActiveAbility: ClassDesc :=
    ClassDesc("com.github.noonmaru.psychics.ActiveAbility",
              {"com.github.noonmaru.psychics.Ability", "java.lang.Object"})

  /** The descriptive part of a container that the blueprint reads: its name. */
  datatype AbilityDescription = AbilityDescription(name: string)

  /** Binds one blueprint to its runtime implementation class and its description. */
  class AbilityContainer {
    const description: AbilityDescription
    const abilityClass: ClassDesc

    constructor (description: AbilityDescription, abilityClass: ClassDesc)
      ensures this.description == description && this.abilityClass == abilityClass
    {
      this.description := description;
      this.abilityClass := abilityClass;
    }
  }

  /** The skill set that owns a blueprint; the blueprint only keeps a reference to it. */
  class PsychicConcept {
    constructor ()
    {
    }
  }
}
