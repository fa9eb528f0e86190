/**
 * `AbilityConcept`, the blueprint of one ability: its identity, the fields bound
 * from configuration, the copy-in/copy-out wand, the one-shot `Initialize`, the
 * tooltip it renders and the runtime instances it stamps out.
 */
module Abilities {
  import opened Wrappers
  import opened Engine
  import opened Items
  import opened ConfigBinder
  import opened Tooltip

  /** `renderTemplatesAll`: substitutes a section's `$name` values into text lines. */
  type Renderer = (seq<string>, ConfigSection) -> seq<string>

  /** The statistic lookup `renderTooltip` uses when the caller supplies none: always 0. */
  const NoStats: EsperStatistic -> real := (_: EsperStatistic) => 0.0

  /** The base class's `onRenderTooltip`: whatever the fields and the lookup, it does nothing. */
  const BaseHook: (Settings, EsperStatistic -> real) -> seq<HookStep> :=
    (_: Settings, _: EsperStatistic -> real) => []

  /**
   * The base override neither throws nor touches the builder: the title, the
   * entries and the template map stay as the standard content left them.
   */
  lemma BaseHookChangesNothing(s: Settings, stats: EsperStatistic -> real,
                               title: Option<Title>, m: map<string, TemplateValue>)
    ensures var script := BaseHook(s, stats);
      && !(exists i :: 0 <= i < |script| && script[i].HookFailure?)
      && HookTitleAfter(title, HookPrefix(script)) == title
      && HookEntries(HookPrefix(script)) == []
      && HookTemplates(m, HookPrefix(script)) == m
  {
  }

  /** A duration in ticks, in seconds: `ticks / 20.0`, as an exact real. */
  function Seconds(ticks: int): (r: real)
    ensures r * 20.0 == ticks as real
    ensures ticks >= 0 ==> r >= 0.0
  {
    ticks as real / 20.0
  }

  /** The casting stat's label: a channelled cast is "집중 시간", a hard cast "시전 시간". */
  function CastingLabel(interruptible: bool): (r: string)
    ensures r == (if interruptible then "집중 시간" else "시전 시간")
  {
    (if interruptible then "집중" else "시전") + " 시간"
  }

  /**
   * The field values as they stand just before binding, given the container: the
   * display name is the container's, and the type is ACTIVE when `ActiveAbility`
   * is assignable to the container's class and otherwise unchanged; no other
   * field moves.
   */
  function PreBind(s: Settings, containerName: string, abilityClass: ClassDesc): (r: Settings)
    ensures r.displayName == Some(containerName)
    ensures IsAssignableFrom(abilityClass, ActiveAbility) ==> r.abilityType == Active
    ensures !IsAssignableFrom(abilityClass, ActiveAbility) ==> r.abilityType == s.abilityType
    ensures r.abilityType == Toggle ==> s.abilityType == Toggle
    ensures r.(displayName := s.displayName, abilityType := s.abilityType) == s
  {
    s.(displayName := Some(containerName),
       abilityType := if IsAssignableFrom(abilityClass, ActiveAbility) then Active else s.abilityType)
  }

  /** The entries that `renderTooltip` adds itself, in order. */
  function StandardEntries(s: Settings): (r: seq<TooltipEntry>)
    ensures |r| == 8 && r[7] == DescriptionLines(s.description)
    ensures forall i :: 0 <= i < 7 ==> r[i].StatLine? && r[i].unit in {"초", "", "블록"}
  {
    [ StatLine("재사용 대기시간", Amount(Seconds(s.cooldownTicks)), "초"),
      StatLine("마나 소모", Amount(s.cost), ""),
      StatLine(CastingLabel(s.interruptible), Amount(Seconds(s.castingTicks)), "초"),
      StatLine("지속 시간", Amount(Seconds(s.durationTicks)), "초"),
      StatLine("사거리", Amount(s.range), "블록"),
      StatLine("치유량", HealingStat("<healing>", s.healing), ""),
      StatLine("damage", DamageStat(s.damage), ""),
      DescriptionLines(s.description) ]
  }

  /** The six template keys that every rendered tooltip starts with. */
  const FixedTemplateKeys: set<string> :=
    {"display-name", "cooldown-time", "cost", "casting-time", "range", "duration"}

  /** The template map that `renderTooltip` builds itself. */
  function StandardTemplates(s: Settings, stats: EsperStatistic -> real): (r: map<string, TemplateValue>)
    requires s.displayName.Some?
    ensures FixedTemplateKeys <= r.Keys
    ensures "damage" in r <==> s.damage.Some?
    ensures "healing" in r <==> s.healing.Some?
  {
    var common := map[
      "display-name" := TextTemplate(s.displayName.value),
      "cooldown-time" := NumberTemplate(Seconds(s.cooldownTicks)),
      "cost" := NumberTemplate(s.cost),
      "casting-time" := NumberTemplate(Seconds(s.castingTicks)),
      "range" := NumberTemplate(s.range),
      "duration" := NumberTemplate(Seconds(s.durationTicks))];
    var withDamage := if s.damage.Some? then common + map["damage" := NumberTemplate(stats(s.damage.value.stats))] else common;
    if s.healing.Some? then withDamage + map["healing" := NumberTemplate(stats(s.healing.value))] else withDamage
  }

  /** The stat lines come in a fixed order, then the description; times are ticks / 20. */
  lemma TooltipEntryOrder(s: Settings)
    ensures var e := StandardEntries(s);
      && |e| == 8
      && (forall i :: 0 <= i < 7 ==> e[i].StatLine?)
      && [e[0].name, e[1].name, e[3].name, e[4].name, e[5].name, e[6].name]
         == ["재사용 대기시간", "마나 소모", "지속 시간", "사거리", "치유량", "damage"]
      && (e[2].name == "집중 시간" <==> s.interruptible)
      && (e[2].name == "시전 시간" <==> !s.interruptible)
      && e[0].value.amount * 20.0 == s.cooldownTicks as real
      && e[1].value == Amount(s.cost)
      && e[2].value.amount * 20.0 == s.castingTicks as real
      && e[3].value.amount * 20.0 == s.durationTicks as real
      && e[4].value == Amount(s.range)
      && e[5].value == HealingStat("<healing>", s.healing)
      && e[6].value == DamageStat(s.damage)
      && e[7] == DescriptionLines(s.description)
  {
  }

  /**
   * The template map always has the six fixed keys, "damage" exactly when damage
   * is set and "healing" exactly when healing is set.
   */
  lemma TooltipTemplateKeys(s: Settings, stats: EsperStatistic -> real)
    requires s.displayName.Some?
    ensures var m := StandardTemplates(s, stats);
      && m.Keys == {"display-name", "cooldown-time", "cost", "casting-time", "range", "duration"}
                   + (if s.damage.Some? then {"damage"} else {})
                   + (if s.healing.Some? then {"healing"} else {})
      && m["display-name"] == TextTemplate(s.displayName.value)
      && m["cooldown-time"].number * 20.0 == s.cooldownTicks as real
      && m["cost"] == NumberTemplate(s.cost)
      && m["casting-time"].number * 20.0 == s.castingTicks as real
      && m["range"] == NumberTemplate(s.range)
      && m["duration"].number * 20.0 == s.durationTicks as real
      && (s.damage.Some? ==> m["damage"] == NumberTemplate(stats(s.damage.value.stats)))
      && (s.healing.Some? ==> m["healing"] == NumberTemplate(stats(s.healing.value)))
  {
  }

  /** With the default lookup the damage and healing templates are 0. */
  lemma DefaultStatsAreZero(s: Settings)
    requires s.displayName.Some?
    ensures s.damage.Some? ==> StandardTemplates(s, NoStats)["damage"] == NumberTemplate(0.0)
    ensures s.healing.Some? ==> StandardTemplates(s, NoStats)["healing"] == NumberTemplate(0.0)
  {
  }

  /**
   * The promotion test promotes `ActiveAbility` and its supertypes, not its
   * subclasses: a class that extends `ActiveAbility` keeps its previous type.
   */
  lemma PromotionIsNotSubtyping(s: Settings, containerName: string, abilityClass: ClassDesc)
    ensures abilityClass.name in ActiveAbility.supertypes || abilityClass.name == ActiveAbility.name
            ==> PreBind(s, containerName, abilityClass).abilityType == Active
    ensures IsSubclassOf(abilityClass, ActiveAbility) && abilityClass.name != ActiveAbility.name
            && abilityClass.name !in ActiveAbility.supertypes
            ==> PreBind(s, containerName, abilityClass).abilityType == s.abilityType
  {
  }

  /**
   * When the section has no "display-name", the bound display name is the
   * container's; when it has one of the right type, it is the configured one.
   */
  lemma BoundDisplayName(s: Settings, containerName: string, abilityClass: ClassDesc, config: ConfigSection)
    ensures var bound := Bind(Schema, config, PreBind(s, containerName, abilityClass)).settings;
      && ("display-name" !in config ==> bound.displayName == Some(containerName))
      && (("display-name" in config && config["display-name"].TextEntry?)
            ==> bound.displayName == Some(config["display-name"].text))
  {
    SchemaHasDistinctFields();
    BindFieldValue(Schema, config, PreBind(s, containerName, abilityClass), 0);
  }

  /**
   * The type set just before binding survives a successful bind only if the section
   * names the same type: "type" is required, so success means it was configured.
   */
  lemma BoundType(s: Settings, containerName: string, abilityClass: ClassDesc, config: ConfigSection)
    requires Bind(Schema, config, PreBind(s, containerName, abilityClass)).errors == []
    ensures "type" in config && config["type"].TextEntry?
    ensures Some(Bind(Schema, config, PreBind(s, containerName, abilityClass)).settings.abilityType)
            == ParseType(config["type"].text)
  {
    BindSuccessFields(config, PreBind(s, containerName, abilityClass), 1);
  }

  /**
   * After the hook has run, each of the six fixed keys is still present unless a
   * step before the hook's throw removed it, and every standard template that
   * no such step wrote or removed keeps its standard value.
   */
  lemma TooltipKeepsStandardKeys(s: Settings, stats: EsperStatistic -> real, hook: seq<HookStep>)
    requires s.displayName.Some?
    ensures var ran := HookPrefix(hook);
      forall k :: k in FixedTemplateKeys && (forall i :: 0 <= i < |ran| ==> !Removes(ran[i], k))
        ==> k in HookTemplates(StandardTemplates(s, stats), ran)
    ensures var ran := HookPrefix(hook); var m := StandardTemplates(s, stats);
      forall k :: k in m && (forall i :: 0 <= i < |ran| ==> !Writes(ran[i], k) && !Removes(ran[i], k))
        ==> k in HookTemplates(m, ran) && HookTemplates(m, ran)[k] == m[k]
  {
    HookTemplatesKeepKeys(StandardTemplates(s, stats), HookPrefix(hook));
  }

  /**
   * Setting a wand and reading it back gives an equal stack distinct from the
   * argument and the stored one; changing either afterwards leaves the stored stack as set.
   */
  method WandCopiesAreIndependent(concept: AbilityConcept, item: Item, n: int, m: int) returns (got: Item?)
    modifies concept`storedWand, item
    ensures got != null && got != item && got != concept.storedWand && concept.storedWand != item
    ensures got.Value().amount == n && item.Value().amount == m
    ensures concept.storedWand != null && concept.storedWand.Value() == old(item.Value())
  {
    concept.SetWand(item);
    got := concept.Wand();
    got.SetAmount(n);
    item.SetAmount(m);
  }

  /** Storing null clears the wand, and reading it then gives null. */
  method NullWandRoundTrip(concept: AbilityConcept) returns (got: Item?)
    modifies concept`storedWand
    ensures concept.storedWand == null && got == null
  {
    concept.SetWand(null);
    got := concept.Wand();
  }

  /** A runtime ability: an instance of the container's class, attached to its blueprint. */
  class Ability {
    const abilityClass: ClassDesc
    var concept: AbilityConcept?

    constructor (abilityClass: ClassDesc)
      ensures this.abilityClass == abilityClass && concept == null
    {
      this.abilityClass := abilityClass;
      concept := null;
    }

    method InitConcept(concept: AbilityConcept)
      modifies this`concept
      ensures this.concept == concept
    {
      this.concept := concept;
    }
  }

  class AbilityConcept {
    var name: Option<string>
    var container: AbilityContainer?
    var psychicConcept: PsychicConcept?
    var displayName: Option<string>
    var abilityType: AbilityType
    var cooldownTicks: int
    var cost: real
    var castingTicks: int
    var interruptible: bool
    var durationTicks: int
    var range: real
    var damage: Option<Damage>
    var healing: Option<EsperStatistic>
    /** `_wand`: the stored stack, never handed out. */
    var storedWand: Item?
    var description: seq<string>
    /**
     * The `onRenderTooltip` override of the concrete blueprint class: the builder
     * steps it takes, computed from the blueprint's fields and the statistic lookup.
     * The base class's override takes none.
     */
    const tooltipHook: (Settings, EsperStatistic -> real) -> seq<HookStep>

    /** The configurable fields' current values. */
    function Current(): Settings
      reads this, storedWand
    {
      Settings(displayName, abilityType, cooldownTicks, cost, castingTicks, interruptible,
               durationTicks, range, damage, healing,
               if storedWand == null then None else Some(storedWand.Value()),
               description)
    }

    constructor (tooltipHook: (Settings, EsperStatistic -> real) -> seq<HookStep>)
      ensures name == None && container == null && psychicConcept == null
      ensures storedWand == null && Current() == Defaults
      ensures this.tooltipHook == tooltipHook
    {
      name, container, psychicConcept := None, null, null;
      displayName, abilityType := None, Passive;
      cooldownTicks, cost, castingTicks, interruptible := 0, 0.0, 0, false;
      durationTicks, range, damage, healing := 0, 0.0, None, None;
      storedWand, description := null, [];
      this.tooltipHook := tooltipHook;
    }

    /** The `wand` getter: a copy of the stored stack, or null. */
    method Wand() returns (w: Item?)
      ensures storedWand == null ==> w == null
      ensures storedWand != null ==> w != null && fresh(w) && w.Value() == storedWand.Value()
    {
      if storedWand == null {
        w := null;
      } else {
        w := storedWand.Clone();
      }
    }

    /** The `wand` setter: stores a copy of the argument, or null. */
    method SetWand(value: Item?)
      modifies this`storedWand
      ensures value == null ==> storedWand == null
      ensures value != null ==> storedWand != null && fresh(storedWand) && storedWand.Value() == value.Value()
    {
      if value == null {
        storedWand := null;
      } else {
        storedWand := value.Clone();
      }
    }

    /** Writes the bound values into the fields; the stored wand is replaced only when the section supplied one. */
    method Store(s: Settings, wandBound: bool)
      requires wandBound ==> s.wand.Some?
      requires !wandBound ==> s.wand == (if storedWand == null then None else Some(storedWand.Value()))
      modifies this`displayName, this`abilityType, this`cooldownTicks, this`cost, this`castingTicks,
               this`interruptible, this`durationTicks, this`range, this`damage, this`healing,
               this`storedWand, this`description
      ensures Current() == s
      ensures wandBound ==> fresh(storedWand)
      ensures !wandBound ==> storedWand == old(storedWand)
    {
      displayName, abilityType, cooldownTicks, cost := s.displayName, s.abilityType, s.cooldownTicks, s.cost;
      castingTicks, interruptible, durationTicks := s.castingTicks, s.interruptible, s.durationTicks;
      range, damage, healing, description := s.range, s.damage, s.healing, s.description;
      if wandBound {
        storedWand := new Item(s.wand.value);
      }
    }

    /**
     * `initialize`: attaches the identity, seeds the display name from the container,
     * promotes the type to ACTIVE when `ActiveAbility` is assignable to the container's
     * class, binds the section, and renders the bound description against it.
     * The result is the binder's: true exactly when every field bound.
     */
    method Initialize(name: string, container: AbilityContainer, psychicConcept: PsychicConcept,
                      config: ConfigSection, render: Renderer) returns (ok: bool)
      modifies this
      ensures this.name == Some(name) && this.container == container && this.psychicConcept == psychicConcept
      ensures var bound := Bind(Schema, config, PreBind(old(Current()), container.description.name, container.abilityClass));
              && ok == (bound.errors == [])
              && Current() == bound.settings.(description := render(bound.settings.description, config))
      ensures Check(WandDescriptor, config).Assign? ==> fresh(storedWand)
      ensures !Check(WandDescriptor, config).Assign? ==> storedWand == old(storedWand)
      ensures old(RangesHold(Current())) ==> RangesHold(Current())
    {
      Attach(name, container, psychicConcept);
      var before := Current();
      var bound := Bind(Schema, config, before);
      var wandBound := Check(WandDescriptor, config).Assign?;
      BindWand(config, before);
      if RangesHold(before) {
        BindKeepsRanges(config, before);
      }
      Store(bound.settings, wandBound);
      description := render(bound.settings.description, config);
      ok := bound.errors == [];
    }

    /** The steps of `initialize` before binding. */
    method Attach(name: string, container: AbilityContainer, psychicConcept: PsychicConcept)
      modifies this`name, this`container, this`psychicConcept, this`displayName, this`abilityType
      ensures this.name == Some(name) && this.container == container && this.psychicConcept == psychicConcept
      ensures Current() == PreBind(old(Current()), container.description.name, container.abilityClass)
    {
      this.name := Some(name);
      this.container := container;
      this.psychicConcept := psychicConcept;
      displayName := Some(container.description.name);
      if IsAssignableFrom(container.abilityClass, ActiveAbility) {
        abilityType := Active;
      }
    }

    /**
     * `renderTooltip`: a fresh builder holding the title, the seven stat lines,
     * the description and the template map, then whatever the hook added before
     * it failed; the hook's failure is discarded.
     */
    method RenderTooltip(stats: EsperStatistic -> real) returns (tooltip: TooltipBuilder)
      requires displayName.Some?
      ensures fresh(tooltip)
      ensures var ran := HookPrefix(tooltipHook(Current(), stats));
        && tooltip.title == HookTitleAfter(Some(Title(displayName.value, abilityType)), ran)
        && tooltip.entries == StandardEntries(Current()) + HookEntries(ran)
        && tooltip.templates == HookTemplates(StandardTemplates(Current(), stats), ran)
    {
      tooltip := new TooltipBuilder();
      AddStandardContent(tooltip, stats);
      var hookFailed := OnRenderTooltip(tooltip, stats);
    }

    /** The body of the `apply` block in `renderTooltip`. */
    method AddStandardContent(tooltip: TooltipBuilder, stats: EsperStatistic -> real)
      requires displayName.Some?
      requires tooltip.entries == [] && tooltip.templates == map[]
      modifies tooltip
      ensures tooltip.title == Some(Title(displayName.value, abilityType))
      ensures tooltip.entries == StandardEntries(Current())
      ensures tooltip.templates == StandardTemplates(Current(), stats)
    {
      tooltip.SetTitle(Title(displayName.value, abilityType));
      AddStandardStats(tooltip);
      AddStandardTemplates(tooltip, stats);
    }

    /** The seven `addStats` calls and `addDescription`. */
    method AddStandardStats(tooltip: TooltipBuilder)
      requires tooltip.entries == []
      modifies tooltip`entries
      ensures tooltip.entries == StandardEntries(Current())
    {
      tooltip.AddStats("재사용 대기시간", Amount(Seconds(cooldownTicks)), "초");
      tooltip.AddStats("마나 소모", Amount(cost), "");
      tooltip.AddStats(CastingLabel(interruptible), Amount(Seconds(castingTicks)), "초");
      tooltip.AddStats("지속 시간", Amount(Seconds(durationTicks)), "초");
      tooltip.AddStats("사거리", Amount(range), "블록");
      tooltip.AddStats("치유량", HealingStat("<healing>", healing), "");
      tooltip.AddStats("damage", DamageStat(damage), "");
      tooltip.AddDescription(description);
    }

    /** The `addTemplates` calls: six fixed keys, then damage and healing when present. */
    method AddStandardTemplates(tooltip: TooltipBuilder, stats: EsperStatistic -> real)
      requires displayName.Some?
      requires tooltip.templates == map[]
      modifies tooltip`templates
      ensures tooltip.templates == StandardTemplates(Current(), stats)
    {
      tooltip.AddTemplates(map[
        "display-name" := TextTemplate(displayName.value),
        "cooldown-time" := NumberTemplate(Seconds(cooldownTicks)),
        "cost" := NumberTemplate(cost),
        "casting-time" := NumberTemplate(Seconds(castingTicks)),
        "range" := NumberTemplate(range),
        "duration" := NumberTemplate(Seconds(durationTicks))]);
      if damage.Some? {
        tooltip.AddTemplates(map["damage" := NumberTemplate(stats(damage.value.stats))]);
      }
      if healing.Some? {
        tooltip.AddTemplates(map["healing" := NumberTemplate(stats(healing.value))]);
      }
    }

    /** `onRenderTooltip`: runs the override on the builder; reports whether it threw. */
    method OnRenderTooltip(tooltip: TooltipBuilder, stats: EsperStatistic -> real) returns (failed: bool)
      modifies tooltip
      ensures var script := tooltipHook(Current(), stats);
        && (failed <==> exists i :: 0 <= i < |script| && script[i].HookFailure?)
        && tooltip.title == HookTitleAfter(old(tooltip.title), HookPrefix(script))
        && tooltip.entries == old(tooltip.entries) + HookEntries(HookPrefix(script))
        && tooltip.templates == HookTemplates(old(tooltip.templates), HookPrefix(script))
    {
      failed := RunHook(tooltip, tooltipHook(Current(), stats));
    }

    /** `createAbilityInstance`: a new instance of the container's class attached to this blueprint. */
    method CreateAbilityInstance() returns (instance: Ability)
      requires container != null
      ensures fresh(instance)
      ensures instance.abilityClass == container.abilityClass && instance.concept == this
    {
      instance := new Ability(container.abilityClass);
      instance.InitConcept(this);
    }
  }
}
