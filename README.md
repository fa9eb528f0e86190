# AbilityConcept: the blueprint of one Psychics ability

This project models `AbilityConcept` from the Psychics plugin. An `AbilityConcept` is the
blueprint of one ability. It holds an identity (name, container, owning psychic concept) and the
fields bound from a configuration section: display name, type, cooldown, cost, casting time,
interruptibility, duration, range, damage, healing, wand item and description. It also builds
the tooltip shown to players and creates runtime ability instances.

The model is imperative where the source is:

- `Abilities.AbilityConcept` is a class with the blueprint's fields. Kotlin `lateinit` fields are
  `Option` values or nullable references.
- `Initialize` assigns the fields step by step, in the source's order.
- The wand getter and setter copy the stack on the way out and on the way in.
- `RenderTooltip` fills a fresh `Tooltip.TooltipBuilder`, a class holding an ordered list of
  entries and a template map.

The field annotations become an explicit descriptor list, `ConfigBinder.Schema`. Each descriptor
has a key, a required flag and an optional minimum. The library binder `computeConfig` is not
visible, so `ConfigBinder.Bind` is a reference binder over that list:

- It visits every descriptor.
- It assigns a field when the configured value converts and is in range.
- It keeps a field's current value when its key is absent or its value is rejected.
- It reports one `ConfigError` (missing field, out of range, type mismatch) per rejected
  descriptor.

`initialize` returns the binder's Boolean. The model takes that Boolean to be "no descriptor
was rejected", and its binder never throws.

Parameters stand in for the code that cannot be seen:

- The template renderer `renderTemplatesAll` is a function-typed parameter (`Renderer`), so it
  stays uninterpreted.
- The caller's statistic lookup is a function parameter. `NoStats` is the default `{ 0.0 }`.
- A concrete blueprint's `onRenderTooltip` override is the constant `tooltipHook`: a function
  from the blueprint's field values and the statistic lookup to a script of builder steps. A step
  appends an entry, puts or removes a template, overwrites the title, or throws (`HookFailure`).
  The base class's override is `BaseHook`, which returns the empty script.

Times stay in integer ticks. Seconds are `ticks / 20` as exact reals. Cost and range are reals.

## Notes on the source

- **Type promotion.** AbilityConcept.kt:156 tests
  `container.abilityClass.isAssignableFrom(ActiveAbility::class.java)`. That holds when
  the container's class is `ActiveAbility` or one of `ActiveAbility`'s supertypes, so `ActiveAbility` and its
  supertypes are promoted to ACTIVE, and a class that extends `ActiveAbility` is not
  (`PromotionIsNotSubtyping`).
- **Duration template key.** The duration template is put under the key `duration`
  (AbilityConcept.kt:184).
- **Binding failure.** Line 162 runs after the binder returns. The model's binder never throws,
  so in the model the description is rendered and the binder's Boolean returned whether or not
  binding succeeded, and a failed bind shows up only in the result. Whether the library binder
  throws instead on some failures is not part of this model.

## Model

| member | source | states |
|---|---|---|
| `ConfigBinder.Schema` | src/main/kotlin/com/github/noonmaru/psychics/AbilityConcept.kt:45-143 | The twelve configurable fields in declaration order, each with its key, its required flag (type and description) and its minimum (0 for cooldown-ticks, cost, casting-ticks and range). The wand is bound under "wand". |
| `ConfigBinder.Bind` | src/main/kotlin/com/github/noonmaru/psychics/AbilityConcept.kt:160 | The binder visits every descriptor from the current values. It reports at most one error per descriptor, and every error names a key of the schema. |
| `ConfigBinder.Check` | src/main/kotlin/com/github/noonmaru/psychics/AbilityConcept.kt:45-143 | One descriptor against a section. It keeps the field iff the key is absent and optional. It fails with MissingField iff the key is absent and required. It fails with TypeMismatch on a value that does not convert, and with OutOfRange below the minimum. Otherwise it assigns the converted in-range value. |
| `ConfigBinder.SchemaConstraints` | src/main/kotlin/com/github/noonmaru/psychics/AbilityConcept.kt:45-143 | Exactly cooldownTicks, cost, castingTicks and range carry a minimum, and every minimum is 0. Duration, interruptible, damage, healing and wand carry none. Exactly type and description are required. |
| `ConfigBinder.BindLeavesUndeclared` | src/main/kotlin/com/github/noonmaru/psychics/AbilityConcept.kt:160 | Binding never changes a field that no descriptor declares. |
| `ConfigBinder.BindFieldValue` | src/main/kotlin/com/github/noonmaru/psychics/AbilityConcept.kt:160 | For a schema with distinct fields, each declared field ends up with its descriptor's accepted value, or else keeps its previous value. |
| `ConfigBinder.BindErrorsSound` | src/main/kotlin/com/github/noonmaru/psychics/AbilityConcept.kt:160 | Every reported error is the rejection of some descriptor. |
| `ConfigBinder.BindErrorsComplete` | src/main/kotlin/com/github/noonmaru/psychics/AbilityConcept.kt:160 | Every rejected descriptor's error is reported; binding does not stop at the first one. |
| `ConfigBinder.BindSucceedsIff` | src/main/kotlin/com/github/noonmaru/psychics/AbilityConcept.kt:160 | Binding reports no error iff no descriptor is rejected. |
| `ConfigBinder.BindKeepsRanges` | src/main/kotlin/com/github/noonmaru/psychics/AbilityConcept.kt:65-107 | Binding against the schema keeps cooldownTicks, cost, castingTicks and range non-negative. |
| `ConfigBinder.BindSuccessFields` | src/main/kotlin/com/github/noonmaru/psychics/AbilityConcept.kt:45-143 | After a successful bind, every required key is present. Each configured field holds the converted configured value, and each unconfigured field keeps its previous value. |
| `ConfigBinder.NegativeValueRejected` | src/main/kotlin/com/github/noonmaru/psychics/AbilityConcept.kt:65-107 | A negative value for cooldown-ticks, cost, casting-ticks or range is reported as OutOfRange for that key. |
| `ConfigBinder.MissingRequiredRejected` | src/main/kotlin/com/github/noonmaru/psychics/AbilityConcept.kt:58-143 | A missing type or description key is reported as MissingField for that key. |
| `ConfigBinder.BindWand` | src/main/kotlin/com/github/noonmaru/psychics/AbilityConcept.kt:124-125 | The wand descriptor assigns iff the section has an item under "wand". The bound wand is then that item, and otherwise the previous one. |
| `Tooltip.FailurePoint` | src/main/kotlin/com/github/noonmaru/psychics/AbilityConcept.kt:190 | The position of the hook's first throw, or the script length when nothing throws. No earlier step throws. |
| `Tooltip.HookPrefix` | src/main/kotlin/com/github/noonmaru/psychics/AbilityConcept.kt:190 | The steps that take effect are a prefix of the script, contain no throw, and are followed by a throw when shorter than the script. |
| `Tooltip.HookTitleAfter` | src/main/kotlin/com/github/noonmaru/psychics/AbilityConcept.kt:190 | After the hook, the title is the one its last title step wrote, wherever that step sits in the script. It is the title before the hook when no step writes one. |
| `Tooltip.HookTemplatesKeepKeys` | src/main/kotlin/com/github/noonmaru/psychics/AbilityConcept.kt:190 | A template key survives every hook that does not remove it. A key that no step writes or removes keeps its value. |
| `Tooltip.HookTemplatesLastStep` | src/main/kotlin/com/github/noonmaru/psychics/AbilityConcept.kt:190 | The last step that touches a key decides it: after a removal the key is absent, and after a write it holds the written value. |
| `Tooltip.StepsAfterFailureIgnored` | src/main/kotlin/com/github/noonmaru/psychics/AbilityConcept.kt:190 | When the hook throws, the steps before the throw are exactly the ones that take effect. |
| `Tooltip.RunHook` | src/main/kotlin/com/github/noonmaru/psychics/AbilityConcept.kt:190 | Running the hook appends the entries and template writes that come before its first throw. It sets the title the last title step wrote, and reports whether the hook threw. |
| `Abilities.Seconds` | src/main/kotlin/com/github/noonmaru/psychics/AbilityConcept.kt:170-184 | Seconds times 20 is the tick count, and non-negative ticks give non-negative seconds. |
| `Abilities.CastingLabel` | src/main/kotlin/com/github/noonmaru/psychics/AbilityConcept.kt:172 | The casting label is "집중 시간" when interruptible and "시전 시간" otherwise. |
| `Abilities.TooltipEntryOrder` | src/main/kotlin/com/github/noonmaru/psychics/AbilityConcept.kt:170-177 | The standard entries are seven stat lines and then the description lines. The stat order is cooldown, cost, casting, duration, range, healing, damage. The casting label follows interruptible both ways. Cooldown, casting and duration values are ticks / 20. |
| `Abilities.TooltipTemplateKeys` | src/main/kotlin/com/github/noonmaru/psychics/AbilityConcept.kt:178-187 | The template map's keys are exactly the six fixed ones, plus "damage" iff damage is set and "healing" iff healing is set. Their values are the display name, cooldown/20, cost, casting/20, range, duration/20, stats(damage.stats) and stats(healing). |
| `Abilities.DefaultStatsAreZero` | src/main/kotlin/com/github/noonmaru/psychics/AbilityConcept.kt:167-187 | With the default lookup, the damage and healing templates are 0. |
| `Abilities.TooltipKeepsStandardKeys` | src/main/kotlin/com/github/noonmaru/psychics/AbilityConcept.kt:178-192 | After the hook, each of the six fixed template keys is present unless a step before the throw removed it. Every standard template that no such step wrote or removed keeps its standard value. |
| `Abilities.StandardEntries` | src/main/kotlin/com/github/noonmaru/psychics/AbilityConcept.kt:170-177 | The entries renderTooltip adds: seven stat lines, each in seconds, blocks or no unit, then the description lines. |
| `Abilities.StandardTemplates` | src/main/kotlin/com/github/noonmaru/psychics/AbilityConcept.kt:178-187 | The template map holds the six fixed keys, "damage" iff damage is set, and "healing" iff healing is set. |
| `Abilities.PreBind` | src/main/kotlin/com/github/noonmaru/psychics/AbilityConcept.kt:155-158 | Just before binding, displayName is the container's name. The type is ACTIVE when ActiveAbility is assignable to the container's class and unchanged otherwise, so TOGGLE never comes from this step. No other field changes. |
| `Abilities.PromotionIsNotSubtyping` | src/main/kotlin/com/github/noonmaru/psychics/AbilityConcept.kt:156-158 | ActiveAbility and its supertypes are promoted to ACTIVE. A proper subclass of ActiveAbility keeps its previous type. |
| `Abilities.BoundDisplayName` | src/main/kotlin/com/github/noonmaru/psychics/AbilityConcept.kt:155-160 | Without a display-name key, the bound display name is the container's name. With one, it is the configured text. |
| `Abilities.BoundType` | src/main/kotlin/com/github/noonmaru/psychics/AbilityConcept.kt:156-160 | After a successful bind the type is the configured one: "type" is required, so a promoted or default type survives only a failed bind. |
| `Abilities.WandCopiesAreIndependent` | src/main/kotlin/com/github/noonmaru/psychics/AbilityConcept.kt:124-134 | After a stack is set, the stack read back is distinct from the argument and from the stored stack. Changes to the stack read back and to the original argument leave the stored stack equal to what was set. |
| `Abilities.NullWandRoundTrip` | src/main/kotlin/com/github/noonmaru/psychics/AbilityConcept.kt:130-134 | Storing null leaves no wand stored, and reading the wand then gives null. |
| `Abilities.BaseHookChangesNothing` | src/main/kotlin/com/github/noonmaru/psychics/AbilityConcept.kt:209 | The base class's `onRenderTooltip` does not throw and leaves the title, the entries and the template map as they were. |
| `Abilities.Ability.InitConcept` | src/main/kotlin/com/github/noonmaru/psychics/AbilityConcept.kt:197 | Attaches the instance to the given blueprint. |
| `Abilities.AbilityConcept.constructor` | src/main/kotlin/com/github/noonmaru/psychics/AbilityConcept.kt:32-144 | A new blueprint has no identity yet, type PASSIVE, zero times, cost and range, no damage, healing or wand, and an empty description. |
| `Abilities.AbilityConcept.Wand` | src/main/kotlin/com/github/noonmaru/psychics/AbilityConcept.kt:130-131 | The getter returns null when nothing is stored. Otherwise it returns a freshly allocated stack equal to the stored one, so it is never the stored object. |
| `Abilities.AbilityConcept.SetWand` | src/main/kotlin/com/github/noonmaru/psychics/AbilityConcept.kt:132-134 | The setter stores null for null. Otherwise it stores a freshly allocated stack equal to the argument, and it writes no other field. |
| `Abilities.AbilityConcept.Attach` | src/main/kotlin/com/github/noonmaru/psychics/AbilityConcept.kt:152-158 | Sets name, container and psychicConcept to the arguments. Leaves the configurable fields as PreBind of their old values. |
| `Abilities.AbilityConcept.Store` | src/main/kotlin/com/github/noonmaru/psychics/AbilityConcept.kt:160 | Writes the bound values into the fields. Replaces the stored wand with a stack equal to the one the section supplied, only when it supplied one; that the stack is fresh is an assumption (see "## Left out"). |
| `Abilities.AbilityConcept.Initialize` | src/main/kotlin/com/github/noonmaru/psychics/AbilityConcept.kt:146-165 | name, container and psychicConcept equal the arguments. The result is binder success on the PreBind values. The fields are the bound values, except that description is the rendering of the bound description against the section. That rendering is stored as a sequence value, so no caller shares it. Non-negative ranges stay non-negative. |
| `Abilities.AbilityConcept.AddStandardStats` | src/main/kotlin/com/github/noonmaru/psychics/AbilityConcept.kt:170-177 | The seven stat lines and the description are appended in the standard order. |
| `Abilities.AbilityConcept.AddStandardTemplates` | src/main/kotlin/com/github/noonmaru/psychics/AbilityConcept.kt:178-187 | Fills the template map with the standard templates. |
| `Abilities.AbilityConcept.AddStandardContent` | src/main/kotlin/com/github/noonmaru/psychics/AbilityConcept.kt:168-188 | Sets the title to displayName and type. Entries and templates become the standard ones. |
| `Abilities.AbilityConcept.OnRenderTooltip` | src/main/kotlin/com/github/noonmaru/psychics/AbilityConcept.kt:209 | The hook applies the steps of the override before its first throw and reports whether it threw. The base class's empty override changes nothing (`BaseHookChangesNothing`). |
| `Abilities.AbilityConcept.RenderTooltip` | src/main/kotlin/com/github/noonmaru/psychics/AbilityConcept.kt:167-193 | For a statistic lookup that does not throw, renderTooltip returns a fresh builder: the standard title, entries and templates, then what the hook's steps before its throw did to the title, the entries and the templates. A throw is discarded. It has no frame on the blueprint, so no field of the blueprint changes. The builder's whole state is a function of the fields, the lookup and the override, and the override sees the bound fields and the lookup. |
| `Abilities.AbilityConcept.CreateAbilityInstance` | src/main/kotlin/com/github/noonmaru/psychics/AbilityConcept.kt:195-199 | The new instance is fresh, of the container's class, and attached to this blueprint. |

## Left out

- Internals of the library binder `computeConfig`: the model does not cover deriving keys from
  field names, grouping keys by class (`separateByClass = true` with `@Name("common")`), writing
  defaults back into the section, or the exact type conversions. `Bind` is a reference binder
  that follows the schema's required flags and minimums. It accepts a whole number for a real
  field and takes enum names in upper case.
- What the library binder leaves in the fields after a failure. The model's binder is total:
  rejected fields keep their previous values and the other fields are bound.
- Internals of `renderTemplatesAll` and the `$name` / `<name>` syntax. The renderer is an
  uninterpreted parameter, so the idempotence of the first rendering pass is not stated.
- `TooltipBuilder`'s line formatting: the `ChatColor` codes, the `String.format` widths at
  AbilityConcept.kt:169, and whatever filtering `addStats` does, such as skipping empty values.
  The title is recorded as the pair of display name and type, and every `addStats` call as one
  entry.
- Floating-point behaviour of `Double`: cost, range, seconds and statistic values are exact
  reals.
- Reflective instantiation in `createAbilityInstance`: `newInstance()` failing is not modelled,
  and `initConcept` is reduced to attaching the blueprint.
- `onInitialize` (AbilityConcept.kt:204): it is declared but never called in this class.
- Hook overrides that do anything other than change the builder, such as writing the
  blueprint's own fields or running code with other effects.
- Tooltip.RunHook, Abilities.TooltipKeepsStandardKeys, Abilities.AbilityConcept.RenderTooltip:
  `TooltipBuilder`'s API is not part of this model. The hook can append entries, put or remove
  templates and overwrite the title. It cannot remove, reorder or replace entries, so the
  standard entries always come first in the rendered tooltip.
- ConfigBinder.Check, Abilities.BoundType: the comment at AbilityConcept.kt:55-56 calls PASSIVE
  and ACTIVE the default of `type`. That suggests `required` might not mean "fail when absent",
  or that `initialize` might return true on a partial bind. The model assumes both: a missing
  required key is an error, and the result is true only when no field was rejected. Under that
  reading, the promoted or default type survives only a failed bind. The comment gives no
  support for either assumption, and `computeConfig` is not part of this model.
- Abilities.AbilityConcept.RenderTooltip, Abilities.AbilityConcept.CreateAbilityInstance: a call
  before `initialize` is excluded by `requires displayName.Some?` and `requires container != null`.
  In Kotlin such a call reads an unset `lateinit` field (declared at AbilityConcept.kt:33-46, read
  at :169 and :196) and throws `UninitializedPropertyAccessException`. That error path is not
  modelled. The statistic lookup is also assumed not to throw: it is a total function here, while
  in Kotlin a throw from it at :186-187 happens outside the `runCatching` at :190 and propagates
  out of `renderTooltip`. Only a throw inside the hook is discarded.
- Abilities.AbilityConcept.Store, Abilities.AbilityConcept.Initialize: the bound wand stack is
  assumed to be a fresh copy. The `@Config("wand")` annotation sits on the backing field `_wand`
  (AbilityConcept.kt:124-125), so the binder at :160 writes it directly and does not go through
  the copying setter at :132-134. Nothing shown copies the stack the section hands over, so in
  Kotlin the stored wand may be the section's own object.
- The protected setters of the fields other than `wand`. Subclasses may call them, and the
  model leaves them out.
- That `initialize` runs only once: the source does not enforce it, and neither does the model.
- The opaque engine types: `Damage`, `EsperStatistic`, `AbilityContainer`, `PsychicConcept` and
  `ActiveAbility` are reduced to what the blueprint reads. `ItemStack` is a copyable value of
  material and amount.
- The runtime cooldown and casting state of ability instances. It lives outside this class.
- build.gradle.kts: it is build configuration and is not part of this model.
