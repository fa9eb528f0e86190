/**
 * Binding a configuration section into a blueprint's typed fields.
 *
 * The annotations on the blueprint's fields (`@Config`, `@RangeInt`, `@RangeDouble`)
 * become an explicit list of field descriptors, `Schema`; `Bind` is a reference
 * binder over such a list. It visits every descriptor, assigns the fields whose
 * configured value converts and lies in range, keeps the current value of every
 * other field, and reports one error per descriptor that it rejects.
 */
module ConfigBinder {
  import opened Wrappers
  import opened Engine
  import opened Items

  /** One value of a configuration section, as the section's loader produced it. */
  datatype ConfigValue =
    | IntEntry(i: int)
    | RealEntry(r: real)
    | BoolEntry(b: bool)
    | TextEntry(text: string)
    | TextListEntry(lines: seq<string>)
    | DamageEntry(damage: Damage)
    | StatEntry(stat: EsperStatistic)
    | ItemEntry(item: ItemData)

  type ConfigSection = map<string, ConfigValue>

  /** The configurable fields of a blueprint. */
  datatype Field =
    | DisplayNameField | TypeField | CooldownTicksField | CostField | CastingTicksField
    | InterruptibleField | DurationTicksField | RangeField | DamageField | HealingField
    | WandField | DescriptionField

  /** A lower bound from `@RangeInt(min = …)` or `@RangeDouble(min = …)`, if any. */
  datatype RangeMin = NoMin | MinInt(intMin: int) | MinReal(realMin: real)

  datatype FieldDescriptor = FieldDescriptor(field: Field, key: string, required: bool, min: RangeMin)

  /** The `_wand` field, bound under the explicit key "wand". */
  const WandDescriptor: FieldDescriptor := FieldDescriptor(WandField, "wand", false, NoMin)

  /** The blueprint's schema, in declaration order. */
  const Schema: seq<FieldDescriptor> := [
    FieldDescriptor(DisplayNameField, "display-name", false, NoMin),
    FieldDescriptor(TypeField, "type", true, NoMin),
    FieldDescriptor(CooldownTicksField, "cooldown-ticks", false, MinInt(0)),
    FieldDescriptor(CostField, "cost", false, MinReal(0.0)),
    FieldDescriptor(CastingTicksField, "casting-ticks", false, MinInt(0)),
    FieldDescriptor(InterruptibleField, "interruptible", false, NoMin),
    FieldDescriptor(DurationTicksField, "duration-ticks", false, NoMin),
    FieldDescriptor(RangeField, "range", false, MinReal(0.0)),
    FieldDescriptor(DamageField, "damage", false, NoMin),
    FieldDescriptor(HealingField, "healing", false, NoMin),
    WandDescriptor,
    FieldDescriptor(DescriptionField, "description", true, NoMin)
  ]

  /** The values of a blueprint's configurable fields; `wand` is the value of the stored stack. */
  datatype Settings = Settings(
    displayName: Option<string>,
    abilityType: AbilityType,
    cooldownTicks: int,
    cost: real,
    castingTicks: int,
    interruptible: bool,
    durationTicks: int,
    range: real,
    damage: Option<Damage>,
    healing: Option<EsperStatistic>,
    wand: Option<ItemData>,
    description: seq<string>)

  /** The initial values of a new blueprint; `displayName` is not yet set. */
  const Defaults: Settings :=
    Settings(None, Passive, 0, 0.0, 0, false, 0, 0.0, None, None, None, [])

  /** The value of one field, tagged with its kind. */
  datatype FieldValue =
    | TextValue(text: Option<string>)
    | TypeValue(abilityType: AbilityType)
    | IntValue(i: int)
    | RealValue(r: real)
    | BoolValue(b: bool)
    | DamageValue(damage: Option<Damage>)
    | StatValue(stat: Option<EsperStatistic>)
    | ItemValue(item: Option<ItemData>)
    | LinesValue(lines: seq<string>)

  predicate HasKind(f: Field, v: FieldValue)
  {
    match f
    case DisplayNameField => v.TextValue?
    case TypeField => v.TypeValue?
    case CooldownTicksField => v.IntValue?
    case CostField => v.RealValue?
    case CastingTicksField => v.IntValue?
    case InterruptibleField => v.BoolValue?
    case DurationTicksField => v.IntValue?
    case RangeField => v.RealValue?
    case DamageField => v.DamageValue?
    case HealingField => v.StatValue?
    case WandField => v.ItemValue?
    case DescriptionField => v.LinesValue?
  }

  function Get(s: Settings, f: Field): (v: FieldValue)
    ensures HasKind(f, v)
  {
    match f
    case DisplayNameField => TextValue(s.displayName)
    case TypeField => TypeValue(s.abilityType)
    case CooldownTicksField => IntValue(s.cooldownTicks)
    case CostField => RealValue(s.cost)
    case CastingTicksField => IntValue(s.castingTicks)
    case InterruptibleField => BoolValue(s.interruptible)
    case DurationTicksField => IntValue(s.durationTicks)
    case RangeField => RealValue(s.range)
    case DamageField => DamageValue(s.damage)
    case HealingField => StatValue(s.healing)
    case WandField => ItemValue(s.wand)
    case DescriptionField => LinesValue(s.description)
  }

  /** Writes one field and no other. */
  function Set(s: Settings, f: Field, v: FieldValue): (r: Settings)
    requires HasKind(f, v)
    ensures Get(r, f) == v
    ensures forall g :: g != f ==> Get(r, g) == Get(s, g)
  {
    match f
    case DisplayNameField => s.(displayName := v.text)
    case TypeField => s.(abilityType := v.abilityType)
    case CooldownTicksField => s.(cooldownTicks := v.i)
    case CostField => s.(cost := v.r)
    case CastingTicksField => s.(castingTicks := v.i)
    case InterruptibleField => s.(interruptible := v.b)
    case DurationTicksField => s.(durationTicks := v.i)
    case RangeField => s.(range := v.r)
    case DamageField => s.(damage := v.damage)
    case HealingField => s.(healing := v.stat)
    case WandField => s.(wand := v.item)
    case DescriptionField => s.(description := v.lines)
  }

  /** Reads an enum constant by its name. */
  function ParseType(name: string): (r: Option<AbilityType>)
    ensures r.Some? <==> name in {"PASSIVE", "ACTIVE", "TOGGLE"}
  {
    if name == "PASSIVE" then Some(Passive)
    else if name == "ACTIVE" then Some(Active)
    else if name == "TOGGLE" then Some(Toggle)
    else None
  }

  /**
   * Converts a configured value to the field's type; None is a type mismatch.
   * A whole number is accepted where a real is expected.
   */
  function Convert(f: Field, c: ConfigValue): (r: Option<FieldValue>)
    ensures r.Some? ==> HasKind(f, r.value)
    ensures f == WandField ==> (r.Some? <==> c.ItemEntry?)
    ensures f == WandField && r.Some? ==> r.value == ItemValue(Some(c.item))
  {
    match f
    case DisplayNameField => if c.TextEntry? then Some(TextValue(Some(c.text))) else None
    case TypeField =>
      if c.TextEntry? && ParseType(c.text).Some? then Some(TypeValue(ParseType(c.text).value)) else None
    case CooldownTicksField => if c.IntEntry? then Some(IntValue(c.i)) else None
    case CostField => ToReal(c)
    case CastingTicksField => if c.IntEntry? then Some(IntValue(c.i)) else None
    case InterruptibleField => if c.BoolEntry? then Some(BoolValue(c.b)) else None
    case DurationTicksField => if c.IntEntry? then Some(IntValue(c.i)) else None
    case RangeField => ToReal(c)
    case DamageField => if c.DamageEntry? then Some(DamageValue(Some(c.damage))) else None
    case HealingField => if c.StatEntry? then Some(StatValue(Some(c.stat))) else None
    case WandField => if c.ItemEntry? then Some(ItemValue(Some(c.item))) else None
    case DescriptionField => if c.TextListEntry? then Some(LinesValue(c.lines)) else None
  }

  function ToReal(c: ConfigValue): (r: Option<FieldValue>)
    ensures r.Some? <==> c.RealEntry? || c.IntEntry?
    ensures r.Some? ==> r.value.RealValue?
  {
    if c.RealEntry? then Some(RealValue(c.r))
    else if c.IntEntry? then Some(RealValue(c.i as real))
    else None
  }

  predicate InRange(min: RangeMin, v: FieldValue)
  {
    match min
    case NoMin => true
    case MinInt(lo) => v.IntValue? ==> v.i >= lo
    case MinReal(lo) => v.RealValue? ==> v.r >= lo
  }

  datatype ConfigError = MissingField(key: string) | OutOfRange(key: string) | TypeMismatch(key: string)

  /** What binding does with one descriptor. */
  datatype FieldOutcome = Keep | Assign(value: FieldValue) | Reject(error: ConfigError)

  /** The binder's decision for one descriptor against a section. */
  function Check(d: FieldDescriptor, section: ConfigSection): (r: FieldOutcome)
    ensures r.Keep? <==> d.key !in section && !d.required
    ensures r == Reject(MissingField(d.key)) <==> d.key !in section && d.required
    ensures r.Assign? ==> d.key in section && Convert(d.field, section[d.key]) == Some(r.value)
    ensures r.Assign? ==> HasKind(d.field, r.value) && InRange(d.min, r.value)
    ensures r.Reject? ==> r.error.key == d.key
    ensures d.key in section && Convert(d.field, section[d.key]).None? ==> r == Reject(TypeMismatch(d.key))
    ensures (d.key in section && Convert(d.field, section[d.key]).Some?
             && !InRange(d.min, Convert(d.field, section[d.key]).value)) ==> r == Reject(OutOfRange(d.key))
    ensures (d.key in section && Convert(d.field, section[d.key]).Some?
             && InRange(d.min, Convert(d.field, section[d.key]).value)) ==> r == Assign(Convert(d.field, section[d.key]).value)
  {
    if d.key !in section then
      (if d.required then Reject(MissingField(d.key)) else Keep)
    else
      match Convert(d.field, section[d.key])
      case None => Reject(TypeMismatch(d.key))
      case Some(v) => if InRange(d.min, v) then Assign(v) else Reject(OutOfRange(d.key))
  }

  datatype BindResult = BindResult(settings: Settings, errors: seq<ConfigError>)

  /** Binds every descriptor of `schema`, in order, starting from the values `s`. */
  function Bind(schema: seq<FieldDescriptor>, section: ConfigSection, s: Settings): (r: BindResult)
    ensures |r.errors| <= |schema|
    ensures forall j :: 0 <= j < |r.errors| ==> exists i :: 0 <= i < |schema| && r.errors[j].key == schema[i].key
    decreases |schema|
  {
    if schema == [] then BindResult(s, [])
    else
      var outcome := Check(schema[0], section);
      var next := if outcome.Assign? then Set(s, schema[0].field, outcome.value) else s;
      var rest := Bind(schema[1..], section, next);
      if outcome.Reject? then BindResult(rest.settings, [outcome.error] + rest.errors) else rest
  }

  /** The value a field holds after binding its descriptor from `s`. */
  function BoundValue(d: FieldDescriptor, section: ConfigSection, s: Settings): FieldValue
  {
    var outcome := Check(d, section);
    if outcome.Assign? then outcome.value else Get(s, d.field)
  }

  ghost predicate DistinctFields(schema: seq<FieldDescriptor>)
  {
    forall i, j :: 0 <= i < j < |schema| ==> schema[i].field != schema[j].field
  }

  /** Fields that no descriptor declares keep their value. */
  lemma {:induction false} BindLeavesUndeclared(schema: seq<FieldDescriptor>, section: ConfigSection, s: Settings, f: Field)
    requires forall i :: 0 <= i < |schema| ==> schema[i].field != f
    ensures Get(Bind(schema, section, s).settings, f) == Get(s, f)
    decreases |schema|
  {
    if schema != [] {
      var outcome := Check(schema[0], section);
      var next := if outcome.Assign? then Set(s, schema[0].field, outcome.value) else s;
      assert forall i :: 0 <= i < |schema[1..]| ==> schema[1..][i] == schema[i + 1];
      BindLeavesUndeclared(schema[1..], section, next, f);
    }
  }

  /**
   * Every declared field ends up with the configured value when its descriptor
   * accepts it, and keeps its previous value otherwise.
   */
  lemma {:induction false} BindFieldValue(schema: seq<FieldDescriptor>, section: ConfigSection, s: Settings, i: int)
    requires DistinctFields(schema) && 0 <= i < |schema|
    ensures Get(Bind(schema, section, s).settings, schema[i].field) == BoundValue(schema[i], section, s)
    decreases |schema|
  {
    var outcome := Check(schema[0], section);
    var next := if outcome.Assign? then Set(s, schema[0].field, outcome.value) else s;
    var tail := schema[1..];
    assert forall k :: 0 <= k < |tail| ==> tail[k] == schema[k + 1];
    if i == 0 {
      BindLeavesUndeclared(tail, section, next, schema[0].field);
    } else {
      BindFieldValue(tail, section, next, i - 1);
      assert tail[i - 1] == schema[i];
      assert schema[i].field != schema[0].field;
    }
  }

  /** Every reported error comes from a descriptor that the section violates. */
  lemma {:induction false} BindErrorsSound(schema: seq<FieldDescriptor>, section: ConfigSection, s: Settings, e: ConfigError)
    requires e in Bind(schema, section, s).errors
    ensures exists i :: 0 <= i < |schema| && Check(schema[i], section) == Reject(e)
    decreases |schema|
  {
    var outcome := Check(schema[0], section);
    var next := if outcome.Assign? then Set(s, schema[0].field, outcome.value) else s;
    if outcome == Reject(e) {
      assert Check(schema[0], section) == Reject(e);
    } else {
      assert e in Bind(schema[1..], section, next).errors;
      BindErrorsSound(schema[1..], section, next, e);
      var k :| 0 <= k < |schema[1..]| && Check(schema[1..][k], section) == Reject(e);
      assert schema[1..][k] == schema[k + 1];
    }
  }

  /** Every descriptor that the section violates is reported. */
  lemma {:induction false} BindErrorsComplete(schema: seq<FieldDescriptor>, section: ConfigSection, s: Settings, i: int)
    requires 0 <= i < |schema| && Check(schema[i], section).Reject?
    ensures Check(schema[i], section).error in Bind(schema, section, s).errors
    decreases |schema|
  {
    var outcome := Check(schema[0], section);
    var next := if outcome.Assign? then Set(s, schema[0].field, outcome.value) else s;
    if i > 0 {
      assert schema[1..][i - 1] == schema[i];
      BindErrorsComplete(schema[1..], section, next, i - 1);
    }
  }

  /** Binding succeeds exactly when no descriptor is violated. */
  lemma {:induction false} BindSucceedsIff(schema: seq<FieldDescriptor>, section: ConfigSection, s: Settings)
    ensures Bind(schema, section, s).errors == []
            <==> forall i :: 0 <= i < |schema| ==> !Check(schema[i], section).Reject?
  {
    var errors := Bind(schema, section, s).errors;
    if errors != [] {
      BindErrorsSound(schema, section, s, errors[0]);
    }
    forall i | 0 <= i < |schema| && Check(schema[i], section).Reject?
      ensures errors != []
    {
      BindErrorsComplete(schema, section, s, i);
    }
  }

  lemma SchemaHasDistinctFields()
    ensures DistinctFields(Schema)
  {
  }

  /** The non-negativity that the schema's range constraints guarantee. */
  predicate RangesHold(s: Settings)
  {
    s.cooldownTicks >= 0 && s.cost >= 0.0 && s.castingTicks >= 0 && s.range >= 0.0
  }

  /**
   * Binding against the schema never makes `cooldownTicks`, `cost`, `castingTicks`
   * or `range` negative: a configured value must be at least 0 to be assigned.
   */
  lemma BindKeepsRanges(section: ConfigSection, s: Settings)
    requires RangesHold(s)
    ensures RangesHold(Bind(Schema, section, s).settings)
  {
    SchemaHasDistinctFields();
    BindFieldValue(Schema, section, s, 2);
    BindFieldValue(Schema, section, s, 3);
    BindFieldValue(Schema, section, s, 4);
    BindFieldValue(Schema, section, s, 7);
  }

  /**
   * After a successful bind every required key is present and every configured
   * key's converted value is the one the field holds.
   */
  lemma BindSuccessFields(section: ConfigSection, s: Settings, i: int)
    requires 0 <= i < |Schema|
    requires Bind(Schema, section, s).errors == []
    ensures Schema[i].required ==> Schema[i].key in section
    ensures Schema[i].key in section ==>
              Convert(Schema[i].field, section[Schema[i].key]) == Some(Get(Bind(Schema, section, s).settings, Schema[i].field))
    ensures Schema[i].key !in section ==>
              Get(Bind(Schema, section, s).settings, Schema[i].field) == Get(s, Schema[i].field)
  {
    SchemaHasDistinctFields();
    BindFieldValue(Schema, section, s, i);
    BindSucceedsIff(Schema, section, s);
  }

  /** The stored wand is replaced exactly when the section supplies an item under "wand". */
  lemma BindWand(section: ConfigSection, s: Settings)
    ensures Check(WandDescriptor, section).Assign? <==> "wand" in section && section["wand"].ItemEntry?
    ensures Bind(Schema, section, s).settings.wand
            == if Check(WandDescriptor, section).Assign? then Some(section["wand"].item) else s.wand
  {
    SchemaHasDistinctFields();
    BindFieldValue(Schema, section, s, 10);
  }

  predicate Negative(v: FieldValue)
  {
    (v.IntValue? && v.i < 0) || (v.RealValue? && v.r < 0.0)
  }

  /**
   * A negative value under "cooldown-ticks", "cost", "casting-ticks" or "range"
   * fails the bind with an out-of-range error for that key.
   */
  lemma NegativeValueRejected(section: ConfigSection, s: Settings, i: int)
    requires i == 2 || i == 3 || i == 4 || i == 7
    requires Schema[i].key in section
    requires Convert(Schema[i].field, section[Schema[i].key]).Some?
    requires Negative(Convert(Schema[i].field, section[Schema[i].key]).value)
    ensures OutOfRange(Schema[i].key) in Bind(Schema, section, s).errors
  {
    BindErrorsComplete(Schema, section, s, i);
  }

  /** A missing "type" or "description" key fails the bind with a missing-field error. */
  lemma MissingRequiredRejected(section: ConfigSection, s: Settings, i: int)
    requires 0 <= i < |Schema| && Schema[i].required && Schema[i].key !in section
    ensures MissingField(Schema[i].key) in Bind(Schema, section, s).errors
  {
    BindErrorsComplete(Schema, section, s, i);
  }

  /** Which fields carry a lower bound, and which are required. */
  lemma SchemaConstraints()
    ensures forall i :: 0 <= i < |Schema| ==>
              (Schema[i].min != NoMin <==> Schema[i].field in {CooldownTicksField, CostField, CastingTicksField, RangeField})
    ensures forall i :: 0 <= i < |Schema| ==> Schema[i].min in {NoMin, MinInt(0), MinReal(0.0)}
    ensures forall i :: 0 <= i < |Schema| ==> (Schema[i].required <==> Schema[i].field in {TypeField, DescriptionField})
  {
  }
}
