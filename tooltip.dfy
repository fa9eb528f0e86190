/**
 * The tooltip builder that `renderTooltip` fills, and the extension hook
 * `onRenderTooltip` that a concrete blueprint may override.
 */
module Tooltip {
  import opened Wrappers
  import opened Engine

  /** The title line, reduced to what it shows: the display name and the ability type. */
  datatype Title = Title(displayName: string, abilityType: AbilityType)

  /** What a stat line shows: a number, the healing statistic behind a template, or a damage descriptor. */
  datatype StatValue =
    | Amount(amount: real)
    | HealingStat(template: string, healing: Option<EsperStatistic>)
    | DamageStat(damage: Option<Damage>)

  datatype TooltipEntry =
    | StatLine(name: string, value: StatValue, unit: string)
    | DescriptionLines(lines: seq<string>)

  /** A value substituted for a `<name>` placeholder. */
  datatype TemplateValue = TextTemplate(text: string) | NumberTemplate(number: real)

  /** A tooltip under construction: a title, an ordered list of entries, a template map. */
  class TooltipBuilder {
    var title: Option<Title>
    var entries: seq<TooltipEntry>
    var templates: map<string, TemplateValue>

    constructor ()
      ensures title == None && entries == [] && templates == map[]
    {
      title := None;
      entries := [];
      templates := map[];
    }

    method SetTitle(t: Title)
      modifies this`title
      ensures title == Some(t)
    {
      title := Some(t);
    }

    /** `addStats`: appends one labelled stat line. */
    method AddStats(name: string, value: StatValue, unit: string)
      modifies this`entries
      ensures entries == old(entries) + [StatLine(name, value, unit)]
    {
      entries := entries + [StatLine(name, value, unit)];
    }

    /** `addDescription`: appends the description lines. */
    method AddDescription(lines: seq<string>)
      modifies this`entries
      ensures entries == old(entries) + [DescriptionLines(lines)]
    {
      entries := entries + [DescriptionLines(lines)];
    }

    /** `addTemplates`: puts every pair into the template map, replacing earlier values of the same keys. */
    method AddTemplates(pairs: map<string, TemplateValue>)
      modifies this`templates
      ensures templates == old(templates) + pairs
    {
      templates := templates + pairs;
    }

    /** Drops one template key; a hook's way of withdrawing a value. */
    method RemoveTemplate(key: string)
      modifies this`templates
      ensures templates == old(templates) - {key}
    {
      templates := templates - {key};
    }
  }

  /**
   * One step of an `onRenderTooltip` override on the builder: add an entry, put
   * a template value, remove a template key, overwrite the title, or throw.
   */
  datatype HookStep =
    | HookEntry(entry: TooltipEntry)
    | HookTemplate(key: string, value: TemplateValue)
    | HookRemoveTemplate(key: string)
    | HookTitle(title: Title)
    | HookFailure

  /** The index of the first step that throws, or the length of the script when none does. */
  function FailurePoint(script: seq<HookStep>): (k: nat)
    ensures k <= |script|
    ensures forall i :: 0 <= i < k ==> !script[i].HookFailure?
    ensures k < |script| ==> script[k].HookFailure?
  {
    if script == [] || script[0].HookFailure? then 0 else 1 + FailurePoint(script[1..])
  }

  /** The steps that take effect: those before the first failure. */
  function HookPrefix(script: seq<HookStep>): (p: seq<HookStep>)
    ensures |p| <= |script| && p == script[..|p|]
    ensures forall i :: 0 <= i < |p| ==> !p[i].HookFailure?
    ensures |p| < |script| ==> script[|p|].HookFailure?
  {
    script[..FailurePoint(script)]
  }

  /** The entries that `steps` append, in order. */
  function HookEntries(steps: seq<HookStep>): seq<TooltipEntry>
  {
    if steps == [] then []
    else
      var last := steps[|steps| - 1];
      HookEntries(steps[..|steps| - 1]) + (if last.HookEntry? then [last.entry] else [])
  }

  /** The template map after `steps` run against `m`. */
  function HookTemplates(m: map<string, TemplateValue>, steps: seq<HookStep>): map<string, TemplateValue>
  {
    if steps == [] then m
    else
      var before := HookTemplates(m, steps[..|steps| - 1]);
      match steps[|steps| - 1]
      case HookTemplate(k, v) => before[k := v]
      case HookRemoveTemplate(k) => before - {k}
      case _ => before
  }

  /** The title after `steps` run against the title `t`: the last one a step wrote, else `t`. */
  function HookTitleAfter(t: Option<Title>, steps: seq<HookStep>): (r: Option<Title>)
    ensures (forall i :: 0 <= i < |steps| ==> !steps[i].HookTitle?) ==> r == t
    ensures r != t ==> r.Some? && exists i :: 0 <= i < |steps| && steps[i] == HookTitle(r.value)
    ensures |steps| > 0 && steps[|steps| - 1].HookTitle? ==> r == Some(steps[|steps| - 1].title)
    ensures forall i :: 0 <= i < |steps| && steps[i].HookTitle? && (forall j :: i < j < |steps| ==> !steps[j].HookTitle?)
              ==> r == Some(steps[i].title)
  {
    if steps == [] then t
    else if steps[|steps| - 1].HookTitle? then Some(steps[|steps| - 1].title)
    else
      var before := HookTitleAfter(t, steps[..|steps| - 1]);
      assert forall i :: 0 <= i < |steps| - 1 ==> steps[..|steps| - 1][i] == steps[i];
      before
  }

  /** Whether `step` puts a value under `k`. */
  predicate Writes(step: HookStep, k: string)
  {
    step.HookTemplate? && step.key == k
  }

  /** Whether `step` removes the key `k`. */
  predicate Removes(step: HookStep, k: string)
  {
    step.HookRemoveTemplate? && step.key == k
  }

  /**
   * A key of the map survives every script that does not remove it, and a key
   * that no step writes or removes keeps its value.
   */
  lemma {:induction false} HookTemplatesKeepKeys(m: map<string, TemplateValue>, steps: seq<HookStep>)
    ensures forall k :: k in m && (forall i :: 0 <= i < |steps| ==> !Removes(steps[i], k))
              ==> k in HookTemplates(m, steps)
    ensures forall k :: k in m && (forall i :: 0 <= i < |steps| ==> !Writes(steps[i], k) && !Removes(steps[i], k))
              ==> HookTemplates(m, steps)[k] == m[k]
    decreases |steps|
  {
    if steps != [] {
      var init := steps[..|steps| - 1];
      assert forall i :: 0 <= i < |init| ==> init[i] == steps[i];
      HookTemplatesKeepKeys(m, init);
    }
  }

  /**
   * A key that some step removes is absent afterwards unless a later step writes
   * it again, and a key whose last step writes it holds the written value.
   */
  lemma {:induction false} HookTemplatesLastStep(m: map<string, TemplateValue>, steps: seq<HookStep>, i: int, k: string)
    requires 0 <= i < |steps|
    requires forall j :: i < j < |steps| ==> !Writes(steps[j], k) && !Removes(steps[j], k)
    ensures Removes(steps[i], k) ==> k !in HookTemplates(m, steps)
    ensures Writes(steps[i], k) ==> k in HookTemplates(m, steps) && HookTemplates(m, steps)[k] == steps[i].value
    decreases |steps|
  {
    if i < |steps| - 1 {
      var init := steps[..|steps| - 1];
      assert forall j :: 0 <= j < |init| ==> init[j] == steps[j];
      HookTemplatesLastStep(m, init, i, k);
    }
  }

  /** Once a step throws, the steps after it have no effect. */
  lemma {:induction false} StepsAfterFailureIgnored(done: seq<HookStep>, rest: seq<HookStep>)
    requires forall i :: 0 <= i < |done| ==> !done[i].HookFailure?
    ensures HookPrefix(done + [HookFailure] + rest) == done
    ensures HookPrefix(done) == done
    decreases |done|
  {
    var all := done + [HookFailure] + rest;
    if done != [] {
      assert all[1..] == done[1..] + [HookFailure] + rest;
      StepsAfterFailureIgnored(done[1..], rest);
      assert FailurePoint(all) == 1 + FailurePoint(all[1..]);
      assert done[1..] == done[..][1..];
      assert FailurePoint(done) == 1 + FailurePoint(done[1..]);
    }
  }

  /**
   * Runs a hook script on the builder. The steps before the first failure take
   * effect; `failed` says whether the script threw.
   */
  method RunHook(tooltip: TooltipBuilder, script: seq<HookStep>) returns (failed: bool)
    modifies tooltip
    ensures failed <==> exists i :: 0 <= i < |script| && script[i].HookFailure?
    ensures tooltip.title == HookTitleAfter(old(tooltip.title), HookPrefix(script))
    ensures tooltip.entries == old(tooltip.entries) + HookEntries(HookPrefix(script))
    ensures tooltip.templates == HookTemplates(old(tooltip.templates), HookPrefix(script))
  {
    var i := 0;
    while i < |script| && !script[i].HookFailure?
      invariant 0 <= i <= FailurePoint(script)
      invariant tooltip.title == HookTitleAfter(old(tooltip.title), script[..i])
      invariant tooltip.entries == old(tooltip.entries) + HookEntries(script[..i])
      invariant tooltip.templates == HookTemplates(old(tooltip.templates), script[..i])
    {
      assert script[..i + 1][..i] == script[..i];
      var step := script[i];
      if step.HookEntry? && step.entry.StatLine? {
        tooltip.AddStats(step.entry.name, step.entry.value, step.entry.unit);
      } else if step.HookEntry? {
        tooltip.AddDescription(step.entry.lines);
      } else if step.HookTemplate? {
        tooltip.AddTemplates(map[step.key := step.value]);
      } else if step.HookRemoveTemplate? {
        tooltip.RemoveTemplate(step.key);
      } else {
        tooltip.SetTitle(step.title);
      }
      i := i + 1;
    }
    assert i == FailurePoint(script);
    failed := i < |script|;
  }
}
