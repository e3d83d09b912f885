/**
 * Settings resolution and per-level detail construction: the object spreads of
 * lib/index.ts and `toLogDetail`.
 */
module Resolution {
  import opened Options
  import opened LogTypes

  /** `{...base, ...over}` with `base` complete: a field `over` has wins, the others are `base`'s. */
  function Merge(base: Settings, over: PartialSettings): (r: Settings)
    ensures over.singleLine.Some? ==> r.singleLine == over.singleLine.value
    ensures over.singleLine.None? ==> r.singleLine == base.singleLine
    ensures over.format.Some? ==> r.format == over.format.value
    ensures over.format.None? ==> r.format == base.format
    ensures over.useConsole.Some? ==> r.useConsole == over.useConsole.value
    ensures over.useConsole.None? ==> r.useConsole == base.useConsole
    ensures over.useStackTrace.Some? ==> r.useStackTrace == over.useStackTrace.value
    ensures over.useStackTrace.None? ==> r.useStackTrace == base.useStackTrace
  {
    Settings(
      over.singleLine.GetOr(base.singleLine),
      over.format.GetOr(base.format),
      over.useConsole.GetOr(base.useConsole),
      over.useStackTrace.GetOr(base.useStackTrace))
  }

  /** `{...p, ...q}` on two partial records: a field is `q`'s if present, else `p`'s. */
  function Overlay(p: PartialSettings, q: PartialSettings): PartialSettings {
    PartialSettings(
      if q.singleLine.Some? then q.singleLine else p.singleLine,
      if q.format.Some? then q.format else p.format,
      if q.useConsole.Some? then q.useConsole else p.useConsole,
      if q.useStackTrace.Some? then q.useStackTrace else p.useStackTrace)
  }

  /** Merging twice is merging once with the two overrides laid one on the other. */
  lemma MergeTwice(base: Settings, p: PartialSettings, q: PartialSettings)
    ensures Merge(Merge(base, p), q) == Merge(base, Overlay(p, q))
  {
  }

  /** An override with no field present changes nothing. */
  lemma MergeNothing(base: Settings)
    ensures Merge(base, NO_OVERRIDES) == base
  {
  }

  /** `Array.isArray(cb) ? cb : [cb]`: a single callback becomes a one-element list. */
  function Normalise(input: CallbackInput): (r: seq<Callback>)
    ensures input.One? ==> r == [input.callback]
    ensures input.Many? ==> r == input.callbacks
  {
    match input
    case One(cb) => [cb]
    case Many(cbs) => cbs
  }

  /**
   * `toLogDetail`: the entry's settings are kept as given and its callbacks become a list,
   * empty when the entry or its callback is absent.
   */
  function ToLogDetail(input: Option<DetailInput>): (d: Detail)
    ensures input.None? ==> d == Detail(NO_OVERRIDES, [])
    ensures input.Some? ==> d.settings == input.value.settings
    ensures input.Some? && input.value.callback.None? ==> d.callbacks == []
    ensures input.Some? && input.value.callback.Some? ==> d.callbacks == Normalise(input.value.callback.value)
  {
    match input
    case None => Detail(NO_OVERRIDES, [])
    case Some(entry) =>
      Detail(entry.settings, match entry.callback case None => [] case Some(cb) => Normalise(cb))
  }

  /** `config ? config[level] : undefined`. */
  function Entry(config: Option<LogConfig>, level: Level): Option<DetailInput> {
    if config.Some? && level in config.value.levels then Some(config.value.levels[level]) else None
  }

  /** `config?.defaultSettings`, with an absent one read as no override. */
  function ConfigDefaults(config: Option<LogConfig>): PartialSettings {
    if config.Some? then config.value.defaultSettings.GetOr(NO_OVERRIDES) else NO_OVERRIDES
  }

  /** The per-level table the constructor builds: one entry for every level. */
  function InitialTarget(config: Option<LogConfig>): (t: map<Level, Detail>)
    ensures forall level: Level :: level in t && t[level] == ToLogDetail(Entry(config, level))
  {
    var t := map[DEBUG := ToLogDetail(Entry(config, DEBUG)),
                 INFO := ToLogDetail(Entry(config, INFO)),
                 LOG := ToLogDetail(Entry(config, LOG)),
                 WARN := ToLogDetail(Entry(config, WARN)),
                 ERROR := ToLogDetail(Entry(config, ERROR))];
    assert forall level: Level :: level in t && t[level] == ToLogDetail(Entry(config, level)) by {
      forall level: Level ensures level in t && t[level] == ToLogDetail(Entry(config, level)) {
        LevelCases(level);
      }
    }
    t
  }

  /** The constructed default: `{...DEFAULT_LOG_SETTINGS, ...config?.defaultSettings}`. */
  function InitialDefault(config: Option<LogConfig>): (s: Settings)
    ensures config.None? ==> s == DEFAULT_LOG_SETTINGS
    ensures s == Merge(DEFAULT_LOG_SETTINGS, ConfigDefaults(config))
  {
    MergeNothing(DEFAULT_LOG_SETTINGS);
    Merge(DEFAULT_LOG_SETTINGS, ConfigDefaults(config))
  }

  /**
   * The effective settings of one level method: the level's own fields win over the
   * configured defaults, which win over `DEFAULT_LOG_SETTINGS`.
   */
  lemma EffectiveSettings(config: Option<LogConfig>, level: Level)
    ensures Merge(InitialDefault(config), InitialTarget(config)[level].settings)
         == Merge(DEFAULT_LOG_SETTINGS, Overlay(ConfigDefaults(config), ToLogDetail(Entry(config, level)).settings))
  {
    MergeTwice(DEFAULT_LOG_SETTINGS, ConfigDefaults(config), ToLogDetail(Entry(config, level)).settings);
  }

  /**
   * The table after `addCallBack(level, input)`: that level keeps its settings and gets
   * its old callbacks followed by the added ones; every other level is unchanged.
   */
  function AddCallbacks(t: map<Level, Detail>, level: Level, input: CallbackInput): (t': map<Level, Detail>)
    requires level in t
    ensures t'.Keys == t.Keys
    ensures t'[level].settings == t[level].settings
    ensures t'[level].callbacks == t[level].callbacks + Normalise(input)
    ensures forall other :: other in t && other != level ==> t'[other] == t[other]
  {
    t[level := Detail(t[level].settings, t[level].callbacks + Normalise(input))]
  }

  /** Registration only appends: the old list is a prefix and the length grows by the added count. */
  lemma AddCallbacksExtends(t: map<Level, Detail>, level: Level, input: CallbackInput)
    requires level in t
    ensures t[level].callbacks <= AddCallbacks(t, level, input)[level].callbacks
    ensures |AddCallbacks(t, level, input)[level].callbacks| == |t[level].callbacks| + |Normalise(input)|
    ensures input.One? ==> AddCallbacks(t, level, input)[level].callbacks[|t[level].callbacks|] == input.callback
  {
  }
}
