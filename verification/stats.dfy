/** The printer card's stats component: when the progress percent is
    recomputed, how it is shown, and which sensor, widget and time direction
    each monitored stat kind dispatches to. */
module Stats {
  import opened Host

  /** The kinds a card can monitor. `OtherKind` stands for every kind the
      dispatch does not list. */
  datatype StatKind =
    | Status
    | ETA
    | Elapsed
    | Remaining
    | BedCurrent
    | HotendCurrent
    | BedTarget
    | HotendTarget
    | OtherKind(tag: string)

  datatype TemperatureUnit = C | F

  /** The component's properties, as its parent sets them. */
  datatype StatsProps = StatsProps(
    hass: Hass,
    printerEntities: PrinterEntities,
    printerEntityIdPart: Option<string>,
    monitoredStats: seq<StatKind>,
    showPercent: bool,
    round: bool,
    use24hr: bool,
    temperatureUnit: TemperatureUnit)

  /** The component: its properties and its one piece of derived state. */
  datatype StatsComponent = StatsComponent(props: StatsProps, progressPercent: Value)

  /** The properties whose change makes the progress percent stale. */
  const ProgressInputs: set<string> := {"hass", "printerEntities", "printerEntityIdPart"}

  predicate Relevant(changed: set<string>) {
    !(changed !! ProgressInputs)
  }

  /** Id of a printer's sensor. The helper that builds it is not part of this
      model; it is assumed to be `sensor.<idPart>_<suffix>`. */
  function SensorId(idPart: string, suffix: string): string {
    "sensor." + idPart + "_" + suffix
  }

  /** The printer has the sensor and the store holds a state for it. */
  predicate SensorPresent(p: StatsProps, suffix: string) {
    && p.printerEntityIdPart.Some?
    && SensorId(p.printerEntityIdPart.value, suffix) in p.printerEntities
    && SensorId(p.printerEntityIdPart.value, suffix) in p.hass
  }

  /** The state object of one printer sensor, or a state-only stand-in
      holding `fallback` when the sensor is not one of the printer's entities
      or the store has no state for it. */
  function SensorState(p: StatsProps, suffix: string, fallback: Value): (e: EntityState)
    ensures SensorPresent(p, suffix) ==> e == p.hass[SensorId(p.printerEntityIdPart.value, suffix)]
    ensures !SensorPresent(p, suffix) ==> e == EntityState(fallback, map[])
  {
    if p.printerEntityIdPart.Some? then
      var id := SensorId(p.printerEntityIdPart.value, suffix);
      if id in p.printerEntities && id in p.hass then p.hass[id] else EntityState(fallback, map[])
    else
      EntityState(fallback, map[])
  }

  /** The sentinel for an unknown progress. */
  const UnknownProgress: Value := Num(-1.0)

  /** The state of the `project_progress` sensor, or -1.0 when there is none. */
  function PercentComplete(p: StatsProps): (pc: Value)
    ensures !SensorPresent(p, "project_progress") ==> pc == UnknownProgress
    ensures SensorPresent(p, "project_progress")
            ==> pc == p.hass[SensorId(p.printerEntityIdPart.value, "project_progress")].state
  {
    SensorState(p, "project_progress", UnknownProgress).state
  }

  /** A freshly mounted component: `round` on, Celsius, no percent shown,
      progress 0 until the first update. */
  function Mount(hass: Hass, entities: PrinterEntities, idPart: Option<string>, stats: seq<StatKind>): (c: StatsComponent)
    ensures c.props.round && !c.props.showPercent && c.props.temperatureUnit == C
    ensures c.progressPercent == Num(0.0)
    ensures c.props.monitoredStats == stats && c.props.hass == hass
  {
    StatsComponent(StatsProps(hass, entities, idPart, stats, false, true, false, C), Num(0.0))
  }

  /** `willUpdate`: recompute the percent only when one of its inputs changed. */
  function WillUpdate(c: StatsComponent, changed: set<string>): (r: StatsComponent)
    ensures r.props == c.props
    ensures changed !! ProgressInputs ==> r == c
    ensures !(changed !! ProgressInputs) ==> r.progressPercent == PercentComplete(c.props)
  {
    if Relevant(changed) then c.(progressPercent := PercentComplete(c.props)) else c
  }

  // ---------------------------------------------------------------------------
  // The percent read-out

  /** How the percent text is produced; the rounding itself is left abstract. */
  datatype PercentText = RoundedPercent(p: Value) | ExactPercent(p: Value)

  /** The percent read-out: present only with `showPercent`, rounded only with
      `round`, and always of the cached percent. */
  function PercentDisplay(c: StatsComponent): (d: Option<PercentText>)
    ensures d.Some? <==> c.props.showPercent
    ensures d.Some? ==> d.value.p == c.progressPercent
    ensures d.Some? ==> (d.value.RoundedPercent? <==> c.props.round)
  {
    if !c.props.showPercent then None
    else if c.props.round then Some(RoundedPercent(c.progressPercent))
    else Some(ExactPercent(c.progressPercent))
  }

  // ---------------------------------------------------------------------------
  // Stat dispatch

  /** A stat line's name: the kind itself, or fixed text. */
  datatype Label = KindLabel(kind: StatKind) | TextLabel(text: string)

  /** A stat line's value: a title-cased sensor state, or fixed text. The
      title-casing helper is not part of this model. */
  datatype LineValue = TitleCaseOf(raw: Value) | TextValue(text: string)

  /** One rendered entry of the stats list. */
  datatype Widget =
    | StatLine(name: Label, value: LineValue)
    | TimeStat(timeEntity: EntityState, timeType: StatKind, direction: int, round: bool, use24hr: bool)
    | TemperatureStat(statName: StatKind, temperatureEntity: EntityState, round: bool, unit: TemperatureUnit)

  datatype WidgetKind = LineWidget | TimeWidget | TemperatureWidget

  /** What a listed kind dispatches to: the sensor it reads, the widget that
      shows it and, for time widgets, the direction
      (-1 countdown, 0 point in time, 1 elapsed). */
  datatype Dispatch = Dispatch(sensor: string, widget: WidgetKind, direction: Option<int>)

  /** The dispatch table as data; `None` for every unlisted kind. */
  function StatTable(k: StatKind): Option<Dispatch> {
    match k
    case Status => Some(Dispatch("print_state", LineWidget, None))
    case ETA => Some(Dispatch("project_time_remaining", TimeWidget, Some(0)))
    case Elapsed => Some(Dispatch("project_time_elapsed", TimeWidget, Some(1)))
    case Remaining => Some(Dispatch("project_time_remaining", TimeWidget, Some(-1)))
    case BedCurrent => Some(Dispatch("hotbed_temperature", TemperatureWidget, None))
    case HotendCurrent => Some(Dispatch("nozzle_temperature", TemperatureWidget, None))
    case BedTarget => Some(Dispatch("target_hotbed_temperature", TemperatureWidget, None))
    case HotendTarget => Some(Dispatch("target_nozzle_temperature", TemperatureWidget, None))
    case OtherKind(_) => None
  }

  function KindOf(w: Widget): WidgetKind {
    match w
    case StatLine(_, _) => LineWidget
    case TimeStat(_, _, _, _, _) => TimeWidget
    case TemperatureStat(_, _, _, _) => TemperatureWidget
  }

  function DirectionOf(w: Widget): Option<int> {
    if w.TimeStat? then Some(w.direction) else None
  }

  /** The sensor state a widget shows, if it shows one. */
  function StateOf(w: Widget): Option<Value> {
    match w
    case StatLine(_, v) => if v.TitleCaseOf? then Some(v.raw) else None
    case TimeStat(e, _, _, _, _) => Some(e.state)
    case TemperatureStat(_, e, _, _) => Some(e.state)
  }

  /** The fixed entry for a kind the dispatch does not list. */
  const UnknownLine: Widget := StatLine(TextLabel("Unknown"), TextValue("<unknown>"))

  /** The entry rendered for one monitored kind. */
  function RenderStat(p: StatsProps, k: StatKind): (w: Widget)
    ensures StatTable(k).None? <==> w == UnknownLine
    ensures StatTable(k).Some? ==>
              && KindOf(w) == StatTable(k).value.widget
              && DirectionOf(w) == StatTable(k).value.direction
              && StateOf(w) == Some(SensorState(p, StatTable(k).value.sensor, Null).state)
    ensures w.StatLine? && w != UnknownLine ==> w.name == KindLabel(k) && w.value.TitleCaseOf?
    ensures w.TimeStat? ==>
              && w.timeEntity == SensorState(p, StatTable(k).value.sensor, Null)
              && w.timeType == k && w.round == p.round && w.use24hr == p.use24hr
    ensures w.TemperatureStat? ==>
              && w.temperatureEntity == SensorState(p, StatTable(k).value.sensor, Null)
              && w.statName == k && w.round == p.round && w.unit == p.temperatureUnit
  {
    match k
    case Status =>
      StatLine(KindLabel(k), TitleCaseOf(SensorState(p, "print_state", Null).state))
    case ETA =>
      TimeStat(SensorState(p, "project_time_remaining", Null), k, 0, p.round, p.use24hr)
    case Elapsed =>
      TimeStat(SensorState(p, "project_time_elapsed", Null), k, 1, p.round, p.use24hr)
    case Remaining =>
      TimeStat(SensorState(p, "project_time_remaining", Null), k, -1, p.round, p.use24hr)
    case BedCurrent =>
      TemperatureStat(k, SensorState(p, "hotbed_temperature", Null), p.round, p.temperatureUnit)
    case HotendCurrent =>
      TemperatureStat(k, SensorState(p, "nozzle_temperature", Null), p.round, p.temperatureUnit)
    case BedTarget =>
      TemperatureStat(k, SensorState(p, "target_hotbed_temperature", Null), p.round, p.temperatureUnit)
    case HotendTarget =>
      TemperatureStat(k, SensorState(p, "target_nozzle_temperature", Null), p.round, p.temperatureUnit)
    case OtherKind(_) =>
      UnknownLine
  }

  /** ETA and Remaining show the same sensor and differ only in direction. */
  lemma EtaAndRemainingShareSensor(p: StatsProps)
    ensures RenderStat(p, ETA).timeEntity == RenderStat(p, Remaining).timeEntity
    ensures RenderStat(p, ETA).direction == 0 && RenderStat(p, Remaining).direction == -1
  {
  }

  /** `renderStats`: one entry per monitored kind, in order. */
  method RenderStats(p: StatsProps) returns (ws: seq<Widget>)
    ensures |ws| == |p.monitoredStats|
    ensures forall i :: 0 <= i < |ws| ==> ws[i] == RenderStat(p, p.monitoredStats[i])
  {
    ws := [];
    var i := 0;
    while i < |p.monitoredStats|
      invariant 0 <= i <= |p.monitoredStats|
      invariant |ws| == i
      invariant forall j :: 0 <= j < i ==> ws[j] == RenderStat(p, p.monitoredStats[j])
    {
      ws := ws + [RenderStat(p, p.monitoredStats[i])];
      i := i + 1;
    }
  }

  // ---------------------------------------------------------------------------
  // Freshness over a sequence of updates

  /** One host update: the parent sets new properties and reports which
      property names changed. */
  datatype StatsUpdate = StatsUpdate(props: StatsProps, changed: set<string>)

  function Step(c: StatsComponent, u: StatsUpdate): StatsComponent {
    WillUpdate(c.(props := u.props), u.changed)
  }

  /** The component after a sequence of updates, applied in order. */
  function Replay(c: StatsComponent, us: seq<StatsUpdate>): StatsComponent
    decreases |us|
  {
    if us == [] then c else Step(Replay(c, us[..|us| - 1]), us[|us| - 1])
  }

  /** The reported change set names every progress input that differs. */
  predicate Honest(before: StatsProps, u: StatsUpdate) {
    && (before.hass != u.props.hass ==> "hass" in u.changed)
    && (before.printerEntities != u.props.printerEntities ==> "printerEntities" in u.changed)
    && (before.printerEntityIdPart != u.props.printerEntityIdPart ==> "printerEntityIdPart" in u.changed)
  }

  /** No stale percent: once the first update has named a progress input and
      every later update reports its changes honestly, the cached percent is
      the percent of the current properties. */
  lemma {:induction false} ProgressNeverStale(c: StatsComponent, us: seq<StatsUpdate>)
    requires |us| > 0 && Relevant(us[0].changed)
    requires forall i :: 0 < i < |us| ==> Honest(us[i - 1].props, us[i])
    ensures Replay(c, us).props == us[|us| - 1].props
    ensures Replay(c, us).progressPercent == PercentComplete(us[|us| - 1].props)
  {
    if |us| > 1 {
      var front := us[..|us| - 1];
      assert forall i :: 0 < i < |front| ==> Honest(front[i - 1].props, front[i]) by {
        forall i | 0 < i < |front|
          ensures Honest(front[i - 1].props, front[i])
        {
          assert front[i] == us[i] && front[i - 1] == us[i - 1];
        }
      }
      ProgressNeverStale(c, front);
      assert Honest(us[|us| - 2].props, us[|us| - 1]);
    }
  }

  /** The percent on screen is never stale either: under the same honest
      updates, a shown percent is the percent of the current properties. */
  lemma {:induction false} ShownPercentNeverStale(c: StatsComponent, us: seq<StatsUpdate>)
    requires |us| > 0 && Relevant(us[0].changed)
    requires forall i :: 0 < i < |us| ==> Honest(us[i - 1].props, us[i])
    ensures PercentDisplay(Replay(c, us)).Some? <==> us[|us| - 1].props.showPercent
    ensures PercentDisplay(Replay(c, us)).Some? ==>
              PercentDisplay(Replay(c, us)).value.p == PercentComplete(us[|us| - 1].props)
  {
    ProgressNeverStale(c, us);
  }
}
