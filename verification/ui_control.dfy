/**
 * The control panel's state machine: the simulation state it shows, the values
 * its widgets hold, the configuration it builds from them, the bounded log of
 * recent events, and its reactions to events, key presses and buttons.
 *
 * Drawing, the event bus, timestamps and the widget library are not modelled;
 * what a widget reports (a key press, a captured keyboard, an entered number) is
 * an input. The log capacity and the string-to-number parser are parameters
 * because their definitions are not part of this model.
 */
module Controls {
  import opened Results
  import opened Config
  import Potentials
  import Solver
  import Primitives

  datatype SimulationState = Stopped | Running | Paused

  /** A configuration change notice: which parameter, and its new value as text. */
  datatype Change = Change(parameter: string, value: string)

  /**
   * The events the panel can receive. A stepped or configuration event whose
   * payload cannot be read (the object is not of the expected class) carries None.
   */
  datatype Event =
    | SimulationStarted
    | SimulationPaused
    | SimulationReset
    | SimulationStepped(time: Option<real>)
    | ConfigurationUpdated(change: Option<Change>)
    | Other(name: string)

  /** The values the widgets edit. */
  datatype UiState = UiState(
    dt: real,
    potentialType: int,
    barrierHeight: real, barrierWidth: real, barrierX: real, barrierY: real,
    harmonicOmega: real,
    waveX0: real, waveY0: real, waveSigmaX: real, waveSigmaY: real, waveKx: real, waveKy: real)

  datatype Panel = Panel(
    simState: SimulationState,
    ui: UiState,
    config: PhysicsConfig,
    currentTime: real,
    recentEvents: seq<Event>)

  // ---------------------------------------------------------------------------
  // Events.
  // ---------------------------------------------------------------------------

  /** The outcome of handling one event: the new panel and whether it was handled. */
  datatype Handled = Handled(panel: Panel, handled: bool)

  /** The log after recording ev: the oldest entry is dropped first when at capacity. */
  function Record(log: seq<Event>, ev: Event, capacity: nat): (r: seq<Event>)
    requires |log| >= capacity ==> |log| > 0
    ensures |r| > 0 && r[|r| - 1] == ev
    ensures r[..|r| - 1] == if |log| >= capacity then log[1..] else log
    ensures capacity > 0 && |log| <= capacity ==> |r| <= capacity
  {
    (if |log| >= capacity then log[1..] else log) + [ev]
  }

  /** A "dt" configuration change whose value text reads as a number. */
  predicate SetsDt(ev: Event, parse: string -> Option<real>)
  {
    ev.ConfigurationUpdated? && ev.change.Some? && ev.change.value.parameter == "dt"
    && parse(ev.change.value.value).Some?
  }

  /**
   * React to one event. Every event is logged. Start, pause and reset set the
   * state; a stepped event updates the shown time; a "dt" change with a readable
   * value sets the edited dt. These are handled; any other event is not, and then
   * only the log changes.
   */
  function HandleEvent(m: Panel, ev: Event, capacity: nat, parse: string -> Option<real>): (r: Handled)
    requires |m.recentEvents| >= capacity ==> |m.recentEvents| > 0
    ensures r.panel.recentEvents == Record(m.recentEvents, ev, capacity)
    ensures r.handled <==> !ev.Other?
    ensures ev.SimulationStarted? ==> r.panel.simState == Running
    ensures ev.SimulationPaused? ==> r.panel.simState == Paused
    ensures ev.SimulationReset? ==> r.panel.simState == Stopped
    ensures ev.SimulationStepped? && ev.time.Some? ==> r.panel.currentTime == ev.time.value
    ensures SetsDt(ev, parse) ==> r.panel.ui.dt == parse(ev.change.value.value).value
    ensures !ev.SimulationStarted? && !ev.SimulationPaused? && !ev.SimulationReset? ==>
              r.panel.simState == m.simState
    ensures !(ev.SimulationStepped? && ev.time.Some?) ==> r.panel.currentTime == m.currentTime
    ensures !SetsDt(ev, parse) ==> r.panel.ui == m.ui
    ensures r.panel == m.(recentEvents := r.panel.recentEvents, simState := r.panel.simState,
                          currentTime := r.panel.currentTime, ui := m.ui.(dt := r.panel.ui.dt))
  {
    var logged := m.(recentEvents := Record(m.recentEvents, ev, capacity));
    match ev
    case SimulationStarted => Handled(logged.(simState := Running), true)
    case SimulationPaused => Handled(logged.(simState := Paused), true)
    case SimulationReset => Handled(logged.(simState := Stopped), true)
    case SimulationStepped(time) =>
      if time.Some? then Handled(logged.(currentTime := time.value), true) else Handled(logged, true)
    case ConfigurationUpdated(change) =>
      if change.Some? && change.value.parameter == "dt" && parse(change.value.value).Some? then
        Handled(logged.(ui := logged.ui.(dt := parse(change.value.value).value)), true)
      else
        Handled(logged, true)
    case Other(_) => Handled(logged, false)
  }

  /**
   * An event the panel does not handle, or a configuration change it does not
   * apply (another parameter, or a "dt" value that does not read as a number),
   * alters only the log.
   */
  lemma IgnoredEventsOnlyLog(m: Panel, ev: Event, capacity: nat, parse: string -> Option<real>)
    requires |m.recentEvents| >= capacity ==> |m.recentEvents| > 0
    requires ev.Other? || (ev.ConfigurationUpdated? && !SetsDt(ev, parse))
    ensures HandleEvent(m, ev, capacity, parse).panel
            == m.(recentEvents := Record(m.recentEvents, ev, capacity))
  {
  }

  /** The newest `capacity` entries of a sequence. */
  function Window(s: seq<Event>, capacity: nat): (r: seq<Event>)
    ensures |r| <= capacity && |r| <= |s|
  {
    s[if |s| > capacity then |s| - capacity else 0..]
  }

  /** Recording events one after another. */
  function RecordAll(log: seq<Event>, evs: seq<Event>, capacity: nat): seq<Event>
    requires capacity > 0
    decreases |evs|
  {
    if |evs| == 0 then log else RecordAll(Record(log, evs[0], capacity), evs[1..], capacity)
  }

  /**
   * The log is a sliding window: starting within capacity, after any events it
   * holds the newest `capacity` entries of the old log followed by the events, in
   * arrival order.
   */
  lemma {:induction false} RecordAllWindow(log: seq<Event>, evs: seq<Event>, capacity: nat)
    requires capacity > 0 && |log| <= capacity
    ensures RecordAll(log, evs, capacity) == Window(log + evs, capacity)
    decreases |evs|
  {
    var all := log + evs;
    if |evs| == 0 {
      assert all == log;
    } else {
      var log' := Record(log, evs[0], capacity);
      assert |log'| <= capacity;
      RecordAllWindow(log', evs[1..], capacity);
      var all' := log' + evs[1..];
      if |log| >= capacity {
        assert log' == log[1..] + [evs[0]];
        assert all' == all[1..];
      } else {
        assert log' == log + [evs[0]];
        assert all' == all;
      }
    }
  }

  /** Handle a sequence of events in order; the log records all of them. */
  function HandleAll(m: Panel, evs: seq<Event>, capacity: nat, parse: string -> Option<real>): (r: Panel)
    requires capacity > 0
    ensures r.recentEvents == RecordAll(m.recentEvents, evs, capacity)
    ensures r.config == m.config
    decreases |evs|
  {
    if |evs| == 0 then m
    else HandleAll(HandleEvent(m, evs[0], capacity, parse).panel, evs[1..], capacity, parse)
  }

  /** After any events the log holds at most `capacity` entries, newest last. */
  lemma LogWindow(m: Panel, evs: seq<Event>, capacity: nat, parse: string -> Option<real>)
    requires capacity > 0 && |m.recentEvents| <= capacity
    ensures HandleAll(m, evs, capacity, parse).recentEvents == Window(m.recentEvents + evs, capacity)
    ensures |evs| > 0 ==> var log := HandleAll(m, evs, capacity, parse).recentEvents;
              |log| > 0 && log[|log| - 1] == evs[|evs| - 1]
  {
    RecordAllWindow(m.recentEvents, evs, capacity);
  }

  // ---------------------------------------------------------------------------
  // Keyboard and buttons.
  // ---------------------------------------------------------------------------

  datatype Callback = StartCallback | StopCallback | ResetCallback

  /** The panel after input, and the registered callbacks that were called, in order. */
  datatype Reaction = Reaction(panel: Panel, fired: seq<Callback>)

  /** Start/pause toggle: running pauses, anything else starts. */
  function Toggle(s: SimulationState): (r: SimulationState)
    ensures r != Stopped
    ensures s == Running <==> r == Paused
  {
    if s == Running then Paused else Running
  }

  /** The callback the start/pause toggle calls from state s: stop when running, start otherwise. */
  function ToggleCallback(s: SimulationState): Callback
  {
    if s == Running then StopCallback else StartCallback
  }

  function Fire(c: Callback, registered: set<Callback>): (r: seq<Callback>)
    ensures r == [] || r == [c]
    ensures r == [c] <==> c in registered
  {
    if c in registered then [c] else []
  }

  /**
   * One frame of keyboard shortcuts. Nothing happens while the widgets capture
   * the keyboard. Space toggles start/pause, then R resets, so R wins when both
   * are pressed in the same frame.
   */
  function ProcessInput(m: Panel, captured: bool, space: bool, r: bool, registered: set<Callback>): (x: Reaction)
    ensures captured ==> x.panel == m && x.fired == []
    ensures !captured && r ==> x.panel.simState == Stopped
    ensures !captured && space && !r ==> x.panel.simState == Toggle(m.simState)
    ensures !space && !r ==> x.panel == m && x.fired == []
    ensures x.panel == m.(simState := x.panel.simState)
    ensures forall c :: c in x.fired ==> c in registered
    ensures !captured && r && ResetCallback in registered ==>
              |x.fired| > 0 && x.fired[|x.fired| - 1] == ResetCallback
    ensures !captured && space && !r ==> x.fired == Fire(ToggleCallback(m.simState), registered)
    ensures !captured && r ==>
              x.fired == (if space then Fire(ToggleCallback(m.simState), registered) else [])
                         + Fire(ResetCallback, registered)
  {
    if captured then Reaction(m, [])
    else
      var afterSpace :=
        if !space then Reaction(m, [])
        else if m.simState == Running then Reaction(m.(simState := Paused), Fire(StopCallback, registered))
        else Reaction(m.(simState := Running), Fire(StartCallback, registered));
      if r then
        Reaction(afterSpace.panel.(simState := Stopped), afterSpace.fired + Fire(ResetCallback, registered))
      else
        afterSpace
  }

  /** Two Space presses in separate frames bring a started simulation back to its state. */
  lemma SpaceTwice(m: Panel, registered: set<Callback>)
    requires m.simState != Stopped
    ensures var once := ProcessInput(m, false, true, false, registered).panel;
            ProcessInput(once, false, true, false, registered).panel == m
  {
  }

  /** The Start/Pause button: the same toggle as Space. */
  function PressStartPause(m: Panel, registered: set<Callback>): (x: Reaction)
    ensures x.panel.simState == Toggle(m.simState)
    ensures x.panel == m.(simState := x.panel.simState)
    ensures x.fired == Fire(ToggleCallback(m.simState), registered)
  {
    if m.simState != Running then Reaction(m.(simState := Running), Fire(StartCallback, registered))
    else Reaction(m.(simState := Paused), Fire(StopCallback, registered))
  }

  /** The Reset button: the same as R. */
  function PressReset(m: Panel, registered: set<Callback>): (x: Reaction)
    ensures x.panel.simState == Stopped
    ensures x.panel == m.(simState := Stopped)
    ensures x.fired == Fire(ResetCallback, registered)
  {
    Reaction(m.(simState := Stopped), Fire(ResetCallback, registered))
  }

  /** The keyboard shortcuts and the buttons have exactly the same effects. */
  lemma KeysMatchButtons(m: Panel, registered: set<Callback>)
    ensures ProcessInput(m, false, true, false, registered) == PressStartPause(m, registered)
    ensures ProcessInput(m, false, false, true, registered) == PressReset(m, registered)
  {
  }

  // ---------------------------------------------------------------------------
  // Configuration.
  // ---------------------------------------------------------------------------

  /** The kind names the selector indices stand for. */
  const FreeSpaceType := 0
  const SquareBarrierType := 1
  const HarmonicOscillatorType := 2

  /** The potential section of the configuration for the selected type, if any. */
  function SelectedPotential(ui: UiState): Option<PotentialConfig>
  {
    if ui.potentialType == FreeSpaceType then
      Some(PotentialConfig(Potentials.FreeSpaceKind, []))
    else if ui.potentialType == SquareBarrierType then
      Some(PotentialConfig(Potentials.SquareBarrierKind,
                           [ui.barrierHeight, ui.barrierWidth, ui.barrierX, ui.barrierY]))
    else if ui.potentialType == HarmonicOscillatorType then
      Some(PotentialConfig(Potentials.HarmonicOscillatorKind, [ui.harmonicOmega]))
    else
      None
  }

  /** The outcome of building a configuration: the caller's copy and the panel keeping it. */
  datatype Built = Built(panel: Panel, config: PhysicsConfig)

  /**
   * Write the widget values into a configuration: dt, the potential of the
   * selected type (and omega for the oscillator; an unknown type leaves the
   * potential as it was), and the six wavepacket values. The panel keeps a copy.
   */
  function UpdateConfig(m: Panel, cfg: PhysicsConfig): (b: Built)
    ensures b.panel == m.(config := b.config)
    ensures b.config.dt == m.ui.dt
    ensures b.config.nx == cfg.nx && b.config.ny == cfg.ny && b.config.output == cfg.output
    ensures b.config.wavepacket == Wavepacket(m.ui.waveX0, m.ui.waveY0, m.ui.waveSigmaX,
                                              m.ui.waveSigmaY, m.ui.waveKx, m.ui.waveKy)
    ensures m.ui.potentialType == FreeSpaceType ==>
              b.config.potential == PotentialConfig("FreeSpace", []) && b.config.omega == cfg.omega
    ensures m.ui.potentialType == SquareBarrierType ==>
              && b.config.potential.kind == "SquareBarrier"
              && b.config.potential.parameters
                 == [m.ui.barrierHeight, m.ui.barrierWidth, m.ui.barrierX, m.ui.barrierY]
              && b.config.omega == cfg.omega
    ensures m.ui.potentialType == HarmonicOscillatorType ==>
              && b.config.potential == PotentialConfig("HarmonicOscillator", [m.ui.harmonicOmega])
              && b.config.omega == m.ui.harmonicOmega
    ensures !(0 <= m.ui.potentialType <= 2) ==>
              b.config.potential == cfg.potential && b.config.omega == cfg.omega
  {
    var ui := m.ui;
    var withPotential :=
      match SelectedPotential(ui)
      case None => cfg
      case Some(p) =>
        if ui.potentialType == HarmonicOscillatorType then cfg.(potential := p, omega := ui.harmonicOmega)
        else cfg.(potential := p);
    var c := withPotential.(
      dt := ui.dt,
      wavepacket := Wavepacket(ui.waveX0, ui.waveY0, ui.waveSigmaX, ui.waveSigmaY, ui.waveKx, ui.waveKy));
    Built(m.(config := c), c)
  }

  /**
   * The potential the factory builds from the configuration matches the selection:
   * free space, a barrier with the edited values, or an oscillator with the edited
   * frequency (each subject to the factory's clamping).
   */
  lemma UpdateConfigSelectsPotential(m: Panel, cfg: PhysicsConfig, cv: Potentials.Conventions)
    requires cv.Valid() && 0 <= m.ui.potentialType <= 2
    ensures var c := UpdateConfig(m, cfg).config;
            var p := Potentials.Create(c.potential.kind, c.potential.parameters, cv);
            && (m.ui.potentialType == FreeSpaceType ==> p == Potentials.FreeSpace)
            && (m.ui.potentialType == SquareBarrierType ==>
                  p == Potentials.NewSquareBarrier(m.ui.barrierHeight, m.ui.barrierWidth,
                                                   m.ui.barrierX, m.ui.barrierY, cv))
            && (m.ui.potentialType == HarmonicOscillatorType ==>
                  p == Potentials.NewHarmonicOscillator(m.ui.harmonicOmega, cv))
  {
  }

  /**
   * The widget values the panel starts from, copied from its configuration: dt,
   * free space, omega and the wavepacket. The barrier values are not copied; they
   * are taken from `rest`.
   */
  function FromConfig(cfg: PhysicsConfig, rest: UiState): (ui: UiState)
    ensures ui.potentialType == FreeSpaceType
    ensures SelectedPotential(ui) == Some(PotentialConfig(Potentials.FreeSpaceKind, []))
    ensures ui.dt == cfg.dt && ui.harmonicOmega == cfg.omega
    ensures Wavepacket(ui.waveX0, ui.waveY0, ui.waveSigmaX, ui.waveSigmaY, ui.waveKx, ui.waveKy)
            == cfg.wavepacket
    ensures (ui.barrierHeight, ui.barrierWidth, ui.barrierX, ui.barrierY)
            == (rest.barrierHeight, rest.barrierWidth, rest.barrierX, rest.barrierY)
  {
    rest.(dt := cfg.dt, potentialType := FreeSpaceType, harmonicOmega := cfg.omega,
          waveX0 := cfg.wavepacket.x0, waveY0 := cfg.wavepacket.y0,
          waveSigmaX := cfg.wavepacket.sigmaX, waveSigmaY := cfg.wavepacket.sigmaY,
          waveKx := cfg.wavepacket.kx, waveKy := cfg.wavepacket.ky)
  }

  /**
   * Copying a free-space configuration into the widgets and writing the widgets
   * back gives the configuration unchanged.
   */
  lemma ConfigRoundTrip(m: Panel, cfg: PhysicsConfig, rest: UiState)
    requires cfg.potential == PotentialConfig("FreeSpace", [])
    ensures UpdateConfig(m.(ui := FromConfig(cfg, rest)), cfg).config == cfg
  {
  }

  /** The configuration the panel is constructed with. */
  const DefaultConfig := PhysicsConfig(
    512, 512, 0.001, 1.0, PotentialConfig("FreeSpace", []),
    Wavepacket(0.0, 0.0, 0.1, 0.1, 5.0, 0.0), Output(1.0, false))

  /** The default configuration survives the first rebuild from the widgets. */
  lemma DefaultConfigRoundTrip(m: Panel, rest: UiState)
    ensures UpdateConfig(m.(ui := FromConfig(DefaultConfig, rest)), DefaultConfig).config == DefaultConfig
  {
    ConfigRoundTrip(m, DefaultConfig, rest);
  }

  /** Bounds for a directly entered time step. */
  const MinDt := 0.00001
  const MaxDt := 0.01

  /** A typed-in dt is clamped to [MinDt, MaxDt]. */
  function ClampDt(v: real): (r: real)
    ensures MinDt <= r <= MaxDt
    ensures MinDt <= v <= MaxDt ==> r == v
    ensures v < MinDt ==> r == MinDt
    ensures v > MaxDt ==> r == MaxDt
  {
    var upper := if v <= MaxDt then v else MaxDt;
    if MinDt >= upper then MinDt else upper
  }

  /** Clamping twice is clamping once, and clamping keeps the order of inputs. */
  lemma ClampDtIdempotentMonotone(v: real, w: real)
    ensures ClampDt(ClampDt(v)) == ClampDt(v)
    ensures v <= w ==> ClampDt(v) <= ClampDt(w)
  {
  }

  /** Entering a dt value stores its clamped value. */
  function EnterDt(m: Panel, v: real): (r: Panel)
    ensures r.ui.dt == ClampDt(v)
    ensures r == m.(ui := m.ui.(dt := r.ui.dt))
  {
    m.(ui := m.ui.(dt := ClampDt(v)))
  }

  /**
   * Entering a time step twice is entering it once, and re-entering the stored
   * time step leaves the panel as it is whenever that step is already in range.
   */
  lemma EnterDtStable(m: Panel, v: real)
    ensures EnterDt(EnterDt(m, v), v) == EnterDt(m, v)
    ensures MinDt <= m.ui.dt <= MaxDt ==> EnterDt(m, m.ui.dt) == m
  {
  }

  /** UI defaults a newly selected potential type starts from. */
  const DefaultBarrierHeight := 1.0
  const DefaultBarrierWidth := 0.5
  const DefaultBarrierX := 0.0
  const DefaultBarrierY := 0.0
  const DefaultHarmonicOmega := 1.0

  /**
   * Selecting a potential type: the barrier values, or the oscillator frequency,
   * are reset to their defaults; free space and unknown types reset nothing.
   */
  function SelectPotentialType(ui: UiState, t: int): (r: UiState)
    ensures r.potentialType == t
    ensures t == SquareBarrierType ==>
              r == ui.(potentialType := t, barrierHeight := DefaultBarrierHeight,
                       barrierWidth := DefaultBarrierWidth, barrierX := DefaultBarrierX,
                       barrierY := DefaultBarrierY)
    ensures t == HarmonicOscillatorType ==> r == ui.(potentialType := t, harmonicOmega := DefaultHarmonicOmega)
    ensures t != SquareBarrierType && t != HarmonicOscillatorType ==> r == ui.(potentialType := t)
  {
    if t == SquareBarrierType then
      ui.(potentialType := t, barrierHeight := DefaultBarrierHeight, barrierWidth := DefaultBarrierWidth,
          barrierX := DefaultBarrierX, barrierY := DefaultBarrierY)
    else if t == HarmonicOscillatorType then
      ui.(potentialType := t, harmonicOmega := DefaultHarmonicOmega)
    else
      ui.(potentialType := t)
  }

  /**
   * The panel's defaults for a newly selected type build the same potential as the
   * factory's defaults for missing parameters.
   */
  lemma SelectionDefaultsMatchFactory(m: Panel, cfg: PhysicsConfig, t: int, cv: Potentials.Conventions)
    requires cv.Valid() && (t == SquareBarrierType || t == HarmonicOscillatorType)
    ensures var c := UpdateConfig(m.(ui := SelectPotentialType(m.ui, t)), cfg).config;
            Potentials.Create(c.potential.kind, c.potential.parameters, cv)
            == Potentials.Create(c.potential.kind, [], cv)
  {
  }

  // ---------------------------------------------------------------------------
  // The two apply buttons, which drive the engine.
  // ---------------------------------------------------------------------------

  /**
   * "Apply potential changes". With no engine attached nothing happens, not even
   * the rebuild of the configuration. Otherwise: rebuild the configuration from
   * the widgets, reconfigure the engine, then install the potential built from the
   * same configuration. If the engine throws (its plans could not be made) the
   * exception is caught and the potential is not installed.
   */
  function ApplyPotentialChanges(m: Panel, engine: Option<Solver.Engine>, num: Primitives.Numerics,
                                 cv: Potentials.Conventions, plansOk: bool): (x: (Panel, Option<Solver.Engine>))
    requires engine.Some? ==> engine.value.Valid() && m.config.nx > 0 && m.config.ny > 0
    requires num.Valid() && cv.Valid()
    ensures engine.None? ==> x == (m, None)
    ensures engine.Some? ==>
              && x.0 == UpdateConfig(m, m.config).panel
              && x.1.Some? && x.1.value.Valid() && x.1.value.plansReady == plansOk
              && x.1.value.potential
                 == Potentials.Create(x.0.config.potential.kind, x.0.config.potential.parameters, cv)
  {
    match engine
    case None => (m, None)
    case Some(e) =>
      var b := UpdateConfig(m, m.config);
      var reconfigured := Solver.UpdateConfig(e, b.config, num, cv, plansOk);
      if plansOk then
        (b.panel, Some(Solver.SetPotential(reconfigured,
                                           Potentials.Create(b.config.potential.kind, b.config.potential.parameters, cv))))
      else
        (b.panel, Some(reconfigured))
  }

  /** Installing the potential after reconfiguring is redundant: the engine already has it. */
  lemma ApplyPotentialChangesIsReconfigure(m: Panel, e: Solver.Engine, num: Primitives.Numerics,
                                           cv: Potentials.Conventions, plansOk: bool)
    requires e.Valid() && num.Valid() && cv.Valid()
    requires m.config.nx > 0 && m.config.ny > 0
    ensures ApplyPotentialChanges(m, Some(e), num, cv, plansOk).1
            == Some(Solver.UpdateConfig(e, UpdateConfig(m, m.config).config, num, cv, plansOk))
  {
  }

  /**
   * "Apply wavepacket changes". With no engine attached nothing happens.
   * Otherwise: rebuild the configuration from the widgets, then reset the engine.
   * The engine is not given the configuration.
   */
  function ApplyWavepacketChanges(m: Panel, engine: Option<Solver.Engine>, num: Primitives.Numerics)
    : (x: (Panel, Option<Solver.Engine>))
    requires engine.Some? ==> engine.value.Valid()
    requires num.Valid()
    ensures engine.None? ==> x == (m, None)
    ensures engine.Some? ==>
              && x.0 == UpdateConfig(m, m.config).panel
              && x.1.Some? && x.1.value.Valid() && x.1.value.time == 0.0
              && x.1.value.psi == Solver.InitialGrid(engine.value.nx, engine.value.ny, num)
              && x.1 == Some(Solver.Reset(engine.value, num))
  {
    match engine
    case None => (m, None)
    case Some(e) => (UpdateConfig(m, m.config).panel, Some(Solver.Reset(e, num)))
  }

  /** The edited wavepacket never reaches the engine: any two edits give the same engine. */
  lemma WavepacketEditsDoNotReachEngine(m: Panel, ui: UiState, engine: Option<Solver.Engine>,
                                        num: Primitives.Numerics)
    requires engine.Some? ==> engine.value.Valid()
    requires num.Valid()
    ensures ApplyWavepacketChanges(m.(ui := ui), engine, num).1 == ApplyWavepacketChanges(m, engine, num).1
  {
  }
}
