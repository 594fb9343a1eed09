/** The launch state machine of the game, as values.

    The game keeps its state in engine resources: the current `GameState`,
    the pending `NextState<GameState>`, the `LaunchPower` stopwatch, `Score`
    and `Level`, plus the Play button's style and the current crate's
    components. Each frame the Update systems run, each one only in the
    phases its `run_if(in_state(..))` names; a requested phase change is
    applied afterwards, at the frame boundary, running the OnExit and
    OnEnter hooks. `Frame` is one such frame; `Run` is a sequence of them. */
module GameModel {

  datatype Option<T> = None | Some(value: T)

  /** The `GameState` states; `MainMenu` is the default one. */
  datatype GameState = MainMenu | ReadyToLaunch | ChargingLaunch | Launched

  /** The engine's UI `Interaction`; `NoInteraction` is its `None` variant. */
  datatype Interaction = Pressed | Hovered | NoInteraction

  /** What the engine hands the Update systems in one frame:
      - playButton: the Play button's interaction when it changed this
        frame (the `Changed<Interaction>` filter), `None` otherwise;
      - justPressed, justReleased: edges of the left mouse button;
      - delta: the frame's `Time::delta()`, in nanoseconds. */
  datatype FrameInput = FrameInput(
    playButton: Option<Interaction>,
    justPressed: bool,
    justReleased: bool,
    delta: nat)

  /** The current crate. `velocity` is `Some(p)` once the crate carries a
      `Velocity` component, where `p` is the firing power (in nanoseconds)
      that scales the launch direction to give that velocity; the direction
      itself is not modelled. `onCannon` says whether the crate is still a
      child of the cannon. */
  datatype Crate = Crate(velocity: Option<nat>, onCannon: bool)

  /** The resources and components the launch systems read and write. */
  datatype World = World(
    phase: GameState,          // State<GameState>
    next: Option<GameState>,   // NextState<GameState>, taken at the frame boundary
    power: nat,                // LaunchPower stopwatch, elapsed nanoseconds
    score: nat,                // Score
    level: nat,                // Level
    playButtonVisible: bool,   // the Play button is spawned and displayed
    crate: Crate)

  const NanosPerSecond: nat := 1_000_000_000

  /** Charging ends by itself once the stopwatch reads more than 2.0 s. */
  const MaxChargeNanos: nat := 2 * NanosPerSecond

  /** The factor applied to the stopwatch reading to get the firing power. */
  const LaunchPowerScale: nat := 1

  predicate ChargeExpired(power: nat) {
    power > MaxChargeNanos
  }

  /** The `power` on_enter_launched computes from the stopwatch reading. */
  function FiringPower(power: nat): nat {
    power * LaunchPowerScale
  }

  /** The state the game is in when the first Update runs: the Startup
      systems spawned the crate on the cannon, and entering the default
      state `MainMenu` spawned the Play button. */
  function Initial(): World {
    World(MainMenu, None, 0, 0, 1, true, Crate(None, true))
  }

  // ---- Update systems -----------------------------------------------------

  /** interact_play_button: a Pressed Play button hides itself and requests
      `ReadyToLaunch`; any other interaction, or none, does nothing. */
  function InteractPlayButton(w: World, changed: Option<Interaction>): World {
    if changed == Some(Pressed) then
      w.(playButtonVisible := false, next := Some(ReadyToLaunch))
    else
      w
  }

  /** start_launching: a just-pressed left button requests `ChargingLaunch`
      and resets the stopwatch. */
  function StartLaunching(w: World, justPressed: bool): World {
    if justPressed then w.(next := Some(ChargingLaunch), power := 0) else w
  }

  /** update_launch_power: ticks the stopwatch by the frame's delta and
      requests `Launched` once it reads more than the maximum charge. */
  function UpdateLaunchPower(w: World, delta: nat): World {
    var ticked := w.(power := w.power + delta);
    if ChargeExpired(ticked.power) then ticked.(next := Some(Launched)) else ticked
  }

  /** launch: a just-released left button requests `Launched`. */
  function Launch(w: World, justReleased: bool): World {
    if justReleased then w.(next := Some(Launched)) else w
  }

  /** The gated part of the Update schedule: each system runs only in the
      state its `run_if(in_state(..))` names. `update_launch_power` and
      `launch` carry no ordering constraint; `LaunchOrderIrrelevant` shows
      that the order chosen here does not matter. */
  function RunUpdate(w: World, input: FrameInput): World {
    match w.phase
    case MainMenu => InteractPlayButton(w, input.playButton)
    case ReadyToLaunch => StartLaunching(w, input.justPressed)
    case ChargingLaunch => Launch(UpdateLaunchPower(w, input.delta), input.justReleased)
    case Launched => w
  }

  // ---- State hooks --------------------------------------------------------

  /** on_enter_menu: spawns the Play button. */
  function OnEnterMenu(w: World): World {
    w.(playButtonVisible := true)
  }

  /** on_enter_playing, registered on leaving `MainMenu` together with the
      empty on_exit_menu: resets the score. */
  function OnEnterPlaying(w: World): World {
    w.(score := 0)
  }

  /** on_enter_launched: gives the current crate a velocity scaled by the
      firing power (the stopwatch reading times the launch power scale), and
      detaches it from the cannon. */
  function OnEnterLaunched(w: World): World {
    w.(crate := Crate(Some(FiringPower(w.power)), false))
  }

  function OnExit(exited: GameState, w: World): World {
    if exited == MainMenu then OnEnterPlaying(w) else w
  }

  /** on_enter_charging only starts a sound, so `ChargingLaunch` has no
      hook here. */
  function OnEnter(entered: GameState, w: World): World {
    match entered
    case MainMenu => OnEnterMenu(w)
    case Launched => OnEnterLaunched(w)
    case _ => w
  }

  /** Takes the pending next state; when it differs from the current one,
      switches to it and runs the exit hooks of the old state, then the
      enter hooks of the new one. */
  function ApplyStateTransition(w: World): World {
    match w.next
    case None => w
    case Some(entered) =>
      var taken := w.(next := None);
      if entered == w.phase then taken
      else OnEnter(entered, OnExit(w.phase, taken.(phase := entered)))
  }

  /** One frame: the gated Update systems, then the state transition. */
  function Frame(w: World, input: FrameInput): World {
    ApplyStateTransition(RunUpdate(w, input))
  }

  /** The frames of `inputs`, one after another. */
  function Run(w: World, inputs: seq<FrameInput>): World
    decreases |inputs|
  {
    if inputs == [] then w else Run(Frame(w, inputs[0]), inputs[1..])
  }

  /** The sum of the frame deltas of `inputs`. */
  function TotalDelta(inputs: seq<FrameInput>): nat
    decreases |inputs|
  {
    if inputs == [] then 0 else inputs[0].delta + TotalDelta(inputs[1..])
  }

  /** No frame of `inputs` releases the left button. */
  predicate NoRelease(inputs: seq<FrameInput>) {
    forall i :: 0 <= i < |inputs| ==> !inputs[i].justReleased
  }

  /** What holds of every world reachable from `Initial` at a frame
      boundary. */
  predicate Consistent(w: World) {
    && w.next == None
    && w.score == 0
    && (w.playButtonVisible <==> w.phase == MainMenu)
    && (w.crate.onCannon <==> w.phase != Launched)
    && (w.crate.velocity.Some? <==> w.phase == Launched)
    && (w.phase == MainMenu || w.phase == ReadyToLaunch ==> w.power == 0)
    && (w.phase == ChargingLaunch ==> !ChargeExpired(w.power))
    && (w.phase == Launched ==> w.crate.velocity == Some(FiringPower(w.power)))
  }
}
