/** The game's resources as mutable state, updated in place frame by frame,
    each system a method that changes only what the system writes. */
module GameApp {
  import opened GameModel
  import opened GameProperties

  class App {
    var phase: GameState
    var next: Option<GameState>
    var launchPower: nat
    var score: nat
    var level: nat
    var playButtonVisible: bool
    var crateVelocity: Option<nat>
    var crateOnCannon: bool

    /** The resources as a value of the pure model. */
    function Snapshot(): World
      reads this
    {
      World(phase, next, launchPower, score, level, playButtonVisible,
            Crate(crateVelocity, crateOnCannon))
    }

    /** The reachable-state invariant of the pure model. */
    predicate Valid()
      reads this
    {
      Consistent(Snapshot())
    }

    /** The resources inserted at startup (`Score(0)`, `Level(1)`, a new
        stopwatch), the default state, the crate spawned on the cannon and
        the Play button spawned on entering `MainMenu`. */
    constructor ()
      ensures phase == MainMenu && next == None
      ensures score == 0 && level == 1 && launchPower == 0
      ensures playButtonVisible
      ensures crateVelocity == None && crateOnCannon
      ensures Snapshot() == Initial()
      ensures Valid()
    {
      phase := MainMenu;
      next := None;
      launchPower := 0;
      score := 0;
      level := 1;
      playButtonVisible := true;
      crateVelocity := None;
      crateOnCannon := true;
      InitialIsConsistent();
    }

    method InteractPlayButton(changed: Option<Interaction>)
      modifies this`playButtonVisible, this`next
      ensures changed == Some(Pressed) ==> !playButtonVisible && next == Some(ReadyToLaunch)
      ensures changed != Some(Pressed) ==> playButtonVisible == old(playButtonVisible) && next == old(next)
      ensures Snapshot() == GameModel.InteractPlayButton(old(Snapshot()), changed)
    {
      if changed == Some(Pressed) {
        playButtonVisible := false;
        next := Some(ReadyToLaunch);
      }
    }

    method StartLaunching(justPressed: bool)
      modifies this`next, this`launchPower
      ensures justPressed ==> next == Some(ChargingLaunch) && launchPower == 0
      ensures !justPressed ==> next == old(next) && launchPower == old(launchPower)
      ensures Snapshot() == GameModel.StartLaunching(old(Snapshot()), justPressed)
    {
      if justPressed {
        next := Some(ChargingLaunch);
        launchPower := 0;
      }
    }

    method UpdateLaunchPower(delta: nat)
      modifies this`next, this`launchPower
      ensures launchPower == old(launchPower) + delta
      ensures next == if ChargeExpired(launchPower) then Some(Launched) else old(next)
      ensures Snapshot() == GameModel.UpdateLaunchPower(old(Snapshot()), delta)
    {
      launchPower := launchPower + delta;
      if ChargeExpired(launchPower) {
        next := Some(Launched);
      }
    }

    method Launch(justReleased: bool)
      modifies this`next
      ensures next == if justReleased then Some(Launched) else old(next)
      ensures Snapshot() == GameModel.Launch(old(Snapshot()), justReleased)
    {
      if justReleased {
        next := Some(Launched);
      }
    }

    method OnEnterPlaying()
      modifies this`score
      ensures score == 0
      ensures Snapshot() == GameModel.OnEnterPlaying(old(Snapshot()))
    {
      score := 0;
    }

    method OnEnterMenu()
      modifies this`playButtonVisible
      ensures playButtonVisible
      ensures Snapshot() == GameModel.OnEnterMenu(old(Snapshot()))
    {
      playButtonVisible := true;
    }

    method OnEnterLaunched()
      modifies this`crateVelocity, this`crateOnCannon
      ensures crateVelocity == Some(FiringPower(launchPower)) && !crateOnCannon
      ensures Snapshot() == GameModel.OnEnterLaunched(old(Snapshot()))
    {
      crateVelocity := Some(FiringPower(launchPower));
      crateOnCannon := false;
    }

    /** Applies the pending next state at the frame boundary. */
    method ApplyStateTransition()
      modifies this
      ensures next == None
      ensures old(next) == None ==> Snapshot() == old(Snapshot())
      ensures old(next).Some? ==> phase == old(next).value
      ensures Snapshot() == GameModel.ApplyStateTransition(old(Snapshot()))
    {
      if next.Some? {
        var entered := next.value;
        next := None;
        if entered != phase {
          var exited := phase;
          phase := entered;
          if exited == MainMenu {
            OnEnterPlaying();
          }
          if entered == MainMenu {
            OnEnterMenu();
          } else if entered == Launched {
            OnEnterLaunched();
          }
        }
      }
    }

    /** One frame: the Update systems, each gated on the current state, then
        the state transition. */
    method Step(input: FrameInput)
      modifies this
      ensures old(Valid()) ==> Valid()
      ensures level == old(level)
      ensures Snapshot() == Frame(old(Snapshot()), input)
    {
      if phase == MainMenu {
        InteractPlayButton(input.playButton);
      }
      if phase == ReadyToLaunch {
        StartLaunching(input.justPressed);
      }
      if phase == ChargingLaunch {
        UpdateLaunchPower(input.delta);
        Launch(input.justReleased);
      }
      ApplyStateTransition();
      if old(Valid()) {
        FrameKeepsConsistent(old(Snapshot()), input);
      }
    }
  }
}
