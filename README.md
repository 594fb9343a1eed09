# Launch state machine of the crate-launching game

This project models the launch part of a small orbital arcade game built on
the Bevy engine. The player presses Play in the main menu and holds the left
mouse button to charge the cannon. Releasing the button fires the crate.
Holding it for more than two seconds fires it automatically.

The game keeps this state in engine resources:
- the current `GameState`: `MainMenu`, `ReadyToLaunch`, `ChargingLaunch` or `Launched`;
- the pending `NextState`;
- the `LaunchPower` stopwatch;
- `Score` and `Level`;
- the Play button's display;
- the current crate's `Velocity` and its parent (the cannon).

Each frame, every Update system runs only in the states named by its
`run_if(in_state(..))`. A requested state change is applied at the frame
boundary, where the `OnExit` and `OnEnter` hooks run.

- `GameModel` (game_model.dfy) gives the state as a `World` value. Each
  system and hook is a function, `Frame` is one frame, `Run` is a sequence
  of frames, and `Consistent` is the invariant of every reachable world.
- `GameApp` (game_app.dfy) is the same state as a class, `App`, whose fields
  its methods update in place. Each method is one system or hook. `Step`
  runs the gated systems and then the state transition. Every method's
  contract ties its new state to the matching `GameModel` function.
- `GameProperties` (game_properties.dfy) proves what one frame does in each
  state and what runs of frames do. It covers the menu gate, the score
  reset, the stopwatch reset, accumulation and auto-fire, launching, the
  absorbing `Launched` state and the constant level.

Time is counted in whole nanoseconds, as in the engine's `Duration`. So the
stopwatch test `elapsed_secs() > 2.0` becomes `power > 2_000_000_000`. Of
the crate's `Velocity` the model keeps only the firing power that
`on_enter_launched` computes (src/main.rs:485): the stopwatch reading times
the launch power scale, which is 1. The launch direction it multiplies is
not modelled.

Three facts about the code shape the model:
- Nothing in src/main.rs increases `Score`. `on_enter_playing` only resets
  it (src/main.rs:659), so the score of every reachable world is 0.
- `on_enter_launched` calls `single_mut()`, which panics unless there is
  exactly one current crate. The crate is spawned once in `setup` and never
  despawned, so the model always has exactly one crate.
- The stopwatch is reset only in `start_launching` (src/main.rs:435), never
  at launch.

## Model

| member | source | states |
|---|---|---|
| `GameApp.App.constructor` | src/main.rs:61-64 | The game starts in `MainMenu` with score 0, level 1, a zeroed stopwatch, the Play button shown, and the crate on the cannon with no velocity; the reachable-state invariant `Valid` holds |
| `GameApp.App.InteractPlayButton` | src/main.rs:610-623 | A `Pressed` Play button hides itself and requests `ReadyToLaunch`; any other interaction, or none, changes nothing |
| `GameApp.App.StartLaunching` | src/main.rs:425-437 | A just-press requests `ChargingLaunch` and resets the stopwatch to 0; without one, the stopwatch and the request are unchanged |
| `GameApp.App.UpdateLaunchPower` | src/main.rs:439-450 | The stopwatch grows by exactly the frame's delta, and `Launched` is requested exactly when the new reading exceeds 2 s |
| `GameApp.App.Launch` | src/main.rs:500-510 | A just-release requests `Launched`; otherwise the request is unchanged |
| `GameApp.App.OnEnterLaunched` | src/main.rs:460-497 | The crate gets a `Velocity`, scaled by the firing power (stopwatch reading × 1), and is detached from the cannon |
| `GameApp.App.OnEnterPlaying` | src/main.rs:650-659 | The score is reset to 0 |
| `GameApp.App.OnEnterMenu` | src/main.rs:634-643 | The Play button is spawned |
| `GameApp.App.ApplyStateTransition` | src/main.rs:69-77 | The pending state is always cleared; when it differs from the current state, the game switches to it and runs the exit hooks, then the enter hooks |
| `GameApp.App.Step` | src/main.rs:96-111 | One frame runs only the systems gated on the current state, then applies the transition; the level is unchanged and the reachable-state invariant `Valid` is kept |
| `GameProperties.InitialIsConsistent` | src/main.rs:119-126 | The default state `MainMenu`, with score 0, level 1 and a zero stopwatch, satisfies the reachable-state invariant |
| `GameProperties.MenuFrame` | src/main.rs:104-107 | In the menu, the state becomes `ReadyToLaunch` if and only if the Play button is `Pressed`; that frame also resets the score and hides the button, and any other frame changes nothing |
| `GameProperties.LeavingMenuResetsScore` | src/main.rs:74-77 | Any frame that leaves `MainMenu` leaves the score at 0, whatever the score was |
| `GameProperties.ReadyFrame` | src/main.rs:96-99 | In `ReadyToLaunch`, the next state is `ChargingLaunch` if and only if the button was just pressed; that frame zeroes the stopwatch, and any other frame changes nothing |
| `GameProperties.PowerAdvancesOnlyWhileCharging` | src/main.rs:100-103 | While charging, the stopwatch advances by exactly the frame delta; in every other state it never advances and is reset only by the press that starts charging |
| `GameProperties.ChargingFrame` | src/main.rs:446-449 | While charging, the crate launches if and only if the button is released or the charge passes 2 s; the firing power equals the total charge, above 2 s on auto-fire; otherwise only the stopwatch moves |
| `GameProperties.LaunchOrderIrrelevant` | src/main.rs:100-103 | The two unordered charging systems give the same world in either order |
| `GameProperties.LaunchedIsAbsorbing` | src/main.rs:69-111 | No registered system acts in `Launched`, so a frame there changes nothing |
| `GameProperties.FrameFollowsPath` | src/main.rs:96-111 | A frame either keeps the state or advances it one step along MainMenu, ReadyToLaunch, ChargingLaunch, Launched |
| `GameProperties.FrameKeepsLevel` | src/main.rs:62 | No frame changes the level |
| `GameProperties.FrameKeepsConsistent` | src/main.rs:69-111 | A frame preserves the invariant. The crate has a velocity and is off the cannon exactly in `Launched`. The stopwatch is 0 before charging and at most 2 s while charging. The score is 0 |
| `GameProperties.RunKeepsConsistent` | src/main.rs:69-111 | Any run of frames preserves the invariant |
| `GameProperties.RunKeepsLevel` | src/main.rs:62 | Any run of frames keeps the level |
| `GameProperties.ReachableIsConsistent` | src/main.rs:61-64 | Every world reached from the start is consistent and at level 1, so no velocity or gravity integration acts on the crate before it is launched |
| `GameProperties.LaunchedStaysLaunched` | src/main.rs:96-111 | Once launched, no run of frames changes anything |
| `GameProperties.ChargeAccumulates` | src/main.rs:439-444 | Frames without a release, which keep the charge at or below 2 s, add their deltas to the stopwatch and change nothing else |
| `GameProperties.AutoFire` | src/main.rs:446-449 | Charging never stalls: once the frame deltas exceed the remaining charge, the crate has launched, with or without a release |
| `GameProperties.LongerChargeFiresHarder` | src/main.rs:439-510 | Of two whole shots from the start of the game, the one whose button was held longer while charging, counting the release frame, is fired with strictly more power |
| `GameProperties.FullShot` | src/main.rs:425-510 | Play, press, hold, release: the crate launches from the cannon with a firing power equal to the time held while charging, counting the release frame, and the level stays 1 |

## Left out

- Gravity and velocity integration (`apply_gravity`, `apply_velocity`) are f32 vector numerics and are not modelled. The model keeps only whether the crate has a velocity, which is what those systems select crates by.
- The launch direction (the normalized cannon-to-planet vector) and the crate's rotation and translation at launch are float geometry on engine transforms. Only the firing power and the detach from the cannon are modelled.
- `GameModel.FiringPower`: the crate's actual speed is this power times the length of the xy part of `normalize(cannon - earth)`, which is at most 1 and below 1 while the cannon and the earth differ in z. The f32 rounding of the power is not modelled either.
- Cannon aiming (`update_cannon_transform`) reads the window cursor and uses float trigonometry. It does not affect the state machine. Before launch the crate, a child of the cannon, still moves with it, and `rotate_crates` spins every crate. The model only says that no velocity or gravity integration acts on the crate before launch.
- The spin systems (`spin_earth`, `spin_debris`, `spin_crates`, `rotate_crates`) are cosmetic.
- `setup` loads assets and spawns the scene. Its effect on the model is the crate spawned on the cannon, which is part of the initial world.
- Sounds are left out as I/O: the charge and fire sounds in `on_enter_charging` and `on_enter_launched`, and the music volumes in `on_enter_menu` and `on_enter_playing`.
- UI text and the score text display are left out. `update_music_speed` and `on_exit_playing` are not registered in the app. `exit_on_esc` and `is_desktop` are platform and I/O queries.
- The `GameTime` stopwatch (`while_playing`) does not influence any state.
- The shader materials and the asset-handle wrapper in src/utils.rs contain no logic.
- Collision, debris pickup and level progression are not part of this model. They are not in src/main.rs. The level is never changed by the code that is modelled.
- `GameModel.ChargeExpired`: the code compares the f32 value `elapsed_secs()` with 2.0. Float rounding makes readings just above 2 s (up to about 120 ns above) equal 2.0, so they do not yet fire. The model uses the exact nanosecond comparison.
- The stopwatch's `Duration` addition panics on overflow, beyond about 2^64 seconds. The model counts with unbounded naturals.
- The engine applies a requested state at the start of the next frame, before that frame's Update systems. The model applies it at the end of the requesting frame. The sequence of effects is the same.
- `interact_play_button` looks only at the first Play button whose interaction changed. The model has a single Play button. `on_enter_menu` would spawn another button on re-entering the menu, which no modelled transition does.
- The panic of `on_enter_launched` when there is not exactly one current crate is not modelled, because the crate always exists (see above).
