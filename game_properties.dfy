/** What one frame, and any run of frames, of the launch state machine does. */
module GameProperties {
  import opened GameModel

  /** The position of a state on the path MainMenu, ReadyToLaunch,
      ChargingLaunch, Launched. */
  function Rank(s: GameState): nat {
    match s
    case MainMenu => 0
    case ReadyToLaunch => 1
    case ChargingLaunch => 2
    case Launched => 3
  }

  // ---- One frame ----------------------------------------------------------

  /** The game starts in the menu, with score 0, level 1, an unread
      stopwatch and the crate resting on the cannon. */
  lemma InitialIsConsistent()
    ensures Consistent(Initial())
    ensures Initial().phase == MainMenu && Initial().next == None
    ensures Initial().score == 0 && Initial().level == 1 && Initial().power == 0
  {
  }

  /** In the menu only a Pressed Play button changes anything: it hides the
      button, moves to ReadyToLaunch and resets the score. */
  lemma MenuFrame(w: World, input: FrameInput)
    requires w.phase == MainMenu && w.next == None
    ensures Frame(w, input).phase == ReadyToLaunch <==> input.playButton == Some(Pressed)
    ensures input.playButton == Some(Pressed) ==>
      Frame(w, input) == w.(phase := ReadyToLaunch, score := 0, playButtonVisible := false)
    ensures input.playButton != Some(Pressed) ==> Frame(w, input) == w
  {
  }

  /** Whatever the pending state, a frame that leaves the menu resets the
      score. */
  lemma LeavingMenuResetsScore(w: World, input: FrameInput)
    requires w.phase == MainMenu && Frame(w, input).phase != MainMenu
    ensures Frame(w, input).score == 0
  {
  }

  /** Ready to launch, a just-press starts charging from a reset stopwatch;
      otherwise nothing changes. */
  lemma ReadyFrame(w: World, input: FrameInput)
    requires w.phase == ReadyToLaunch && w.next == None
    ensures Frame(w, input).phase == ChargingLaunch <==> input.justPressed
    ensures input.justPressed ==> Frame(w, input) == w.(phase := ChargingLaunch, power := 0)
    ensures !input.justPressed ==> Frame(w, input) == w
  {
  }

  /** The stopwatch advances by exactly the frame's delta while charging and
      never advances otherwise; outside charging it is only ever reset, by
      the just-press that starts charging. */
  lemma PowerAdvancesOnlyWhileCharging(w: World, input: FrameInput)
    requires w.next == None
    ensures w.phase == ChargingLaunch ==> Frame(w, input).power == w.power + input.delta
    ensures w.phase != ChargingLaunch ==>
      Frame(w, input).power ==
        if w.phase == ReadyToLaunch && input.justPressed then 0 else w.power
  {
  }

  /** While charging, the crate is launched exactly when the button is
      released or the stopwatch passes the maximum charge; it is fired with
      the power of the whole charge time, which exceeds the maximum charge
      when it fired by itself. Otherwise the stopwatch just advances. */
  lemma ChargingFrame(w: World, input: FrameInput)
    requires w.phase == ChargingLaunch && w.next == None
    ensures Frame(w, input).phase == Launched <==>
      input.justReleased || ChargeExpired(w.power + input.delta)
    ensures Frame(w, input).phase != Launched ==>
      Frame(w, input) == w.(power := w.power + input.delta)
    ensures Frame(w, input).phase == Launched ==>
      && Frame(w, input).power == w.power + input.delta
      && Frame(w, input).crate == Crate(Some(FiringPower(w.power + input.delta)), false)
    ensures Frame(w, input).phase == Launched && !input.justReleased ==>
      Frame(w, input).crate.velocity.value > MaxChargeNanos
  {
  }

  /** update_launch_power and launch may run in either order within a frame
      and leave the same world. */
  lemma LaunchOrderIrrelevant(w: World, delta: nat, justReleased: bool)
    ensures Launch(UpdateLaunchPower(w, delta), justReleased)
         == UpdateLaunchPower(Launch(w, justReleased), delta)
  {
  }

  /** No system runs once launched, so nothing changes any more. */
  lemma LaunchedIsAbsorbing(w: World, input: FrameInput)
    requires w.phase == Launched && w.next == None
    ensures Frame(w, input) == w
  {
  }

  /** A frame keeps the state or moves it one step along the path
      MainMenu, ReadyToLaunch, ChargingLaunch, Launched. */
  lemma FrameFollowsPath(w: World, input: FrameInput)
    requires w.next == None
    ensures Rank(Frame(w, input).phase) == Rank(w.phase)
         || Rank(Frame(w, input).phase) == Rank(w.phase) + 1
  {
  }

  /** No system writes the level. */
  lemma FrameKeepsLevel(w: World, input: FrameInput)
    ensures Frame(w, input).level == w.level
  {
  }

  lemma FrameKeepsConsistent(w: World, input: FrameInput)
    requires Consistent(w)
    ensures Consistent(Frame(w, input))
  {
  }

  // ---- Runs of frames ----------------------------------------------------

  lemma {:induction false} RunAppend(w: World, a: seq<FrameInput>, b: seq<FrameInput>)
    ensures Run(w, a + b) == Run(Run(w, a), b)
    decreases |a|
  {
    if a != [] {
      assert (a + b)[0] == a[0];
      assert (a + b)[1..] == a[1..] + b;
      RunAppend(Frame(w, a[0]), a[1..], b);
    } else {
      assert a + b == b;
    }
  }

  lemma {:induction false} RunKeepsConsistent(w: World, inputs: seq<FrameInput>)
    requires Consistent(w)
    ensures Consistent(Run(w, inputs))
    decreases |inputs|
  {
    if inputs != [] {
      FrameKeepsConsistent(w, inputs[0]);
      RunKeepsConsistent(Frame(w, inputs[0]), inputs[1..]);
    }
  }

  lemma {:induction false} RunKeepsLevel(w: World, inputs: seq<FrameInput>)
    ensures Run(w, inputs).level == w.level
    decreases |inputs|
  {
    if inputs != [] {
      FrameKeepsLevel(w, inputs[0]);
      RunKeepsLevel(Frame(w, inputs[0]), inputs[1..]);
    }
  }

  /** Every world the game reaches is consistent and still at level 1: in
      particular the crate has no velocity, so no velocity or gravity
      integration acts on it, until the state is Launched, and the score is never above 0. */
  lemma ReachableIsConsistent(inputs: seq<FrameInput>)
    ensures Consistent(Run(Initial(), inputs))
    ensures Run(Initial(), inputs).level == 1
  {
    InitialIsConsistent();
    RunKeepsConsistent(Initial(), inputs);
    RunKeepsLevel(Initial(), inputs);
  }

  lemma {:induction false} LaunchedStaysLaunched(w: World, inputs: seq<FrameInput>)
    requires w.phase == Launched && w.next == None
    ensures Run(w, inputs) == w
    decreases |inputs|
  {
    if inputs != [] {
      LaunchedIsAbsorbing(w, inputs[0]);
      LaunchedStaysLaunched(w, inputs[1..]);
    }
  }

  /** Held without release and below the maximum charge, the stopwatch sums
      the frame deltas and nothing else changes. */
  lemma {:induction false} ChargeAccumulates(w: World, inputs: seq<FrameInput>)
    requires w.phase == ChargingLaunch && w.next == None
    requires NoRelease(inputs)
    requires !ChargeExpired(w.power + TotalDelta(inputs))
    ensures Run(w, inputs) == w.(power := w.power + TotalDelta(inputs))
    decreases |inputs|
  {
    if inputs != [] {
      var w' := Frame(w, inputs[0]);
      assert !inputs[0].justReleased;
      ChargingFrame(w, inputs[0]);
      assert w' == w.(power := w.power + inputs[0].delta);
      assert NoRelease(inputs[1..]) by {
        forall i | 0 <= i < |inputs[1..]| ensures !inputs[1..][i].justReleased {
          assert inputs[1..][i] == inputs[i + 1];
        }
      }
      ChargeAccumulates(w', inputs[1..]);
    }
  }

  /** Charging never stalls: once the frames have supplied more than the
      remaining charge time, the crate has been launched, released or not. */
  lemma {:induction false} AutoFire(w: World, inputs: seq<FrameInput>)
    requires w.phase == ChargingLaunch && w.next == None && !ChargeExpired(w.power)
    requires ChargeExpired(w.power + TotalDelta(inputs))
    ensures Run(w, inputs).phase == Launched
    decreases |inputs|
  {
    var w' := Frame(w, inputs[0]);
    ChargingFrame(w, inputs[0]);
    if w'.phase == Launched {
      LaunchedStaysLaunched(w', inputs[1..]);
    } else {
      AutoFire(w', inputs[1..]);
    }
  }

  /** A whole shot from the start of the game: Play, press, hold, release.
      The crate leaves the cannon with the firing power of the total time
      the button was held during charging, counting the release frame. */
  lemma FullShot(play: FrameInput, press: FrameInput, holds: seq<FrameInput>, release: FrameInput)
    requires play.playButton == Some(Pressed)
    requires press.justPressed
    requires NoRelease(holds) && !ChargeExpired(TotalDelta(holds))
    requires release.justReleased
    ensures Run(Initial(), [play, press] + holds + [release]).phase == Launched
    ensures Run(Initial(), [play, press] + holds + [release]).crate
         == Crate(Some(FiringPower(TotalDelta(holds) + release.delta)), false)
    ensures Run(Initial(), [play, press] + holds + [release]).level == 1
  {
    var w0 := Initial();
    var w1 := Frame(w0, play);
    MenuFrame(w0, play);
    var w2 := Frame(w1, press);
    ReadyFrame(w1, press);
    assert w2.phase == ChargingLaunch && w2.power == 0;
    assert Run(w0, [play, press]) == w2 by {
      assert [play, press][1..] == [press];
      assert [press][1..] == [];
      assert Run(w1, [press]) == Run(w2, []);
    }
    ChargeAccumulates(w2, holds);
    var w3 := Run(w2, holds);
    ChargingFrame(w3, release);
    assert Run(w3, [release]) == Frame(w3, release) by {
      assert [release][1..] == [];
    }
    RunAppend(w0, [play, press], holds);
    RunAppend(w0, [play, press] + holds, [release]);
  }

  /** Holding longer fires harder: of two whole shots that differ only in
      how long the button was held while charging, the longer one is fired
      with strictly more power. */
  lemma LongerChargeFiresHarder(play: FrameInput, press: FrameInput,
                                h1: seq<FrameInput>, r1: FrameInput,
                                h2: seq<FrameInput>, r2: FrameInput)
    requires play.playButton == Some(Pressed) && press.justPressed
    requires NoRelease(h1) && !ChargeExpired(TotalDelta(h1)) && r1.justReleased
    requires NoRelease(h2) && !ChargeExpired(TotalDelta(h2)) && r2.justReleased
    requires TotalDelta(h1) + r1.delta < TotalDelta(h2) + r2.delta
    ensures Run(Initial(), [play, press] + h1 + [r1]).crate.velocity.Some?
    ensures Run(Initial(), [play, press] + h2 + [r2]).crate.velocity.Some?
    ensures Run(Initial(), [play, press] + h1 + [r1]).crate.velocity.value
          < Run(Initial(), [play, press] + h2 + [r2]).crate.velocity.value
  {
    FullShot(play, press, h1, r1);
    FullShot(play, press, h2, r2);
  }
}
