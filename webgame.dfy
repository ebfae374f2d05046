/**
 * The WebGame loop driver: a fixed-timestep game loop with a Stopped/Running
 * state, the controller it dispatches to, the key and mouse state it records
 * and the image cache it keeps.
 *
 * The host is made explicit: the clock reading is the `now` parameter, the
 * interval timer is the `running` flag, and the controller's callbacks are
 * reported back to the caller (which updates ran, whether draw ran, whether
 * wakeUp is due) instead of being called.
 */
module WebGame {
  import opened Timing

  datatype Option<T> = None | Some(value: T)

  /** The optional callbacks a controller may define; the driver checks each before using it. */
  datatype Capability = WakeUp | Update | Draw | KeyEvent | MouseEvent | MouseMoveEvent

  /** A controller, known to the driver only by the callbacks it offers. */
  datatype Controller = Controller(capabilities: set<Capability>)

  /** The interpolation value a frame hands to draw: a fraction of an update step,
      or `false` when the controller has no update. */
  datatype Alpha = NotApplicable | Fraction(value: real)

  /** Key names and their key codes. */
  const Keys: map<string, int> := map[
    "0" := 48, "1" := 49, "2" := 50, "3" := 51, "4" := 52, "5" := 53, "6" := 54, "7" := 55, "8" := 56, "9" := 57,
    "a" := 65, "b" := 66, "c" := 67, "d" := 68, "e" := 69, "f" := 70, "g" := 71, "h" := 72, "i" := 73, "j" := 74,
    "k" := 75, "l" := 76, "m" := 77, "n" := 78, "o" := 79, "p" := 80, "q" := 81, "r" := 82, "s" := 83, "t" := 84,
    "u" := 85, "v" := 86, "w" := 87, "x" := 88, "y" := 89, "z" := 90,
    "up" := 38, "left" := 37, "down" := 40, "right" := 39, "enter" := 13,
    "shift" := 16, "ctrl" := 17, "alt" := 18, "escape" := 27, "space" := 32
  ]

  /** A loaded image: the handle the cache hands out for a path. */
  class Image {
    const src: string

    constructor (src: string)
      ensures this.src == src
    {
      this.src := src;
    }
  }

  class WebGame {
    var running: bool          // the interval timer is set
    var controller: Option<Controller>
    var frameDelay: real       // target ms between frames
    var updateDelay: real      // target ms between updates
    var lastDelay: int         // measured ms of the last frame
    var frames: nat
    var updates: nat
    var frameTime: int         // timestamp of the start of the current frame
    var accumulator: real      // ms not yet consumed by updates
    var keyStates: map<int, bool>
    var mouseState: bool
    var imageCache: map<string, Image>

    /** The frame delay stays positive, and a key code is only ever recorded as pressed. */
    ghost predicate Valid()
      reads this
    {
      frameDelay > 0.0 && forall code :: code in keyStates ==> keyStates[code]
    }

    constructor ()
      ensures Valid()
      ensures !running && controller == None
      ensures frameDelay == 20.0 && updateDelay == 10.0
      ensures lastDelay == 0 && frames == 0 && updates == 0 && frameTime == 0 && accumulator == 0.0
      ensures keyStates == map[] && !mouseState && imageCache == map[]
    {
      running, controller := false, None;
      frameDelay, updateDelay := 20.0, 10.0;
      lastDelay, frames, updates, frameTime, accumulator := 0, 0, 0, 0, 0.0;
      keyStates, mouseState, imageCache := map[], false, map[];
    }

    /** The current controller offers `cap`. */
    predicate Offers(cap: Capability)
      reads this
    {
      controller.Some? && cap in controller.value.capabilities
    }

    /** Makes `c` the controller; `wokeUp` says that its wakeUp callback is due now. */
    method SetController(c: Option<Controller>) returns (wokeUp: bool)
      modifies this`controller
      ensures controller == c && GetController() == c
      ensures wokeUp <==> c.Some? && WakeUp in c.value.capabilities
      ensures wokeUp <==> Offers(WakeUp)
    {
      controller := c;
      wokeUp := Offers(WakeUp);
    }

    /** The current controller: the one whose callbacks the loop calls. */
    function GetController(): (c: Option<Controller>)
      reads this
      ensures c == controller
      ensures forall cap :: Offers(cap) <==> c.Some? && cap in c.value.capabilities
    {
      controller
    }

    /** The loop's interval timer is set. */
    function IsRunning(): (r: bool)
      reads this
      ensures r <==> running
    {
      running
    }

    /** Starts the loop unless it runs already; a started loop measures its first frame from `now`. */
    method Run(now: int)
      modifies this`running, this`frameTime
      ensures running && IsRunning()
      ensures old(running) ==> frameTime == old(frameTime)
      ensures !old(running) ==> frameTime == now
    {
      if IsRunning() {
        return;
      }
      frameTime := now;
      running := true;
    }

    /** Stops the loop; stopping a stopped loop changes nothing. */
    method Stop()
      modifies this`running
      ensures !running && !IsRunning()
    {
      running := false;
    }

    /** A positive rate sets the frame delay and restarts a running loop; any other rate is ignored. */
    method SetFrameRate(fps: real, now: int)
      requires Valid()
      modifies this`frameDelay, this`running, this`frameTime
      ensures Valid()
      ensures running == old(running)
      ensures fps <= 0.0 ==> frameDelay == old(frameDelay) && frameTime == old(frameTime)
      ensures fps > 0.0 ==> frameDelay == 1000.0 / fps
      ensures fps > 0.0 ==> frameTime == if old(running) then now else old(frameTime)
    {
      if fps <= 0.0 {
        return;
      }
      frameDelay := 1000.0 / fps;
      if IsRunning() {
        Stop();
        Run(now);
      }
    }

    /** Sets the update delay; there is no guard on the rate, and it takes effect at the next frame. */
    method SetUpdateRate(updateRate: real)
      requires updateRate != 0.0
      modifies this`updateDelay
      ensures updateDelay == 1000.0 / updateRate
    {
      updateDelay := 1000.0 / updateRate;
    }

    /**
     * One tick of the loop at time `now`. When the controller has an update,
     * the update loop runs `Accumulate`'s number of steps; `observed` lists the
     * update count each of those update calls sees. `drew` says whether the
     * controller's draw was called.
     */
    method Frame(now: int) returns (alpha: Alpha, observed: seq<nat>, drew: bool)
      requires Valid()
      requires Offers(Update) ==> updateDelay > 0.0
      modifies this`frameTime, this`lastDelay, this`accumulator, this`updates, this`frames
      ensures Valid()
      ensures frameTime == now && lastDelay == now - old(frameTime)
      ensures frames == old(frames) + 1
      ensures drew <==> Offers(Draw)
      ensures Offers(Update) ==>
        var r := Accumulate(old(accumulator), now - old(frameTime), frameDelay, updateDelay);
        && accumulator == r.accumulator
        && updates == old(updates) + r.steps
        && alpha == Fraction(accumulator / updateDelay)
        && |observed| == r.steps
        && (forall i :: 0 <= i < |observed| ==> observed[i] == old(updates) + i)
      ensures Offers(Update) && old(accumulator) >= 0.0 && now >= old(frameTime) ==>
        0.0 <= accumulator < updateDelay && 0.0 <= alpha.value < 1.0
      ensures !Offers(Update) ==>
        accumulator == old(accumulator) && updates == old(updates) && alpha == NotApplicable && observed == []
    {
      var delay := now - frameTime;
      frameTime := now;
      lastDelay := delay;
      alpha, observed := NotApplicable, [];

      if Offers(Update) {
        var clamped := Clamp(delay, frameDelay);
        var dt := updateDelay;
        ghost var r := Accumulate(accumulator, delay, frameDelay, dt);
        accumulator := accumulator + clamped;
        ghost var k: nat := 0;
        StepsTimeIsProduct(r.steps, dt);
        while accumulator >= dt
          invariant frameTime == now && lastDelay == delay && frames == old(frames)
          invariant k <= r.steps
          invariant accumulator == r.accumulator + StepsTime(r.steps - k, dt)
          invariant updates == old(updates) + k
          invariant |observed| == k
          invariant forall i :: 0 <= i < k ==> observed[i] == old(updates) + i
          decreases r.steps - k
        {
          observed := observed + [updates];
          accumulator := accumulator - dt;
          updates := updates + 1;
          k := k + 1;
        }
        if k < r.steps {
          StepsTimeAtLeastOneStep(r.steps - k, dt);
          assert false;
        }
        alpha := Fraction(accumulator / dt);
        if old(accumulator) >= 0.0 && now >= old(frameTime) {
          FractionBelowOne(accumulator, dt);
        }
      }

      drew := Offers(Draw);
      frames := frames + 1;
    }

    /** Records a key press or release, and says whether it goes on to the controller. */
    method HandleKeyEvent(keyCode: int, pressed: bool) returns (forwarded: bool)
      requires Valid()
      modifies this`keyStates
      ensures Valid()
      ensures pressed ==> keyStates == old(keyStates)[keyCode := true]
      ensures !pressed ==> keyStates == old(keyStates) - {keyCode}
      ensures forall name :: name in Keys ==>
        KeyPressed(name) == if Keys[name] == keyCode then pressed else old(KeyPressed(name))
      ensures forwarded <==> Offers(KeyEvent)
    {
      if pressed {
        keyStates := keyStates[keyCode := true];
      } else {
        keyStates := keyStates - {keyCode};
      }
      forwarded := Offers(KeyEvent);
    }

    /** Records the mouse button state, and says whether the event goes on to the controller. */
    method HandleMouseEvent(pressed: bool) returns (forwarded: bool)
      modifies this`mouseState
      ensures mouseState == pressed && MouseDown() == pressed
      ensures forwarded <==> Offers(MouseEvent)
    {
      mouseState := pressed;
      forwarded := Offers(MouseEvent);
    }

    /** The key named `key` is held down; an unknown name is never held down. */
    function KeyPressed(key: string): (down: bool)
      requires Valid()
      reads this
      ensures down <==> key in Keys && Keys[key] in keyStates
    {
      if key in Keys && Keys[key] in keyStates then
        var code := Keys[key];
        assert keyStates[code];
        keyStates[code]
      else
        false
    }

    /** The mouse button is held down, as the last mouse event said. */
    function MouseDown(): (down: bool)
      reads this
      ensures down <==> mouseState
    {
      mouseState
    }

    /** The image for `filePath`: the cached one if there is one, else a new one that is cached. */
    method LoadImage(filePath: string) returns (file: Image)
      modifies this`imageCache
      ensures filePath in old(imageCache) ==> file == old(imageCache)[filePath] && imageCache == old(imageCache)
      ensures filePath !in old(imageCache) ==>
        fresh(file) && file.src == filePath && imageCache == old(imageCache)[filePath := file]
      ensures filePath in imageCache && imageCache[filePath] == file
      ensures imageCache.Keys == old(imageCache.Keys) + {filePath}
    {
      if filePath in imageCache {
        return imageCache[filePath];
      }
      file := new Image(filePath);
      imageCache := imageCache[filePath := file];
    }
  }

  /** The time `m` update steps of `dt` take, one step at a time. */
  function StepsTime(m: nat, dt: real): real
  {
    if m == 0 then 0.0 else StepsTime(m - 1, dt) + dt
  }

  lemma {:induction false} StepsTimeIsProduct(m: nat, dt: real)
    ensures StepsTime(m, dt) == m as real * dt
  {
    if m > 0 {
      StepsTimeIsProduct(m - 1, dt);
      assert m as real * dt == (m - 1) as real * dt + dt;
    }
  }

  lemma {:induction false} StepsTimeAtLeastOneStep(m: nat, dt: real)
    requires m >= 1 && dt > 0.0
    ensures StepsTime(m, dt) >= dt
  {
    if m > 1 {
      StepsTimeAtLeastOneStep(m - 1, dt);
    }
  }

  /** A remainder in [0, dt) is a fraction in [0, 1) of dt. */
  lemma FractionBelowOne(rest: real, dt: real)
    requires dt > 0.0 && 0.0 <= rest < dt
    ensures 0.0 <= rest / dt < 1.0
  {
    ScaledFraction(rest / dt, rest, dt);
  }

  lemma ScaledFraction(q: real, rest: real, dt: real)
    requires dt > 0.0 && 0.0 <= rest < dt && q * dt == rest
    ensures 0.0 <= q < 1.0
  {
  }

  /** Loading a path twice hands out the same image and adds at most the one entry. */
  method LoadImageTwice(game: WebGame, filePath: string) returns (first: Image, second: Image)
    modifies game`imageCache
    ensures first == second
    ensures game.imageCache.Keys == old(game.imageCache.Keys) + {filePath}
  {
    first := game.LoadImage(filePath);
    second := game.LoadImage(filePath);
  }
}
