/**
 * The character's state machine: six states that all carry the same context
 * (animation frame, position, velocity), events that move between them, and
 * the one physics step every `Update` is built on. Every operation takes a
 * state and returns a new one.
 */
module RedHatBoyStates {

  import opened Engine

  const CANVAS_HEIGHT: int := 600
  const FLOOR: int := 479
  const STARTING_POINT: int := -20
  const IDLE_FRAMES: nat := 29
  const RUNNING_FRAMES: nat := 23
  const SLIDING_FRAMES: nat := 14
  const JUMPING_FRAMES: nat := 35
  const FALLING_FRAMES: nat := 29
  const RUNNING_SPEED: int := 4
  const JUMP_SPEED: int := -25
  const GRAVITY: int := 1
  const PLAYER_HEIGHT: int := CANVAS_HEIGHT - FLOOR
  const FALLING_TERMINAL_SPEED: int := 20

  const IDLE_FRAME_NAME: string := "Idle"
  const RUN_FRAME_NAME: string := "Run"
  const SLIDING_FRAME_NAME: string := "Slide"
  const JUMPING_FRAME_NAME: string := "Jump"
  const FALLING_FRAME_NAME: string := "Dead"

  /** The payload every state carries. The audio handles are not modelled. */
  datatype Context = Context(frame: nat, position: Point, velocity: Point) {

    /**
     * One tick of physics: gravity up to the terminal speed, the animation
     * frame counting up to `frameCount` and then back to 0, and the vertical
     * position advanced by the new speed but never below the floor.
     */
    function Update(frameCount: nat): (r: Context)
      ensures r.velocity.y == if velocity.y + GRAVITY < FALLING_TERMINAL_SPEED
                              then velocity.y + GRAVITY else FALLING_TERMINAL_SPEED
      ensures r.velocity.y <= FALLING_TERMINAL_SPEED
      ensures r.frame <= frameCount
      ensures r.frame == if frame < frameCount then frame + 1 else 0
      ensures r.position.y <= FLOOR
      ensures r.position.y == if position.y + r.velocity.y > FLOOR then FLOOR
                              else position.y + r.velocity.y
      ensures r.position.x == position.x && r.velocity.x == velocity.x
    {
      var vy := if velocity.y + GRAVITY >= FALLING_TERMINAL_SPEED
                then FALLING_TERMINAL_SPEED else velocity.y + GRAVITY;
      var f := if frame < frameCount then frame + 1 else 0;
      var y := if position.y + vy > FLOOR then FLOOR else position.y + vy;
      Context(f, Point(position.x, y), Point(velocity.x, vy))
    }

    /** Restarts the animation; nothing else changes. */
    function ResetFrame(): (r: Context)
      ensures r.frame == 0 && r.position == position && r.velocity == velocity
    {
      this.(frame := 0)
    }

    /** Adds the running speed to the horizontal speed; nothing else changes. */
    function RunRight(): (r: Context)
      ensures r.velocity.x == velocity.x + RUNNING_SPEED
      ensures r.velocity.y == velocity.y && r.frame == frame && r.position == position
    {
      this.(velocity := Point(velocity.x + RUNNING_SPEED, velocity.y))
    }

    /** Sets the vertical speed; nothing else changes. */
    function SetVerticalVelocity(y: int): (r: Context)
      ensures r.velocity.y == y
      ensures r.velocity.x == velocity.x && r.frame == frame && r.position == position
    {
      this.(velocity := Point(velocity.x, y))
    }

    /** Stops horizontal motion; nothing else changes. */
    function Stop(): (r: Context)
      ensures r.velocity.x == 0
      ensures r.velocity.y == velocity.y && r.frame == frame && r.position == position
    {
      this.(velocity := Point(0, velocity.y))
    }

    /** Stands the character on a surface whose top is at `height`. */
    function SetOn(height: int): (r: Context)
      ensures r.position.y + PLAYER_HEIGHT == height && r.velocity.y == 0
      ensures r.frame == frame && r.position.x == position.x && r.velocity.x == velocity.x
    {
      this.(position := Point(position.x, height - PLAYER_HEIGHT), velocity := Point(velocity.x, 0))
    }

    /** Pins the animation at frame `f`; nothing else changes. */
    function FixFrame(f: nat): (r: Context)
      ensures r.frame == f && r.position == position && r.velocity == velocity
    {
      this.(frame := f)
    }
  }

  /** The start of a session: idle on the floor at the starting point, not moving. */
  const Start := Idle(Context(0, Point(STARTING_POINT, FLOOR), Point(0, 0)))

  datatype StateMachine =
    | Idle(context: Context)
    | Running(context: Context)
    | Sliding(context: Context)
    | Jumping(context: Context)
    | Falling(context: Context)
    | KnockedOut(context: Context)

  datatype Event = Run | Slide | Update | Jump | KnockOut | Land(height: int)

  /** The animation whose frames are shown in this state. */
  function AnimationName(s: StateMachine): (r: string)
    ensures r == IDLE_FRAME_NAME <==> s.Idle?
    ensures r == RUN_FRAME_NAME <==> s.Running?
    ensures r == SLIDING_FRAME_NAME <==> s.Sliding?
    ensures r == JUMPING_FRAME_NAME <==> s.Jumping?
    ensures r == FALLING_FRAME_NAME <==> s.Falling? || s.KnockedOut?
  {
    match s
    case Idle(_) => IDLE_FRAME_NAME
    case Running(_) => RUN_FRAME_NAME
    case Sliding(_) => SLIDING_FRAME_NAME
    case Jumping(_) => JUMPING_FRAME_NAME
    case Falling(_) => FALLING_FRAME_NAME
    case KnockedOut(_) => FALLING_FRAME_NAME
  }

  // ---------------------------------------------------------------------------
  // Per-state updates with their completion rules
  // ---------------------------------------------------------------------------

  /** A slide ends, back to running from frame 0, once the frame counter reaches `SLIDING_FRAMES`. */
  function SlidingUpdate(c: Context): (r: StateMachine)
    ensures r.Sliding? || r.Running?
    ensures r.Running? <==> c.Update(SLIDING_FRAMES).frame >= SLIDING_FRAMES
    ensures r.Sliding? ==> r.context == c.Update(SLIDING_FRAMES)
    ensures r.Running? ==> r.context == c.Update(SLIDING_FRAMES).(frame := 0)
  {
    var next := c.Update(SLIDING_FRAMES);
    if next.frame >= SLIDING_FRAMES then Running(next.ResetFrame()) else Sliding(next)
  }

  /** A jump lands, running from frame 0 on the floor, once the character comes down to the floor. */
  function JumpingUpdate(c: Context): (r: StateMachine)
    ensures r.Jumping? || r.Running?
    ensures r.Running? <==> c.Update(JUMPING_FRAMES).position.y >= FLOOR
    ensures r.Jumping? ==> r.context == c.Update(JUMPING_FRAMES)
    ensures r.Running? ==> r.context.frame == 0 && r.context.position.y == FLOOR && r.context.velocity.y == 0
    ensures r.context.position.x == c.position.x && r.context.velocity.x == c.velocity.x
  {
    var next := c.Update(JUMPING_FRAMES);
    if next.position.y >= FLOOR then JumpingLandOn(next, CANVAS_HEIGHT) else Jumping(next)
  }

  /** Landing from a jump: running again from frame 0, standing on the surface. */
  function JumpingLandOn(c: Context, height: int): (r: StateMachine)
    ensures r.Running? && r.context.frame == 0
    ensures r.context.position == Point(c.position.x, height - PLAYER_HEIGHT)
    ensures r.context.velocity == Point(c.velocity.x, 0)
  {
    Running(c.ResetFrame().SetOn(height))
  }

  /** A fall ends, knocked out with the context kept, once the frame counter reaches `FALLING_FRAMES`. */
  function FallingUpdate(c: Context): (r: StateMachine)
    ensures r.Falling? || r.KnockedOut?
    ensures r.context == c.Update(FALLING_FRAMES)
    ensures r.KnockedOut? <==> c.Update(FALLING_FRAMES).frame >= FALLING_FRAMES
  {
    var next := c.Update(FALLING_FRAMES);
    if next.frame >= FALLING_FRAMES then KnockedOut(next) else Falling(next)
  }

  /** Knocked out is a still pose: physics still runs but the frame is pinned to the last one. */
  function KnockedOutUpdate(c: Context): (r: StateMachine)
    ensures r.KnockedOut? && r.context.frame == FALLING_FRAMES - 1
    ensures r.context == c.Update(FALLING_FRAMES).(frame := FALLING_FRAMES - 1)
  {
    KnockedOut(c.Update(FALLING_FRAMES).FixFrame(FALLING_FRAMES - 1))
  }

  // ---------------------------------------------------------------------------
  // The transition table
  // ---------------------------------------------------------------------------

  /** The (state, event) pairs that have an effect; every other pair is a no-op. */
  predicate Listed(s: StateMachine, e: Event) {
    match e
    case Run => s.Idle?
    case Slide => s.Running?
    case Jump => s.Running?
    case Update => true
    case KnockOut => s.Running? || s.Jumping? || s.Sliding?
    case Land(_) => s.Jumping? || s.Running? || s.Sliding? || s.KnockedOut?
  }

  /** The largest frame counter a state can hold between ticks. */
  function MaxFrame(s: StateMachine): nat {
    match s
    case Idle(_) => IDLE_FRAMES
    case Running(_) => RUNNING_FRAMES
    case Sliding(_) => SLIDING_FRAMES - 1
    case Jumping(_) => JUMPING_FRAMES
    case Falling(_) => FALLING_FRAMES - 1
    case KnockedOut(_) => FALLING_FRAMES
  }

  /**
   * What holds of every state reachable from `Start`: the frame counter within
   * its state's range, the vertical speed between the jump speed and the
   * terminal speed, and the horizontal speed equal to the running speed exactly
   * while running, sliding or jumping (zero while idle, falling or knocked out).
   */
  predicate Valid(s: StateMachine) {
    && s.context.frame <= MaxFrame(s)
    && JUMP_SPEED <= s.context.velocity.y <= FALLING_TERMINAL_SPEED
    && s.context.velocity.x == (if s.Running? || s.Sliding? || s.Jumping? then RUNNING_SPEED else 0)
  }

  function Transition(s: StateMachine, e: Event): (r: StateMachine)
    // the table is closed: an unlisted pair returns the state unchanged
    ensures !Listed(s, e) ==> r == s
    // Run from Idle
    ensures s.Idle? && e == Run ==>
      r == Running(s.context.(frame := 0, velocity := Point(s.context.velocity.x + RUNNING_SPEED, s.context.velocity.y)))
    // Slide from Running
    ensures s.Running? && e == Slide ==> r == Sliding(s.context.(frame := 0))
    // Jump from Running
    ensures s.Running? && e == Jump ==>
      r == Jumping(s.context.(frame := 0, velocity := Point(s.context.velocity.x, JUMP_SPEED)))
    // KnockOut while moving
    ensures (s.Running? || s.Sliding? || s.Jumping?) && e == KnockOut ==>
      r == Falling(s.context.(frame := 0, velocity := Point(0, s.context.velocity.y)))
    // Land: snapped onto the surface, vertical speed zeroed
    ensures Listed(s, e) && e.Land? ==>
      && r.context.position == Point(s.context.position.x, e.height - PLAYER_HEIGHT)
      && r.context.velocity == Point(s.context.velocity.x, 0)
      && (if s.Jumping? then r.Running? && r.context.frame == 0
          else r == s.(context := r.context) && r.context.frame == s.context.frame)
    // Update keeps each state in its own family
    ensures e == Update ==>
      && (s.Idle? ==> r.Idle?)
      && (s.Running? ==> r.Running?)
      && (s.Sliding? ==> r.Sliding? || r.Running?)
      && (s.Jumping? ==> r.Jumping? || r.Running?)
      && (s.Falling? ==> r.Falling? || r.KnockedOut?)
      && r.context.position.y <= FLOOR
      && r.context.velocity.y <= FALLING_TERMINAL_SPEED
    // knocked out is absorbing, and an update pins its frame
    ensures s.KnockedOut? ==> r.KnockedOut?
    ensures s.KnockedOut? && e == Update ==> r.context.frame == FALLING_FRAMES - 1
    // every transition keeps the reachable-state invariant
    ensures Valid(s) ==> Valid(r)
  {
    match (s, e)
    case (Idle(c), Run) => Running(c.ResetFrame().RunRight())
    case (Running(c), Slide) => Sliding(c.ResetFrame())
    case (Running(c), Jump) => Jumping(c.SetVerticalVelocity(JUMP_SPEED).ResetFrame())
    case (Idle(c), Update) => Idle(c.Update(IDLE_FRAMES))
    case (Running(c), Update) => Running(c.Update(RUNNING_FRAMES))
    case (Sliding(c), Update) => SlidingUpdate(c)
    case (Jumping(c), Update) => JumpingUpdate(c)
    case (Falling(c), Update) => FallingUpdate(c)
    case (KnockedOut(c), Update) => KnockedOutUpdate(c)
    case (Running(c), KnockOut) => Falling(c.ResetFrame().Stop())
    case (Jumping(c), KnockOut) => Falling(c.ResetFrame().Stop())
    case (Sliding(c), KnockOut) => Falling(c.ResetFrame().Stop())
    case (Jumping(c), Land(y)) => JumpingLandOn(c, y)
    case (Running(c), Land(y)) => Running(c.SetOn(y))
    case (Sliding(c), Land(y)) => Sliding(c.SetOn(y))
    case (KnockedOut(c), Land(y)) => KnockedOut(c.SetOn(y))
    case _ => s
  }

  // ---------------------------------------------------------------------------
  // Runs of events
  // ---------------------------------------------------------------------------

  /** The state after `n` consecutive updates. */
  function Updates(s: StateMachine, n: nat): StateMachine
    decreases n
  {
    if n == 0 then s else Updates(Transition(s, Update), n - 1)
  }

  /** The state after a sequence of events, first to last. */
  function Replay(s: StateMachine, events: seq<Event>): StateMachine
    decreases |events|
  {
    if events == [] then s else Replay(Transition(s, events[0]), events[1..])
  }

  /** The starting state is a valid one. */
  lemma StartValid()
    ensures Valid(Start) && Start.context.frame == 0
    ensures Start.context.position == Point(STARTING_POINT, FLOOR)
  {
  }

  /** Any run of events from a valid state ends in a valid state. */
  lemma {:induction false} ReplayValid(s: StateMachine, events: seq<Event>)
    requires Valid(s)
    ensures Valid(Replay(s, events))
    decreases |events|
  {
    if events != [] {
      ReplayValid(Transition(s, events[0]), events[1..]);
    }
  }

  /** Replaying one more event is one more transition after the replay. */
  lemma {:induction false} ReplaySnoc(s: StateMachine, events: seq<Event>, e: Event)
    ensures Replay(s, events + [e]) == Transition(Replay(s, events), e)
    decreases |events|
  {
    if events == [] {
      assert events + [e] == [e];
    } else {
      assert (events + [e])[1..] == events[1..] + [e];
      ReplaySnoc(Transition(s, events[0]), events[1..], e);
    }
  }

  /** Once knocked out, no run of events brings the character back: the state stays knocked out. */
  lemma {:induction false} KnockedOutIsAbsorbing(s: StateMachine, events: seq<Event>)
    requires s.KnockedOut?
    ensures Replay(s, events).KnockedOut?
    decreases |events|
  {
    if events != [] {
      KnockedOutIsAbsorbing(Transition(s, events[0]), events[1..]);
    }
  }

  /** A knock-out is final: from falling, every run of events ends falling or knocked out, and standing still. */
  lemma {:induction false} NoRevival(s: StateMachine, events: seq<Event>)
    requires (s.Falling? || s.KnockedOut?) && Valid(s)
    ensures var t := Replay(s, events); (t.Falling? || t.KnockedOut?) && t.context.velocity.x == 0
    decreases |events|
  {
    if events != [] {
      NoRevival(Transition(s, events[0]), events[1..]);
    }
  }

  /** From frame `f`, a slide stays a slide for the updates that keep the counter below `SLIDING_FRAMES`. */
  lemma {:induction false} SlidingContinues(c: Context, k: nat)
    requires c.frame + k < SLIDING_FRAMES
    ensures Updates(Sliding(c), k).Sliding? && Updates(Sliding(c), k).context.frame == c.frame + k
    decreases k
  {
    if k > 0 {
      SlidingContinues(c.Update(SLIDING_FRAMES), k - 1);
    }
  }

  /** From frame `f`, a slide becomes running, at frame 0, on exactly the `SLIDING_FRAMES - f`-th update. */
  lemma {:induction false} SlidingEnds(c: Context)
    requires c.frame < SLIDING_FRAMES
    ensures Updates(Sliding(c), SLIDING_FRAMES - c.frame).Running?
    ensures Updates(Sliding(c), SLIDING_FRAMES - c.frame).context.frame == 0
    decreases SLIDING_FRAMES - c.frame
  {
    var next := Transition(Sliding(c), Update);
    if c.frame + 1 < SLIDING_FRAMES {
      SlidingEnds(next.context);
    } else {
      assert Updates(next, 0) == next;
    }
  }

  /** A slide started from Running lasts 13 updates and turns back into running on the 14th. */
  lemma SlideLasts(s: StateMachine, k: nat)
    requires s.Running?
    ensures 0 < k < SLIDING_FRAMES ==> Updates(Transition(s, Slide), k).Sliding?
    ensures Updates(Transition(s, Slide), SLIDING_FRAMES).Running?
    ensures Updates(Transition(s, Slide), SLIDING_FRAMES).context.frame == 0
  {
    var c := Transition(s, Slide).context;
    if k < SLIDING_FRAMES {
      SlidingContinues(c, k);
    }
    SlidingEnds(c);
  }

  /** From frame `f` of a fall, the fall continues while the counter stays below `FALLING_FRAMES`. */
  lemma {:induction false} FallingContinues(c: Context, k: nat)
    requires c.frame + k < FALLING_FRAMES
    ensures Updates(Falling(c), k).Falling? && Updates(Falling(c), k).context.frame == c.frame + k
    decreases k
  {
    if k > 0 {
      assert Transition(Falling(c), Update) == Falling(c.Update(FALLING_FRAMES));
      FallingContinues(c.Update(FALLING_FRAMES), k - 1);
    }
  }

  /** From frame `f` of a fall, the character is knocked out, at frame `FALLING_FRAMES`, after `FALLING_FRAMES - f` updates. */
  lemma {:induction false} FallingEnds(c: Context)
    requires c.frame < FALLING_FRAMES
    ensures Updates(Falling(c), FALLING_FRAMES - c.frame).KnockedOut?
    ensures Updates(Falling(c), FALLING_FRAMES - c.frame).context.frame == FALLING_FRAMES
    decreases FALLING_FRAMES - c.frame
  {
    var next := Transition(Falling(c), Update);
    if c.frame + 1 < FALLING_FRAMES {
      FallingEnds(next.context);
    } else {
      assert Updates(next, 0) == next;
    }
  }

  /** After `n` updates in the knocked-out pose the frame is the pinned last frame. */
  lemma {:induction false} KnockedOutStaysDown(c: Context, n: nat)
    requires n > 0
    ensures Updates(KnockedOut(c), n).KnockedOut?
    ensures Updates(KnockedOut(c), n).context.frame == FALLING_FRAMES - 1
    decreases n
  {
    if n > 1 {
      KnockedOutStaysDown(KnockedOutUpdate(c).context, n - 1);
    }
  }

  /**
   * Running under gravity: after `n` updates the character is still running at
   * the same horizontal speed, the vertical speed has grown by `GRAVITY` per
   * tick up to the terminal speed, and the frame counter has wrapped modulo
   * `RUNNING_FRAMES + 1`. A runner on the floor who is not moving up stays on
   * the floor.
   */
  lemma {:induction false} RunningGravity(c: Context, n: nat)
    requires c.frame <= RUNNING_FRAMES && c.velocity.y <= FALLING_TERMINAL_SPEED
    ensures var t := Updates(Running(c), n);
      && t.Running?
      && t.context.velocity.x == c.velocity.x
      && t.context.position.x == c.position.x
      && t.context.velocity.y == (if c.velocity.y + n * GRAVITY < FALLING_TERMINAL_SPEED
                                  then c.velocity.y + n * GRAVITY else FALLING_TERMINAL_SPEED)
      && t.context.frame == (c.frame + n) % (RUNNING_FRAMES + 1)
      && (c.position.y == FLOOR && c.velocity.y >= 0 ==> t.context.position.y == FLOOR)
    decreases n
  {
    if n > 0 {
      RunningTick(c, n);
      RunningGravity(c.Update(RUNNING_FRAMES), n - 1);
      FrameWraps(c.frame, n);
    }
  }

  /** The first of `n` updates of a runner. */
  lemma RunningTick(c: Context, n: nat)
    requires n > 0 && c.frame <= RUNNING_FRAMES && c.velocity.y <= FALLING_TERMINAL_SPEED
    ensures Updates(Running(c), n) == Updates(Running(c.Update(RUNNING_FRAMES)), n - 1)
  {
    assert Transition(Running(c), Update) == Running(c.Update(RUNNING_FRAMES));
  }

  /** Counting one frame with wrap-around, then `n - 1` more, is counting `n` modulo the cycle. */
  lemma FrameWraps(frame: nat, n: nat)
    requires frame <= RUNNING_FRAMES && n > 0
    ensures ((if frame < RUNNING_FRAMES then frame + 1 else 0) + (n - 1)) % (RUNNING_FRAMES + 1)
            == (frame + n) % (RUNNING_FRAMES + 1)
  {
    if frame == RUNNING_FRAMES {
      assert frame + n == (n - 1) + (RUNNING_FRAMES + 1);
    }
  }

  /**
   * From the start, Run followed by any number of updates gives a runner on the
   * floor at the running speed, and a further Run changes nothing.
   */
  lemma RunFromStart(n: nat)
    ensures var t := Updates(Transition(Start, Run), n);
      && t.Running?
      && t.context.velocity.x == RUNNING_SPEED
      && t.context.position.y == FLOOR
      && t.context.velocity.y == (if n < FALLING_TERMINAL_SPEED then n else FALLING_TERMINAL_SPEED)
      && Transition(t, Run) == t
  {
    RunningGravity(Transition(Start, Run).context, n);
  }
}
