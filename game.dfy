/**
 * The running game: the character object that owns the state machine and its
 * sprite sheet, the walk (the character, two scrolling backgrounds, the live
 * obstacles and the timeline cursor), and the per-tick update.
 */
module Game {

  import opened Wrappers
  import opened Format
  import opened Engine
  import opened RedHatBoyStates
  import opened Segment

  const TIMELINE_MINIMUM: int := 1000
  const OBSTACLE_BUFFER: int := 20

  // ---------------------------------------------------------------------------
  // Sprite names
  // ---------------------------------------------------------------------------

  /** `"<animation> (<index>).png"`, the sheet's naming convention. */
  function SpriteName(animation: string, index: nat): (r: string)
    ensures |r| == |animation| + |DecimalString(index)| + 7
    ensures r[..|animation|] == animation && r[|animation|..|animation| + 2] == " (" && r[|r| - 5..] == ").png"
    ensures var digits := r[|animation| + 2..|r| - 5];
      (forall i :: 0 <= i < |digits| ==> IsDigit(digits[i])) && DecimalValue(digits) == index
  {
    var r := animation + " (" + DecimalString(index) + ").png";
    assert r[|animation| + 2..|r| - 5] == DecimalString(index);
    DecimalRoundTrip(index);
    r
  }

  /** The sprite shown in a state: each drawn frame lasts three ticks, numbered from 1. */
  function FrameName(s: StateMachine): (r: string)
    ensures AnimationName(s) in LastIndex
    ensures Valid(s) ==> exists i :: 1 <= i <= LastIndex[AnimationName(s)] && r == SpriteName(AnimationName(s), i)
  {
    SpriteName(AnimationName(s), s.context.frame / 3 + 1)
  }

  /** The last sprite index a valid state can ask for, per animation. */
  const LastIndex: map<string, nat> := map[
    IDLE_FRAME_NAME := IDLE_FRAMES / 3 + 1,
    RUN_FRAME_NAME := RUNNING_FRAMES / 3 + 1,
    SLIDING_FRAME_NAME := (SLIDING_FRAMES - 1) / 3 + 1,
    JUMPING_FRAME_NAME := JUMPING_FRAMES / 3 + 1,
    FALLING_FRAME_NAME := FALLING_FRAMES / 3 + 1
  ]

  /** The sheet holds every sprite a valid state can show. */
  predicate SheetComplete(sheet: Sheet) {
    forall animation, i :: animation in LastIndex && 1 <= i <= LastIndex[animation] ==>
      SpriteName(animation, i) in sheet
  }

  /** With a complete sheet, the sprite lookup of a valid state never fails. */
  lemma FrameNameInSheet(sheet: Sheet, s: StateMachine)
    requires SheetComplete(sheet) && Valid(s)
    ensures FrameName(s) in sheet
  {
    var animation, i := AnimationName(s), s.context.frame / 3 + 1;
    assert animation in LastIndex && 1 <= i <= LastIndex[animation];
  }

  /** The five animation names start with five different letters. */
  lemma FirstLetterTellsAnimation(a: string, b: string)
    requires a in LastIndex && b in LastIndex && |a| > 0 && |b| > 0 && a[0] == b[0]
    ensures a == b
  {
  }

  /** Two sprite names of the five animations agree only for the same animation and index. */
  lemma SpriteNameInjective(a: string, b: string, i: nat, j: nat)
    requires a in LastIndex && b in LastIndex
    ensures SpriteName(a, i) == SpriteName(b, j) <==> a == b && i == j
  {
    if SpriteName(a, i) == SpriteName(b, j) {
      var r := SpriteName(a, i);
      assert |a| > 0 && |b| > 0;
      assert r[..|a|] == a && r[..|b|] == b;
      assert r[0] == a[0] && r[0] == b[0];
      FirstLetterTellsAnimation(a, b);
      // the same name has the same digits, which read back as both indexes
      var digits := r[|a| + 2..|r| - 5];
      assert DecimalValue(digits) == i;
      assert DecimalValue(digits) == j;
    }
  }

  /** The sprite name tells the animation and the three-tick frame group, and nothing more. */
  lemma FrameNameInjective(s: StateMachine, t: StateMachine)
    ensures FrameName(s) == FrameName(t) <==>
            AnimationName(s) == AnimationName(t) && s.context.frame / 3 == t.context.frame / 3
  {
    var a, b := AnimationName(s), AnimationName(t);
    var i, j := s.context.frame / 3 + 1, t.context.frame / 3 + 1;
    assert FrameName(s) == SpriteName(a, i) && FrameName(t) == SpriteName(b, j);
    SpriteNameInjective(a, b, i, j);
    assert SpriteName(a, i) == SpriteName(b, j) <==> a == b && i == j;
  }

  /**
   * The character's hit box for a sprite cell: the drawn box (the position
   * plus the cell's source offset, at the cell's size) inset by 18 on the
   * left, 10 on the right and 14 at the top.
   */
  function HitBox(c: Context, cell: Cell): (r: Rect)
    ensures r.X() == c.position.x + cell.spriteSourceSize.x + 18
    ensures r.Right() == c.position.x + cell.spriteSourceSize.x + cell.frame.w - 10
    ensures r.Y() == c.position.y + cell.spriteSourceSize.y + 14
    ensures r.Bottom() == c.position.y + cell.spriteSourceSize.y + cell.frame.h
  {
    var destination := Rect(Point(c.position.x + cell.spriteSourceSize.x, c.position.y + cell.spriteSourceSize.y),
                            cell.frame.w, cell.frame.h);
    Rect(Point(destination.X() + 18, destination.Y() + 14), destination.width - 28, destination.height - 14)
  }

  /** The character's hit box in a state, from the sheet cell of its current sprite. */
  function BoyBox(sheet: Sheet, s: StateMachine): Rect
    requires FrameName(s) in sheet
  {
    HitBox(s.context, sheet[FrameName(s)])
  }

  // ---------------------------------------------------------------------------
  // The character object
  // ---------------------------------------------------------------------------

  class RedHatBoy {
    var stateMachine: StateMachine
    const spriteSheet: Sheet

    ghost predicate Valid()
      reads this
    {
      RedHatBoyStates.Valid(stateMachine) && SheetComplete(spriteSheet)
    }

    constructor (sheet: Sheet)
      requires SheetComplete(sheet)
      ensures Valid() && stateMachine == Start && spriteSheet == sheet
    {
      stateMachine := Start;
      spriteSheet := sheet;
    }

    function WalkingSpeed(): (r: int)
      reads this
      ensures Valid() ==> r == if stateMachine.Running? || stateMachine.Sliding? || stateMachine.Jumping?
                              then RUNNING_SPEED else 0
    {
      stateMachine.context.velocity.x
    }

    function VelocityY(): (r: int)
      reads this
      ensures Valid() ==> JUMP_SPEED <= r <= FALLING_TERMINAL_SPEED
    {
      stateMachine.context.velocity.y
    }

    function PosY(): int
      reads this
    {
      stateMachine.context.position.y
    }

    function BoundingBox(): (r: Rect)
      reads this
      requires Valid()
      ensures FrameName(stateMachine) in spriteSheet && r == BoyBox(spriteSheet, stateMachine)
    {
      FrameNameInSheet(spriteSheet, stateMachine);
      BoyBox(spriteSheet, stateMachine)
    }

    method Update()
      requires Valid()
      modifies this
      ensures Valid() && stateMachine == Transition(old(stateMachine), Event.Update)
    {
      stateMachine := Transition(stateMachine, Event.Update);
    }

    method RunRight()
      requires Valid()
      modifies this
      ensures Valid() && stateMachine == Transition(old(stateMachine), Run)
    {
      stateMachine := Transition(stateMachine, Run);
    }

    method Slide()
      requires Valid()
      modifies this
      ensures Valid() && stateMachine == Transition(old(stateMachine), Event.Slide)
    {
      stateMachine := Transition(stateMachine, Event.Slide);
    }

    method Jump()
      requires Valid()
      modifies this
      ensures Valid() && stateMachine == Transition(old(stateMachine), Event.Jump)
    {
      stateMachine := Transition(stateMachine, Event.Jump);
    }

    method LandOn(height: int)
      requires Valid()
      modifies this
      ensures Valid() && stateMachine == Transition(old(stateMachine), Land(height))
    {
      stateMachine := Transition(stateMachine, Land(height));
    }

    method KnockOut()
      requires Valid()
      modifies this
      ensures Valid() && stateMachine == Transition(old(stateMachine), Event.KnockOut)
    {
      stateMachine := Transition(stateMachine, Event.KnockOut);
    }
  }

  // ---------------------------------------------------------------------------
  // Collisions
  // ---------------------------------------------------------------------------

  /** The character's state after one obstacle's collision check. */
  function AfterContact(sheet: Sheet, s: StateMachine, o: Obstacle): (r: StateMachine)
    requires SheetComplete(sheet) && Valid(s)
    ensures Valid(r)
    ensures !o.Overlaps(BoyBox(sheet, s)) ==> r == s
    ensures o.Barrier? && o.Overlaps(BoyBox(sheet, s)) ==> r == Transition(s, Event.KnockOut)
    ensures o.Platform? && o.Overlaps(BoyBox(sheet, s)) ==>
      r == if s.context.velocity.y > 0 && s.context.position.y < o.position.y
           then Transition(s, Land(FirstOverlap(o.boundingBoxes, BoyBox(sheet, s)).value.Y()))
           else Transition(s, Event.KnockOut)
  {
    FrameNameInSheet(sheet, s);
    match Contact(o, BoyBox(sheet, s), s.context.velocity.y, s.context.position.y)
    case None => s
    case Some(LandOn(height)) => Transition(s, Land(height))
    case Some(KnockOut) => Transition(s, Event.KnockOut)
  }

  /** The character's state after the collision checks of `obstacles`, first to last. */
  function CollideAll(sheet: Sheet, s: StateMachine, obstacles: seq<Obstacle>): (r: StateMachine)
    requires SheetComplete(sheet) && Valid(s)
    ensures Valid(r)
  {
    if obstacles == [] then s
    else AfterContact(sheet, CollideAll(sheet, s, obstacles[..|obstacles| - 1]), obstacles[|obstacles| - 1])
  }

  /** Once knocked out, no collision brings the character back. */
  lemma {:induction false} CollisionsKeepKnockedOut(sheet: Sheet, s: StateMachine, obstacles: seq<Obstacle>)
    requires SheetComplete(sheet) && Valid(s) && s.KnockedOut?
    ensures CollideAll(sheet, s, obstacles).KnockedOut?
  {
    if obstacles != [] {
      CollisionsKeepKnockedOut(sheet, s, obstacles[..|obstacles| - 1]);
    }
  }

  /** `check_intersection` against the character: at most one `land_on` or `knock_out`. */
  method CheckIntersection(o: Obstacle, boy: RedHatBoy)
    requires boy.Valid()
    modifies boy
    ensures boy.Valid() && boy.stateMachine == AfterContact(boy.spriteSheet, old(boy.stateMachine), o)
  {
    var disturbance := Contact(o, boy.BoundingBox(), boy.VelocityY(), boy.PosY());
    match disturbance {
      case None =>
      case Some(LandOn(height)) => boy.LandOn(height);
      case Some(KnockOut) => boy.KnockOut();
    }
  }

  // ---------------------------------------------------------------------------
  // Obstacle list and timeline
  // ---------------------------------------------------------------------------

  /** The largest right edge of the obstacles, or 0 for none. */
  function Rightmost(obstacles: seq<Obstacle>): (r: int)
    ensures obstacles == [] ==> r == 0
    ensures forall i :: 0 <= i < |obstacles| ==> obstacles[i].Right() <= r
    ensures obstacles != [] ==> exists i :: 0 <= i < |obstacles| && obstacles[i].Right() == r
  {
    if |obstacles| == 0 then 0
    else if |obstacles| == 1 then obstacles[0].Right()
    else
      var rest := Rightmost(obstacles[1..]);
      assert forall i :: 1 <= i < |obstacles| ==> obstacles[i] == obstacles[1..][i - 1];
      if obstacles[0].Right() >= rest then obstacles[0].Right() else rest
  }

  /** `retain(right() > 0)`: keeps, in order, the obstacles not yet scrolled off the left edge. */
  function Retain(obstacles: seq<Obstacle>): (r: seq<Obstacle>)
    ensures |r| <= |obstacles|
    ensures forall i :: 0 <= i < |r| ==> r[i].Right() > 0
    ensures forall o :: multiset(r)[o] == if o.Right() > 0 then multiset(obstacles)[o] else 0
    ensures |obstacles| == 1 ==> r == if obstacles[0].Right() > 0 then obstacles else []
  {
    if obstacles == [] then []
    else
      var rest := Retain(obstacles[1..]);
      assert obstacles == [obstacles[0]] + obstacles[1..];
      if obstacles[0].Right() > 0 then [obstacles[0]] + rest else rest
  }

  /** Culling goes obstacle by obstacle, so the survivors of two lists come out one after the other, in order. */
  lemma {:induction false} RetainAppend(x: seq<Obstacle>, y: seq<Obstacle>)
    ensures Retain(x + y) == Retain(x) + Retain(y)
    decreases |x|
  {
    if x == [] {
      assert x + y == y;
    } else {
      assert (x + y)[0] == x[0] && (x + y)[1..] == x[1..] + y;
      RetainAppend(x[1..], y);
    }
  }

  /** Every obstacle scrolled by `dx`. */
  function Scrolled(obstacles: seq<Obstacle>, dx: int): (r: seq<Obstacle>)
    ensures |r| == |obstacles| && forall i :: 0 <= i < |r| ==> r[i] == obstacles[i].Moved(dx)
  {
    seq(|obstacles|, i requires 0 <= i < |obstacles| => obstacles[i].Moved(dx))
  }

  /** A stopped character stops the world: scrolling at speed 0 moves nothing. */
  lemma StoppedWorld(s: StateMachine, obstacles: seq<Obstacle>)
    requires Valid(s) && (s.Idle? || s.Falling? || s.KnockedOut?)
    ensures Scrolled(obstacles, -s.context.velocity.x) == obstacles
  {
    forall i | 0 <= i < |obstacles| ensures obstacles[i].Moved(0) == obstacles[i] {
      MovedZero(obstacles[i]);
    }
  }

  /** The layout picked by `choice` (0 or 1 from the random source), placed at `offsetX`. */
  function NextSegment(choice: int, stone: ImageElement, sheet: Sheet, offsetX: int): seq<Obstacle> {
    match choice
    case 0 => StoneAndPlatform(stone, sheet, offsetX)
    case 1 => PlatformAndStone(stone, sheet, offsetX)
    case _ => []
  }

  /** Choice 0 puts the stone first and a low platform after it; choice 1 a high platform first; any other choice adds nothing. */
  lemma NextSegmentLayout(choice: int, stone: ImageElement, sheet: Sheet, offsetX: int)
    ensures var r := NextSegment(choice, stone, sheet, offsetX);
      && |r| == (if choice == 0 || choice == 1 then 2 else 0)
      && (choice == 0 ==> r[0].Barrier? && r[1].Platform? && r[1].position.y == LOW_PLATFORM)
      && (choice == 1 ==> r[0].Platform? && r[1].Barrier? && r[0].position.y == HIGH_PLATFORM)
  {
  }

  /**
   * Generating a segment pushes the timeline at least a platform width past
   * the insertion point, and exactly to the farther of its two obstacles.
   */
  lemma SegmentTimeline(choice: int, stone: ImageElement, sheet: Sheet, offsetX: int)
    requires choice == 0 || choice == 1
    ensures var seg := NextSegment(choice, stone, sheet, offsetX);
      && Rightmost(seg) >= offsetX + INITIAL_PLATFORM_OFFSET + PLATFORM_WIDTH
      && Rightmost(seg) == (if seg[0].Right() >= seg[1].Right() then seg[0].Right() else seg[1].Right())
  {
    var seg := NextSegment(choice, stone, sheet, offsetX);
    assert seg[1..] == [seg[1]];
  }

  // ---------------------------------------------------------------------------
  // Backgrounds
  // ---------------------------------------------------------------------------

  /** Both backgrounds scrolled by `dx`; one that has left the screen is put after the other. */
  function ScrollBackgrounds(first: Image, second: Image, dx: int): (r: (Image, Image))
    ensures r.0.element == first.element && r.0.position.y == first.position.y
    ensures r.1.element == second.element && r.1.position.y == second.position.y
    ensures first.Right() + dx >= 0 ==> r.0 == first.MoveHorizontally(dx)
    ensures first.Right() + dx < 0 ==> r.0.position.x == second.Right() + dx
    ensures second.Right() + dx >= 0 ==> r.1 == second.MoveHorizontally(dx)
    ensures second.Right() + dx < 0 ==> r.1.position.x == r.0.Right()
  {
    var first := first.MoveHorizontally(dx);
    var second := second.MoveHorizontally(dx);
    var first := if first.Right() < 0 then first.SetX(second.Right()) else first;
    var second := if second.Right() < 0 then second.SetX(first.Right()) else second;
    (first, second)
  }

  /** Two equally wide backgrounds side by side, in either order. */
  predicate Adjacent(first: Image, second: Image) {
    first.element.width == second.element.width &&
    (second.position.x == first.Right() || first.position.x == second.Right())
  }

  /** Scrolling keeps two equally wide, side-by-side backgrounds side by side. */
  lemma ScrollKeepsBackgroundsAdjacent(first: Image, second: Image, dx: int)
    requires Adjacent(first, second)
    ensures var (f, s) := ScrollBackgrounds(first, second, dx);
      Adjacent(f, s) && f.position.y == first.position.y && s.position.y == second.position.y
  {
  }

  // ---------------------------------------------------------------------------
  // The walk and the tick
  // ---------------------------------------------------------------------------

  /**
   * The events the held keys send before the tick's update, in the order the
   * tick checks them: ArrowDown slides, ArrowRight runs, Space jumps.
   */
  function HeldKeyEvents(down: bool, right: bool, space: bool): (events: seq<Event>)
    ensures (Event.Slide in events <==> down) && (Run in events <==> right) && (Event.Jump in events <==> space)
    ensures Event.Update !in events
    ensures |events| == (if down then 1 else 0) + (if right then 1 else 0) + (if space then 1 else 0)
    ensures down && space ==> events[0] == Event.Slide && events[|events| - 1] == Event.Jump
    ensures down && right ==> events[0] == Event.Slide && events[1] == Run
    ensures right && space ==> events[|events| - 2] == Run && events[|events| - 1] == Event.Jump
  {
    (if down then [Event.Slide] else []) + (if right then [Run] else []) + (if space then [Event.Jump] else [])
  }

  /** What a tick changes: the character, the two backgrounds, the obstacles and the timeline. */
  datatype Scene = Scene(boy: StateMachine, firstBackground: Image, secondBackground: Image,
                         obstacles: seq<Obstacle>, timeline: int)

  /**
   * The character's half of a tick: steered by the held keys (slide, then
   * run, then jump) and updated; the backgrounds scrolled against its new
   * horizontal speed.
   */
  function CharacterStep(w: Scene, down: bool, right: bool, space: bool): (r: Scene)
    ensures Valid(w.boy) ==> Valid(r.boy)
    ensures r.obstacles == w.obstacles && r.timeline == w.timeline
    ensures Adjacent(w.firstBackground, w.secondBackground) ==> Adjacent(r.firstBackground, r.secondBackground)
  {
    var events := HeldKeyEvents(down, right, space) + [Event.Update];
    var boy := Replay(w.boy, events);
    assert Valid(w.boy) ==> Valid(boy) by {
      if Valid(w.boy) {
        ReplayValid(w.boy, events);
      }
    }
    var (first, second) := ScrollBackgrounds(w.firstBackground, w.secondBackground, -boy.context.velocity.x);
    assert Adjacent(w.firstBackground, w.secondBackground) ==> Adjacent(first, second) by {
      if Adjacent(w.firstBackground, w.secondBackground) {
        ScrollKeepsBackgroundsAdjacent(w.firstBackground, w.secondBackground, -boy.context.velocity.x);
      }
    }
    w.(boy := boy, firstBackground := first, secondBackground := second)
  }

  /**
   * The obstacles already off screen dropped, and the rest scrolled by
   * `velocity` and checked against the character in list order.
   */
  function Collided(w: Scene, sheet: Sheet, velocity: int): (r: Scene)
    requires SheetComplete(sheet) && Valid(w.boy)
    ensures Valid(r.boy)
    ensures r.firstBackground == w.firstBackground && r.secondBackground == w.secondBackground
    ensures r.timeline == w.timeline
  {
    var moved := Scrolled(Retain(w.obstacles), velocity);
    w.(boy := CollideAll(sheet, w.boy, moved), obstacles := moved)
  }

  /**
   * A new segment after the timeline if the timeline is below the minimum,
   * and otherwise the timeline scrolled by `velocity`.
   */
  function Advanced(w: Scene, stone: ImageElement, obstacleSheet: Sheet, choice: int, velocity: int): (r: Scene)
    ensures r.boy == w.boy && r.firstBackground == w.firstBackground && r.secondBackground == w.secondBackground
    ensures w.obstacles <= r.obstacles
    ensures w.timeline >= TIMELINE_MINIMUM ==> r.obstacles == w.obstacles && r.timeline == w.timeline + velocity
    ensures w.timeline < TIMELINE_MINIMUM && (choice == 0 || choice == 1) ==>
      |r.obstacles| == |w.obstacles| + 2 && r.timeline >= w.timeline + OBSTACLE_BUFFER + INITIAL_PLATFORM_OFFSET + PLATFORM_WIDTH
  {
    if w.timeline < TIMELINE_MINIMUM then
      var seg := NextSegment(choice, stone, obstacleSheet, w.timeline + OBSTACLE_BUFFER);
      assert choice == 0 || choice == 1 ==> |seg| == 2 && Rightmost(seg) >= w.timeline + OBSTACLE_BUFFER + INITIAL_PLATFORM_OFFSET + PLATFORM_WIDTH by {
        if choice == 0 || choice == 1 {
          SegmentTimeline(choice, stone, obstacleSheet, w.timeline + OBSTACLE_BUFFER);
        }
      }
      w.(obstacles := w.obstacles + seg, timeline := Rightmost(seg))
    else
      w.(timeline := w.timeline + velocity)
  }

  /** The held keys cannot revive a knocked-out character: it stays down, at horizontal speed 0. */
  lemma CharacterStepKeepsKnockedOut(w: Scene, down: bool, right: bool, space: bool)
    requires Valid(w.boy) && w.boy.KnockedOut?
    ensures var r := CharacterStep(w, down, right, space);
      Valid(r.boy) && r.boy.KnockedOut? && r.boy.context.velocity.x == 0
  {
    var events := HeldKeyEvents(down, right, space) + [Event.Update];
    KnockedOutIsAbsorbing(w.boy, events);
    ReplayValid(w.boy, events);
  }

  /** Against a knocked-out character, the obstacles' half of a tick only culls. */
  lemma CollidedAtRest(w: Scene, sheet: Sheet)
    requires SheetComplete(sheet) && Valid(w.boy) && w.boy.KnockedOut?
    ensures var r := Collided(w, sheet, 0); r.boy.KnockedOut? && r.obstacles == Retain(w.obstacles)
  {
    StoppedWorld(w.boy, Retain(w.obstacles));
    CollisionsKeepKnockedOut(sheet, w.boy, Retain(w.obstacles));
  }

  class Walk {
    const obstacleSheet: Sheet
    const boy: RedHatBoy
    var firstBackground: Image
    var secondBackground: Image
    var obstacles: seq<Obstacle>
    const stone: ImageElement
    var timeline: int

    ghost predicate Valid()
      reads this, boy
    {
      boy.Valid() && Adjacent(firstBackground, secondBackground)
    }

    /**
     * The walk a finished load starts with: the backgrounds side by side from
     * x = 0, one stone-and-platform segment at offset 0, the timeline at its
     * right edge.
     */
    constructor (boy: RedHatBoy, background: ImageElement, stone: ImageElement, obstacleSheet: Sheet)
      requires boy.Valid()
      ensures Valid() && this.boy == boy && this.stone == stone && this.obstacleSheet == obstacleSheet
      ensures firstBackground == Image(background, Point(0, 0))
      ensures secondBackground == Image(background, Point(background.width, 0))
      ensures Adjacent(firstBackground, secondBackground)
      ensures obstacles == StoneAndPlatform(stone, obstacleSheet, 0)
      ensures timeline == Rightmost(obstacles)
    {
      var startingObstacles := StoneAndPlatform(stone, obstacleSheet, 0);
      this.boy := boy;
      this.firstBackground := Image(background, Point(0, 0));
      this.secondBackground := Image(background, Point(background.width, 0));
      this.obstacles := startingObstacles;
      this.obstacleSheet := obstacleSheet;
      this.stone := stone;
      this.timeline := Rightmost(startingObstacles);
    }

    /** Obstacles and the timeline scroll against the character's horizontal speed. */
    function Velocity(): (r: int)
      reads this, boy
      ensures Valid() ==> r == if boy.stateMachine.Running? || boy.stateMachine.Sliding? || boy.stateMachine.Jumping?
                              then -RUNNING_SPEED else 0
    {
      -boy.WalkingSpeed()
    }

    /** Scrolls each obstacle by `velocity` and checks it against the character, in list order. */
    method ScrollAndCollide(velocity: int)
      requires Valid()
      modifies this, boy
      ensures Valid()
      ensures obstacles == Scrolled(old(obstacles), velocity)
      ensures boy.stateMachine == CollideAll(boy.spriteSheet, old(boy.stateMachine), obstacles)
      ensures timeline == old(timeline)
      ensures firstBackground == old(firstBackground) && secondBackground == old(secondBackground)
    {
      ghost var start := boy.stateMachine;
      ghost var sheet := boy.spriteSheet;
      ghost var before := obstacles;
      ghost var done: seq<Obstacle> := [];
      var i := 0;
      while i < |obstacles|
        invariant 0 <= i <= |obstacles| == |before| && |done| == i
        invariant forall j :: 0 <= j < i ==> obstacles[j] == done[j] == before[j].Moved(velocity)
        invariant forall j :: i <= j < |obstacles| ==> obstacles[j] == before[j]
        invariant Valid() && boy.spriteSheet == sheet
        invariant boy.stateMachine == CollideAll(sheet, start, done)
        invariant timeline == old(timeline)
        invariant firstBackground == old(firstBackground) && secondBackground == old(secondBackground)
      {
        ScrollAndCheckOne(i, velocity);
        assert (done + [obstacles[i]])[..i] == done;
        done := done + [obstacles[i]];
        i := i + 1;
      }
      assert obstacles == done;
    }

    /** One step of the loop above: obstacle `i` scrolled by `velocity`, then checked against the character. */
    method ScrollAndCheckOne(i: int, velocity: int)
      requires Valid() && 0 <= i < |obstacles|
      modifies this, boy
      ensures Valid()
      ensures obstacles == old(obstacles)[i := old(obstacles)[i].Moved(velocity)]
      ensures boy.stateMachine == AfterContact(boy.spriteSheet, old(boy.stateMachine), obstacles[i])
      ensures timeline == old(timeline)
      ensures firstBackground == old(firstBackground) && secondBackground == old(secondBackground)
    {
      var moved := MoveHorizontally(obstacles[i], velocity);
      obstacles := obstacles[i := moved];
      CheckIntersection(moved, boy);
    }

    /** The part of the walk a tick changes, as a value. */
    function Snapshot(): Scene
      reads this, boy
    {
      Scene(boy.stateMachine, firstBackground, secondBackground, obstacles, timeline)
    }

    /**
     * One simulation step of the walk: the character's half of the step,
     * then the obstacles' half at the character's new horizontal speed.
     */
    method Tick(keys: KeyState, choice: int) returns (ghost moved: Scene, ghost velocity: int)
      requires Valid()
      modifies this, boy
      ensures Valid()
      ensures moved == CharacterStep(old(Snapshot()), keys.IsPressed("ArrowDown"),
                                     keys.IsPressed("ArrowRight"), keys.IsPressed("Space"))
      ensures velocity == -moved.boy.context.velocity.x
      ensures Snapshot() == Advanced(Collided(moved, boy.spriteSheet, velocity), stone, obstacleSheet, choice, velocity)
    {
      MoveCharacter(keys.IsPressed("ArrowDown"), keys.IsPressed("ArrowRight"), keys.IsPressed("Space"));
      moved := Snapshot();
      var speed := Velocity();
      velocity := speed;
      MoveObstacles(choice, speed);
    }

    /** The character's half of a tick. */
    method MoveCharacter(down: bool, right: bool, space: bool)
      requires Valid()
      modifies this, boy
      ensures Valid()
      ensures Snapshot() == CharacterStep(old(Snapshot()), down, right, space)
    {
      Steer(down, right, space);
      ReplaySnoc(old(boy.stateMachine), HeldKeyEvents(down, right, space), Event.Update);
      boy.Update();
      var velocity := Velocity();
      ScrollBackdrop(velocity);
    }

    /** The obstacles' half of a tick. */
    method MoveObstacles(choice: int, velocity: int)
      requires Valid()
      modifies this, boy
      ensures Valid()
      ensures Snapshot() == Advanced(Collided(old(Snapshot()), boy.spriteSheet, velocity),
                                     stone, obstacleSheet, choice, velocity)
    {
      CullAndCollide(velocity);
      AdvanceTimeline(choice, velocity);
    }

    /** Drops the obstacles already off screen, then scrolls and checks the rest. */
    method CullAndCollide(velocity: int)
      requires Valid()
      modifies this, boy
      ensures Valid()
      ensures Snapshot() == Collided(old(Snapshot()), boy.spriteSheet, velocity)
    {
      obstacles := Retain(obstacles);
      ScrollAndCollide(velocity);
    }

    /** Scrolls both backgrounds, wrapping one that has left the screen. */
    method ScrollBackdrop(velocity: int)
      modifies this
      ensures (firstBackground, secondBackground)
              == ScrollBackgrounds(old(firstBackground), old(secondBackground), velocity)
      ensures obstacles == old(obstacles) && timeline == old(timeline)
    {
      var backgrounds := ScrollBackgrounds(firstBackground, secondBackground, velocity);
      firstBackground, secondBackground := backgrounds.0, backgrounds.1;
    }

    /** Adds a segment if the timeline is below the minimum, and otherwise scrolls the timeline. */
    method AdvanceTimeline(choice: int, velocity: int)
      modifies this
      ensures Snapshot() == Advanced(old(Snapshot()), stone, obstacleSheet, choice, velocity)
    {
      ghost var before := Snapshot();
      if timeline < TIMELINE_MINIMUM {
        ghost var seg := NextSegment(choice, stone, obstacleSheet, timeline + OBSTACLE_BUFFER);
        GenerateNextSegment(choice);
        assert Snapshot() == before.(obstacles := before.obstacles + seg, timeline := Rightmost(seg));
      } else {
        timeline := timeline + velocity;
      }
    }

    /** The held keys' events, in the order the tick sends them: slide, run, jump. */
    method Steer(down: bool, right: bool, space: bool)
      requires Valid()
      modifies boy
      ensures Valid() && boy.stateMachine == Replay(old(boy.stateMachine), HeldKeyEvents(down, right, space))
    {
      ghost var start := boy.stateMachine;
      ghost var sent: seq<Event> := [];
      if down {
        boy.Slide();
        ReplaySnoc(start, sent, Event.Slide);
        sent := sent + [Event.Slide];
      }
      if right {
        boy.RunRight();
        ReplaySnoc(start, sent, Run);
        sent := sent + [Run];
      }
      if space {
        boy.Jump();
        ReplaySnoc(start, sent, Event.Jump);
        sent := sent + [Event.Jump];
      }
      assert sent == HeldKeyEvents(down, right, space);
    }

    /** Appends the chosen layout after the timeline and moves the timeline to its right edge. */
    method GenerateNextSegment(choice: int)
      modifies this
      ensures var seg := NextSegment(choice, stone, obstacleSheet, old(timeline) + OBSTACLE_BUFFER);
        && obstacles == old(obstacles) + seg
        && timeline == Rightmost(seg)
      ensures firstBackground == old(firstBackground) && secondBackground == old(secondBackground)
    {
      var nextObstacles := NextSegment(choice, stone, obstacleSheet, timeline + OBSTACLE_BUFFER);
      timeline := Rightmost(nextObstacles);
      obstacles := obstacles + nextObstacles;
    }
  }

  datatype WalkTheDog = Loading | Loaded(walk: Walk)

  /**
   * `WalkTheDog::update`: nothing while loading; once loaded, one simulation
   * step of the walk. `choice` stands for the random pick between the two
   * segment layouts.
   */
  method Update(game: WalkTheDog, keys: KeyState, choice: int) returns (ghost moved: Scene, ghost velocity: int)
    requires game.Loaded? ==> game.walk.Valid()
    modifies if game.Loaded? then {game.walk, game.walk.boy} else {}
    ensures game.Loaded? ==> game.walk.Valid()
    ensures game.Loaded? ==> moved == CharacterStep(old(game.walk.Snapshot()), keys.IsPressed("ArrowDown"),
                                                    keys.IsPressed("ArrowRight"), keys.IsPressed("Space"))
    ensures game.Loaded? ==> velocity == -moved.boy.context.velocity.x
    ensures game.Loaded? ==>
      game.walk.Snapshot() == Advanced(Collided(moved, game.walk.boy.spriteSheet, velocity),
                                       game.walk.stone, game.walk.obstacleSheet, choice, velocity)
  {
    match game {
      case Loading =>
        moved, velocity :| true;
      case Loaded(walk) =>
        moved, velocity := walk.Tick(keys, choice);
    }
  }
}
