/**
 * The engine pieces the simulation relies on: integer screen geometry, images
 * placed on the screen, sprite-sheet cells, and the held-key snapshot that the
 * game loop refreshes from queued key events.
 *
 * `Point` is the engine's `i16` pair, modelled with unbounded integers. The
 * rectangle and image helpers (`Rect::new_from_x_y`, `intersects`, `right`,
 * `set_x`, `Image::bounding_box`, ...) are used by the game but their code is
 * not part of this model; they are declared here as the usual integer
 * axis-aligned box operations.
 */
module Engine {

  import opened Wrappers

  datatype Point = Point(x: int, y: int)

  /** Axis-aligned box; `Rect(Point(x, y), w, h)` is `Rect::new_from_x_y(x, y, w, h)`. */
  datatype Rect = Rect(position: Point, width: int, height: int) {

    function X(): int { position.x }

    function Y(): int { position.y }

    function Right(): int { position.x + width }

    function Bottom(): int { position.y + height }

    /** Strict overlap on both axes: boxes that only touch along an edge do not intersect. */
    predicate Intersects(other: Rect) {
      X() < other.Right() && Right() > other.X() && Y() < other.Bottom() && Bottom() > other.Y()
    }

    function SetX(x: int): (r: Rect)
      ensures r.X() == x && r.Y() == Y() && r.width == width && r.height == height
    {
      Rect(Point(x, position.y), width, height)
    }
  }

  /** `Rect::default()`: every field zero. */
  const DefaultRect := Rect(Point(0, 0), 0, 0)

  /** A loaded bitmap; only its natural size matters to the simulation. */
  datatype ImageElement = ImageElement(width: nat, height: nat)

  /** An image drawn at a position; its bounding box is the element's size at that position. */
  datatype Image = Image(element: ImageElement, position: Point) {

    function BoundingBox(): Rect {
      Rect(position, element.width, element.height)
    }

    function Right(): int {
      BoundingBox().Right()
    }

    function MoveHorizontally(dx: int): (r: Image)
      ensures r.element == element && r.position == Point(position.x + dx, position.y)
      ensures r.Right() == Right() + dx
    {
      Image(element, Point(position.x + dx, position.y))
    }

    function SetX(x: int): (r: Image)
      ensures r.element == element && r.position == Point(x, position.y)
      ensures r.Right() == x + element.width
    {
      Image(element, Point(x, position.y))
    }
  }

  /** A rectangle of the sprite-sheet descriptor (`x`, `y`, `w`, `h`). */
  datatype SheetRect = SheetRect(x: int, y: int, w: int, h: int)

  /** One named frame of a sprite sheet: where it sits in the bitmap and how it is offset in its cell. */
  datatype Cell = Cell(frame: SheetRect, spriteSourceSize: SheetRect)

  /** A sprite-sheet descriptor: frame name to cell. */
  type Sheet = map<string, Cell>

  // ---------------------------------------------------------------------------
  // Held-key snapshot
  // ---------------------------------------------------------------------------

  /** The set of key codes currently held down (the key-code to event map, without the event payload). */
  class KeyState {
    var pressedKeys: set<string>

    constructor ()
      ensures pressedKeys == {}
      ensures forall code :: !IsPressed(code)
    {
      pressedKeys := {};
    }

    predicate IsPressed(code: string)
      reads this
    {
      code in pressedKeys
    }

    method SetPressed(code: string)
      modifies this
      ensures pressedKeys == old(pressedKeys) + {code}
      ensures IsPressed(code)
      ensures forall other :: other != code ==> IsPressed(other) == old(IsPressed(other))
    {
      pressedKeys := pressedKeys + {code};
    }

    method SetReleased(code: string)
      modifies this
      ensures pressedKeys == old(pressedKeys) - {code}
      ensures !IsPressed(code)
      ensures forall other :: other != code ==> IsPressed(other) == old(IsPressed(other))
    {
      pressedKeys := pressedKeys - {code};
    }
  }

  /** A queued keyboard event, reduced to the key code it carries. */
  datatype KeyPress = KeyUp(code: string) | KeyDown(code: string)

  /** The effect of one queued event on the held-key set. */
  function Press(held: set<string>, press: KeyPress): (r: set<string>)
    ensures forall k :: k in r <==> if k == press.code then press.KeyDown? else k in held
  {
    match press
    case KeyUp(code) => held - {code}
    case KeyDown(code) => held + {code}
  }

  /** The held-key set after applying `presses` in arrival order. */
  function PressAll(held: set<string>, presses: seq<KeyPress>): (r: set<string>)
    ensures forall k :: k in r ==> k in held || KeyDown(k) in presses
    ensures forall k :: k in held && KeyUp(k) !in presses ==> k in r
  {
    if presses == [] then held
    else Press(PressAll(held, presses[..|presses| - 1]), presses[|presses| - 1])
  }

  /**
   * Independent reading of a batch for one key: `Some(true)` if its last event
   * in the batch is a key-down, `Some(false)` if a key-up, `None` if it has none.
   */
  function LastPress(presses: seq<KeyPress>, code: string): Option<bool> {
    if presses == [] then None
    else if presses[|presses| - 1].code == code then Some(presses[|presses| - 1].KeyDown?)
    else LastPress(presses[..|presses| - 1], code)
  }

  /** Each key ends in the state of its last event in the batch; keys with no event keep their state. */
  lemma {:induction false} PressAllLastWins(held: set<string>, presses: seq<KeyPress>, code: string)
    ensures code in PressAll(held, presses) <==>
            match LastPress(presses, code)
            case Some(down) => down
            case None => code in held
  {
    if presses != [] {
      PressAllLastWins(held, presses[..|presses| - 1], code);
    }
  }

  /** What one `try_next` on the event receiver yields. */
  datatype Received =
    | Message(press: KeyPress)   // Ok(Some(event))
    | Closed                     // Ok(None): the senders are gone
    | Empty                      // Err(_): nothing queued right now

  /** The receiving end of the key-event queue. */
  class KeyEventReceiver {
    var pending: seq<KeyPress>
    var closed: bool

    constructor (pending: seq<KeyPress>, closed: bool)
      ensures this.pending == pending && this.closed == closed
    {
      this.pending := pending;
      this.closed := closed;
    }

    /** Takes the oldest queued event if there is one; otherwise reports closed or empty. */
    method TryNext() returns (r: Received)
      modifies this
      ensures closed == old(closed)
      ensures old(pending) != [] ==> r == Message(old(pending)[0]) && pending == old(pending)[1..]
      ensures old(pending) == [] ==> r == (if closed then Closed else Empty) && pending == []
    {
      if pending != [] {
        r := Message(pending[0]);
        pending := pending[1..];
      } else if closed {
        r := Closed;
      } else {
        r := Empty;
      }
    }
  }

  /** Drains every queued event into the held-key snapshot, in arrival order. */
  method ProcessInput(state: KeyState, receiver: KeyEventReceiver)
    modifies state, receiver
    ensures receiver.pending == [] && receiver.closed == old(receiver.closed)
    ensures state.pressedKeys == PressAll(old(state.pressedKeys), old(receiver.pending))
  {
    ghost var done: seq<KeyPress> := [];
    while true
      invariant old(receiver.pending) == done + receiver.pending
      invariant receiver.closed == old(receiver.closed)
      invariant state.pressedKeys == PressAll(old(state.pressedKeys), done)
      decreases |receiver.pending|
    {
      var next := receiver.TryNext();
      match next {
        case Closed =>
          assert done + receiver.pending == done;
          break;
        case Empty =>
          assert done + receiver.pending == done;
          break;
        case Message(press) =>
          match press {
            case KeyUp(code) => state.SetReleased(code);
            case KeyDown(code) => state.SetPressed(code);
          }
          assert (done + [press])[..|done|] == done;
          done := done + [press];
      }
    }
  }
}
