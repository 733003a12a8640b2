/**
 * Obstacles: stones (barriers) and multi-box floating platforms, how they
 * scroll, how a collision with the character is resolved, and the two canned
 * segment layouts.
 */
module Segment {

  import opened Wrappers
  import opened Engine

  const STONE_ON_GROUND: int := 546
  const LOW_PLATFORM: int := 420
  const HIGH_PLATFORM: int := 375
  const INITIAL_STONE_OFFSET: int := 150
  const FIRST_PLATFORM: int := 370
  const INITIAL_PLATFORM_OFFSET: int := 150
  const FIRST_STONE: int := 370

  /** Width of the floating platform, cap to cap. */
  const PLATFORM_WIDTH: int := 384
  const FLOATING_PLATFORM_SPRITES: seq<string> := ["13.png", "14.png", "15.png"]
  /** Left cap, middle span and right cap, relative to the platform's position. */
  const FLOATING_PLATFORM_BOUNDING_BOXES: seq<Rect> := [
    Rect(Point(0, 0), 60, 54),
    Rect(Point(60, 0), PLATFORM_WIDTH - 60 * 2, 93),
    Rect(Point(PLATFORM_WIDTH - 60, 0), 60, 54)
  ]

  /** The two obstacle kinds. The platform's shared sheet handle is only used to draw and is left out. */
  datatype Obstacle =
    | Platform(position: Point, boundingBoxes: seq<Rect>, sprites: seq<Cell>)
    | Barrier(image: Image)
  {
    /** Rightmost x of the obstacle: the last box's right edge (the default box's if there is none), or the image's. */
    function Right(): (r: int)
      ensures Barrier? ==> r == image.position.x + image.element.width
      ensures Platform? && boundingBoxes == [] ==> r == 0
      ensures Platform? && boundingBoxes != [] ==>
        r == boundingBoxes[|boundingBoxes| - 1].X() + boundingBoxes[|boundingBoxes| - 1].width
    {
      match this
      case Platform(_, boxes, _) => if boxes == [] then DefaultRect.Right() else boxes[|boxes| - 1].Right()
      case Barrier(image) => image.Right()
    }

    /** The obstacle scrolled horizontally by `dx`. */
    function Moved(dx: int): (r: Obstacle)
      ensures r.Platform? == Platform?
      ensures Platform? ==>
        && r.position == Point(position.x + dx, position.y)
        && r.sprites == sprites
        && |r.boundingBoxes| == |boundingBoxes|
        && forall i :: 0 <= i < |boundingBoxes| ==>
             r.boundingBoxes[i] == boundingBoxes[i].SetX(boundingBoxes[i].X() + dx)
      ensures Barrier? ==> r.image == image.MoveHorizontally(dx)
    {
      match this
      case Platform(position, boxes, sprites) =>
        Platform(Point(position.x + dx, position.y),
                 seq(|boxes|, i requires 0 <= i < |boxes| => boxes[i].SetX(boxes[i].X() + dx)),
                 sprites)
      case Barrier(image) => Barrier(image.MoveHorizontally(dx))
    }

    /** Whether the obstacle's box(es) overlap `rect`. */
    predicate Overlaps(rect: Rect) {
      match this
      case Platform(_, boxes, _) => exists i :: 0 <= i < |boxes| && boxes[i].Intersects(rect)
      case Barrier(image) => rect.Intersects(image.BoundingBox())
    }
  }

  /** Scrolling moves the right edge by the same amount, except for a platform with no boxes, whose right edge is fixed at 0. */
  lemma MovedRight(o: Obstacle, dx: int)
    ensures o.Platform? && o.boundingBoxes == [] ==> o.Moved(dx).Right() == 0
    ensures !(o.Platform? && o.boundingBoxes == []) ==> o.Moved(dx).Right() == o.Right() + dx
  {
  }

  /** Scrolling back by the same amount restores the obstacle. */
  lemma MovedInverse(o: Obstacle, dx: int)
    ensures o.Moved(dx).Moved(-dx) == o
  {
    if o.Platform? {
      var back := o.Moved(dx).Moved(-dx);
      assert back.boundingBoxes == o.boundingBoxes;
    }
  }

  /** Scrolling by 0 leaves the obstacle as it was. */
  lemma MovedZero(o: Obstacle)
    ensures o.Moved(0) == o
  {
    if o.Platform? {
      assert o.Moved(0).boundingBoxes == o.boundingBoxes;
    }
  }

  /** `move_horizontally`: shifts the position and, one by one, every bounding box. */
  method MoveHorizontally(o: Obstacle, dx: int) returns (r: Obstacle)
    ensures r == o.Moved(dx)
  {
    match o {
      case Barrier(image) =>
        r := Barrier(image.MoveHorizontally(dx));
      case Platform(position, boxes, sprites) =>
        var moved := boxes;
        var i := 0;
        while i < |moved|
          invariant 0 <= i <= |moved| == |boxes|
          invariant forall j :: 0 <= j < i ==> moved[j] == boxes[j].SetX(boxes[j].X() + dx)
          invariant forall j :: i <= j < |moved| ==> moved[j] == boxes[j]
        {
          moved := moved[i := moved[i].SetX(moved[i].X() + dx)];
          i := i + 1;
        }
        r := Platform(Point(position.x + dx, position.y), moved, sprites);
        assert r.boundingBoxes == o.Moved(dx).boundingBoxes;
    }
  }

  /** The cells of the names found in the sheet, in order; names the sheet lacks are skipped. */
  function FoundCells(sheet: Sheet, names: seq<string>): (cells: seq<Cell>)
    ensures |cells| <= |names|
    ensures forall c :: c in cells ==> exists n :: n in names && n in sheet && sheet[n] == c
    ensures (forall n :: n in names ==> n in sheet) ==>
      |cells| == |names| && forall i :: 0 <= i < |names| ==> cells[i] == sheet[names[i]]
    ensures (forall n :: n in names ==> n !in sheet) ==> cells == []
    ensures |names| == 1 ==> cells == if names[0] in sheet then [sheet[names[0]]] else []
  {
    if names == [] then []
    else if names[0] in sheet then [sheet[names[0]]] + FoundCells(sheet, names[1..])
    else FoundCells(sheet, names[1..])
  }

  /** The lookup works name by name, so the cells of two name lists come out one after the other, in order. */
  lemma {:induction false} FoundCellsAppend(sheet: Sheet, a: seq<string>, b: seq<string>)
    ensures FoundCells(sheet, a + b) == FoundCells(sheet, a) + FoundCells(sheet, b)
    decreases |a|
  {
    if a == [] {
      assert a + b == b;
    } else {
      assert (a + b)[0] == a[0] && (a + b)[1..] == a[1..] + b;
      FoundCellsAppend(sheet, a[1..], b);
    }
  }

  /** `Platform::new`: the sprites found in the sheet, and the template boxes placed at `position`. */
  function NewPlatform(sheet: Sheet, position: Point, spriteNames: seq<string>, boundingBoxes: seq<Rect>): (p: Obstacle)
    ensures p.Platform? && p.position == position
    ensures p.sprites == FoundCells(sheet, spriteNames)
    ensures |p.boundingBoxes| == |boundingBoxes|
    ensures forall i :: 0 <= i < |boundingBoxes| ==>
      && p.boundingBoxes[i].X() == boundingBoxes[i].X() + position.x
      && p.boundingBoxes[i].Y() == boundingBoxes[i].Y() + position.y
      && p.boundingBoxes[i].width == boundingBoxes[i].width
      && p.boundingBoxes[i].height == boundingBoxes[i].height
  {
    Platform(position,
             seq(|boundingBoxes|, i requires 0 <= i < |boundingBoxes| =>
               Rect(Point(boundingBoxes[i].X() + position.x, boundingBoxes[i].Y() + position.y),
                    boundingBoxes[i].width, boundingBoxes[i].height)),
             FoundCells(sheet, spriteNames))
  }

  /** The first box, in list order, that overlaps `rect`. */
  function FirstOverlap(boxes: seq<Rect>, rect: Rect): (r: Option<Rect>)
    ensures r.None? <==> forall i :: 0 <= i < |boxes| ==> !boxes[i].Intersects(rect)
    ensures r.Some? ==> r.value in boxes && r.value.Intersects(rect)
  {
    if boxes == [] then None
    else if boxes[0].Intersects(rect) then Some(boxes[0])
    else
      var rest := FirstOverlap(boxes[1..], rect);
      assert forall i :: 1 <= i < |boxes| ==> boxes[i] == boxes[1..][i - 1];
      rest
  }

  /** `FirstOverlap` picks the earliest overlapping box, not merely some overlapping box. */
  lemma {:induction false} FirstOverlapIsFirst(boxes: seq<Rect>, rect: Rect, k: nat)
    requires k < |boxes| && boxes[k].Intersects(rect)
    requires forall j :: 0 <= j < k ==> !boxes[j].Intersects(rect)
    ensures FirstOverlap(boxes, rect) == Some(boxes[k])
    decreases k
  {
    if k > 0 {
      FirstOverlapIsFirst(boxes[1..], rect, k - 1);
    }
  }

  /** `Platform::intersects`: scans the boxes in order and returns the first that overlaps. */
  method Intersects(boxes: seq<Rect>, rect: Rect) returns (r: Option<Rect>)
    ensures r == FirstOverlap(boxes, rect)
  {
    var i := 0;
    while i < |boxes|
      invariant 0 <= i <= |boxes|
      invariant FirstOverlap(boxes, rect) == FirstOverlap(boxes[i..], rect)
    {
      if boxes[i].Intersects(rect) {
        return Some(boxes[i]);
      }
      assert boxes[i..][1..] == boxes[i + 1..];
      i := i + 1;
    }
    return None;
  }

  /** What a collision asks of the character (the two `Disturbee` calls). */
  datatype Disturbance = LandOn(height: int) | KnockOut

  /**
   * `check_intersection`, as the decision it takes: given the character's
   * bounding box, vertical speed and vertical position, either nothing, one
   * landing on the first overlapping box's top, or one knock-out.
   */
  function Contact(o: Obstacle, boyBox: Rect, velocityY: int, posY: int): (r: Option<Disturbance>)
    // nothing happens exactly when nothing overlaps
    ensures r.None? <==> !o.Overlaps(boyBox)
    // a stone never lands the character
    ensures o.Barrier? ==> r.None? || r.value.KnockOut?
    // a platform lands a descending character that is above it, on the first overlapping box
    ensures o.Platform? && o.Overlaps(boyBox) ==>
      (r.value.LandOn? <==> velocityY > 0 && posY < o.position.y)
    ensures r.Some? && r.value.LandOn? ==>
      o.Platform? && r.value.height == FirstOverlap(o.boundingBoxes, boyBox).value.Y()
  {
    match o
    case Platform(position, boxes, _) =>
      (match FirstOverlap(boxes, boyBox)
       case None => None
       case Some(box) =>
         if velocityY > 0 && posY < position.y then Some(LandOn(box.Y())) else Some(KnockOut))
    case Barrier(image) =>
      if boyBox.Intersects(image.BoundingBox()) then Some(KnockOut) else None
  }

  /** `create_floating_platform`: three contiguous boxes, 384 wide in all, tops level with the position. */
  function FloatingPlatform(sheet: Sheet, position: Point): (p: Obstacle)
    ensures p.Platform? && p.position == position
    ensures p.sprites == FoundCells(sheet, FLOATING_PLATFORM_SPRITES)
    ensures |p.boundingBoxes| == 3
    ensures p.boundingBoxes[0].X() == position.x
    ensures p.boundingBoxes[0].Right() == p.boundingBoxes[1].X()
    ensures p.boundingBoxes[1].Right() == p.boundingBoxes[2].X()
    ensures forall i :: 0 <= i < 3 ==> p.boundingBoxes[i].Y() == position.y
    ensures p.boundingBoxes[0].height == 54 && p.boundingBoxes[1].height == 93 && p.boundingBoxes[2].height == 54
    ensures p.boundingBoxes[0].width == 60 && p.boundingBoxes[1].width == 264 && p.boundingBoxes[2].width == 60
    ensures p.Right() == position.x + PLATFORM_WIDTH
  {
    NewPlatform(sheet, position, FLOATING_PLATFORM_SPRITES, FLOATING_PLATFORM_BOUNDING_BOXES)
  }

  /** A stone at `offsetX + 150` on the ground, then a low platform at `offsetX + 370`. */
  function StoneAndPlatform(stone: ImageElement, sheet: Sheet, offsetX: int): (r: seq<Obstacle>)
    ensures |r| == 2
    ensures r[0] == Barrier(Image(stone, Point(offsetX + INITIAL_STONE_OFFSET, STONE_ON_GROUND)))
    ensures r[1] == FloatingPlatform(sheet, Point(offsetX + FIRST_PLATFORM, LOW_PLATFORM))
    ensures r[0].Right() == offsetX + INITIAL_STONE_OFFSET + stone.width
    ensures r[1].Right() == offsetX + FIRST_PLATFORM + PLATFORM_WIDTH
  {
    [ Barrier(Image(stone, Point(offsetX + INITIAL_STONE_OFFSET, STONE_ON_GROUND))),
      FloatingPlatform(sheet, Point(offsetX + FIRST_PLATFORM, LOW_PLATFORM)) ]
  }

  /** A high platform at `offsetX + 150`, then a stone at `offsetX + 370` on the ground. */
  function PlatformAndStone(stone: ImageElement, sheet: Sheet, offsetX: int): (r: seq<Obstacle>)
    ensures |r| == 2
    ensures r[0] == FloatingPlatform(sheet, Point(offsetX + INITIAL_PLATFORM_OFFSET, HIGH_PLATFORM))
    ensures r[1] == Barrier(Image(stone, Point(offsetX + FIRST_STONE, STONE_ON_GROUND)))
    ensures r[0].Right() == offsetX + INITIAL_PLATFORM_OFFSET + PLATFORM_WIDTH
    ensures r[1].Right() == offsetX + FIRST_STONE + stone.width
  {
    [ FloatingPlatform(sheet, Point(offsetX + INITIAL_PLATFORM_OFFSET, HIGH_PLATFORM)),
      Barrier(Image(stone, Point(offsetX + FIRST_STONE, STONE_ON_GROUND))) ]
  }
}
