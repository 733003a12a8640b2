# walk-the-dog: the simulation core in Dafny

This project models the simulation core of *walk-the-dog*, a side-scrolling
runner written in Rust for the browser. The hero, the Red Hat Boy, runs over
scrolling backgrounds, slides, jumps, lands on floating platforms and is
knocked out by stones.

The model has six modules:

- `RedHatBoyStates` (`red_hat_boy_states.dfy`) is the character's state
  machine. It has six states that share one context (frame counter,
  position, velocity), the event table `transition`, the physics step
  `RedHatBoyContext::update`, and the per-state completion rules. Everything
  here is a value, so it is written as datatypes, functions and lemmas.
- `Segment` (`segment.dfy`) holds the obstacles: stones (`Barrier`) and
  three-box floating platforms (`Platform`). It covers how obstacles scroll,
  how `intersects` finds the first overlapping box, the land-or-knock-out
  decision of `check_intersection`, and the two segment templates.
- `Game` (`game.dfy`) holds the character object `RedHatBoy` and the running
  `Walk`:
  - The `RedHatBoy` class reassigns its state machine on each event.
  - The `Walk` class has the character, two backgrounds, the obstacle list
    and the timeline cursor. Its `Tick` is the body of `WalkTheDog::update`.
  - The character's half of a tick has a value-level specification,
    `CharacterStep`. The obstacles' half has two, `Collided` and `Advanced`.
    Each method of the class is proved against these.
- `Engine` (`engine.dfy`) holds the held-key snapshot `KeyState`, the event
  queue, and `process_input`, which drains the queue into the snapshot. It
  also declares the integer geometry (`Point`, `Rect`, `Image`) the game
  relies on.
- `Format` (`format.dfy`) prints a frame index in decimal for the sprite
  names.
- `Wrappers` (`wrappers.dfy`) provides `Option`.

The code's `Rect` and `Image` helpers are missing from the repository's
`src/engine.rs`, which holds an older `f32` `Rect` with no methods:

- `Rect::new_from_x_y`, `intersects`, `right`, `set_x` and `default`;
- `Image::bounding_box`, `right`, `move_horizontally` and `set_x`.

They are declared here as the usual integer axis-aligned box operations.
`intersects` is strict overlap on both axes, and `Rect::default()` is all
zeros. These definitions are assumptions, not transcriptions.

## Model

| member | source | states |
|---|---|---|
| RedHatBoyStates.Context.Update | src/game.rs:583-599 | vertical speed grows by gravity, clamped at the terminal speed 20; frame counts up to `frame_count`, then wraps to 0; height moves by the new speed, clamped at the floor 479; horizontal position and speed are kept |
| RedHatBoyStates.Context.SetOn | src/game.rs:622-628 | standing on a surface at `height` puts the position at `height - 121` with vertical speed 0; everything else is kept |
| RedHatBoyStates.Context.ResetFrame | src/game.rs:601-604 | the frame goes back to 0; position and velocity are kept |
| RedHatBoyStates.Context.RunRight | src/game.rs:606-609 | the horizontal speed grows by the running speed 4; everything else is kept |
| RedHatBoyStates.Context.SetVerticalVelocity | src/game.rs:611-615 | the vertical speed becomes y; everything else is kept |
| RedHatBoyStates.Context.Stop | src/game.rs:617-620 | the horizontal speed becomes 0; everything else is kept |
| RedHatBoyStates.Context.FixFrame | src/game.rs:630-633 | the frame becomes f; position and velocity are kept |
| RedHatBoyStates.AnimationName | src/game.rs:228-237 | each state has its own animation, except that falling and knocked out share "Dead"; the name identifies the state family exactly |
| RedHatBoyStates.SlidingUpdate | src/game.rs:469-484 | after the physics step, the slide becomes Running with frame 0 exactly when the counter reached 14; otherwise it stays Sliding with the stepped context |
| RedHatBoyStates.JumpingUpdate | src/game.rs:511-518 | the jump becomes Running exactly when the step reaches the floor; it then lands on the floor at frame 0 with vertical speed 0; horizontal motion is kept |
| RedHatBoyStates.JumpingLandOn | src/game.rs:520-525 | landing from a jump gives Running at frame 0, standing on the surface (y = height - 121) with vertical speed 0; x and horizontal speed are kept |
| RedHatBoyStates.FallingUpdate | src/game.rs:545-559 | the fall keeps the stepped context and becomes KnockedOut exactly when the counter reached 29 |
| RedHatBoyStates.KnockedOutUpdate | src/game.rs:567-574 | knocked out stays knocked out, with the physics step applied and the frame pinned to 28 |
| RedHatBoyStates.Transition | src/game.rs:206-226 | unlisted pairs return the state unchanged. Run from Idle, Slide and Jump from Running, and KnockOut while moving give the entry contexts. Land snaps onto the surface (a jump becomes Running at frame 0). Update keeps each state in its own family. KnockedOut is absorbing. Every transition keeps `Valid` |
| RedHatBoyStates.StartValid | src/game.rs:383-397 | the starting Idle state is valid, at frame 0, standing at (-20, 479) |
| RedHatBoyStates.ReplayValid | src/game.rs:206-226 | any run of events from a valid state ends in a valid state |
| RedHatBoyStates.ReplaySnoc | src/game.rs:709-731 | sending the held keys' events and then the update is one replay of the whole sequence |
| RedHatBoyStates.KnockedOutIsAbsorbing | src/game.rs:206-226 | once knocked out, every run of events ends knocked out |
| RedHatBoyStates.NoRevival | src/game.rs:206-226 | from falling or knocked out, every run of events ends falling or knocked out, with horizontal speed 0 |
| RedHatBoyStates.SlidingContinues | src/game.rs:469-477 | from frame f, a slide is still a slide at frame f + k after k updates while f + k < 14 |
| RedHatBoyStates.SlidingEnds | src/game.rs:469-484 | from frame f, the slide turns into Running at frame 0 on exactly the (14 - f)-th update |
| RedHatBoyStates.SlideLasts | src/game.rs:426-484 | a slide entered from Running is a slide for updates 1 to 13, and Running at frame 0 after the 14th |
| RedHatBoyStates.FallingContinues | src/game.rs:552-559 | from frame f, a fall is still a fall at frame f + k after k updates while f + k < 29 |
| RedHatBoyStates.FallingEnds | src/game.rs:552-559 | from frame f, the fall is knocked out, at frame 29, after exactly 29 - f updates |
| RedHatBoyStates.KnockedOutStaysDown | src/game.rs:567-574 | after one or more updates a knocked-out character is still knocked out, at frame 28 |
| RedHatBoyStates.RunningGravity | src/game.rs:421-424 | after n updates a runner is still running at the same horizontal speed and x. Its vertical speed has grown by n, up to 20. Its frame is (f + n) mod 24. A runner on the floor who is not moving up stays on the floor |
| RedHatBoyStates.RunFromStart | src/game.rs:399-424 | from the start, Run and then any number of updates gives a runner on the floor at horizontal speed 4, with vertical speed min(n, 20); a further Run changes nothing |
| Format.DecimalString | src/game.rs:93-97 | the printed index is a non-empty string of digits without a leading zero |
| Format.DecimalRoundTrip | src/game.rs:93-97 | reading the printed digits back gives the number |
| Format.DecimalStringInjective | src/game.rs:93-97 | two numbers print the same exactly when they are equal |
| Game.SpriteNameInjective | src/game.rs:92-98 | two sprite names of the five animations are equal exactly when the animation and the index are |
| Game.SpriteName | src/game.rs:92-98 | a sprite name is the animation, then " (", then digits that read back as the index, then ").png" |
| Game.FrameName | src/game.rs:92-98 | a valid state shows one of its animation's numbered sprites, from 1 to the animation's last index |
| Game.FrameNameInjective | src/game.rs:92-98 | two states show the same sprite exactly when they share the animation and the three-tick frame group |
| Game.FrameNameInSheet | src/game.rs:100-102 | with a complete sheet, the current sprite of a valid state is always found (the `expect` never fails) |
| Game.HitBox | src/game.rs:145-173 | the hit box is the drawn box (position plus the cell's source offset, at the cell's size) inset by 18 on the left, 10 on the right and 14 at the top |
| Game.RedHatBoy.constructor | src/game.rs:84-90 | a new character is the valid starting Idle state with its sheet |
| Game.RedHatBoy.BoundingBox | src/game.rs:162-173 | the bounding box of a valid character is the hit box of its current sprite, which is in the sheet |
| Game.RedHatBoy.WalkingSpeed | src/game.rs:156-158 | a valid character walks at 4 while running, sliding or jumping, and at 0 otherwise |
| Game.RedHatBoy.VelocityY | src/game.rs:175-177 | a valid character's vertical speed lies between the jump speed -25 and the terminal speed 20 |
| Game.RedHatBoy.Update | src/game.rs:121-123 | the state becomes its Update transition and stays valid |
| Game.RedHatBoy.RunRight | src/game.rs:125-127 | the state becomes its Run transition and stays valid |
| Game.RedHatBoy.Slide | src/game.rs:129-131 | the state becomes its Slide transition and stays valid |
| Game.RedHatBoy.Jump | src/game.rs:133-135 | the state becomes its Jump transition and stays valid |
| Game.RedHatBoy.LandOn | src/game.rs:183-188 | `land_on` is the Land transition and keeps the state valid |
| Game.RedHatBoy.KnockOut | src/game.rs:190-192 | `knock_out` is the KnockOut transition and keeps the state valid |
| Game.AfterContact | src/segment.rs:109-145 | one obstacle's check keeps the character valid and changes nothing without an overlap. A stone that overlaps knocks the character out. A platform that overlaps lands a descending character above it on the first overlapping box's top, and otherwise knocks it out |
| Game.CollideAll | src/game.rs:749-753 | checking the obstacles in list order keeps the character valid |
| Game.CollisionsKeepKnockedOut | src/game.rs:749-753 | no sequence of obstacle checks revives a knocked-out character |
| Game.CheckIntersection | src/segment.rs:109-145 | against the character object, `check_intersection` makes at most one `land_on` or `knock_out` call, as the contact decision says |
| Game.Rightmost | src/game.rs:778-784 | 0 for no obstacles; otherwise at least every right edge and equal to one of them, so it is the maximum |
| Game.NextSegmentLayout | src/game.rs:38-50 | choice 0 gives a stone then a low platform; choice 1 gives a high platform then a stone; any other choice gives nothing |
| Game.Retain | src/game.rs:747 | the kept obstacles all have right edge > 0, and each obstacle occurs as often as before if its right edge is > 0 and not at all otherwise; a single obstacle is kept exactly when its right edge is > 0 |
| Game.RetainAppend | src/game.rs:747 | culling works obstacle by obstacle: the survivors of a list are the survivors of its first part followed by those of its second, so order is kept |
| Game.Scrolled | src/game.rs:750-751 | every obstacle moved by the same amount, one for one |
| Game.StoppedWorld | src/game.rs:733-753 | when the character is idle, falling or knocked out, scrolling moves no obstacle |
| Game.SegmentTimeline | src/game.rs:34-54 | a generated segment has two obstacles; its rightmost edge is the farther of the two, and at least 534 past the insertion point |
| Game.ScrollKeepsBackgroundsAdjacent | src/game.rs:735-745 | two equally wide side-by-side backgrounds stay side by side after a scroll and wrap |
| Game.ScrollBackgrounds | src/game.rs:735-745 | each background moves by dx, keeping its image and height; one whose right edge has gone below 0 is placed right after the other instead |
| Game.HeldKeyEvents | src/game.rs:709-729 | ArrowDown sends Slide, ArrowRight sends Run and Space sends Jump, each once exactly when its key is held and nothing else is sent; they come in that order (slide before run before jump) |
| Game.CharacterStep | src/game.rs:706-745 | the character's half of a tick keeps the character valid, keeps the backgrounds side by side, and leaves obstacles and timeline alone |
| Game.CharacterStepKeepsKnockedOut | src/game.rs:706-733 | no held key revives a knocked-out character; it stays down, at horizontal speed 0 |
| Game.Collided | src/game.rs:747-753 | culling, scrolling and checking keep the character valid and leave backgrounds and timeline alone |
| Game.CollidedAtRest | src/game.rs:747-753 | against a knocked-out character the obstacles' half only culls: it moves nothing and the character stays down |
| Game.Advanced | src/game.rs:755-759 | existing obstacles are kept. At or past 1000 the timeline moves by the velocity and nothing is added. Below 1000 a chosen segment adds two obstacles and puts the timeline at least 554 further on |
| Game.Walk.constructor | src/game.rs:680-700 | the loaded walk starts with side-by-side backgrounds from x = 0, one stone-and-platform segment at offset 0, and the timeline at its right edge; the walk is valid (character valid, backgrounds side by side) |
| Game.Walk.Velocity | src/game.rs:30-32 | the world scrolls at -4 while the character runs, slides or jumps, and stands still otherwise |
| Game.Walk.ScrollAndCollide | src/game.rs:749-753 | the loop moves every obstacle and checks it against the character in list order, as `Scrolled` and `CollideAll` say |
| Game.Walk.Tick | src/game.rs:706-760 | one tick is the character's half (`CharacterStep`), then the obstacles' half (`Collided`, `Advanced`) at the character's new horizontal speed; the walk stays valid |
| Game.Walk.MoveCharacter | src/game.rs:709-745 | steering, the boy's update and the background scroll produce `CharacterStep` |
| Game.Walk.MoveObstacles | src/game.rs:747-759 | culling, scrolling, checking and the timeline produce `Advanced` after `Collided` |
| Game.Walk.CullAndCollide | src/game.rs:747-753 | `retain` and the `iter_mut` loop produce `Collided` |
| Game.Walk.ScrollBackdrop | src/game.rs:735-745 | the backgrounds become `ScrollBackgrounds` of the old ones; nothing else changes |
| Game.Walk.AdvanceTimeline | src/game.rs:755-759 | the timeline branch produces `Advanced` |
| Game.Walk.Steer | src/game.rs:709-729 | the held keys send their events to the character in order: the state is the replay of `HeldKeyEvents` |
| Game.Walk.GenerateNextSegment | src/game.rs:34-54 | the chosen layout, built at timeline + 20, is appended after the existing obstacles, and the timeline becomes its rightmost edge |
| Game.Update | src/game.rs:706-761 | while loading nothing may change; once loaded the walk ticks as `Walk.Tick` states and stays valid |
| Segment.Obstacle.Moved | src/segment.rs:102-107 | a platform's position and every box move by dx, with box count, y, size and sprites kept; a stone's image moves by dx |
| Segment.Obstacle.Right | src/segment.rs:119-157 | a platform's right edge is that of its last box (0, the default box's, if it has none); a stone's is its image's x plus width |
| Segment.MovedRight | src/segment.rs:119-124 | scrolling moves the right edge by dx, except for a platform without boxes, whose right edge is the default 0 |
| Segment.MovedInverse | src/segment.rs:102-107 | scrolling back by the same amount restores the obstacle |
| Segment.MovedZero | src/segment.rs:102-107 | scrolling by 0 changes nothing |
| Segment.MoveHorizontally | src/segment.rs:102-107 | the in-place loop over the boxes produces `Moved` |
| Segment.FoundCells | src/segment.rs:35-38 | the cells of the names found in the sheet. If all are found there is one per name, in order; if none is found the list is empty; a single name gives its cell if found and nothing otherwise |
| Segment.FoundCellsAppend | src/segment.rs:35-38 | the lookup goes name by name: the cells of two name lists are those of the first followed by those of the second, so order is kept and missing names are skipped |
| Segment.NewPlatform | src/segment.rs:29-58 | a platform at the position, with the found sprites and each template box shifted by the position, size kept |
| Segment.FirstOverlap | src/segment.rs:64-72 | None exactly when no box overlaps; otherwise an overlapping box of the list |
| Segment.FirstOverlapIsFirst | src/segment.rs:64-72 | the box found is the earliest overlapping one |
| Segment.Intersects | src/segment.rs:64-72 | the early-return loop returns `FirstOverlap` |
| Segment.Contact | src/segment.rs:109-145 | nothing happens exactly when nothing overlaps. An overlapping platform lands the character exactly when it is descending and above the platform, on the first overlapping box's top; otherwise it knocks the character out. A stone knocks the character out exactly when their boxes overlap, and never lands it |
| Segment.FloatingPlatform | src/segment.rs:214-227 | three contiguous boxes from the position, widths 60, 264 and 60, heights 54, 93 and 54, all tops level with the position; right edge at position + 384 |
| Segment.StoneAndPlatform | src/segment.rs:164-187 | a stone at (offset + 150, 546), then a low platform at (offset + 370, 420) |
| Segment.PlatformAndStone | src/segment.rs:189-212 | a high platform at (offset + 150, 375), then a stone at (offset + 370, 546) |
| Engine.Rect.SetX | src/segment.rs:104-106 | only the x coordinate changes |
| Engine.Image.MoveHorizontally | src/game.rs:736-737 | the image moves by dx, and its right edge with it |
| Engine.Image.SetX | src/game.rs:739-745 | the image is placed at x, keeping its y, so its right edge is x + width |
| Engine.KeyState.constructor | src/engine.rs:188-192 | a fresh snapshot reports no key as pressed |
| Engine.KeyState.SetPressed | src/engine.rs:198-200 | the key is pressed afterwards, every other key is as before, and a held key stays held |
| Engine.KeyState.SetReleased | src/engine.rs:202-204 | the key is released afterwards, every other key is as before, and releasing a free key changes nothing |
| Engine.Press | src/engine.rs:212-215 | one event sets its own key to down or up and leaves every other key as it was |
| Engine.PressAll | src/engine.rs:207-218 | after a batch, a held key was held before or pressed in the batch, and a key held before with no key-up in the batch is still held |
| Engine.KeyEventReceiver.TryNext | src/engine.rs:209-212 | the oldest queued event if there is one; otherwise closed or empty, as the queue is |
| Engine.ProcessInput | src/engine.rs:207-218 | the loop consumes the whole queue and applies the events to the snapshot in arrival order |
| Engine.PressAllLastWins | src/engine.rs:207-218 | after a batch, each key is held exactly when its last event was a key-down; keys with no event keep their state |

## Left out

- `i16` arithmetic is not modelled. Coordinates, speeds and the timeline are unbounded integers, so wrap-around on overflow is not captured.
- The frame counter is a `nat`, not a `u8`. It never exceeds 35 in a valid state, so this changes nothing reachable.
- `play_jump_sound`, the audio handles in the context, and every `log!` call are side effects with no effect on the simulation, and are left out.
- `draw`, `Renderer`, `destination_box` as a drawing rectangle, and `log_context` are canvas and console output.
- `GameLoop::start`, `load_image`, `prepare_input` and the channel plumbing are host callbacks, floating-point timing and async I/O.
  - `Engine.KeyEventReceiver` stands in for the receiving end of the channel.
  - The `KeyboardEvent` payload stored in the key map is dropped; only the key code matters.
- `WalkTheDog::initialize` is asset fetching and JSON parsing. Only its construction of the loaded walk is modelled, as `Game.Walk.constructor`. Its "already initialized" error arm is not modelled.
- `thread_rng().gen_range(0..2)` is the caller-supplied `choice` parameter. The unreachable `_ => vec![]` arm is kept for other values.
- The sprite sheets are maps from frame name to cell. The platform's shared sheet handle is only used for drawing and is dropped.
- The source `expect`s (panics) when the current sprite is missing from the character's sheet. The model requires instead that the sheet be complete (`Game.SheetComplete`): it names every sprite a valid state can show.
- The local `velocity` point in `update` (src/game.rs:708-729) is never used, because it is shadowed at line 733. So ArrowUp and ArrowLeft have no effect and are not modelled.
- `src/lib.rs` is browser glue and an older drawing demo, and is not part of this model.
- Game.CharacterStep, Game.Collided: their contracts state validity, the backgrounds staying side by side, and what each half leaves alone. What each half computes is the function itself. The methods of `Walk` are proved equal to these functions, and the lemmas beside them (`SlideLasts`, `CollisionsKeepKnockedOut`, `StoppedWorld` and others) state what they mean.
